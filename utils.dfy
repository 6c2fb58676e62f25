/**
 * The account and balance records of the charging core, their API-facing
 * counterparts, and the operations the utils test pins down: Clone,
 * TenantID, the API-to-internal conversions and the weight sort.
 */
module Utils {
  import opened Wrappers
  import opened Decimals

  /** Balance type tags. */
  const MetaConcrete := "*concrete"
  const MetaAbstract := "*abstract"

  /**
   * A value of an `Opts` map. The source stores arbitrary values
   * (`interface{}`); the model keeps the plain kinds it needs.
   */
  datatype OptValue = IntOpt(i: int) | RealOpt(x: real) | StringOpt(s: string) | BoolOpt(b: bool)

  type Opts = map<string, OptValue>

  /** A float64 field of the API records, modelled as the exact decimal it denotes. */
  type Float64 = Decimal

  /** A decimal pointer that may be nil. */
  type DecimalRef = Option<Decimal>

  /** Converts an API float into a decimal of the same value. */
  function NewDecimalFromFloat64(f: Float64): (d: Decimal)
    ensures Eq(d, f)
  {
    f
  }

  datatype CostIncrement = CostIncrement(
    filterIDs: seq<string>,
    increment: DecimalRef,
    fixedFee: DecimalRef,
    recurrentFee: DecimalRef)
  {
    function Clone(): (c: CostIncrement)
      ensures c == this
    {
      CostIncrement(filterIDs, increment, fixedFee, recurrentFee)
    }
  }

  datatype UnitFactor = UnitFactor(filterIDs: seq<string>, factor: DecimalRef)
  {
    function Clone(): (c: UnitFactor)
      ensures c == this
    {
      UnitFactor(filterIDs, factor)
    }
  }

  /** Weight is the float64 debit priority, kept as an exact ordered key. */
  datatype Balance = Balance(
    id: string,
    filterIDs: seq<string>,
    weight: real,
    blocker: bool,
    typ: string,
    opts: Opts,
    costIncrements: seq<CostIncrement>,
    attributeIDs: seq<string>,
    rateProfileIDs: seq<string>,
    unitFactors: seq<UnitFactor>,
    units: DecimalRef)
  {
    /** A deep copy: every nested list and map is rebuilt element by element. */
    function Clone(): (c: Balance)
      ensures c == this
    {
      Balance(id, CloneStrings(filterIDs), weight, blocker, typ, CloneOpts(opts),
        seq(|costIncrements|, i requires 0 <= i < |costIncrements| => costIncrements[i].Clone()),
        CloneStrings(attributeIDs), CloneStrings(rateProfileIDs),
        seq(|unitFactors|, i requires 0 <= i < |unitFactors| => unitFactors[i].Clone()),
        units)
    }
  }

  function CloneStrings(s: seq<string>): (c: seq<string>)
    ensures c == s
  {
    seq(|s|, i requires 0 <= i < |s| => s[i])
  }

  function CloneOpts(o: Opts): (c: Opts)
    ensures c == o
  {
    map k | k in o :: o[k]
  }

  /** Activation and expiry instants, as abstract timestamps. */
  datatype ActivationInterval = ActivationInterval(activationTime: int, expiryTime: int)
  {
    function Clone(): (c: ActivationInterval)
      ensures c == this
    {
      ActivationInterval(activationTime, expiryTime)
    }
  }

  datatype AccountProfile = AccountProfile(
    tenant: string,
    id: string,
    filterIDs: seq<string>,
    activationInterval: Option<ActivationInterval>,
    weight: real,
    opts: Opts,
    balances: map<string, Balance>,
    thresholdIDs: seq<string>)
  {
    function Clone(): (c: AccountProfile)
      ensures c == this
    {
      AccountProfile(tenant, id, CloneStrings(filterIDs),
        match activationInterval
        case None => None
        case Some(ai) => Some(ai.Clone()),
        weight, CloneOpts(opts),
        map k | k in balances :: balances[k].Clone(),
        CloneStrings(thresholdIDs))
    }

    /** The profile's identity, `Tenant:ID`. */
    function TenantID(): (key: string)
      ensures |key| == |tenant| + 1 + |id|
      ensures key[..|tenant|] == tenant && key[|tenant|] == ':' && key[|tenant| + 1..] == id
    {
      var key := tenant + ":" + id;
      assert key[|tenant| + 1..] == id;
      key
    }
  }

  /** The ID under which every balance of the map is stored is its own ID. */
  predicate BalancesKeyedByID(balances: map<string, Balance>) {
    forall k :: k in balances ==> balances[k].id == k
  }

  /** Splits a `Tenant:ID` key at its first colon. */
  function SplitTenantID(s: string): (r: (string, string))
    ensures ':' !in r.0
    ensures ':' in s ==> s == r.0 + ":" + r.1
    ensures ':' !in s ==> r == (s, "")
  {
    if s == [] then ("", "")
    else if s[0] == ':' then ("", s[1..])
    else
      var rest := SplitTenantID(s[1..]);
      assert s == [s[0]] + s[1..];
      ([s[0]] + rest.0, rest.1)
  }

  /** A tenant without a colon is recovered, with the ID, from the key. */
  lemma {:induction false} TenantIDSplitsBack(p: AccountProfile)
    requires ':' !in p.tenant
    ensures SplitTenantID(p.TenantID()) == (p.tenant, p.id)
  {
    SplitPrefix(p.tenant, p.id);
  }

  lemma {:induction false} SplitPrefix(tenant: string, id: string)
    requires ':' !in tenant
    ensures SplitTenantID(tenant + ":" + id) == (tenant, id)
  {
    var key := tenant + ":" + id;
    if tenant == [] {
      assert key == ":" + id;
    } else {
      assert key[0] == tenant[0] != ':';
      assert key[1..] == tenant[1..] + ":" + id;
      SplitPrefix(tenant[1..], id);
      assert [tenant[0]] + tenant[1..] == tenant;
    }
  }

  lemma TenantIDExample()
    ensures AccountProfile("cgrates.org", "test_ID1", [], None, 0.0, map[], map[], []).TenantID()
         == "cgrates.org:test_ID1"
  {
  }

  // ---------------------------------------------------------------------
  // API-facing records and their conversion
  // ---------------------------------------------------------------------

  datatype APICostIncrement = APICostIncrement(
    filterIDs: seq<string>,
    increment: Option<Float64>,
    fixedFee: Option<Float64>,
    recurrentFee: Option<Float64>)

  datatype APIUnitFactor = APIUnitFactor(filterIDs: seq<string>, factor: Float64)

  datatype APIBalance = APIBalance(
    id: string,
    filterIDs: seq<string>,
    weight: real,
    blocker: bool,
    typ: string,
    opts: Opts,
    costIncrements: seq<APICostIncrement>,
    attributeIDs: seq<string>,
    rateProfileIDs: seq<string>,
    unitFactors: seq<APIUnitFactor>,
    units: Float64)

  datatype APIAccountProfile = APIAccountProfile(
    tenant: string,
    id: string,
    filterIDs: seq<string>,
    activationInterval: Option<ActivationInterval>,
    weight: real,
    opts: Opts,
    balances: map<string, APIBalance>,
    thresholdIDs: seq<string>)

  /** A nil API float stays a nil decimal; a present one keeps its value. */
  function OptionalDecimal(f: Option<Float64>): (d: DecimalRef)
    ensures d.Some? <==> f.Some?
    ensures d.Some? ==> Eq(d.value, f.value)
  {
    match f
    case None => None
    case Some(v) => Some(NewDecimalFromFloat64(v))
  }

  function AsCostIncrement(c: APICostIncrement): (r: CostIncrement)
    ensures r.filterIDs == c.filterIDs
    ensures DecimalMatches(r.increment, c.increment) && DecimalMatches(r.fixedFee, c.fixedFee)
    ensures DecimalMatches(r.recurrentFee, c.recurrentFee)
  {
    CostIncrement(c.filterIDs, OptionalDecimal(c.increment), OptionalDecimal(c.fixedFee),
      OptionalDecimal(c.recurrentFee))
  }

  function AsUnitFactor(u: APIUnitFactor): (r: UnitFactor)
    ensures r.filterIDs == u.filterIDs && r.factor.Some? && Eq(r.factor.value, u.factor)
  {
    UnitFactor(u.filterIDs, Some(NewDecimalFromFloat64(u.factor)))
  }

  /**
   * `APIBalance.AsBalance`: every field is carried over, the numeric ones as
   * decimals of equal value; Units is always set, so an API Units of 0
   * (also the value of an absent field) becomes the decimal 0.
   */
  function AsBalance(b: APIBalance): (r: Balance)
    ensures r.id == b.id && r.filterIDs == b.filterIDs && r.weight == b.weight
    ensures r.blocker == b.blocker && r.typ == b.typ && r.opts == b.opts
    ensures r.attributeIDs == b.attributeIDs && r.rateProfileIDs == b.rateProfileIDs
    ensures |r.costIncrements| == |b.costIncrements|
    ensures forall i :: 0 <= i < |r.costIncrements| ==>
      DecimalMatches(r.costIncrements[i].increment, b.costIncrements[i].increment) &&
      DecimalMatches(r.costIncrements[i].fixedFee, b.costIncrements[i].fixedFee) &&
      DecimalMatches(r.costIncrements[i].recurrentFee, b.costIncrements[i].recurrentFee) &&
      r.costIncrements[i].filterIDs == b.costIncrements[i].filterIDs
    ensures |r.unitFactors| == |b.unitFactors|
    ensures forall i :: 0 <= i < |r.unitFactors| ==>
      r.unitFactors[i].factor.Some? && Eq(r.unitFactors[i].factor.value, b.unitFactors[i].factor) &&
      r.unitFactors[i].filterIDs == b.unitFactors[i].filterIDs
    ensures r.units.Some? && Eq(r.units.value, b.units)
  {
    Balance(b.id, b.filterIDs, b.weight, b.blocker, b.typ, b.opts,
      seq(|b.costIncrements|, i requires 0 <= i < |b.costIncrements| => AsCostIncrement(b.costIncrements[i])),
      b.attributeIDs, b.rateProfileIDs,
      seq(|b.unitFactors|, i requires 0 <= i < |b.unitFactors| => AsUnitFactor(b.unitFactors[i])),
      Some(NewDecimalFromFloat64(b.units)))
  }

  /** A converted decimal pointer is nil exactly when the API one is, and equal in value otherwise. */
  predicate DecimalMatches(d: DecimalRef, f: Option<Float64>) {
    d.Some? == f.Some? && (d.Some? ==> Eq(d.value, f.value))
  }

  /**
   * `APIAccountProfile.AsAccountProfile`: the profile fields are carried over
   * and each balance is converted under its own key.
   */
  function AsAccountProfile(p: APIAccountProfile): (r: AccountProfile)
    ensures r.tenant == p.tenant && r.id == p.id && r.filterIDs == p.filterIDs
    ensures r.activationInterval == p.activationInterval && r.weight == p.weight
    ensures r.opts == p.opts && r.thresholdIDs == p.thresholdIDs
    ensures r.balances.Keys == p.balances.Keys
    ensures forall k :: k in r.balances ==> r.balances[k] == AsBalance(p.balances[k])
  {
    AccountProfile(p.tenant, p.id, p.filterIDs, p.activationInterval, p.weight, p.opts,
      map k | k in p.balances :: AsBalance(p.balances[k]),
      p.thresholdIDs)
  }

  /** Converting a profile keeps every balance under the key of its own ID when the API map does. */
  lemma AsAccountProfileKeepsKeys(p: APIAccountProfile)
    requires forall k :: k in p.balances ==> p.balances[k].id == k
    ensures BalancesKeyedByID(AsAccountProfile(p).balances)
  {
  }

  /** The conversion of the API balance test: numbers become equal decimals, Units defaults to 0. */
  lemma AsBalanceExample()
    ensures var fltr := ["*string:~*req.Account:1001"];
      AsBalance(APIBalance("VoiceBalance", [], 10.0, false, "", map[],
        [APICostIncrement(fltr, Some(FromInt(1)), Some(FromInt(10)), Some(FromInt(35)))], [], [],
        [APIUnitFactor(fltr, FromInt(20))], FromInt(0)))
      == Balance("VoiceBalance", [], 10.0, false, "", map[],
        [CostIncrement(fltr, Some(Decimal(1, 0)), Some(Decimal(10, 0)), Some(Decimal(35, 0)))], [], [],
        [UnitFactor(fltr, Some(Decimal(20, 0)))], Some(Decimal(0, 0)))
  {
  }

  /** The conversion of the API account-profile test: an abstract balance with Units 0. */
  lemma AsAccountProfileExample()
    ensures var fltr := ["*string:~*req.Account:1001"];
      var opts := map["Destination" := IntOpt(10)];
      AsAccountProfile(APIAccountProfile("cgrates.org", "test_ID1", [], None, 10.0, map[],
        map["VoiceBalance" := APIBalance("VoiceBalance", fltr, 1.1, true, MetaAbstract, opts,
          [], [], [], [], FromInt(0))], []))
      == AccountProfile("cgrates.org", "test_ID1", [], None, 10.0, map[],
        map["VoiceBalance" := Balance("VoiceBalance", fltr, 1.1, true, MetaAbstract, opts,
          [], [], [], [], Some(Decimal(0, 0)))], [])
  {
  }

  // ---------------------------------------------------------------------
  // Sorting by weight (Balances.Sort, AccountProfiles.Sort)
  // ---------------------------------------------------------------------

  /** Higher weight first. */
  predicate SortedByWeight<T>(s: seq<T>, weight: T -> real) {
    forall i, j :: 0 <= i < j < |s| ==> weight(s[i]) >= weight(s[j])
  }

  function InsertByWeight<T(==)>(x: T, s: seq<T>, weight: T -> real): (r: seq<T>)
    requires SortedByWeight(s, weight)
    ensures SortedByWeight(r, weight) && multiset(r) == multiset(s) + multiset{x}
    ensures |r| == |s| + 1 && (r[0] == x || (s != [] && r[0] == s[0]))
  {
    if s == [] || weight(s[0]) < weight(x) then [x] + s
    else
      var rest := InsertByWeight(x, s[1..], weight);
      assert s == [s[0]] + s[1..];
      assert weight(rest[0]) <= weight(s[0]);
      [s[0]] + rest
  }

  /**
   * A weight-descending permutation of s. The repository's comparator is not
   * part of this model: only the order and the permutation are promised, not
   * the placement of equal weights.
   */
  function SortByWeight<T(==)>(s: seq<T>, weight: T -> real): (r: seq<T>)
    ensures SortedByWeight(r, weight) && multiset(r) == multiset(s)
  {
    if s == [] then []
    else
      assert s == [s[0]] + s[1..];
      InsertByWeight(s[0], SortByWeight(s[1..], weight), weight)
  }

  function BalanceWeight(b: Balance): real {
    b.weight
  }

  function ProfileWeight(p: AccountProfile): real {
    p.weight
  }

  /** A permutation of a list of at most one element is that list. */
  lemma SmallPermutation<T>(s: seq<T>, r: seq<T>)
    requires |s| <= 1 && multiset(r) == multiset(s)
    ensures r == s
  {
    assert |r| == |multiset(r)| == |multiset(s)| == |s|;
    if |s| == 1 {
      assert r[0] in multiset(s);
    }
  }

  /** `Balances.Sort`: the balances by descending weight; a one-element list is left as it is. */
  function SortBalances(bs: seq<Balance>): (r: seq<Balance>)
    ensures SortedByWeight(r, BalanceWeight) && multiset(r) == multiset(bs)
    ensures |bs| <= 1 ==> r == bs
  {
    var r := SortByWeight(bs, BalanceWeight);
    if |bs| <= 1 then SmallPermutation(bs, r); r else r
  }

  /** `AccountProfiles.Sort`: the profiles by descending weight; a one-element list is left as it is. */
  function SortAccountProfiles(ps: seq<AccountProfile>): (r: seq<AccountProfile>)
    ensures SortedByWeight(r, ProfileWeight) && multiset(r) == multiset(ps)
    ensures |ps| <= 1 ==> r == ps
  {
    var r := SortByWeight(ps, ProfileWeight);
    if |ps| <= 1 then SmallPermutation(ps, r); r else r
  }
}
