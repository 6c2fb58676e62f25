/**
 * The account-balance container of the charging core: increment rounding,
 * the balance-operator factory and the construction of `AccountBalances`
 * from an account profile (accounts/libaccounts.go).
 */
module Accounts {
  import opened Wrappers
  import opened Decimals
  import opened Utils

  // ---------------------------------------------------------------------
  // Increment rounding (roundedUsageWithIncrements)
  // ---------------------------------------------------------------------

  /**
   * The number of whole increments in `usage`: usage / incrm computed exactly
   * and rounded toward zero (the `Quo` under `decimal.ToZero`, then
   * `RoundToInt`). Both operands are brought to the common scale
   * usage.scale + incrm.scale before dividing.
   */
  function IncrementsIn(usage: Decimal, incrm: Decimal): (k: int)
    requires incrm.coef != 0
    ensures var n, d := AlignedUsage(usage, incrm), AlignedIncrement(usage, incrm); var p := k * d;
      IntAbs(p) <= IntAbs(n) && IntAbs(n - p) < IntAbs(d) && (p == 0 || (p < 0) == (n < 0))
  {
    var n, d := AlignedUsage(usage, incrm), AlignedIncrement(usage, incrm);
    TruncDivIsTruncation(n, d);
    TruncDiv(n, d)
  }

  /**
   * `roundedUsageWithIncrements`: the usage rounded down, toward zero, to a
   * whole number of increments. A zero increment makes the library quotient
   * infinite or NaN, which has no finite decimal value: the model answers None.
   */
  function RoundedUsageWithIncrements(usage: Decimal, incrm: Decimal): (rndedUsage: Option<Decimal>)
    ensures rndedUsage.None? <==> incrm.coef == 0
    ensures rndedUsage.Some? ==> rndedUsage.value.scale == incrm.scale
  {
    if incrm.coef == 0 then None
    else Some(Mul(FromInt(IncrementsIn(usage, incrm)), incrm))
  }

  /** The aligned coefficient of the usage: its value at scale usage.scale + incrm.scale. */
  function AlignedUsage(usage: Decimal, incrm: Decimal): int {
    usage.coef * Pow10(incrm.scale)
  }

  /** The aligned coefficient of the increment, at the same scale; nonzero with the increment. */
  function AlignedIncrement(usage: Decimal, incrm: Decimal): (d: int)
    ensures incrm.coef != 0 ==> d != 0
  {
    if incrm.coef != 0 then MulNonzero(incrm.coef, Pow10(usage.scale)); incrm.coef * Pow10(usage.scale)
    else 0
  }

  /**
   * The three decimal-level conditions on a multiple k·incrm of the increment
   * are the integer conditions of truncated division on the aligned
   * coefficients.
   */
  lemma AlignedConditions(usage: Decimal, incrm: Decimal, k: int)
    requires incrm.coef != 0
    ensures var n, d, m := AlignedUsage(usage, incrm), AlignedIncrement(usage, incrm), Mul(FromInt(k), incrm);
      (Le(Abs(m), Abs(usage)) <==> IntAbs(k * d) <= IntAbs(n)) &&
      (Lt(Abs(Sub(usage, m)), Abs(incrm)) <==> IntAbs(n - k * d) < IntAbs(d)) &&
      (SameSignOrZero(m, usage) <==> (k * d == 0 || (k * d < 0) == (n < 0)))
  {
    var p := (k * incrm.coef) * Pow10(usage.scale);
    MulAssoc(k, incrm.coef, Pow10(usage.scale));
    AlignedMagnitude(usage, incrm, k, p);
    AlignedRemainder(usage, incrm, k, p);
    AlignedSign(usage, incrm, k, p);
  }

  lemma AlignedSign(usage: Decimal, incrm: Decimal, k: int, p: int)
    requires p == (k * incrm.coef) * Pow10(usage.scale)
    ensures SameSignOrZero(Mul(FromInt(k), incrm), usage)
        <==> (p == 0 || (p < 0) == (AlignedUsage(usage, incrm) < 0))
  {
    ScaleBy(k * incrm.coef, 0, Pow10(usage.scale));
    ScaleBy(usage.coef, 0, Pow10(incrm.scale));
  }

  lemma AlignedMagnitude(usage: Decimal, incrm: Decimal, k: int, p: int)
    requires p == (k * incrm.coef) * Pow10(usage.scale)
    ensures Le(Abs(Mul(FromInt(k), incrm)), Abs(usage)) <==> IntAbs(p) <= IntAbs(AlignedUsage(usage, incrm))
  {
    ScaleBy(k * incrm.coef, 0, Pow10(usage.scale));
    ScaleBy(usage.coef, 0, Pow10(incrm.scale));
  }

  lemma AlignedRemainder(usage: Decimal, incrm: Decimal, k: int, p: int)
    requires incrm.coef != 0
    requires p == (k * incrm.coef) * Pow10(usage.scale)
    ensures Lt(Abs(Sub(usage, Mul(FromInt(k), incrm))), Abs(incrm))
        <==> IntAbs(AlignedUsage(usage, incrm) - p) < IntAbs(AlignedIncrement(usage, incrm))
  {
    var s, t := usage.scale, incrm.scale;
    var ps, pt := Pow10(s), Pow10(t);
    var e := AlignedUsage(usage, incrm) - p;
    var d := AlignedIncrement(usage, incrm);
    var bAbs := IntAbs(incrm.coef);
    assert Sub(usage, Mul(FromInt(k), incrm)) == Decimal(e, s + t);
    Pow10Add(s, t);
    MulAssoc(bAbs, ps, pt);
    MulAbs(incrm.coef, ps);
    assert IntAbs(d) == bAbs * ps;
    ScaleBy(IntAbs(e), IntAbs(d), pt);
  }

  lemma MulAssoc(a: int, b: int, c: int)
    ensures a * (b * c) == (a * b) * c
  {
  }

  /**
   * Rounding toward zero, for usage of either sign and a nonzero increment:
   * the result is no larger in magnitude than the usage, misses it by less
   * than one increment, and is zero or of the usage's sign.
   */
  lemma RoundedUsageIsTruncation(usage: Decimal, incrm: Decimal)
    requires incrm.coef != 0
    ensures var r := RoundedUsageWithIncrements(usage, incrm).value;
      r == Mul(FromInt(IncrementsIn(usage, incrm)), incrm) &&
      Le(Abs(r), Abs(usage)) && Lt(Abs(Sub(usage, r)), Abs(incrm)) && SameSignOrZero(r, usage)
  {
    var k := IncrementsIn(usage, incrm);
    AlignedConditions(usage, incrm, k);
    TruncDivIsTruncation(AlignedUsage(usage, incrm), AlignedIncrement(usage, incrm));
  }

  /**
   * The rounded usage is the only multiple of the increment with those three
   * properties: the rounding is fully determined by them.
   */
  lemma RoundedUsageUnique(usage: Decimal, incrm: Decimal, k: int)
    requires incrm.coef != 0
    requires Le(Abs(Mul(FromInt(k), incrm)), Abs(usage))
    requires Lt(Abs(Sub(usage, Mul(FromInt(k), incrm))), Abs(incrm))
    requires SameSignOrZero(Mul(FromInt(k), incrm), usage)
    ensures RoundedUsageWithIncrements(usage, incrm) == Some(Mul(FromInt(k), incrm))
  {
    AlignedConditions(usage, incrm, k);
    TruncDivUnique(AlignedUsage(usage, incrm), AlignedIncrement(usage, incrm), k);
  }

  /**
   * For a nonnegative usage and a positive increment: 0 <= result <= usage,
   * and what is left over is less than one increment.
   */
  lemma RoundedUsageBounds(usage: Decimal, incrm: Decimal)
    requires Le(Zero, usage) && Lt(Zero, incrm)
    ensures incrm.coef != 0
    ensures var r := RoundedUsageWithIncrements(usage, incrm).value;
      Le(Zero, r) && Le(r, usage) && Lt(Sub(usage, r), incrm)
  {
    RoundedUsageIsTruncation(usage, incrm);
    var r := RoundedUsageWithIncrements(usage, incrm).value;
    assert Abs(r) == r && Abs(usage) == usage && Abs(incrm) == incrm;
    assert Abs(Sub(usage, r)) == Sub(usage, r);
  }

  /** Rounding an already rounded usage changes nothing (idempotence). */
  lemma RoundedUsageIdempotent(usage: Decimal, incrm: Decimal)
    requires incrm.coef != 0
    ensures var r := RoundedUsageWithIncrements(usage, incrm).value;
      RoundedUsageWithIncrements(r, incrm) == Some(r)
  {
    var k := IncrementsIn(usage, incrm);
    var r := Mul(FromInt(k), incrm);
    assert Sub(r, r).coef == 0;
    ScaleBy(IntAbs(incrm.coef), 0, Pow10(r.scale + r.scale));
    RoundedUsageUnique(r, incrm, k);
  }

  /** A usage that is already k whole increments is returned with its value unchanged. */
  lemma RoundedUsageOfMultiple(usage: Decimal, incrm: Decimal, k: int)
    requires incrm.coef != 0
    requires Eq(usage, Mul(FromInt(k), incrm))
    ensures var r := RoundedUsageWithIncrements(usage, incrm).value;
      r == Mul(FromInt(k), incrm) && Eq(r, usage)
  {
    var m := Mul(FromInt(k), incrm);
    ScaleBy(m.coef, 0, Pow10(usage.scale));
    ScaleBy(usage.coef, 0, Pow10(m.scale));
    assert Sub(usage, m).coef == 0;
    ScaleBy(IntAbs(incrm.coef), 0, Pow10(usage.scale + m.scale));
    RoundedUsageUnique(usage, incrm, k);
  }

  /**
   * The figures of the monetary balance in the account-profile API test
   * (increment decimal.New(13, 1)): 200 units round to 153 increments of 1.3,
   * that is 198.9.
   */
  lemma RoundedUsageExample()
    ensures RoundedUsageWithIncrements(FromInt(200), Decimal(13, 1)) == Some(Decimal(1989, 1))
  {
    assert IncrementsIn(FromInt(200), Decimal(13, 1)) == 153;
  }

  // ---------------------------------------------------------------------
  // Balance operators (balanceOperator, newBalanceOperator)
  // ---------------------------------------------------------------------

  /** The filter service. External to the core: only passed through. */
  class FilterS { }

  /** The connection manager that reaches the attribute and rate services. External: only passed through. */
  class ConnManager { }

  /**
   * The concrete balance operator. Its constructor and its `debitUsage` are
   * not part of this model; it is taken to keep what it is built from.
   */
  class ConcreteBalance {
    const blnCfg: Balance
    const cncrtBlncs: array<ConcreteBalance?>
    const fltrS: FilterS?
    const connMgr: ConnManager?
    const attrSConns: seq<string>
    const rateSConns: seq<string>

    constructor (blnCfg: Balance, cncrtBlncs: array<ConcreteBalance?>, fltrS: FilterS?,
                 connMgr: ConnManager?, attrSConns: seq<string>, rateSConns: seq<string>)
      ensures Wraps(blnCfg, cncrtBlncs, fltrS, connMgr, attrSConns, rateSConns)
    {
      this.blnCfg, this.cncrtBlncs, this.fltrS := blnCfg, cncrtBlncs, fltrS;
      this.connMgr, this.attrSConns, this.rateSConns := connMgr, attrSConns, rateSConns;
    }

    predicate Wraps(blnCfg: Balance, cncrtBlncs: array<ConcreteBalance?>, fltrS: FilterS?,
                    connMgr: ConnManager?, attrSConns: seq<string>, rateSConns: seq<string>)
    {
      this.blnCfg == blnCfg && this.cncrtBlncs == cncrtBlncs && this.fltrS == fltrS &&
      this.connMgr == connMgr && this.attrSConns == attrSConns && this.rateSConns == rateSConns
    }
  }

  /**
   * The abstract balance operator; it keeps the account's concrete operators
   * to cascade into. Its constructor and its `debitUsage` are not part of this model.
   */
  class AbstractBalance {
    const blnCfg: Balance
    const cncrtBlncs: array<ConcreteBalance?>
    const fltrS: FilterS?
    const connMgr: ConnManager?
    const attrSConns: seq<string>
    const rateSConns: seq<string>

    constructor (blnCfg: Balance, cncrtBlncs: array<ConcreteBalance?>, fltrS: FilterS?,
                 connMgr: ConnManager?, attrSConns: seq<string>, rateSConns: seq<string>)
      ensures Wraps(blnCfg, cncrtBlncs, fltrS, connMgr, attrSConns, rateSConns)
    {
      this.blnCfg, this.cncrtBlncs, this.fltrS := blnCfg, cncrtBlncs, fltrS;
      this.connMgr, this.attrSConns, this.rateSConns := connMgr, attrSConns, rateSConns;
    }

    predicate Wraps(blnCfg: Balance, cncrtBlncs: array<ConcreteBalance?>, fltrS: FilterS?,
                    connMgr: ConnManager?, attrSConns: seq<string>, rateSConns: seq<string>)
    {
      this.blnCfg == blnCfg && this.cncrtBlncs == cncrtBlncs && this.fltrS == fltrS &&
      this.connMgr == connMgr && this.attrSConns == attrSConns && this.rateSConns == rateSConns
    }
  }

  /**
   * A value of the `balanceOperator` interface: nil, or a pointer to one of
   * the two implementations. Equality is identity of the pointed-to operator.
   */
  datatype BalanceOperator = NilOperator | Concrete(c: ConcreteBalance) | Abstract(a: AbstractBalance)

  predicate IsSupportedType(typ: string) {
    typ == MetaConcrete || typ == MetaAbstract
  }

  const UnsupportedTypePrefix := "unsupported balance type: <"

  /**
   * The factory's error text: the fixed prefix, the rejected type, and the
   * closing bracket, so the type can be read back from the message.
   */
  function UnsupportedTypeError(typ: string): (msg: string)
    ensures |msg| == |UnsupportedTypePrefix| + |typ| + 1
    ensures msg[..|UnsupportedTypePrefix|] == UnsupportedTypePrefix
    ensures msg[|UnsupportedTypePrefix|..|msg| - 1] == typ && msg[|msg| - 1] == '>'
  {
    var msg := UnsupportedTypePrefix + typ + ">";
    assert msg[|UnsupportedTypePrefix|..|msg| - 1] == typ;
    msg
  }

  /**
   * `newBalanceOperator`: a concrete or an abstract operator built from the
   * balance, with no error; any other type yields a nil operator and the
   * error naming the type.
   */
  method NewBalanceOperator(blncCfg: Balance, cncrtBlncs: array<ConcreteBalance?>, fltrS: FilterS?,
                            connMgr: ConnManager?, attrSConns: seq<string>, rateSConns: seq<string>)
    returns (bP: BalanceOperator, err: Option<string>)
    ensures err.None? <==> IsSupportedType(blncCfg.typ)
    ensures blncCfg.typ == MetaConcrete ==>
      bP.Concrete? && fresh(bP.c) && bP.c.Wraps(blncCfg, cncrtBlncs, fltrS, connMgr, attrSConns, rateSConns)
    ensures blncCfg.typ == MetaAbstract ==>
      bP.Abstract? && fresh(bP.a) && bP.a.Wraps(blncCfg, cncrtBlncs, fltrS, connMgr, attrSConns, rateSConns)
    ensures !IsSupportedType(blncCfg.typ) ==>
      bP == NilOperator && err == Some(UnsupportedTypeError(blncCfg.typ))
  {
    if blncCfg.typ == MetaConcrete {
      var c := new ConcreteBalance(blncCfg, cncrtBlncs, fltrS, connMgr, attrSConns, rateSConns);
      return Concrete(c), None;
    } else if blncCfg.typ == MetaAbstract {
      var a := new AbstractBalance(blncCfg, cncrtBlncs, fltrS, connMgr, attrSConns, rateSConns);
      return Abstract(a), None;
    }
    return NilOperator, Some(UnsupportedTypeError(blncCfg.typ));
  }

  // ---------------------------------------------------------------------
  // The type index (typIdx) as a function of the ordered balances
  // ---------------------------------------------------------------------

  /** Reading a Go map: a missing key gives the nil (empty) slice. */
  function Lookup(m: map<string, seq<nat>>, t: string): seq<nat> {
    if t in m then m[t] else []
  }

  /** The index the typIdx loop builds over s: each position appended under its type. */
  function TypeIndex(s: seq<Balance>): (idx: map<string, seq<nat>>)
    ensures forall t :: t in idx ==> idx[t] != [] && forall k :: 0 <= k < |idx[t]| ==> idx[t][k] < |s|
  {
    if s == [] then map[]
    else
      var m := TypeIndex(s[..|s| - 1]);
      var t := s[|s| - 1].typ;
      m[t := Lookup(m, t) + [|s| - 1]]
  }

  /** Position p of s holds a balance of type t. */
  predicate HasTypeAt(s: seq<Balance>, p: int, t: string) {
    0 <= p < |s| && s[p].typ == t
  }

  predicate StrictlyIncreasing(p: seq<nat>) {
    forall i, j :: 0 <= i < j < |p| ==> p[i] < p[j]
  }

  /** One step of the index: appending a balance appends its position to its own type's list only. */
  lemma TypeIndexStep(s: seq<Balance>, t: string)
    requires s != []
    ensures Lookup(TypeIndex(s), t) ==
      if t == s[|s| - 1].typ then Lookup(TypeIndex(s[..|s| - 1]), t) + [|s| - 1]
      else Lookup(TypeIndex(s[..|s| - 1]), t)
  {
  }

  /** typIdx[t] (nil when absent) holds exactly the positions of s whose type is t. */
  lemma {:induction false} TypeIndexMembers(s: seq<Balance>)
    ensures forall t: string, p: int :: p in Lookup(TypeIndex(s), t) <==> HasTypeAt(s, p, t)
  {
    if s != [] {
      var n := |s| - 1;
      var s' := s[..n];
      TypeIndexMembers(s');
      forall t: string, p: int ensures p in Lookup(TypeIndex(s), t) <==> HasTypeAt(s, p, t) {
        TypeIndexStep(s, t);
        if 0 <= p < n {
          assert s'[p] == s[p];
        }
      }
    }
  }

  lemma AppendGreater(l: seq<nat>, n: nat)
    requires StrictlyIncreasing(l) && forall i :: 0 <= i < |l| ==> l[i] < n
    ensures StrictlyIncreasing(l + [n])
  {
  }

  /** Each list of typIdx is strictly ascending. */
  lemma {:induction false} TypeIndexAscending(s: seq<Balance>)
    ensures forall t :: StrictlyIncreasing(Lookup(TypeIndex(s), t))
  {
    if s != [] {
      var n := |s| - 1;
      TypeIndexAscending(s[..n]);
      TypeIndexMembers(s[..n]);
      forall t ensures StrictlyIncreasing(Lookup(TypeIndex(s), t)) {
        TypeIndexStep(s, t);
        var l := Lookup(TypeIndex(s[..n]), t);
        if t == s[n].typ {
          assert forall i :: 0 <= i < |l| ==> l[i] in l && HasTypeAt(s[..n], l[i], t) && l[i] < n;
          AppendGreater(l, n);
        }
      }
    }
  }

  /** typIdx has a key for exactly the types that occur in s. */
  lemma {:induction false} TypeIndexKeys(s: seq<Balance>)
    ensures TypeIndex(s).Keys == set i | 0 <= i < |s| :: s[i].typ
  {
    if s != [] {
      var n := |s| - 1;
      TypeIndexKeys(s[..n]);
      assert (set i | 0 <= i < |s| :: s[i].typ) == (set i | 0 <= i < n :: s[..n][i].typ) + {s[n].typ};
    }
  }

  /**
   * typIdx[t] is the ascending list of exactly the positions of s whose type
   * is t, and typIdx has a key for exactly the types that occur.
   */
  lemma TypeIndexPositions(s: seq<Balance>)
    ensures TypeIndex(s).Keys == set i | 0 <= i < |s| :: s[i].typ
    ensures forall t :: StrictlyIncreasing(Lookup(TypeIndex(s), t))
    ensures forall t: string, p: int :: p in Lookup(TypeIndex(s), t) <==> HasTypeAt(s, p, t)
  {
    TypeIndexKeys(s);
    TypeIndexAscending(s);
    TypeIndexMembers(s);
  }

  /** The lists of typIdx partition the positions: each position is in the list of its own type and in no other. */
  lemma TypeIndexPartitions(s: seq<Balance>, i: nat)
    requires i < |s|
    ensures s[i].typ in TypeIndex(s) && i in TypeIndex(s)[s[i].typ]
    ensures forall t :: t != s[i].typ ==> i !in Lookup(TypeIndex(s), t)
  {
    TypeIndexMembers(s);
    assert HasTypeAt(s, i, s[i].typ);
    assert i in Lookup(TypeIndex(s), s[i].typ);
    forall t | t != s[i].typ ensures i !in Lookup(TypeIndex(s), t) {
      assert !HasTypeAt(s, i, t);
    }
  }

  // ---------------------------------------------------------------------
  // Collecting the balances (lines 34-38)
  // ---------------------------------------------------------------------

  /** The balances stored under the keys ks. */
  function ValuesOf(balances: map<string, Balance>, ks: set<string>): set<Balance> {
    set k | k in ks && k in balances :: balances[k]
  }

  lemma MultisetAddFresh<T>(a: set<T>, x: T)
    requires x !in a
    ensures multiset(a + {x}) == multiset(a) + multiset{x}
  {
    forall y ensures multiset(a + {x})[y] == (multiset(a) + multiset{x})[y] {
    }
  }

  /**
   * The loop over the account's balance map. Go visits a map in no fixed
   * order; the model takes any remaining key at each step. The ghost `order`
   * records the keys in visiting order: every key exactly once.
   *
   * Intended reading of line 34: the list starts empty. As written it is
   * created with `len(acnt.Balances)` nil entries, which the appends then
   * follow (see CollectBalancesAsWritten).
   */
  method CollectBalances(balances: map<string, Balance>) returns (blncs: seq<Balance>, ghost order: seq<string>)
    ensures |order| == |blncs| == |balances|
    ensures forall i :: 0 <= i < |order| ==> order[i] in balances && blncs[i] == balances[order[i]]
    ensures forall i, j :: 0 <= i < j < |order| ==> order[i] != order[j]
    ensures forall k :: k in balances ==> k in order
    ensures BalancesKeyedByID(balances) ==> multiset(blncs) == multiset(balances.Values)
  {
    blncs, order := [], [];
    var rest := balances.Keys;
    while rest != {}
      invariant rest <= balances.Keys
      invariant Enumerates(balances, balances.Keys - rest, order, blncs)
      decreases |rest|
    {
      var k :| k in rest;
      EnumeratesStep(balances, balances.Keys - rest, order, blncs, k);
      RemoveKey(balances.Keys, rest, k);
      blncs, order := blncs + [balances[k]], order + [k];
      rest := rest - {k};
    }
    RemoveKey(balances.Keys, rest, "");
    ValuesOfAll(balances);
  }

  /** Taking k out of the keys left to visit adds it to the keys visited. */
  lemma RemoveKey(keys: set<string>, rest: set<string>, k: string)
    requires rest <= keys
    ensures k in rest ==> keys - (rest - {k}) == (keys - rest) + {k}
    ensures rest == {} ==> keys - rest == keys
  {
  }

  /**
   * order lists each key of done once, blncs the balances stored under them in
   * that order; in a map keyed by ID they are the balances of done as a multiset.
   */
  ghost predicate Enumerates(balances: map<string, Balance>, done: set<string>, order: seq<string>, blncs: seq<Balance>) {
    |order| == |blncs| == |done| &&
    (forall i :: 0 <= i < |order| ==> order[i] in done && order[i] in balances && blncs[i] == balances[order[i]]) &&
    (forall k :: k in done ==> k in order) &&
    (forall i, j :: 0 <= i < j < |order| ==> order[i] != order[j]) &&
    (BalancesKeyedByID(balances) ==> multiset(blncs) == multiset(ValuesOf(balances, done)))
  }

  /** Once every key is visited, the multiset of values is that of the whole map. */
  lemma ValuesOfAll(balances: map<string, Balance>)
    ensures ValuesOf(balances, balances.Keys) == balances.Values
  {
  }

  lemma EnumeratesStep(balances: map<string, Balance>, done: set<string>, order: seq<string>, blncs: seq<Balance>, k: string)
    requires Enumerates(balances, done, order, blncs) && k in balances && k !in done
    ensures Enumerates(balances, done + {k}, order + [k], blncs + [balances[k]])
  {
    if BalancesKeyedByID(balances) {
      ValuesOfAddKey(balances, done, k);
    }
    AppendKeeps(blncs, balances[k]);
    AppendKeeps(order, k);
  }

  lemma AppendKeeps<T>(s: seq<T>, x: T)
    ensures |s + [x]| == |s| + 1 && (s + [x])[|s|] == x
    ensures forall i :: 0 <= i < |s| ==> (s + [x])[i] == s[i]
  {
  }

  /** Adding a key adds its balance, which a map keyed by ID holds under that key only. */
  lemma ValuesOfAddKey(balances: map<string, Balance>, done: set<string>, k: string)
    requires BalancesKeyedByID(balances) && k in balances && k !in done
    ensures multiset(ValuesOf(balances, done + {k})) == multiset(ValuesOf(balances, done)) + multiset{balances[k]}
  {
    assert balances[k] !in ValuesOf(balances, done);
    assert ValuesOf(balances, done + {k}) == ValuesOf(balances, done) + {balances[k]};
    MultisetAddFresh(ValuesOf(balances, done), balances[k]);
  }

  /** Two positions holding the same value count it twice. */
  lemma TwoOccurrences<T>(s: seq<T>, i: nat, j: nat)
    requires i < j < |s|
    ensures s[i] == s[j] ==> multiset(s)[s[i]] >= 2
  {
    if s[i] == s[j] {
      assert s == s[..j] + [s[j]] + s[j + 1..];
      assert s[i] in s[..j];
    }
  }

  predicate UniqueIDs(s: seq<Balance>) {
    forall i, j :: 0 <= i < j < |s| ==> s[i].id != s[j].id
  }

  /**
   * A list holding each balance of a map keyed by ID exactly once has unique
   * IDs, and each entry is the one stored under its ID.
   */
  lemma KeyedBalancesHaveUniqueIDs(s: seq<Balance>, balances: map<string, Balance>)
    requires BalancesKeyedByID(balances) && multiset(s) == multiset(balances.Values)
    ensures forall i :: 0 <= i < |s| ==> s[i].id in balances && balances[s[i].id] == s[i]
    ensures UniqueIDs(s)
  {
    forall i | 0 <= i < |s| ensures s[i].id in balances && balances[s[i].id] == s[i] {
      assert s[i] in multiset(s);
      assert s[i] in balances.Values;
    }
    forall i, j | 0 <= i < j < |s| ensures s[i].id != s[j].id {
      TwoOccurrences(s, i, j);
      assert multiset(balances.Values)[s[i]] <= 1;
    }
  }

  // ---------------------------------------------------------------------
  // The first balance whose type has no operator (lines 52-59)
  // ---------------------------------------------------------------------

  /** The first position whose type the factory rejects, or |s| when every type is supported. */
  function FirstUnsupported(s: seq<Balance>): (k: nat)
    ensures k <= |s|
    ensures forall j :: 0 <= j < k ==> IsSupportedType(s[j].typ)
    ensures k < |s| ==> !IsSupportedType(s[k].typ)
  {
    if s == [] || !IsSupportedType(s[0].typ) then 0
    else 1 + FirstUnsupported(s[1..])
  }

  /** IDs of the balances at positions before end whose type is not concrete. */
  function OtherIDsBefore(s: seq<Balance>, end: nat): set<string> {
    set j | 0 <= j < |s| && j < end && s[j].typ != MetaConcrete :: s[j].id
  }

  /**
   * The IDs that receive an operator: every concrete one, and every other one
   * up to and including the first unsupported balance.
   */
  function TriedIDs(s: seq<Balance>): set<string> {
    IDsOfType(s, MetaConcrete) + OtherIDsBefore(s, FirstUnsupported(s) + 1)
  }

  /** IDs of the balances of type t. */
  function IDsOfType(s: seq<Balance>, t: string): set<string> {
    set j | 0 <= j < |s| && s[j].typ == t :: s[j].id
  }

  // ---------------------------------------------------------------------
  // accountBalances
  // ---------------------------------------------------------------------

  /**
   * `accountBalances`: the ordered balance configurations of one account, the
   * index from type to positions, the concrete operators (one shared array
   * that every operator also holds), and the operator of every balance by ID.
   * The external services are only kept and passed on.
   */
  class AccountBalances {
    var blnCfgs: seq<Balance>
    var typIdx: map<string, seq<nat>>
    var cncrtBlncs: array<ConcreteBalance?>
    var opers: map<string, BalanceOperator>
    var fltrS: FilterS?
    var connMgr: ConnManager?
    var attrSConns: seq<string>
    var rateSConns: seq<string>

    /**
     * The struct literal of line 39, as intended: both maps start empty and
     * fltrS is kept. As written the literal omits fltrS, so the field stays
     * nil, and leaves typIdx and opers nil, so the first write into either
     * map panics (see IndexByTypeAsWritten and AccountBalances.AsWritten).
     */
    constructor (blnCfgs: seq<Balance>, fltrS: FilterS?, connMgr: ConnManager?,
                 attrSConns: seq<string>, rateSConns: seq<string>)
      ensures this.blnCfgs == blnCfgs && this.fltrS == fltrS && this.connMgr == connMgr
      ensures this.attrSConns == attrSConns && this.rateSConns == rateSConns
      ensures typIdx == map[] && opers == map[] && fresh(cncrtBlncs) && cncrtBlncs.Length == 0
    {
      this.blnCfgs, this.fltrS, this.connMgr := blnCfgs, fltrS, connMgr;
      this.attrSConns, this.rateSConns := attrSConns, rateSConns;
      typIdx, opers := map[], map[];
      cncrtBlncs := new ConcreteBalance?[0];
    }

    /**
     * The struct literal of line 39 as written, as far as fltrS goes: the
     * literal names every service but fltrS, so the container's fltrS is nil
     * whatever the caller passed. (Its nil maps are IndexByTypeAsWritten's.)
     */
    constructor AsWritten(blnCfgs: seq<Balance>, fltrS: FilterS?, connMgr: ConnManager?,
                          attrSConns: seq<string>, rateSConns: seq<string>)
      ensures this.blnCfgs == blnCfgs && this.fltrS == null && this.connMgr == connMgr
      ensures this.attrSConns == attrSConns && this.rateSConns == rateSConns
      ensures typIdx == map[] && opers == map[] && fresh(cncrtBlncs) && cncrtBlncs.Length == 0
    {
      this.blnCfgs, this.fltrS, this.connMgr := blnCfgs, null, connMgr;
      this.attrSConns, this.rateSConns := attrSConns, rateSConns;
      typIdx, opers := map[], map[];
      cncrtBlncs := new ConcreteBalance?[0];
    }

    /** The concrete positions, in typIdx order. */
    function ConcreteIdx(): seq<nat>
      reads this
    {
      Lookup(typIdx, MetaConcrete)
    }

    /**
     * cncrtBlncs[i] is the operator of blnCfgs[typIdx[*concrete][i]], built
     * with the very same cncrtBlncs array and the account's services, and
     * opers maps that balance's ID to that same instance.
     */
    ghost predicate ConcreteOperatorsBuilt()
      reads this, cncrtBlncs
    {
      ConcreteOperatorsIn(blnCfgs, ConcreteIdx(), cncrtBlncs, opers, fltrS, connMgr, attrSConns, rateSConns)
    }

    /** Lines 40-43: every position is appended to the list of its balance's type. */
    method IndexByType()
      requires typIdx == map[]
      modifies this`typIdx
      ensures typIdx == TypeIndex(blnCfgs)
    {
      var i := 0;
      while i < |blnCfgs|
        invariant 0 <= i <= |blnCfgs|
        invariant typIdx == TypeIndex(blnCfgs[..i])
      {
        var t := blnCfgs[i].typ;
        assert blnCfgs[..i + 1][..i] == blnCfgs[..i];
        typIdx := typIdx[t := Lookup(typIdx, t) + [i]];
        i := i + 1;
      }
      assert blnCfgs[..i] == blnCfgs;
    }

    /**
     * Lines 44-50: one operator per concrete position, each holding the shared
     * cncrtBlncs array, and registered in opers under its balance's ID.
     */
    method BuildConcreteOperators()
      requires ConcreteIdxSound(blnCfgs, ConcreteIdx())
      modifies this`cncrtBlncs, this`opers
      ensures fresh(cncrtBlncs) && ConcreteOperatorsBuilt()
      ensures forall i :: 0 <= i < cncrtBlncs.Length ==> fresh(cncrtBlncs[i])
      ensures UpdatedOnly(old(opers), opers, IDsOfType(blnCfgs, MetaConcrete))
    {
      cncrtBlncs, opers := ConcreteOperators(blnCfgs, ConcreteIdx(), opers, fltrS, connMgr, attrSConns, rateSConns);
    }

    /**
     * Lines 51-61: every balance that is not concrete gets its operator from
     * the factory, in list order; the first unsupported type stores a nil
     * operator under its ID and stops the loop with the factory's error.
     * The concrete operators registered before are left as they are.
     */
    method BuildOtherOperators() returns (err: Option<string>, ghost made: set<AbstractBalance>)
      requires ConcreteOnly(blnCfgs, ConcreteIdx()) && UniqueIDs(blnCfgs) && ConcreteOperatorsBuilt()
      modifies this`opers
      ensures ConcreteOperatorsBuilt()
      ensures var end := FirstUnsupported(blnCfgs);
        (err.None? <==> end == |blnCfgs|) &&
        (end < |blnCfgs| ==> err == Some(UnsupportedTypeError(blnCfgs[end].typ)) &&
                             blnCfgs[end].id in opers && opers[blnCfgs[end].id] == NilOperator)
      ensures fresh(made) &&
        AbstractOperatorsIn(blnCfgs, FirstUnsupported(blnCfgs), cncrtBlncs, opers, made,
                            fltrS, connMgr, attrSConns, rateSConns)
      ensures UpdatedOnly(old(opers), opers, OtherIDsBefore(blnCfgs, FirstUnsupported(blnCfgs) + 1))
    {
      var s, ops0 := blnCfgs, opers;
      var ops;
      ops, err, made := OtherOperators(s, cncrtBlncs, ops0, fltrS, connMgr, attrSConns, rateSConns);
      ghost var tried := OtherIDsBefore(s, FirstUnsupported(s) + 1);
      assert UpdatedOnly(ops0, ops, tried);
      ConcreteIDsNotOther(s, ConcreteIdx(), FirstUnsupported(s) + 1);
      ConcreteOperatorsKept(s, ConcreteIdx(), cncrtBlncs, ops0, ops, tried, fltrS, connMgr, attrSConns, rateSConns);
      opers := ops;
    }
  }

  /**
   * The loop of lines 44-50 over the container's values: one fresh operator
   * per listed position, stored in a fresh array that each operator holds,
   * and registered in the operator map under its balance's ID.
   */
  method ConcreteOperators(s: seq<Balance>, idx: seq<nat>, ops0: map<string, BalanceOperator>,
                           f: FilterS?, cm: ConnManager?, ac: seq<string>, rc: seq<string>)
    returns (arr: array<ConcreteBalance?>, ops: map<string, BalanceOperator>)
    requires ConcreteIdxSound(s, idx)
    ensures fresh(arr) && ConcreteOperatorsIn(s, idx, arr, ops, f, cm, ac, rc)
    ensures forall i :: 0 <= i < arr.Length ==> fresh(arr[i])
    ensures UpdatedOnly(ops0, ops, IDsOfType(s, MetaConcrete))
  {
    arr := new ConcreteBalance?[|idx|];
    ops := ops0;
    ghost var built: seq<ConcreteBalance> := [];
    var i := 0;
    while i < |idx|
      invariant 0 <= i <= |idx| && |built| == i
      invariant forall j :: 0 <= j < i ==> arr[j] == built[j] && fresh(built[j])
      invariant BuiltFor(s, idx, built, arr, ops, f, cm, ac, rc)
      invariant UpdatedOnly(ops0, ops, IDsAt(s, idx, i))
    {
      var c := new ConcreteBalance(s[idx[i]], arr, f, cm, ac, rc);
      arr[i] := c;
      BuiltForStep(s, idx, built, arr, ops, c, f, cm, ac, rc);
      UpdatedOnlyStep(ops0, ops, IDsAt(s, idx, i), s[idx[i]].id, Concrete(c));
      IDsAtStep(s, idx, i);
      ops := ops[s[idx[i]].id := Concrete(c)];
      built := built + [c];
      i := i + 1;
    }
    BuiltForAll(s, idx, built, arr, ops, f, cm, ac, rc);
  }

  /** built[j] is the operator of position idx[j], registered in ops under its balance's ID. */
  ghost predicate BuiltFor(s: seq<Balance>, idx: seq<nat>, built: seq<ConcreteBalance>, arr: array<ConcreteBalance?>,
                           ops: map<string, BalanceOperator>, f: FilterS?, cm: ConnManager?, ac: seq<string>, rc: seq<string>)
  {
    |built| <= |idx| &&
    forall j :: 0 <= j < |built| ==>
      idx[j] < |s| && built[j].Wraps(s[idx[j]], arr, f, cm, ac, rc) &&
      s[idx[j]].id in ops && ops[s[idx[j]].id] == Concrete(built[j])
  }

  lemma BuiltForStep(s: seq<Balance>, idx: seq<nat>, built: seq<ConcreteBalance>, arr: array<ConcreteBalance?>,
                     ops: map<string, BalanceOperator>, c: ConcreteBalance,
                     f: FilterS?, cm: ConnManager?, ac: seq<string>, rc: seq<string>)
    requires ConcreteIdxSound(s, idx) && BuiltFor(s, idx, built, arr, ops, f, cm, ac, rc) && |built| < |idx|
    requires c.Wraps(s[idx[|built|]], arr, f, cm, ac, rc)
    ensures BuiltFor(s, idx, built + [c], arr, ops[s[idx[|built|]].id := Concrete(c)], f, cm, ac, rc)
  {
    var i := |built|;
    forall j | 0 <= j < i ensures s[idx[j]].id != s[idx[i]].id {
    }
  }

  lemma BuiltForAll(s: seq<Balance>, idx: seq<nat>, built: seq<ConcreteBalance>, arr: array<ConcreteBalance?>,
                    ops: map<string, BalanceOperator>, f: FilterS?, cm: ConnManager?, ac: seq<string>, rc: seq<string>)
    requires ConcreteIdxSound(s, idx) && BuiltFor(s, idx, built, arr, ops, f, cm, ac, rc)
    requires arr.Length == |built| == |idx| && forall j :: 0 <= j < |idx| ==> arr[j] == built[j]
    ensures ConcreteOperatorsIn(s, idx, arr, ops, f, cm, ac, rc)
  {
  }

  /**
   * The loop of lines 51-61 over the container's values: ops0 is the operator
   * map on entry, ops the map on exit; made collects the abstract operators
   * the loop allocates.
   */
  method OtherOperators(s: seq<Balance>, arr: array<ConcreteBalance?>,
                        ops0: map<string, BalanceOperator>, f: FilterS?, cm: ConnManager?,
                        ac: seq<string>, rc: seq<string>)
    returns (ops: map<string, BalanceOperator>, err: Option<string>, ghost made: set<AbstractBalance>)
    requires UniqueIDs(s)
    ensures var end := FirstUnsupported(s);
      (err.None? <==> end == |s|) &&
      (end < |s| ==> err == Some(UnsupportedTypeError(s[end].typ)) && s[end].id in ops && ops[s[end].id] == NilOperator)
    ensures AbstractOperatorsIn(s, FirstUnsupported(s), arr, ops, made, f, cm, ac, rc) && fresh(made)
    ensures UpdatedOnly(ops0, ops, OtherIDsBefore(s, FirstUnsupported(s) + 1))
  {
    ops, made := ops0, {};
    var i := 0;
    err := None;
    while i < |s|
      invariant 0 <= i <= FirstUnsupported(s) && err.None?
      invariant AbstractOperatorsIn(s, i, arr, ops, made, f, cm, ac, rc) && fresh(made)
      invariant UpdatedOnly(ops0, ops, OtherIDsBefore(s, i))
    {
      if s[i].typ == MetaConcrete { // already computed above
        FirstUnsupportedStep(s, i);
        OtherIDsBeforeStep(s, i);
        AbstractOperatorsSkip(s, i, arr, ops, made, f, cm, ac, rc);
        i := i + 1;
        continue;
      }
      ghost var made';
      ops, err, made' := OtherOperatorStep(s, i, arr, ops0, ops, made, f, cm, ac, rc);
      made := made + made';
      if err.Some? {
        return;
      }
      i := i + 1;
    }
    OtherIDsBeforeCap(s, |s| + 1);
  }

  /**
   * One turn of the loop for a balance that is not concrete: store the
   * factory's operator under its ID; on an unsupported type this is the
   * nil operator and position i is the first unsupported one.
   */
  method OtherOperatorStep(s: seq<Balance>, i: nat, arr: array<ConcreteBalance?>,
                           ghost ops0: map<string, BalanceOperator>, ops: map<string, BalanceOperator>,
                           ghost made: set<AbstractBalance>, f: FilterS?, cm: ConnManager?, ac: seq<string>, rc: seq<string>)
    returns (ops': map<string, BalanceOperator>, err: Option<string>, ghost made': set<AbstractBalance>)
    requires i < |s| && i <= FirstUnsupported(s) && UniqueIDs(s) && s[i].typ != MetaConcrete
    requires AbstractOperatorsIn(s, i, arr, ops, made, f, cm, ac, rc) && UpdatedOnly(ops0, ops, OtherIDsBefore(s, i))
    ensures fresh(made') && UpdatedOnly(ops0, ops', OtherIDsBefore(s, i + 1))
    ensures err.None? ==> i + 1 <= FirstUnsupported(s) && AbstractOperatorsIn(s, i + 1, arr, ops', made + made', f, cm, ac, rc)
    ensures err.Some? ==>
      i == FirstUnsupported(s) && err == Some(UnsupportedTypeError(s[i].typ)) &&
      s[i].id in ops' && ops'[s[i].id] == NilOperator && AbstractOperatorsIn(s, i, arr, ops', made + made', f, cm, ac, rc)
  {
    FirstUnsupportedStep(s, i);
    OtherIDsBeforeStep(s, i);
    var op;
    op, err := NewBalanceOperator(s[i], arr, f, cm, ac, rc);
    AbstractOperatorsStep(s, i, arr, ops, op, made, f, cm, ac, rc);
    UpdatedOnlyStep(ops0, ops, OtherIDsBefore(s, i), s[i].id, op);
    ops' := ops[s[i].id := op];
    made' := if op.Abstract? then {op.a} else {};
    if err.Some? {
      AbstractOperatorsPrefix(s, i + 1, i, arr, ops', made + made', f, cm, ac, rc);
    }
  }

  /** The loop's step over FirstUnsupported: a supported type moves past it, an unsupported one is it. */
  lemma FirstUnsupportedStep(s: seq<Balance>, i: nat)
    requires i <= FirstUnsupported(s) && i < |s|
    ensures IsSupportedType(s[i].typ) ==> i + 1 <= FirstUnsupported(s)
    ensures !IsSupportedType(s[i].typ) ==> i == FirstUnsupported(s)
  {
  }

  lemma AbstractOperatorsPrefix(s: seq<Balance>, n: nat, m: nat, arr: array<ConcreteBalance?>,
                                ops: map<string, BalanceOperator>, made: set<AbstractBalance>,
                                f: FilterS?, cm: ConnManager?, ac: seq<string>, rc: seq<string>)
    requires m <= n && AbstractOperatorsIn(s, n, arr, ops, made, f, cm, ac, rc)
    ensures AbstractOperatorsIn(s, m, arr, ops, made, f, cm, ac, rc)
  {
  }

  /** ops is ops0 with entries stored under the keys in changed, and no other entry touched. */
  predicate UpdatedOnly(ops0: map<string, BalanceOperator>, ops: map<string, BalanceOperator>, changed: set<string>) {
    ops.Keys == ops0.Keys + changed &&
    forall id :: id in ops0 && id !in changed ==> ops[id] == ops0[id]
  }

  lemma UpdatedOnlyStep(ops0: map<string, BalanceOperator>, ops: map<string, BalanceOperator>,
                        changed: set<string>, id: string, op: BalanceOperator)
    requires UpdatedOnly(ops0, ops, changed)
    ensures UpdatedOnly(ops0, ops[id := op], changed + {id})
  {
  }

  /**
   * arr[i] is the concrete operator of the balance at position idx[i], built
   * with arr itself and the given services, and ops maps its ID to it.
   */
  ghost predicate ConcreteOperatorsIn(s: seq<Balance>, idx: seq<nat>, arr: array<ConcreteBalance?>,
                                      ops: map<string, BalanceOperator>, f: FilterS?, cm: ConnManager?,
                                      ac: seq<string>, rc: seq<string>)
    reads arr
  {
    arr.Length == |idx| &&
    forall i :: 0 <= i < |idx| ==>
      idx[i] < |s| && arr[i] != null && arr[i].Wraps(s[idx[i]], arr, f, cm, ac, rc) &&
      s[idx[i]].id in ops && ops[s[idx[i]].id] == Concrete(arr[i])
  }

  /** ops holds, for every abstract balance before position n, an abstract operator built from it. */
  ghost predicate AbstractOperatorsIn(s: seq<Balance>, n: nat, arr: array<ConcreteBalance?>,
                                      ops: map<string, BalanceOperator>, made: set<AbstractBalance>,
                                      f: FilterS?, cm: ConnManager?, ac: seq<string>, rc: seq<string>)
  {
    forall j :: 0 <= j < n && j < |s| && s[j].typ == MetaAbstract ==>
      s[j].id in ops && ops[s[j].id].Abstract? && ops[s[j].id].a in made &&
      ops[s[j].id].a.Wraps(s[j], arr, f, cm, ac, rc)
  }

  lemma AbstractOperatorsSkip(s: seq<Balance>, i: nat, arr: array<ConcreteBalance?>,
                              ops: map<string, BalanceOperator>, made: set<AbstractBalance>,
                              f: FilterS?, cm: ConnManager?, ac: seq<string>, rc: seq<string>)
    requires i < |s| && s[i].typ == MetaConcrete && AbstractOperatorsIn(s, i, arr, ops, made, f, cm, ac, rc)
    ensures AbstractOperatorsIn(s, i + 1, arr, ops, made, f, cm, ac, rc)
  {
  }

  /** Storing the operator of position i keeps those of the earlier positions, IDs being unique. */
  lemma AbstractOperatorsStep(s: seq<Balance>, i: nat, arr: array<ConcreteBalance?>,
                              ops: map<string, BalanceOperator>, op: BalanceOperator, made: set<AbstractBalance>,
                              f: FilterS?, cm: ConnManager?, ac: seq<string>, rc: seq<string>)
    requires i < |s| && UniqueIDs(s) && AbstractOperatorsIn(s, i, arr, ops, made, f, cm, ac, rc)
    requires s[i].typ == MetaAbstract ==> op.Abstract? && op.a.Wraps(s[i], arr, f, cm, ac, rc)
    ensures AbstractOperatorsIn(s, i + 1, arr, ops[s[i].id := op], if op.Abstract? then made + {op.a} else made,
                                f, cm, ac, rc)
  {
    forall j | 0 <= j < i && s[j].typ == MetaAbstract ensures s[j].id != s[i].id {
    }
  }

  /** Changing only entries outside the concrete IDs keeps the concrete operators registered. */
  lemma ConcreteOperatorsKept(s: seq<Balance>, idx: seq<nat>, arr: array<ConcreteBalance?>,
                              ops0: map<string, BalanceOperator>, ops: map<string, BalanceOperator>,
                              changed: set<string>, f: FilterS?, cm: ConnManager?, ac: seq<string>, rc: seq<string>)
    requires ConcreteOperatorsIn(s, idx, arr, ops0, f, cm, ac, rc)
    requires forall j :: 0 <= j < |idx| ==> idx[j] < |s| && s[idx[j]].id !in changed
    requires UpdatedOnly(ops0, ops, changed)
    ensures ConcreteOperatorsIn(s, idx, arr, ops, f, cm, ac, rc)
  {
  }

  /** IDs of the balances at the first n positions listed in idx. */
  function IDsAt(s: seq<Balance>, idx: seq<nat>, n: nat): set<string> {
    set j | 0 <= j < n && j < |idx| && idx[j] < |s| :: s[idx[j]].id
  }

  lemma IDsAtStep(s: seq<Balance>, idx: seq<nat>, i: nat)
    requires i < |idx| && idx[i] < |s|
    ensures IDsAt(s, idx, i + 1) == IDsAt(s, idx, i) + {s[idx[i]].id}
  {
  }

  lemma OtherIDsBeforeCap(s: seq<Balance>, n: nat)
    requires n >= |s|
    ensures OtherIDsBefore(s, n) == OtherIDsBefore(s, |s|)
  {
  }

  lemma OtherIDsBeforeStep(s: seq<Balance>, i: nat)
    requires i < |s|
    ensures OtherIDsBefore(s, i + 1) ==
      if s[i].typ == MetaConcrete then OtherIDsBefore(s, i) else OtherIDsBefore(s, i) + {s[i].id}
  {
  }

  /**
   * What the concrete operators' loop relies on: the listed positions hold
   * concrete balances with pairwise distinct IDs, and they are all of them.
   */
  predicate ConcreteIdxSound(s: seq<Balance>, idx: seq<nat>) {
    (forall j :: 0 <= j < |idx| ==> idx[j] < |s|) &&
    (forall j, k :: 0 <= j < |idx| && 0 <= k < |idx| && j != k ==> s[idx[j]].id != s[idx[k]].id) &&
    IDsAt(s, idx, |idx|) == IDsOfType(s, MetaConcrete)
  }

  /** Every position listed in idx holds a concrete balance. */
  predicate ConcreteOnly(s: seq<Balance>, idx: seq<nat>) {
    forall j :: 0 <= j < |idx| ==> HasTypeAt(s, idx[j], MetaConcrete)
  }

  /** The concrete list of the type index names concrete positions only. */
  lemma ConcreteIdxPositions(s: seq<Balance>, idx: seq<nat>)
    requires idx == Lookup(TypeIndex(s), MetaConcrete)
    ensures ConcreteOnly(s, idx)
  {
    TypeIndexMembers(s);
    assert forall j :: 0 <= j < |idx| ==> idx[j] in idx;
  }

  /** The balances at the concrete positions have pairwise distinct IDs. */
  lemma ConcreteIdxDistinctIDs(s: seq<Balance>, idx: seq<nat>)
    requires idx == Lookup(TypeIndex(s), MetaConcrete) && UniqueIDs(s)
    ensures forall j :: 0 <= j < |idx| ==> idx[j] < |s|
    ensures forall j, k :: 0 <= j < |idx| && 0 <= k < |idx| && j != k ==> s[idx[j]].id != s[idx[k]].id
  {
    ConcreteIdxPositions(s, idx);
    TypeIndexAscending(s);
    assert StrictlyIncreasing(idx);
    forall j, k | 0 <= j < |idx| && 0 <= k < |idx| && j != k ensures s[idx[j]].id != s[idx[k]].id {
      if j < k {
        assert idx[j] < idx[k];
      } else {
        assert idx[k] < idx[j];
      }
    }
  }

  /** The IDs at the concrete positions are the IDs of the concrete balances. */
  lemma ConcreteIdxIDs(s: seq<Balance>, idx: seq<nat>)
    requires idx == Lookup(TypeIndex(s), MetaConcrete)
    ensures IDsAt(s, idx, |idx|) == IDsOfType(s, MetaConcrete)
  {
    ConcreteIdxPositions(s, idx);
    TypeIndexMembers(s);
    forall id | id in IDsOfType(s, MetaConcrete) ensures id in IDsAt(s, idx, |idx|) {
      var p :| 0 <= p < |s| && s[p].typ == MetaConcrete && s[p].id == id;
      assert HasTypeAt(s, p, MetaConcrete);
      assert p in idx;
      var j :| 0 <= j < |idx| && idx[j] == p;
    }
  }

  /** No concrete balance's ID is among the IDs of the other balances. */
  lemma ConcreteIDsNotOther(s: seq<Balance>, idx: seq<nat>, n: nat)
    requires ConcreteOnly(s, idx) && UniqueIDs(s)
    ensures forall j :: 0 <= j < |idx| ==> idx[j] < |s| && s[idx[j]].id !in OtherIDsBefore(s, n)
  {
    forall j | 0 <= j < |idx| ensures s[idx[j]].id !in OtherIDsBefore(s, n) {
      assert HasTypeAt(s, idx[j], MetaConcrete);
    }
  }

  /**
   * `newAccountBalances`: collect and sort the account's balances, index them
   * by type, build the concrete operators, then the others. On an unsupported
   * type the partly built container is returned together with the error.
   */
  method NewAccountBalances(acnt: AccountProfile, fltrS: FilterS?, connMgr: ConnManager?,
                            attrSConns: seq<string>, rateSConns: seq<string>)
    returns (acntBlncs: AccountBalances, err: Option<string>, ghost made: set<AbstractBalance>)
    requires BalancesKeyedByID(acnt.balances)
    ensures fresh(acntBlncs) && fresh(acntBlncs.cncrtBlncs)
    ensures multiset(acntBlncs.blnCfgs) == multiset(acnt.balances.Values)
    ensures SortedByWeight(acntBlncs.blnCfgs, BalanceWeight)
    ensures acntBlncs.fltrS == fltrS && acntBlncs.connMgr == connMgr
    ensures acntBlncs.attrSConns == attrSConns && acntBlncs.rateSConns == rateSConns
    ensures acntBlncs.typIdx == TypeIndex(acntBlncs.blnCfgs)
    ensures acntBlncs.ConcreteOperatorsBuilt()
    ensures var s, end := acntBlncs.blnCfgs, FirstUnsupported(acntBlncs.blnCfgs);
      (err.None? <==> end == |s|) &&
      (end < |s| ==> err == Some(UnsupportedTypeError(s[end].typ)) &&
                     s[end].id in acntBlncs.opers && acntBlncs.opers[s[end].id] == NilOperator)
    ensures fresh(made) &&
      AbstractOperatorsIn(acntBlncs.blnCfgs, FirstUnsupported(acntBlncs.blnCfgs), acntBlncs.cncrtBlncs,
                          acntBlncs.opers, made, fltrS, connMgr, attrSConns, rateSConns)
    ensures acntBlncs.opers.Keys == TriedIDs(acntBlncs.blnCfgs)
    ensures acntBlncs.opers.Keys <= acnt.balances.Keys
    ensures err.None? ==> acntBlncs.opers.Keys == acnt.balances.Keys
  {
    var blncs;
    ghost var order;
    blncs, order := CollectBalances(acnt.balances);
    blncs := SortBalances(blncs);
    CollectedIDs(blncs, acnt.balances);
    acntBlncs, err, made := BuildAccountBalances(blncs, fltrS, connMgr, attrSConns, rateSConns);
  }

  /**
   * The IDs of a list collected from a map keyed by ID: pairwise distinct,
   * every prefix's IDs among the keys, and all of them together the keys.
   */
  lemma CollectedIDs(s: seq<Balance>, balances: map<string, Balance>)
    requires BalancesKeyedByID(balances) && multiset(s) == multiset(balances.Values)
    ensures UniqueIDs(s)
    ensures TriedIDs(s) <= balances.Keys
    ensures IDsOfType(s, MetaConcrete) + OtherIDsBefore(s, |s| + 1) == balances.Keys
  {
    KeyedBalancesHaveUniqueIDs(s, balances);
    IDsWithin(s, FirstUnsupported(s) + 1, balances.Keys);
    AllIDs(s, balances);
  }

  /** Lines 39-61 applied to the sorted balance list. */
  method BuildAccountBalances(blncs: seq<Balance>, fltrS: FilterS?, connMgr: ConnManager?,
                              attrSConns: seq<string>, rateSConns: seq<string>)
    returns (acntBlncs: AccountBalances, err: Option<string>, ghost made: set<AbstractBalance>)
    requires UniqueIDs(blncs)
    ensures fresh(acntBlncs) && fresh(acntBlncs.cncrtBlncs)
    ensures acntBlncs.blnCfgs == blncs
    ensures acntBlncs.fltrS == fltrS && acntBlncs.connMgr == connMgr
    ensures acntBlncs.attrSConns == attrSConns && acntBlncs.rateSConns == rateSConns
    ensures acntBlncs.typIdx == TypeIndex(blncs)
    ensures acntBlncs.ConcreteOperatorsBuilt()
    ensures var end := FirstUnsupported(blncs);
      (err.None? <==> end == |blncs|) &&
      (end < |blncs| ==> err == Some(UnsupportedTypeError(blncs[end].typ)) &&
                         blncs[end].id in acntBlncs.opers && acntBlncs.opers[blncs[end].id] == NilOperator)
    ensures fresh(made) &&
      AbstractOperatorsIn(blncs, FirstUnsupported(blncs), acntBlncs.cncrtBlncs, acntBlncs.opers, made,
                          fltrS, connMgr, attrSConns, rateSConns)
    ensures acntBlncs.opers.Keys == TriedIDs(blncs)
    ensures err.None? ==> acntBlncs.opers.Keys == IDsOfType(blncs, MetaConcrete) + OtherIDsBefore(blncs, |blncs| + 1)
  {
    acntBlncs := IndexedWithConcrete(blncs, fltrS, connMgr, attrSConns, rateSConns);
    ghost var concreteIDs := acntBlncs.opers.Keys;
    err, made := acntBlncs.BuildOtherOperators();
    assert acntBlncs.blnCfgs == blncs;
    if err.None? {
      assert FirstUnsupported(blncs) == |blncs|;
      assert acntBlncs.opers.Keys == concreteIDs + OtherIDsBefore(blncs, |blncs| + 1);
    }
  }

  /** Lines 39-50: the container literal, the type index and the concrete operators. */
  method IndexedWithConcrete(blncs: seq<Balance>, fltrS: FilterS?, connMgr: ConnManager?,
                             attrSConns: seq<string>, rateSConns: seq<string>)
    returns (acntBlncs: AccountBalances)
    requires UniqueIDs(blncs)
    ensures fresh(acntBlncs) && fresh(acntBlncs.cncrtBlncs)
    ensures acntBlncs.blnCfgs == blncs
    ensures acntBlncs.fltrS == fltrS && acntBlncs.connMgr == connMgr
    ensures acntBlncs.attrSConns == attrSConns && acntBlncs.rateSConns == rateSConns
    ensures acntBlncs.typIdx == TypeIndex(blncs)
    ensures ConcreteOnly(blncs, acntBlncs.ConcreteIdx())
    ensures acntBlncs.ConcreteOperatorsBuilt()
    ensures acntBlncs.opers.Keys == IDsOfType(blncs, MetaConcrete)
  {
    acntBlncs := new AccountBalances(blncs, fltrS, connMgr, attrSConns, rateSConns);
    acntBlncs.IndexByType();
    ConcreteIdxDistinctIDs(blncs, acntBlncs.ConcreteIdx());
    ConcreteIdxIDs(blncs, acntBlncs.ConcreteIdx());
    ConcreteIdxPositions(blncs, acntBlncs.ConcreteIdx());
    acntBlncs.BuildConcreteOperators();
  }

  /** IDs drawn from a list whose every ID is in keys are in keys. */
  lemma IDsWithin(s: seq<Balance>, n: nat, keys: set<string>)
    requires forall i :: 0 <= i < |s| ==> s[i].id in keys
    ensures IDsOfType(s, MetaConcrete) + OtherIDsBefore(s, n) <= keys
  {
  }

  /** On success every ID has an operator: the concrete IDs and the others together are all the keys. */
  lemma AllIDs(s: seq<Balance>, balances: map<string, Balance>)
    requires BalancesKeyedByID(balances) && multiset(s) == multiset(balances.Values)
    ensures IDsOfType(s, MetaConcrete) + OtherIDsBefore(s, |s| + 1) == balances.Keys
  {
    KeyedBalancesHaveUniqueIDs(s, balances);
    forall k | k in balances ensures k in IDsOfType(s, MetaConcrete) + OtherIDsBefore(s, |s| + 1) {
      assert balances[k] in balances.Values;
      assert balances[k] in multiset(s);
      var j :| 0 <= j < |s| && s[j] == balances[k];
      assert s[j].id == k;
    }
  }

  // ---------------------------------------------------------------------
  // The construction as written
  // ---------------------------------------------------------------------

  /**
   * Lines 34-37 as written: the list is made with one nil entry per balance
   * and the loop appends after them, so it ends with twice as many entries,
   * the first half nil. The sort of line 38, if its comparator reads the
   * weight, or else the index loop of line 42, reads through the first of them.
   */
  method CollectBalancesAsWritten(balances: map<string, Balance>) returns (blncs: seq<Option<Balance>>)
    ensures |blncs| == 2 * |balances|
    ensures forall i :: 0 <= i < |balances| ==> blncs[i] == None
    ensures forall i :: |balances| <= i < |blncs| ==> blncs[i].Some? && blncs[i].value in balances.Values
  {
    blncs := seq(|balances|, _ => None);
    var rest := balances.Keys;
    while rest != {}
      invariant rest <= balances.Keys && |blncs| + |rest| == 2 * |balances|
      invariant forall i :: 0 <= i < |balances| ==> blncs[i] == None
      invariant forall i :: |balances| <= i < |blncs| ==> blncs[i].Some? && blncs[i].value in balances.Values
      decreases |rest|
    {
      var k :| k in rest;
      blncs := blncs + [Some(balances[k])];
      rest := rest - {k};
    }
  }

  /** A Go map value: nil, or made (a literal or `make`). */
  datatype GoMap<V> = NilMap | Made(entries: map<string, V>)

  /**
   * Storing into a Go map: a made map takes the entry; storing into a nil map
   * panics (None).
   */
  function GoMapStore<V>(gm: GoMap<V>, k: string, v: V): (r: Option<GoMap<V>>)
    ensures r.None? <==> gm.NilMap?
    ensures r.Some? ==> (r.value.Made? && k in r.value.entries && r.value.entries[k] == v &&
      forall k' :: k' in gm.entries && k' != k ==> k' in r.value.entries && r.value.entries[k'] == gm.entries[k'])
  {
    match gm
    case NilMap => None
    case Made(m) => Some(Made(m[k := v]))
  }

  /** Reading a Go map: a nil map, like a missing key, yields the zero value. */
  function GoMapGet<V>(gm: GoMap<V>, k: string, zero: V): (v: V)
    ensures gm.Made? && k in gm.entries ==> v == gm.entries[k]
    ensures (gm.NilMap? || k !in gm.entries) ==> v == zero
  {
    match gm
    case NilMap => zero
    case Made(m) => if k in m then m[k] else zero
  }

  /** The map a store leaves behind, or the old one if the store panicked. */
  function StoredOr<V>(stored: Option<GoMap<V>>, gm: GoMap<V>): GoMap<V>
  {
    match stored
    case Some(g) => g
    case None => gm
  }

  /**
   * Lines 39-43 as written: the literal leaves typIdx nil, so the first store
   * of the index loop panics; the loop only gets through a list with no
   * balance at all.
   */
  method IndexByTypeAsWritten(s: seq<Balance>) returns (typIdx: GoMap<seq<nat>>, panicked: bool)
    ensures panicked <==> s != []
    ensures typIdx == NilMap
  {
    typIdx, panicked := NilMap, false;
    var i := 0;
    while i < |s| && !panicked
      invariant 0 <= i <= |s| && typIdx == NilMap && (panicked <==> i > 0)
    {
      var t := s[i].typ;
      var stored := GoMapStore(typIdx, t, GoMapGet(typIdx, t, []) + [i]);
      panicked := stored.None?;
      typIdx := StoredOr(stored, typIdx);
      i := i + 1;
    }
  }
}
