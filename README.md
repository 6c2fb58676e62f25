# Account balances of the CGRateS accounts service, in Dafny

This project models the part of the CGRateS accounts service that turns an
account profile into its runtime balance container. It covers:

- **`newAccountBalances`:** collects the profile's balances and sorts them by weight. It then indexes their positions by balance type. It builds one concrete operator per `*concrete` balance; all of them share one slice of the concrete operators. Every other balance gets its operator from the `newBalanceOperator` factory. The construction stops at the first unsupported type, with an error naming that type.
- **`newBalanceOperator`:** the factory for the `balanceOperator` interface. It takes a `*concrete` or `*abstract` balance and answers a nil operator and an error for every other type.
- **`roundedUsageWithIncrements`:** truncates a usage, toward zero, to a whole number of increments.
- **Records:** the account-profile and balance records, with their deep `Clone` and `TenantID`, and the conversions from the API records (`AsBalance`, `AsAccountProfile`). It also covers the weight sort of balance and profile lists.

Files:

- `wrappers.dfy`: `Option`.
- `decimals.dfy`: decimals as `coef · 10^-scale`, with truncating integer division and its lemmas.
- `utils.dfy`: module `Utils`. The records, Clone, TenantID, the API conversions and the sort.
- `accounts.dfy`: module `Accounts`:
  - the rounding;
  - the operator factory;
  - the type index as a function of the ordered balances;
  - the class `AccountBalances`, whose methods fill its fields in place, as `newAccountBalances` does;
  - the members that model the construction as written (see Findings).

How the Go constructs are modelled:

- **Balance-operator interface:** a value of the interface is a datatype. It is nil, a concrete operator or an abstract operator, and the two implementations are classes.
- **`cncrtBlncs` slice:** each concrete operator is handed this slice while it is still being filled. In the model it is an `array` that every operator holds, so the sharing is kept.
- **Order of the balance map:** Go visits a map in no fixed order. The model takes any remaining key at each step.
- **Services:** the filter service and the connection manager are opaque classes that are only passed along. The connection lists are sequences of strings.
- **Numbers:** float64 fields of the API records are the exact decimals they denote.

## Model

| member | source | states |
|---|---|---|
| Accounts.IncrementsIn | accounts/libaccounts.go:100-102 | the `Quo` rounded toward zero and `RoundToInt` on the scale-aligned coefficients: k·incrm is no larger in magnitude than the usage, less than one increment from it, and zero or of the usage's sign |
| Accounts.RoundedUsageWithIncrements | accounts/libaccounts.go:99-105 | the rounded usage exists exactly when the increment is nonzero; it is a multiple of the increment at the increment's scale |
| Accounts.RoundedUsageIsTruncation | accounts/libaccounts.go:99-105 | the result is k·incrm with k the quotient rounded toward zero: no larger in magnitude than the usage, less than one increment away from it, and zero or of the usage's sign, for usages of either sign |
| Accounts.RoundedUsageUnique | accounts/libaccounts.go:99-105 | any multiple of the increment with those three properties is the result: the rounding mode fixes it |
| Accounts.RoundedUsageBounds | accounts/libaccounts.go:99-105 | for a nonnegative usage and a positive increment, 0 ≤ result ≤ usage and usage − result < increment |
| Accounts.RoundedUsageIdempotent | accounts/libaccounts.go:99-105 | rounding a rounded usage again returns it unchanged |
| Accounts.RoundedUsageOfMultiple | accounts/libaccounts.go:99-105 | a usage already equal to k increments rounds to k increments, the same value |
| Accounts.RoundedUsageExample | accounts/libaccounts.go:99-105 | 200 / 1.3 truncates to 153, so 200 rounded by the increment 1.3 (decimal.New(13, 1)) is 153 × 1.3 = 198.9 |
| Accounts.AlignedConditions | accounts/libaccounts.go:100-103 | the decimal conditions on k·incrm are the integer conditions of truncated division on the coefficients brought to a common scale |
| Decimals.TruncDivIsTruncation | accounts/libaccounts.go:100-102 | the quotient rounded toward zero leaves a remainder smaller than the divisor, of the dividend's sign |
| Decimals.TruncDivUnique | accounts/libaccounts.go:100-102 | that quotient is the only one with those properties |
| Accounts.ConcreteBalance.constructor | accounts/libaccounts.go:86 | the concrete operator keeps the balance, the shared concrete slice and the services it is given |
| Accounts.AbstractBalance.constructor | accounts/libaccounts.go:88 | the abstract operator keeps the balance, the concrete slice it cascades into and the services |
| Accounts.NewBalanceOperator | accounts/libaccounts.go:79-90 | no error exactly for `*concrete` and `*abstract`; those give a fresh operator of that kind built from the arguments; any other type gives a nil operator and the error `unsupported balance type: <type>` |
| Accounts.UnsupportedTypeError | accounts/libaccounts.go:84 | the error text is the fixed prefix `unsupported balance type: <`, then the rejected type, then `>`: the type can be read back from it |
| Accounts.TypeIndex | accounts/libaccounts.go:41-42 | the index the loop builds: every list it holds is non-empty and names positions of the balance list only |
| Accounts.TypeIndexMembers | accounts/libaccounts.go:40-43 | a position is listed under type t (an absent key reads as the empty list) exactly when its balance has type t |
| Accounts.TypeIndexAscending | accounts/libaccounts.go:40-43 | every list of the index is strictly ascending, in balance order |
| Accounts.TypeIndexKeys | accounts/libaccounts.go:40-43 | the index has a key for exactly the types that occur |
| Accounts.TypeIndexPositions | accounts/libaccounts.go:40-43 | the three facts above together |
| Accounts.TypeIndexPartitions | accounts/libaccounts.go:40-43 | each position is listed under its own type and under no other |
| Accounts.TypeIndexStep | accounts/libaccounts.go:41-42 | appending a balance appends its position to its own type's list and leaves the other lists alone |
| Accounts.CollectBalances | accounts/libaccounts.go:34-37 | the list holds each balance of the map exactly once, visited in some order of the keys; with balances keyed by ID it is a permutation of the map's values |
| Accounts.KeyedBalancesHaveUniqueIDs | accounts/libaccounts.go:35-38 | every balance of a list collected from a map keyed by ID sits under its own ID, and no two have the same ID |
| Accounts.AccountBalances.constructor | accounts/libaccounts.go:39 | the container keeps the sorted balances and all four services; it has empty maps and no concrete operators yet |
| Accounts.AccountBalances.IndexByType | accounts/libaccounts.go:40-43 | afterwards typIdx is the type index of the balance list |
| Accounts.AccountBalances.BuildConcreteOperators | accounts/libaccounts.go:44-50 | a fresh slice with one fresh operator per concrete position, in index order; each holds its balance, that very slice and the services, and is registered in `opers` under its balance's ID; only those IDs change |
| Accounts.ConcreteOperators | accounts/libaccounts.go:44-50 | the same on plain values: the loop's array, operators and map |
| Accounts.AccountBalances.BuildOtherOperators | accounts/libaccounts.go:51-61 | the concrete operators stay. Every abstract balance before the first unsupported one gets a fresh abstract operator built from it and the concrete slice. At the first unsupported balance, `opers` gets nil under its ID and the error is returned. No error exactly when there is no unsupported balance. Only the IDs of non-concrete balances up to that point change |
| Accounts.OtherOperators | accounts/libaccounts.go:51-61 | the same loop on plain values |
| Accounts.OtherOperatorStep | accounts/libaccounts.go:56-59 | one iteration: the factory's operator stored under the balance's ID, with its error |
| Accounts.FirstUnsupported | accounts/libaccounts.go:52-59 | the position where the loop stops: every earlier balance has a supported type, and the one there does not |
| Accounts.IndexedWithConcrete | accounts/libaccounts.go:39-50 | the literal, the index and the concrete operators: `opers` holds exactly the concrete IDs |
| Accounts.BuildAccountBalances | accounts/libaccounts.go:39-61 | the whole construction on a sorted list with unique IDs. `opers` holds exactly the concrete IDs and the other IDs up to and including the first unsupported balance, and none after it; on success these are all the IDs |
| Accounts.NewAccountBalances | accounts/libaccounts.go:31-62 | `blnCfgs` is the weight-sorted permutation of the profile's balances; `typIdx` is its type index; the concrete and abstract operators are as above; the error is the first unsupported type's. `opers` holds exactly the concrete IDs and the other IDs up to the failing balance, so no ID outside the profile and none after the abort at lines 56-59; on success there is an operator under every balance ID of the profile |
| Accounts.CollectedIDs | accounts/libaccounts.go:34-61 | the IDs of a list collected from a map keyed by ID are distinct; the IDs given operators up to the stop are among the keys, and all the IDs together are the keys |
| Accounts.AllIDs | accounts/libaccounts.go:44-61 | the concrete IDs and the other IDs are together all the keys of the profile's balance map |
| Accounts.CollectBalancesAsWritten | accounts/libaccounts.go:34-37 | as written, the list has twice as many entries as the map, the first half nil |
| Accounts.GoMapStore | accounts/libaccounts.go:42 | storing into a nil Go map panics; a made map takes the entry and keeps the others |
| Accounts.GoMapGet | accounts/libaccounts.go:42 | reading a nil map, or an absent key, gives the zero value |
| Accounts.IndexByTypeAsWritten | accounts/libaccounts.go:39-43 | as written, the index loop panics exactly when there is at least one balance |
| Accounts.AccountBalances.AsWritten | accounts/libaccounts.go:39 | as written, the container's fltrS is nil whatever filter service is passed |
| Utils.Balance.Clone | utils/accountprofile_test.go:29-58 | the clone of a balance equals it, nested lists, maps and decimals included |
| Utils.CostIncrement.Clone | utils/accountprofile_test.go:39-46 | the clone of a cost increment equals it |
| Utils.UnitFactor.Clone | utils/accountprofile_test.go:48-53 | the clone of a unit factor equals it |
| Utils.AccountProfile.Clone | utils/accountprofile_test.go:61-106 | the clone of a profile equals it, its balances and activation interval included |
| Utils.ActivationInterval.Clone | utils/accountprofile_test.go:66-69 | the clone of an activation interval equals it |
| Utils.AccountProfile.TenantID | utils/accountprofile_test.go:109-117 | the key is the tenant, a colon, then the ID |
| Utils.TenantIDSplitsBack | utils/accountprofile_test.go:109-117 | for a tenant without a colon, `Tenant:ID` splits back at its first colon into the tenant and the ID |
| Utils.SplitTenantID | utils/accountprofile_test.go:109-117 | the split at the first colon: the head has no colon and joined with the tail gives back the key |
| Utils.TenantIDExample | utils/accountprofile_test.go:109-117 | TenantID of cgrates.org / test_ID1 is `cgrates.org:test_ID1` |
| Utils.AsBalance | utils/accountprofile_test.go:171-211 | every field is carried over; the cost increments are converted one for one, with a nil fee or increment staying nil and a present one keeping its value; unit factors are converted one for one; Units is always set, to the API value |
| Utils.AsCostIncrement | utils/accountprofile_test.go:174-181 | filters carried over; the increment and the two fees stay nil when nil, and keep their value otherwise |
| Utils.AsUnitFactor | utils/accountprofile_test.go:183-188 | filters carried over; the factor is always set, to the API value |
| Utils.OptionalDecimal | utils/accountprofile_test.go:177-179 | an API float pointer becomes a decimal pointer, nil exactly when it was nil and of the same value otherwise |
| Utils.AsBalanceExample | utils/accountprofile_test.go:171-211 | the test's API balance converts to the test's expected balance, Units 0 included |
| Utils.AsAccountProfile | utils/accountprofile_test.go:120-161 | the profile's fields are carried over and each balance is converted under its own key |
| Utils.AsAccountProfileKeepsKeys | utils/accountprofile_test.go:124-125 | balances keyed by their own ID stay so after conversion |
| Utils.AsAccountProfileExample | utils/accountprofile_test.go:120-161 | the test's API profile converts to the test's expected profile |
| Utils.SortBalances | utils/accountprofile_test.go:213-218 | the result is sorted by descending weight and is a permutation of the input; a one-element list is left as it is |
| Utils.SortAccountProfiles | utils/accountprofile_test.go:163-168 | the same for account profiles |
| Utils.SortByWeight | utils/accountprofile_test.go:163-168 | a weight-descending permutation of any list |
| Utils.InsertByWeight | utils/accountprofile_test.go:163-168 | inserting into a sorted list keeps it sorted and adds exactly the new element |
| Utils.SmallPermutation | utils/accountprofile_test.go:213-218 | a permutation of a list of at most one element is that list |

## Left out

- `debitUsage`, the one method of the operator interface: its implementations are not part of this model. The operator classes hold only what they are built from.
- `newConcreteBalanceOperator` and `newAbstractBalanceOperator` are not part of this model. The operators they build are taken to keep their arguments.
- The filter service and the connection manager: opaque, only passed along.
- Accounts.RoundedUsageWithIncrements: the quotient is taken exactly. The decimal library's default context precision of the `Quo` is not modelled, so very long quotients, which the library would cut to that precision first, may differ.
- Accounts.RoundedUsageWithIncrements: a zero increment, which makes the library quotient infinite or NaN, is modelled as None. Infinite and NaN usages are not modelled.
- Float64 values of the API records are the exact decimals they denote. Binary rounding of floats such as 1.1 is not modelled.
- Utils.SortBalances: the repository's comparator and the sort algorithm are not part of this model. Only a weight-descending permutation is promised, not the placement of equal weights. The sort is modelled on values, not in place.
- The error result of `AsAccountProfile` is not modelled: the conversion of the records here cannot fail.
- Pointer aliasing between the records: records are values, so `Clone` is equality, and that the copy shares no memory with the original is not expressible. Likewise, in Go each operator holds the very `*Balance` that sits in `blnCfgs` (lines 47 and 56). The model gives it a copy of the value, so a later change to the balance through one of them would not show through the other.
- Accounts.NewAccountBalances: it requires every profile balance to be stored under its own ID, as profiles are built. Without that, two keys could hold balances with one ID, and the operator map would be described per key, not per ID.
- The model uses the intended code, not the code as written, at line 34 (no nil prefix) and at line 39 (maps made empty, fltrS kept). The as-written behaviour is modelled separately; see Findings.

## Findings

| source | as written | input that shows it | evidently intended | confidence | as-written member | corrected member |
|---|---|---|---|---|---|---|
| accounts/libaccounts.go:34 | the list is made with length `len(acnt.Balances)`, and the loop appends after those nil entries | one balance: the list is [nil, b], and the nil entry is read through at line 38 (if the sort's comparator reads the weight) or else at line 42 | made with length 0 and capacity `len(acnt.Balances)`, holding just the balances | high (the line itself is marked temporary); not executed | Accounts.CollectBalancesAsWritten | Accounts.CollectBalances |
| accounts/libaccounts.go:39-43 | the literal leaves `typIdx` and `opers` nil, and lines 42, 49 and 56 store into them | one balance of any type: the store at line 42 panics | both maps made empty in the literal | high; not executed | Accounts.IndexByTypeAsWritten | Accounts.AccountBalances.IndexByType |
| accounts/libaccounts.go:39 | the literal sets every service field but `fltrS` | any non-nil filter service: the container's `fltrS` stays nil | `fltrS` set with the others | medium (the field is not read in this file); not executed | Accounts.AccountBalances.AsWritten | Accounts.AccountBalances.constructor |
