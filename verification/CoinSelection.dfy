/**
 * Picking utxos from the wallet: the sort information, the comparator, and the two searches.
 */
module CoinSelection {
  import opened Wrappers
  import opened CharterModel

  /** A wallet utxo; `minAda` is what its output must keep when it holds other assets. */
  datatype Coin = Coin(id: TxOutputId, lovelace: int, pureAda: bool, minAda: int)

  datatype SortInfo = SortInfo(u: Coin, sufficient: bool, free: int, minAdaAmount: int)

  /** An output that holds other assets cannot be free of ada. */
  predicate Sane(c: Coin) {
    !c.pureAda ==> c.minAda > 0
  }

  // ----- sort information -----

  /** `mkUtxoSortInfo`: a maximum of zero is no maximum. */
  function ToSortInfo(c: Coin, min: int, max: Option<int>): SortInfo {
    var minAdaAmount := if c.pureAda then 0 else c.minAda;
    var free := c.lovelace - minAdaAmount;
    SortInfo(c, free > min && (max.Some? && max.value != 0 ==> free < max.value), free, minAdaAmount)
  }

  /** Sufficient means more than the minimum to spare, and less than the maximum if there is one. */
  lemma SufficientExactly(c: Coin, min: int, max: Option<int>)
    ensures var free := if c.pureAda then c.lovelace else c.lovelace - c.minAda;
            ToSortInfo(c, min, max).sufficient <==> free > min && (max.None? || max.value == 0 || free < max.value)
  {
  }

  /** `utxoSortSmallerAndPureADA`. */
  function Compare(a: SortInfo, b: SortInfo): int {
    if a.minAdaAmount == 0 && b.minAdaAmount != 0 then -1
    else if a.minAdaAmount != 0 && b.minAdaAmount == 0 then 1
    else if b.free > a.free then -1
    else if b.free < a.free then 1
    else 0
  }

  /** Main result: the comparator is a total preorder, as a sort needs: it is antisymmetric in sign,
      and both "not after" and "equal" are transitive. */
  lemma CompareIsTotalPreorder(a: SortInfo, b: SortInfo, c: SortInfo)
    ensures Compare(a, b) == -Compare(b, a)
    ensures Compare(a, b) <= 0 && Compare(b, c) <= 0 ==> Compare(a, c) <= 0
    ensures Compare(a, b) == 0 && Compare(b, c) == 0 ==> Compare(a, c) == 0
    ensures Compare(a, b) <= 0 <==>
            ((a.minAdaAmount == 0 && b.minAdaAmount != 0)
             || ((a.minAdaAmount == 0 <==> b.minAdaAmount == 0) && a.free <= b.free))
  {
  }

  // ----- the array pipeline -----

  function MapInfo(coins: seq<Coin>, min: int): seq<SortInfo> {
    if coins == [] then [] else [ToSortInfo(coins[0], min, None)] + MapInfo(coins[1..], min)
  }

  function Coins(infos: seq<SortInfo>): seq<Coin> {
    if infos == [] then [] else [infos[0].u] + Coins(infos[1..])
  }

  function Filter<T(!new)>(s: seq<T>, keep: T -> bool): (r: seq<T>)
    ensures forall x :: x in r <==> x in s && keep(x)
  {
    if s == [] then []
    else if keep(s[0]) then [s[0]] + Filter(s[1..], keep)
    else Filter(s[1..], keep)
  }

  /** After every element that is not after it: the place a stable sort gives it. */
  function Insert(s: seq<SortInfo>, x: SortInfo): seq<SortInfo> {
    if s == [] then [x]
    else if Compare(s[0], x) <= 0 then [s[0]] + Insert(s[1..], x)
    else [x] + s
  }

  /** `sort` with the comparator; JavaScript's sort is stable. */
  function Sort(s: seq<SortInfo>): seq<SortInfo> {
    if s == [] then [] else Insert(Sort(s[..|s| - 1]), s[|s| - 1])
  }

  predicate Sorted(s: seq<SortInfo>) {
    forall i, j :: 0 <= i < j < |s| ==> Compare(s[i], s[j]) <= 0
  }

  lemma {:induction false} InsertIsExact(s: seq<SortInfo>, x: SortInfo)
    requires Sorted(s)
    ensures multiset(Insert(s, x)) == multiset(s) + multiset{x}
    ensures Sorted(Insert(s, x))
  {
    hide Compare;
    if s != [] {
      assert s == [s[0]] + s[1..];
      CompareIsTotalPreorder(s[0], x, x);
      if Compare(s[0], x) <= 0 {
        InsertIsExact(s[1..], x);
        var r := Insert(s[1..], x);
        forall j | 0 <= j < |r| ensures Compare(s[0], r[j]) <= 0 {
          assert r[j] in multiset(r) && (r[j] == x || r[j] in s[1..]);
        }
        HeadInOrder(s[0], r);
      } else {
        forall j | 0 <= j < |s| ensures Compare(x, s[j]) <= 0 {
          CompareIsTotalPreorder(x, s[0], s[j]);
          CompareIsTotalPreorder(s[0], s[0], s[0]);
        }
        HeadInOrder(x, s);
      }
    }
  }

  lemma HeadInOrder(x: SortInfo, s: seq<SortInfo>)
    requires Sorted(s) && forall j :: 0 <= j < |s| ==> Compare(x, s[j]) <= 0
    ensures Sorted([x] + s)
  {
  }

  /** Main result: sorting rearranges, and leaves the list in order. */
  lemma {:induction false} SortIsExact(s: seq<SortInfo>)
    ensures multiset(Sort(s)) == multiset(s)
    ensures Sorted(Sort(s))
  {
    if s != [] {
      var front := s[..|s| - 1];
      SortIsExact(front);
      InsertIsExact(Sort(front), s[|s| - 1]);
      assert s == front + [s[|s| - 1]];
    }
  }

  /** The elements that are neither before nor after `x`. */
  function Ties(s: seq<SortInfo>, x: SortInfo): seq<SortInfo> {
    if s == [] then [] else (if Compare(s[0], x) == 0 then [s[0]] else []) + Ties(s[1..], x)
  }

  lemma {:induction false} TiesOfConcat(a: seq<SortInfo>, b: seq<SortInfo>, x: SortInfo)
    ensures Ties(a + b, x) == Ties(a, x) + Ties(b, x)
  {
    hide Compare;
    if a == [] {
      assert a + b == b;
    } else {
      assert (a + b)[1..] == a[1..] + b;
      TiesOfConcat(a[1..], b, x);
    }
  }

  lemma {:induction false} NoTiesAfter(s: seq<SortInfo>, x: SortInfo)
    requires forall i :: 0 <= i < |s| ==> Compare(s[i], x) > 0
    ensures Ties(s, x) == []
  {
    if s != [] {
      NoTiesAfter(s[1..], x);
    }
  }

  /** A new element goes behind those it ties with. */
  lemma {:induction false} InsertKeepsTies(s: seq<SortInfo>, y: SortInfo, x: SortInfo)
    requires Sorted(s)
    ensures Ties(Insert(s, y), x) == Ties(s, x) + Ties([y], x)
  {
    hide Compare;
    if s == [] {
      assert [] + Ties([y], x) == Ties([y], x);
    } else if Compare(s[0], y) <= 0 {
      InsertKeepsTies(s[1..], y, x);
      var r := Insert(s[1..], y);
      assert ([s[0]] + r)[1..] == r;
    } else {
      assert Insert(s, y) == [y] + s;
      TiesOfConcat([y], s, x);
      if Compare(y, x) == 0 {
        forall i | 0 <= i < |s| ensures Compare(s[i], x) > 0 {
          CompareIsTotalPreorder(s[0], s[i], s[i]);
          CompareIsTotalPreorder(x, y, s[0]);
          CompareIsTotalPreorder(y, x, x);
          AfterStays(y, s[0], s[i], x);
          if i > 0 { assert Compare(s[0], s[i]) <= 0; }
        }
        NoTiesAfter(s, x);
      } else {
        assert Ties([y], x) == [];
      }
    }
  }

  lemma AfterStays(y: SortInfo, a: SortInfo, b: SortInfo, x: SortInfo)
    requires Compare(a, y) > 0 && Compare(y, x) == 0
    ensures Compare(a, b) <= 0 || a == b ==> Compare(b, x) > 0
  {
  }

  /** Main result: the sort is stable: elements that tie keep their order. */
  lemma {:induction false} SortIsStable(s: seq<SortInfo>, x: SortInfo)
    ensures Ties(Sort(s), x) == Ties(s, x)
  {
    hide Compare;
    if s != [] {
      var front, last := s[..|s| - 1], s[|s| - 1];
      SortIsStable(front, x);
      SortIsExact(front);
      InsertKeepsTies(Sort(front), last, x);
      assert s == front + [last];
      TiesOfConcat(front, [last], x);
    }
  }

  /** Main result: in order means pure-ada utxos first, each part ascending by free lovelace. */
  lemma SortedMeansPureFirst(s: seq<SortInfo>, i: int, j: int)
    requires 0 <= i < j < |Sort(s)|
    ensures var a := Sort(s)[i]; var b := Sort(s)[j];
            && (b.minAdaAmount == 0 ==> a.minAdaAmount == 0)
            && ((a.minAdaAmount == 0 <==> b.minAdaAmount == 0) ==> a.free <= b.free)
  {
    SortIsExact(s);
    CompareIsTotalPreorder(Sort(s)[i], Sort(s)[j], Sort(s)[j]);
  }

  lemma SortMembers(s: seq<SortInfo>, x: SortInfo)
    ensures x in Sort(s) <==> x in s
  {
    SortIsExact(s);
    assert x in multiset(Sort(s)) <==> x in multiset(s);
  }

  lemma {:induction false} MapInfoMembers(coins: seq<Coin>, min: int, x: SortInfo)
    ensures x in MapInfo(coins, min) <==> x.u in coins && x == ToSortInfo(x.u, min, None)
  {
    if coins != [] {
      MapInfoMembers(coins[1..], min, x);
    }
  }

  lemma {:induction false} CoinsMembers(infos: seq<SortInfo>, c: Coin)
    ensures |Coins(infos)| == |infos|
    ensures c in Coins(infos) <==> exists x :: x in infos && x.u == c
  {
    if infos != [] {
      CoinsMembers(infos[1..], c);
    }
  }

  // ----- the searches -----

  /** The context's inputs and collateral, which are spoken for. */
  datatype Reserved = Reserved(inputs: seq<TxOutputId>, collateral: Option<TxOutputId>)

  /** `utxoNotReserved`. */
  predicate NotReserved(r: Reserved, c: Coin) {
    r.collateral != Some(c.id) && c.id !in r.inputs
  }

  /** A coin the smallest-utxo search may pick. */
  predicate Eligible(c: Coin, lovelace: int, tcx: Option<Reserved>) {
    c.pureAda && c.lovelace > lovelace && (tcx.Some? ==> tcx.value.collateral != Some(c.id) && c.id !in tcx.value.inputs)
  }

  /** `findSmallestUnusedUtxo`: the first after filtering and sorting. */
  function FindSmallestUnusedUtxo(lovelace: int, utxos: seq<Coin>, tcx: Option<Reserved>): Option<Coin> {
    var infos := MapInfo(utxos, lovelace);
    var pure := Filter(infos, (x: SortInfo) => x.u.pureAda);
    var enough := Filter(pure, (x: SortInfo) => x.sufficient);
    var unused := Filter(enough, (x: SortInfo) => tcx.None? || NotReserved(tcx.value, x.u));
    var found := Coins(Sort(unused));
    if found == [] then None else Some(found[0])
  }

  /** Main result: the search finds an unreserved, sufficient, pure-ada utxo with the least lovelace
      of all such, and fails only when there is none. */
  lemma SmallestUnusedIsLeast(lovelace: int, utxos: seq<Coin>, tcx: Option<Reserved>)
    ensures var r := FindSmallestUnusedUtxo(lovelace, utxos, tcx);
            && (r.Some? ==> r.value in utxos && Eligible(r.value, lovelace, tcx)
                            && forall c <- utxos :: Eligible(c, lovelace, tcx) ==> r.value.lovelace <= c.lovelace)
            && (r.None? <==> forall c <- utxos :: !Eligible(c, lovelace, tcx))
  {
    hide Sort, MapInfo, Filter;
    var infos := MapInfo(utxos, lovelace);
    var pure := Filter(infos, (x: SortInfo) => x.u.pureAda);
    var enough := Filter(pure, (x: SortInfo) => x.sufficient);
    var unused := Filter(enough, (x: SortInfo) => tcx.None? || NotReserved(tcx.value, x.u));
    var sorted := Sort(unused);
    forall x ensures x in sorted <==> x.u in utxos && Eligible(x.u, lovelace, tcx) && x == ToSortInfo(x.u, lovelace, None) {
      SortMembers(unused, x);
      MapInfoMembers(utxos, lovelace, x);
    }
    SortIsExact(unused);
    if sorted == [] {
      forall c <- utxos ensures !Eligible(c, lovelace, tcx) {
        assert ToSortInfo(c, lovelace, None) !in sorted;
      }
    } else {
      var r := sorted[0];
      assert r in sorted;
      assert Coins(sorted)[0] == r.u;
      forall c <- utxos | Eligible(c, lovelace, tcx) ensures r.u.lovelace <= c.lovelace {
        var x := ToSortInfo(c, lovelace, None);
        assert x in sorted;
        var j :| 0 <= j < |sorted| && sorted[j] == x;
        if j > 0 { assert Compare(sorted[0], sorted[j]) <= 0; }
      }
    }
  }

  const MIGHT_NEED_FEES := 3_500_000

  datatype SpareError = OnFacade | NoUtxos

  function CountAdaOnly(infos: seq<SortInfo>): nat {
    if infos == [] then 0 else (if infos[0].minAdaAmount == 0 then 1 else 0) + CountAdaOnly(infos[1..])
  }

  /** The utxos that the search in the wallet leaves: neither the wallet's own collateral nor reserved
      by the transaction. */
  predicate Available(collateral: Option<TxOutputId>, tcx: Reserved, c: Coin) {
    collateral != Some(c.id) && tcx.collateral != Some(c.id) && c.id !in tcx.inputs
  }

  /** `findAnySpareUtxos`, by way of `hasUtxo`, which drops the wallet's collateral first. */
  function FindAnySpareUtxos(isFacade: bool, wallet: seq<Coin>, collateral: Option<TxOutputId>, tcx: Reserved)
    : Result<seq<Coin>, SpareError> {
    var notCollateral := Filter(wallet, (c: Coin) => collateral != Some(c.id));
    var free := Filter(notCollateral, (c: Coin) => NotReserved(tcx, c));
    if isFacade then Err(OnFacade)
    else if free == [] then Err(NoUtxos)
    else
      var allSpares := Sort(Filter(MapInfo(free, MIGHT_NEED_FEES), (x: SortInfo) => x.sufficient));
      if CountAdaOnly(allSpares) > 0 then Ok(Coins(Filter(allSpares, (x: SortInfo) => x.u.pureAda)))
      else Ok(Coins(allSpares))
  }

  /** The lovelace a coin has to spare. */
  function Free(c: Coin): int {
    if c.pureAda then c.lovelace else c.lovelace - c.minAda
  }

  predicate Spare(collateral: Option<TxOutputId>, tcx: Reserved, c: Coin) {
    Available(collateral, tcx, c) && Free(c) > 3_500_000
  }

  lemma {:induction false} CountAdaOnlyIsPositive(infos: seq<SortInfo>)
    ensures CountAdaOnly(infos) > 0 <==> exists x :: x in infos && x.minAdaAmount == 0
  {
    if infos != [] {
      CountAdaOnlyIsPositive(infos[1..]);
      assert infos[0] in infos;
    }
  }

  /** Main result: the spares are exactly the available, sufficient utxos, or exactly the pure-ada
      ones among them when there are any; the search throws exactly on a facade or when nothing is
      available. */
  lemma SparesAreExact(isFacade: bool, wallet: seq<Coin>, collateral: Option<TxOutputId>, tcx: Reserved)
    requires forall c <- wallet :: Sane(c)
    ensures var r := FindAnySpareUtxos(isFacade, wallet, collateral, tcx);
            && (r.Err? <==> isFacade || forall c <- wallet :: !Available(collateral, tcx, c))
            && (r.Ok? ==>
                  var anyPure := exists c :: c in wallet && Spare(collateral, tcx, c) && c.pureAda;
                  forall c :: c in r.value <==> c in wallet && Spare(collateral, tcx, c) && (anyPure ==> c.pureAda))
  {
    var free := Filter(Filter(wallet, (c: Coin) => collateral != Some(c.id)), (c: Coin) => NotReserved(tcx, c));
    if free == [] {
      assert forall c <- wallet :: c !in free;
    } else {
      assert free[0] in free;
      var enough := Filter(MapInfo(free, MIGHT_NEED_FEES), (x: SortInfo) => x.sufficient);
      var allSpares := Sort(enough);
      forall x ensures x in allSpares <==>
                       x.u in wallet && Spare(collateral, tcx, x.u) && x == ToSortInfo(x.u, MIGHT_NEED_FEES, None)
      {
        SortMembers(enough, x);
        MapInfoMembers(free, MIGHT_NEED_FEES, x);
      }
      CountAdaOnlyIsPositive(allSpares);
      var pure := Filter(allSpares, (x: SortInfo) => x.u.pureAda);
      forall c ensures (c in Coins(allSpares) <==> c in wallet && Spare(collateral, tcx, c))
                       && (c in Coins(pure) <==> c in wallet && Spare(collateral, tcx, c) && c.pureAda)
      {
        CoinsMembers(allSpares, c);
        CoinsMembers(pure, c);
        var x := ToSortInfo(c, MIGHT_NEED_FEES, None);
        assert x in allSpares <==> c in wallet && Spare(collateral, tcx, c);
      }
      forall c | c in wallet && Spare(collateral, tcx, c) && c.pureAda ensures CountAdaOnly(allSpares) > 0 {
        assert ToSortInfo(c, MIGHT_NEED_FEES, None) in allSpares;
      }
    }
  }

  lemma {:induction false} FilterKeepsSorted(s: seq<SortInfo>, keep: SortInfo -> bool)
    requires Sorted(s)
    ensures Sorted(Filter(s, keep))
  {
    hide Compare;
    if s != [] {
      FilterKeepsSorted(s[1..], keep);
      var r := Filter(s[1..], keep);
      forall j | 0 <= j < |r| ensures Compare(s[0], r[j]) <= 0 {
        assert r[j] in r && r[j] in s[1..];
      }
      HeadInOrder(s[0], r);
    }
  }

  lemma {:induction false} CoinsAt(infos: seq<SortInfo>)
    ensures |Coins(infos)| == |infos| && forall i :: 0 <= i < |infos| ==> Coins(infos)[i] == infos[i].u
  {
    if infos != [] {
      CoinsAt(infos[1..]);
    }
  }

  lemma SortInfoIs(c: Coin)
    requires Sane(c)
    ensures var x := ToSortInfo(c, MIGHT_NEED_FEES, None); x.u == c && x.free == Free(c) && (x.minAdaAmount == 0 <==> c.pureAda)
  {
  }

  lemma OrderIsByFree(a: SortInfo, b: SortInfo)
    requires Compare(a, b) <= 0 && (a.minAdaAmount == 0 <==> b.minAdaAmount == 0)
    ensures a.free <= b.free
  {
  }

  /** Main result: the spares come smallest first. */
  lemma SparesInOrder(isFacade: bool, wallet: seq<Coin>, collateral: Option<TxOutputId>, tcx: Reserved, i: nat, j: nat)
    requires forall c <- wallet :: Sane(c)
    requires var r := FindAnySpareUtxos(isFacade, wallet, collateral, tcx); r.Ok? && i < j < |r.value|
    ensures var r := FindAnySpareUtxos(isFacade, wallet, collateral, tcx).value; Free(r[i]) <= Free(r[j])
  {
    var free := Filter(Filter(wallet, (c: Coin) => collateral != Some(c.id)), (c: Coin) => NotReserved(tcx, c));
    var enough := Filter(MapInfo(free, MIGHT_NEED_FEES), (x: SortInfo) => x.sufficient);
    var allSpares := Sort(enough);
    SortIsExact(enough);
    forall x | x in allSpares ensures x.free == Free(x.u) && (x.minAdaAmount == 0 <==> x.u.pureAda) {
      SortMembers(enough, x);
      MapInfoMembers(free, MIGHT_NEED_FEES, x);
      SortInfoIs(x.u);
    }
    hide ToSortInfo, Compare, Sort, Free, CountAdaOnly, MapInfo;
    CountAdaOnlyIsPositive(allSpares);
    var pure := (x: SortInfo) => x.u.pureAda;
    FilterKeepsSorted(allSpares, pure);
    var spares := if CountAdaOnly(allSpares) > 0 then Filter(allSpares, pure) else allSpares;
    CoinsAt(spares);
    assert spares[i] in spares && spares[j] in spares;
    OrderIsByFree(spares[i], spares[j]);
  }
}
