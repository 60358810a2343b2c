/** The dashboard page of `src/app/page.tsx`: the day's statistics and the
    top-picks ranking computed from the fetched listings. */
module Dashboard {
  import opened Types
  import Seqs

  datatype DashboardStats = DashboardStats(
    totalToday: nat,
    goCount: nat,
    pruefenCount: nat,
    bestYield: Option<real>)

  // ---------------------------------------------------------------------------
  // bestYield

  function Max(a: real, b: real): real { if a < b then b else a }

  /** One step of the `reduce`: a listing without a yield leaves the best as
      it is; otherwise the best becomes its yield or the larger of the two. */
  function BestStep(best: Option<real>, l: Listing): Option<real> {
    match l.yieldPct
    case None => best
    case Some(y) =>
      match best
      case None => Some(y)
      case Some(b) => Some(Max(b, y))
  }

  /** `reduce(BestStep, acc)` over `ls`, left to right. */
  function FoldBest(acc: Option<real>, ls: seq<Listing>): Option<real>
    decreases |ls|
  {
    if ls == [] then acc else FoldBest(BestStep(acc, ls[0]), ls[1..])
  }

  /** The highest yield among the listings with a yield, if there is one. */
  ghost predicate IsBestOf(best: Option<real>, ls: seq<Listing>) {
    && (best.None? <==> forall l :: l in ls ==> l.yieldPct.None?)
    && (best.Some? ==> forall l :: l in ls && l.yieldPct.Some? ==> l.yieldPct.value <= best.value)
    && (best.Some? ==> exists l :: l in ls && l.yieldPct == best)
  }

  lemma {:induction false} FoldBestIsBest(acc: Option<real>, ls: seq<Listing>, seen: seq<Listing>)
    requires IsBestOf(acc, seen)
    ensures IsBestOf(FoldBest(acc, ls), seen + ls)
    decreases |ls|
  {
    if ls == [] {
      assert seen + ls == seen;
    } else {
      var next := BestStep(acc, ls[0]);
      var seen' := seen + [ls[0]];
      assert IsBestOf(next, seen') by {
        forall l | l in seen' ensures l in seen || l == ls[0] { }
        if next.Some? {
          if ls[0].yieldPct == next {
            assert ls[0] in seen';
          } else {
            var w :| w in seen && w.yieldPct == acc;
            assert w in seen';
          }
        }
      }
      FoldBestIsBest(next, ls[1..], seen');
      assert seen' + ls[1..] == seen + ls;
    }
  }

  /** `bestYield`: the fold over the GO listings, starting from null. It is
      null exactly when no GO listing has a yield; otherwise it is the yield
      of some GO listing and no GO yield is above it. */
  function BestYield(listings: seq<Listing>): (r: Option<real>)
    ensures r.None? <==> forall l :: l in listings && IsGo(l) ==> l.yieldPct.None?
    ensures r.Some? ==>
              forall l :: l in listings && IsGo(l) && l.yieldPct.Some? ==> l.yieldPct.value <= r.value
    ensures r.Some? ==> exists l :: l in listings && IsGo(l) && l.yieldPct == r
  {
    var go := Seqs.Filter(listings, IsGo);
    FoldBestIsBest(None, go, []);
    assert [] + go == go;
    FoldBest(None, go)
  }

  /** The yield of a listing that is not GO never changes `bestYield`. */
  lemma {:induction false} NonGoYieldIgnored(listings: seq<Listing>, i: nat, y: Option<real>)
    requires i < |listings| && !IsGo(listings[i])
    ensures BestYield(listings[i := listings[i].(yieldPct := y)]) == BestYield(listings)
  {
    var changed := listings[i := listings[i].(yieldPct := y)];
    assert listings == listings[..i] + [listings[i]] + listings[i + 1..];
    assert changed == listings[..i] + [changed[i]] + listings[i + 1..];
    Seqs.FilterAppend(listings[..i] + [listings[i]], listings[i + 1..], IsGo);
    Seqs.FilterAppend(listings[..i], [listings[i]], IsGo);
    Seqs.FilterAppend(listings[..i] + [changed[i]], listings[i + 1..], IsGo);
    Seqs.FilterAppend(listings[..i], [changed[i]], IsGo);
    assert Seqs.Filter([listings[i]], IsGo) == [];
    assert Seqs.Filter([changed[i]], IsGo) == [];
  }

  // ---------------------------------------------------------------------------
  // stats

  /** The `stats` object. */
  function Stats(listings: seq<Listing>): (r: DashboardStats)
    ensures r.totalToday == |listings|
    ensures r.goCount == Seqs.PositionCount(listings, IsGo)
    ensures r.pruefenCount == Seqs.PositionCount(listings, IsPruefen)
    ensures r.goCount + r.pruefenCount <= r.totalToday
    ensures r.bestYield == BestYield(listings)
  {
    Seqs.FilterCountsIndices(listings, IsGo);
    Seqs.FilterCountsIndices(listings, IsPruefen);
    Seqs.FilterDisjointBound(listings, IsGo, IsPruefen, IsNoGo);
    DashboardStats(
      |listings|,
      |Seqs.Filter(listings, IsGo)|,
      |Seqs.Filter(listings, IsPruefen)|,
      BestYield(listings))
  }

  // ---------------------------------------------------------------------------
  // topPicks

  /** `statusOrder[status] ?? 2`. */
  function StatusRank(l: Listing): nat {
    if l.status == GO then 0 else if l.status == PRUEFEN then 1 else 2
  }

  /** `bYield < aYield` with `null` read as `-Infinity`. Two missing yields
      compare equal: `-Infinity - -Infinity` is NaN, which `sort` takes as 0. */
  predicate YieldAbove(a: Option<real>, b: Option<real>) {
    match (a, b)
    case (Some(_), None) => true
    case (Some(x), Some(y)) => x > y
    case _ => false
  }

  /** The comparator puts `b` strictly before `a`. */
  predicate RankAfter(a: Listing, b: Listing) {
    StatusRank(a) > StatusRank(b) ||
    (StatusRank(a) == StatusRank(b) && YieldAbove(b.yieldPct, a.yieldPct))
  }

  predicate RankSorted(s: seq<Listing>) {
    forall i, j :: 0 <= i < j < |s| ==> !RankAfter(s[i], s[j])
  }

  /** Insertion of `x` before the first element it does not come after. */
  function Insert(x: Listing, s: seq<Listing>): (r: seq<Listing>)
    ensures multiset(r) == multiset(s) + multiset{x}
    ensures |r| == |s| + 1
  {
    if s == [] then [x]
    else
      assert s == [s[0]] + s[1..];
      if RankAfter(x, s[0]) then [s[0]] + Insert(x, s[1..]) else [x] + s
  }

  lemma {:induction false} InsertSorted(x: Listing, s: seq<Listing>)
    requires RankSorted(s)
    ensures RankSorted(Insert(x, s))
  {
    if s != [] && RankAfter(x, s[0]) {
      InsertSorted(x, s[1..]);
      var r := Insert(x, s[1..]);
      forall y | y in r ensures !RankAfter(s[0], y) {
        assert y in multiset(r);
        if y != x {
          assert y in multiset(s[1..]);
          var k :| 0 <= k < |s[1..]| && s[1..][k] == y;
          assert s[k + 1] == y;
        }
      }
    } else if s != [] {
      forall j | 0 <= j < |s| ensures !RankAfter(x, s[j]) {
        if j > 0 { assert !RankAfter(s[0], s[j]); }
      }
    }
  }

  /** `sort` with the top-picks comparator. `Array.prototype.sort` is
      stable, which insertion from the back reproduces. */
  function RankSort(s: seq<Listing>): (r: seq<Listing>)
    ensures multiset(r) == multiset(s)
    ensures |r| == |s|
  {
    if s == [] then []
    else
      assert s == [s[0]] + s[1..];
      Insert(s[0], RankSort(s[1..]))
  }

  lemma {:induction false} RankSortSorted(s: seq<Listing>)
    ensures RankSorted(RankSort(s))
  {
    if s != [] {
      RankSortSorted(s[1..]);
      InsertSorted(s[0], RankSort(s[1..]));
    }
  }

  predicate IsPick(l: Listing) { IsGo(l) || IsPruefen(l) }

  /** The complete ordering the top picks are cut from: every GO and PRÜFEN
      listing, as often as in the input and nothing else, in comparator order. */
  function Ranked(listings: seq<Listing>): (r: seq<Listing>)
    ensures forall l :: multiset(r)[l] == if IsPick(l) then multiset(listings)[l] else 0
    ensures forall l :: l in r <==> l in listings && IsPick(l)
    ensures |r| == |Seqs.Filter(listings, IsGo)| + |Seqs.Filter(listings, IsPruefen)|
    ensures RankSorted(r)
  {
    var picked := Seqs.Filter(listings, IsPick);
    Seqs.FilterSplit(listings, IsGo, IsPruefen, IsPick);
    Seqs.FilterMultiset(listings, IsPick);
    RankSortSorted(picked);
    var r := RankSort(picked);
    assert forall l :: l in r <==> l in multiset(r);
    assert forall l :: l in picked <==> l in multiset(picked);
    r
  }

  /** `topPicks`: the first `min(4, #GO + #PRÜFEN)` of the ranking, so each is
      a GO or PRÜFEN listing of the input, GO before PRÜFEN and then by yield. */
  function TopPicks(listings: seq<Listing>): (r: seq<Listing>)
    ensures var n := |Seqs.Filter(listings, IsGo)| + |Seqs.Filter(listings, IsPruefen)|;
            |r| == (if n < 4 then n else 4)
    ensures r <= Ranked(listings)
    ensures forall l :: l in r ==> l in listings && IsPick(l)
    ensures RankSorted(r)
  {
    var ranked := Ranked(listings);
    ranked[..if |ranked| < 4 then |ranked| else 4]
  }

  /** In a ranked sequence no PRÜFEN listing precedes a GO listing, and
      within one status the yields do not increase, missing ones last. */
  lemma RankSortedOrder(s: seq<Listing>, i: nat, j: nat)
    requires RankSorted(s) && i < j < |s|
    ensures IsPruefen(s[i]) ==> !IsGo(s[j])
    ensures s[i].status == s[j].status ==>
              (s[i].yieldPct.None? ==> s[j].yieldPct.None?) &&
              (s[i].yieldPct.Some? && s[j].yieldPct.Some? ==> s[i].yieldPct.value >= s[j].yieldPct.value)
  {
    assert !RankAfter(s[i], s[j]);
  }

}
