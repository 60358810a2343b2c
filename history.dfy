/** The history view of `src/components/pages/HistoryClient.tsx`: the
    date-range filter, the status counts of what it keeps and the state of
    the selection drawer. Timestamps are milliseconds; `now` is the clock
    reading when the filter is computed and `parse` is the date parser. */
module History {
  import opened Types
  import Seqs

  datatype DateRange = Days7 | Days30 | AllTime

  /** The range the view starts with. */
  const DefaultRange := Days7

  /** `dateRange === '7d' ? 7 : 30`. */
  function Days(range: DateRange): nat {
    if range == Days7 then 7 else 30
  }

  /** The earliest analysis time a bounded range keeps. */
  function Cutoff(range: DateRange, now: int): (c: int)
    ensures range == Days7 ==> c == now - 7 * DayMs
    ensures range == Days30 ==> c == now - 30 * DayMs
  {
    now - Days(range) * DayMs
  }

  /** The `filtered` memo. */
  function InRange(listings: seq<Listing>, range: DateRange, now: int, parse: string -> Option<int>): (r: seq<Listing>)
    ensures range == AllTime ==> r == listings
    ensures range != AllTime ==>
              forall l :: l in r <==> l in listings && AnalyzedSince(l, Cutoff(range, now), parse)
    ensures range != AllTime ==> forall l :: l in r ==> l.analyzedAt != ""
    ensures range != AllTime ==>
              forall l :: multiset(r)[l] ==
                if AnalyzedSince(l, Cutoff(range, now), parse) then multiset(listings)[l] else 0
    ensures |r| <= |listings|
  {
    if range == AllTime then listings
    else
      Seqs.FilterMultiset(listings, (l: Listing) => AnalyzedSince(l, Cutoff(range, now), parse));
      Seqs.Filter(listings, (l: Listing) => AnalyzedSince(l, Cutoff(range, now), parse))
  }

  /** The kept listings stay in their original order. */
  lemma InRangeInOrder(listings: seq<Listing>, range: DateRange, now: int, parse: string -> Option<int>)
    ensures Seqs.Subsequence(InRange(listings, range, now, parse), listings)
  {
    if range == AllTime {
      Seqs.FilterIsSubsequence(listings, (l: Listing) => true);
      Seqs.FilterAll(listings, (l: Listing) => true);
    } else {
      Seqs.FilterIsSubsequence(listings, (l: Listing) => AnalyzedSince(l, Cutoff(range, now), parse));
    }
  }

  /** For one clock reading, the seven-day view is the thirty-day view
      filtered further, and both are subsequences of the full history. */
  lemma RangesNested(listings: seq<Listing>, now: int, parse: string -> Option<int>)
    ensures var week := InRange(listings, Days7, now, parse);
            var month := InRange(listings, Days30, now, parse);
            Seqs.Subsequence(week, month) && Seqs.Subsequence(month, listings)
  {
    var loose := (l: Listing) => AnalyzedSince(l, Cutoff(Days30, now), parse);
    var strict := (l: Listing) => AnalyzedSince(l, Cutoff(Days7, now), parse);
    Seqs.FilterNarrow(listings, loose, strict);
    Seqs.FilterIsSubsequence(Seqs.Filter(listings, loose), strict);
    Seqs.FilterIsSubsequence(listings, loose);
  }

  // ---------------------------------------------------------------------------
  // stats

  datatype HistoryStats = HistoryStats(total: nat, go: nat, pruefen: nat, nogo: nat)

  /** The `stats` memo over the filtered listings. */
  function Stats(filtered: seq<Listing>): (r: HistoryStats)
    ensures r.total == |filtered|
    ensures r.go == Seqs.PositionCount(filtered, IsGo)
    ensures r.pruefen == Seqs.PositionCount(filtered, IsPruefen)
    ensures r.nogo == Seqs.PositionCount(filtered, IsNoGo)
    ensures r.go + r.pruefen + r.nogo <= r.total
  {
    Seqs.FilterCountsIndices(filtered, IsGo);
    Seqs.FilterCountsIndices(filtered, IsPruefen);
    Seqs.FilterCountsIndices(filtered, IsNoGo);
    Seqs.FilterDisjointBound(filtered, IsGo, IsPruefen, IsNoGo);
    HistoryStats(
      |filtered|,
      |Seqs.Filter(filtered, IsGo)|,
      |Seqs.Filter(filtered, IsPruefen)|,
      |Seqs.Filter(filtered, IsNoGo)|)
  }

  // ---------------------------------------------------------------------------
  // The component's state

  class HistoryView {
    var selected: Option<Listing>
    var drawerOpen: bool
    var dateRange: DateRange

    /** Nothing selected, the drawer closed, the last seven days shown. */
    constructor ()
      ensures selected.None? && !drawerOpen && dateRange == DefaultRange
    {
      selected := None;
      drawerOpen := false;
      dateRange := DefaultRange;
    }

    /** A click on a date-range button. */
    method SetDateRange(range: DateRange)
      modifies this
      ensures dateRange == range
      ensures selected == old(selected) && drawerOpen == old(drawerOpen)
    {
      dateRange := range;
    }

    /** A click on a table row selects it and opens the drawer. */
    method SelectRow(listing: Listing)
      modifies this
      ensures selected == Some(listing) && drawerOpen
      ensures dateRange == old(dateRange)
    {
      selected := Some(listing);
      drawerOpen := true;
    }

    /** Closing the drawer keeps the selection, so the drawer's content
        stays in place while it slides out. */
    method CloseDrawer()
      modifies this
      ensures !drawerOpen
      ensures selected == old(selected) && dateRange == old(dateRange)
    {
      drawerOpen := false;
    }
  }
}
