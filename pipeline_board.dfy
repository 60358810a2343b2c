/** The pipeline board of `src/components/pages/PipelineClient.tsx`: the five
    stage columns, the projection of the listings onto them, what each column
    shows, and the state of the selection drawer. */
module PipelineBoard {
  import opened Types
  import Seqs
  import Utils

  datatype Column = Column(stage: string, heading: string, color: string)

  /** `PIPELINE_COLUMNS`, in board order. */
  const Columns: seq<Column> := [
    Column(NEW, "Neu", "border-t-blue-500"),
    Column(CONTACTED, "Kontaktiert", "border-t-amber-500"),
    Column(VIEWING, "Besichtigung", "border-t-purple-500"),
    Column(OFFER, "Angebot", "border-t-emerald-500"),
    Column(PASSED, "Abgelehnt", "border-t-red-500")]

  /** The stages of the columns, in board order. */
  function ColumnStages(): (r: seq<string>)
    ensures |r| == |Columns|
    ensures forall i :: 0 <= i < |Columns| ==> r[i] == Columns[i].stage
  {
    seq(|Columns|, i requires 0 <= i < |Columns| => Columns[i].stage)
  }

  /** The column stages are NEW, CONTACTED, VIEWING, OFFER and PASSED, in that
      order, and no two columns share a stage; CLOSED and the empty stage
      have no column. */
  lemma ColumnStagesAre()
    ensures ColumnStages() == [NEW, CONTACTED, VIEWING, OFFER, PASSED]
    ensures forall i, j :: 0 <= i < j < |Columns| ==> Columns[i].stage != Columns[j].stage
    ensures CLOSED !in ColumnStages() && "" !in ColumnStages()
  {
  }

  /** `getListingsForStage(stage)`. */
  function ListingsForStage(listings: seq<Listing>, stage: string): (r: seq<Listing>)
    ensures forall l :: l in r <==> l in listings && l.pipelineStage == stage
    ensures forall i :: 0 <= i < |r| ==> r[i].pipelineStage == stage
    ensures forall l :: multiset(r)[l] == if l.pipelineStage == stage then multiset(listings)[l] else 0
  {
    Seqs.FilterMultiset(listings, (l: Listing) => l.pipelineStage == stage);
    Seqs.Filter(listings, (l: Listing) => l.pipelineStage == stage)
  }

  /** A column's listings keep the order they were given in. */
  lemma ListingsForStageInOrder(listings: seq<Listing>, stage: string)
    ensures Seqs.Subsequence(ListingsForStage(listings, stage), listings)
  {
    Seqs.FilterIsSubsequence(listings, (l: Listing) => l.pipelineStage == stage);
  }

  /** The board: the listings of each column, in column order. */
  function Board(listings: seq<Listing>): (b: seq<seq<Listing>>)
    ensures |b| == |Columns|
    ensures forall i :: 0 <= i < |Columns| ==> b[i] == ListingsForStage(listings, Columns[i].stage)
  {
    seq(|Columns|, i requires 0 <= i < |Columns| => ListingsForStage(listings, Columns[i].stage))
  }

  /** A listing with one of the five stages is on exactly one column, the one
      of its stage; a listing with any other stage (CLOSED, the empty stage)
      is on none. */
  lemma OnExactlyOneColumn(listings: seq<Listing>, l: Listing)
    requires l in listings
    ensures l.pipelineStage in ColumnStages() ==>
              exists i :: 0 <= i < |Columns| && l in Board(listings)[i] &&
                          forall j :: 0 <= j < |Columns| && j != i ==> l !in Board(listings)[j]
    ensures l.pipelineStage !in ColumnStages() ==>
              forall i :: 0 <= i < |Columns| ==> l !in Board(listings)[i]
  {
    ColumnStagesAre();
    if l.pipelineStage in ColumnStages() {
      var i :| 0 <= i < |Columns| && ColumnStages()[i] == l.pipelineStage;
      assert l in Board(listings)[i];
    }
  }

  /** The total size of the columns of `stages`. */
  function SizeSum(listings: seq<Listing>, stages: seq<string>): nat {
    if stages == [] then 0
    else |ListingsForStage(listings, stages[0])| + SizeSum(listings, stages[1..])
  }

  predicate Distinct(stages: seq<string>) {
    forall i, j :: 0 <= i < j < |stages| ==> stages[i] != stages[j]
  }

  lemma {:induction false} SizeSumCounts(listings: seq<Listing>, stages: seq<string>)
    requires Distinct(stages)
    ensures SizeSum(listings, stages) == |Seqs.Filter(listings, (l: Listing) => l.pipelineStage in stages)|
  {
    if stages == [] {
      Seqs.FilterSplit(listings, (l: Listing) => false, (l: Listing) => false,
                       (l: Listing) => l.pipelineStage in stages);
      FilterNone(listings);
    } else {
      var rest := stages[1..];
      SizeSumCounts(listings, rest);
      assert stages[0] !in rest by {
        forall j | 0 <= j < |rest| ensures rest[j] != stages[0] {
          assert rest[j] == stages[j + 1];
        }
      }
      forall x: Listing ensures (x.pipelineStage in stages) == (x.pipelineStage == stages[0] || x.pipelineStage in rest) {
        assert stages == [stages[0]] + rest;
      }
      Seqs.FilterSplit(listings, (l: Listing) => l.pipelineStage == stages[0],
                       (l: Listing) => l.pipelineStage in rest,
                       (l: Listing) => l.pipelineStage in stages);
    }
  }

  lemma {:induction false} FilterNone(s: seq<Listing>)
    ensures Seqs.Filter(s, (l: Listing) => false) == []
  {
    if s != [] {
      FilterNone(s[1..]);
    }
  }

  /** The columns together hold exactly as many listings as have one of the
      five stages. */
  lemma BoardSize(listings: seq<Listing>)
    ensures SizeSum(listings, ColumnStages()) ==
            |Seqs.Filter(listings, (l: Listing) => l.pipelineStage in ColumnStages())|
  {
    ColumnStagesAre();
    SizeSumCounts(listings, ColumnStages());
  }

  // ---------------------------------------------------------------------------
  // One column as rendered

  const ColumnBaseClasses := "min-w-[280px] flex-1 bg-gray-900 rounded-xl border border-gray-800 border-t-2"

  /** What a column renders: its heading, the count badge, whether the
      "Keine Einträge" placeholder shows, its cards and its class string. */
  datatype ColumnView = ColumnView(heading: string, count: nat, placeholder: bool, cards: seq<Listing>, className: string)

  function RenderColumn(col: Column, listings: seq<Listing>): (v: ColumnView)
    requires col.color != ""
    ensures v.cards == ListingsForStage(listings, col.stage)
    ensures v.count == |v.cards|
    ensures v.placeholder <==> v.cards == []
    ensures v.heading == col.heading
    ensures v.className == ColumnBaseClasses + " " + col.color
  {
    var cards := ListingsForStage(listings, col.stage);
    Utils.CnPair(ColumnBaseClasses, col.color);
    ColumnView(col.heading, |cards|, |cards| == 0, cards,
               Utils.Cn([Utils.Str(ColumnBaseClasses), Utils.Str(col.color)]))
  }

  // ---------------------------------------------------------------------------
  // The component's state

  class PipelineView {
    var selected: Option<Listing>
    var drawerOpen: bool

    constructor ()
      ensures selected.None? && !drawerOpen
    {
      selected := None;
      drawerOpen := false;
    }

    /** `openDrawer`: a click on a card selects it and opens the drawer. */
    method OpenDrawer(listing: Listing)
      modifies this
      ensures selected == Some(listing) && drawerOpen
    {
      selected := Some(listing);
      drawerOpen := true;
    }

    /** The drawer's close handler only closes it; the selection stays. */
    method CloseDrawer()
      modifies this
      ensures !drawerOpen && selected == old(selected)
    {
      drawerOpen := false;
    }
  }
}
