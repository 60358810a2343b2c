/** The pipeline page of `src/app/pipeline/page.tsx`: it fetches every
    listing with no options and hands the board only those with a stage. */
module PipelinePage {
  import opened Types
  import Seqs
  import Airtable
  import PipelineBoard

  /** `listings.filter((l) => l['Pipeline Stage'] !== '')`. */
  function Staged(listings: seq<Listing>): (r: seq<Listing>)
    ensures forall l :: l in r <==> l in listings && l.pipelineStage != ""
    ensures forall l :: multiset(r)[l] == if l.pipelineStage != "" then multiset(listings)[l] else 0
  {
    Seqs.FilterMultiset(listings, (l: Listing) => l.pipelineStage != "");
    Seqs.Filter(listings, (l: Listing) => l.pipelineStage != "")
  }

  /** The staged listings keep their fetched order. */
  lemma StagedInOrder(listings: seq<Listing>)
    ensures Seqs.Subsequence(Staged(listings), listings)
  {
    Seqs.FilterIsSubsequence(listings, (l: Listing) => l.pipelineStage != "");
  }

  /** A CLOSED listing reaches the board but appears in none of its columns. */
  lemma ClosedHasNoColumn(listings: seq<Listing>, l: Listing)
    requires l in listings && l.pipelineStage == CLOSED
    ensures l in Staged(listings)
    ensures forall i :: 0 <= i < |PipelineBoard.Columns| ==> l !in PipelineBoard.Board(Staged(listings))[i]
  {
    PipelineBoard.ColumnStagesAre();
    PipelineBoard.OnExactlyOneColumn(Staged(listings), l);
  }

  /** Every column of the board holds the same listings whether or not the
      page drops the unstaged ones first. */
  lemma {:induction false} StagingKeepsColumns(listings: seq<Listing>, i: nat)
    requires i < |PipelineBoard.Columns|
    ensures PipelineBoard.Board(Staged(listings))[i] == PipelineBoard.Board(listings)[i]
  {
    PipelineBoard.ColumnStagesAre();
    var stage := PipelineBoard.Columns[i].stage;
    Seqs.FilterNarrow(listings, (l: Listing) => l.pipelineStage != "", (l: Listing) => l.pipelineStage == stage);
  }

  /** `PipelinePage`: the fetch with no options, then the stage filter. The
      query has no filter formula and sorts by analysis date, newest first;
      an error response fails the page. */
  method Load(source: Airtable.Source)
    returns (queries: seq<map<string, string>>, r: Result<seq<Listing>, Airtable.FetchError>)
    requires source.Remote? ==> Airtable.Ends(source.pages)
    ensures source.Remote? ==>
              |queries| >= 1 && Airtable.FormulaKey !in queries[0]
              && Airtable.SortFieldKey in queries[0] && Airtable.SortDirKey in queries[0]
              && queries[0][Airtable.SortFieldKey] == "analyzed_at" && queries[0][Airtable.SortDirKey] == "desc"
    ensures source.Mock? ==>
              r == Ok(Staged(Airtable.MockFetch(source.listings, Airtable.NoOptions, source.clock)))
    ensures source.Remote? ==>
              var n := Airtable.StopIndex(source.pages);
              (r.Err? <==> !source.pages[n].ok)
              && (r.Ok? ==> r.value == Staged(Airtable.AllRecords(source.pages[..n + 1])))
  {
    var fetched;
    queries, fetched := Airtable.FetchListings(Airtable.NoOptions, source);
    if source.Remote? {
      Airtable.NoOptionsParams(queries[0]);
    }
    match fetched
    case Err(e) => r := Err(e);
    case Ok(res) => r := Ok(Staged(res.records));
  }
}
