/** The data-store client of `src/lib/airtable.ts`: mapping a stored record to
    a listing, building the list query, collecting the pages of a list
    response, the mock-data branch and the lookup by record id. The network
    is not modelled: a list response is a given sequence of pages, one per
    request in the order the requests are made. */
module Airtable {
  import opened Types
  import Seqs
  import Utils

  // ---------------------------------------------------------------------------
  // mapRecord

  /** What `Number(x)` gives for a stored value: a number, or NaN. */
  datatype NumberValue = Num(v: real) | NaN

  /** The `fields` object of a stored record; `None` is an absent (or null)
      field. Nullable numeric fields are taken to hold numbers when present. */
  datatype RawFields = RawFields(
    listingId: Option<string>,
    url: Option<string>,
    title: Option<string>,
    address: Option<string>,
    postcode: Option<string>,
    purchasePrice: Option<NumberValue>,
    livingArea: Option<NumberValue>,
    rooms: Option<real>,
    buildingType: Option<string>,
    yearBuilt: Option<real>,
    lastRefurbish: Option<string>,
    energyClass: Option<string>,
    heatingType: Option<string>,
    firingType: Option<string>,
    isRented: Option<string>,
    daysSinceListed: Option<real>,
    pricePerSqm: Option<real>,
    yieldPct: Option<real>,
    yieldRating: Option<string>,
    status: Option<string>,
    summary: Option<string>,
    risks: Option<string>,
    reason: Option<string>,
    analyzedAt: Option<string>,
    description: Option<string>,
    agentEmail: Option<string>,
    agentName: Option<string>,
    agentPhone: Option<string>,
    pipelineStage: Option<string>,
    notes: Option<string>,
    nextActionDate: Option<string>,
    preFilterReason: Option<string>,
    flaggedPotentialDuplicate: Option<bool>)

  datatype RawRecord = RawRecord(id: string, fields: RawFields)

  const NotStated := "not stated"
  const UnknownRating := "⚪ Unknown"
  const NoRisks := "[]"

  /** `x ?? d`. */
  function OrElse<T>(x: Option<T>, d: T): T {
    match x
    case None => d
    case Some(v) => v
  }

  /** `v` is what `x ?? d` gives: the stored value when present, else `d`. */
  ghost predicate TakesOr<T>(x: Option<T>, d: T, v: T) {
    (x.None? ==> v == d) && (x.Some? ==> v == x.value)
  }

  /** `Number(x) || 0`: NaN, zero and an absent field all give 0. */
  function NumberOrZero(x: Option<NumberValue>): (r: real)
    ensures (x.None? || x == Some(NaN)) ==> r == 0.0
    ensures x.Some? && x.value.Num? ==> r == x.value.v
  {
    match x
    case Some(Num(v)) => v
    case _ => 0.0
  }

  /** `mapRecord`: every absent field takes its default (empty, `not stated`,
      the unknown rating or an empty risk list); `MapRecordFieldwise` states
      it field by field. */
  function MapRecord(r: RawRecord): (l: Listing)
    ensures l.id == r.id
    ensures (r.fields.purchasePrice.None? || r.fields.purchasePrice == Some(NaN)) ==> l.purchasePrice == 0.0
    ensures (r.fields.livingArea.None? || r.fields.livingArea == Some(NaN)) ==> l.livingArea == 0.0
    ensures l.rooms == r.fields.rooms && l.yearBuilt == r.fields.yearBuilt
    ensures l.pricePerSqm == r.fields.pricePerSqm && l.yieldPct == r.fields.yieldPct
    ensures l.flaggedPotentialDuplicate <==> r.fields.flaggedPotentialDuplicate == Some(true)
  {
    var f := r.fields;
    Listing(
      id := r.id,
      listingId := OrElse(f.listingId, ""),
      url := OrElse(f.url, ""),
      title := OrElse(f.title, ""),
      address := OrElse(f.address, ""),
      postcode := OrElse(f.postcode, ""),
      purchasePrice := NumberOrZero(f.purchasePrice),
      livingArea := NumberOrZero(f.livingArea),
      rooms := f.rooms,
      buildingType := OrElse(f.buildingType, ""),
      yearBuilt := f.yearBuilt,
      lastRefurbish := f.lastRefurbish,
      energyClass := OrElse(f.energyClass, NotStated),
      heatingType := OrElse(f.heatingType, NotStated),
      firingType := OrElse(f.firingType, NotStated),
      isRented := OrElse(f.isRented, NotStated),
      daysSinceListed := f.daysSinceListed,
      pricePerSqm := f.pricePerSqm,
      yieldPct := f.yieldPct,
      yieldRating := OrElse(f.yieldRating, UnknownRating),
      status := OrElse(f.status, ""),
      summary := OrElse(f.summary, ""),
      risks := OrElse(f.risks, NoRisks),
      reason := OrElse(f.reason, ""),
      analyzedAt := OrElse(f.analyzedAt, ""),
      description := OrElse(f.description, ""),
      agentEmail := OrElse(f.agentEmail, ""),
      agentName := OrElse(f.agentName, ""),
      agentPhone := OrElse(f.agentPhone, ""),
      pipelineStage := OrElse(f.pipelineStage, ""),
      notes := OrElse(f.notes, ""),
      nextActionDate := OrElse(f.nextActionDate, ""),
      preFilterReason := OrElse(f.preFilterReason, ""),
      flaggedPotentialDuplicate := OrElse(f.flaggedPotentialDuplicate, false))
  }

  /** Field by field: the id and every present field are copied, every absent
      text field takes its default, an absent or non-numeric price or area is
      0, the nullable numbers stay as they are and the flag is false unless
      stored as true. */
  lemma MapRecordFieldwise(r: RawRecord)
    ensures MapRecord(r).id == r.id
    ensures TakesOr(r.fields.listingId, "", MapRecord(r).listingId)
    ensures TakesOr(r.fields.url, "", MapRecord(r).url)
    ensures TakesOr(r.fields.title, "", MapRecord(r).title)
    ensures TakesOr(r.fields.address, "", MapRecord(r).address)
    ensures TakesOr(r.fields.postcode, "", MapRecord(r).postcode)
    ensures TakesOr(r.fields.buildingType, "", MapRecord(r).buildingType)
    ensures TakesOr(r.fields.energyClass, NotStated, MapRecord(r).energyClass)
    ensures TakesOr(r.fields.heatingType, NotStated, MapRecord(r).heatingType)
    ensures TakesOr(r.fields.firingType, NotStated, MapRecord(r).firingType)
    ensures TakesOr(r.fields.isRented, NotStated, MapRecord(r).isRented)
    ensures TakesOr(r.fields.yieldRating, UnknownRating, MapRecord(r).yieldRating)
    ensures TakesOr(r.fields.status, "", MapRecord(r).status)
    ensures TakesOr(r.fields.summary, "", MapRecord(r).summary)
    ensures TakesOr(r.fields.risks, NoRisks, MapRecord(r).risks)
    ensures TakesOr(r.fields.reason, "", MapRecord(r).reason)
    ensures TakesOr(r.fields.analyzedAt, "", MapRecord(r).analyzedAt)
    ensures TakesOr(r.fields.description, "", MapRecord(r).description)
    ensures TakesOr(r.fields.agentEmail, "", MapRecord(r).agentEmail)
    ensures TakesOr(r.fields.agentName, "", MapRecord(r).agentName)
    ensures TakesOr(r.fields.agentPhone, "", MapRecord(r).agentPhone)
    ensures TakesOr(r.fields.pipelineStage, "", MapRecord(r).pipelineStage)
    ensures TakesOr(r.fields.notes, "", MapRecord(r).notes)
    ensures TakesOr(r.fields.nextActionDate, "", MapRecord(r).nextActionDate)
    ensures TakesOr(r.fields.preFilterReason, "", MapRecord(r).preFilterReason)
    ensures (r.fields.purchasePrice.None? || r.fields.purchasePrice == Some(NaN)) ==> MapRecord(r).purchasePrice == 0.0
    ensures r.fields.purchasePrice.Some? && r.fields.purchasePrice.value.Num? ==>
              MapRecord(r).purchasePrice == r.fields.purchasePrice.value.v
    ensures (r.fields.livingArea.None? || r.fields.livingArea == Some(NaN)) ==> MapRecord(r).livingArea == 0.0
    ensures r.fields.livingArea.Some? && r.fields.livingArea.value.Num? ==>
              MapRecord(r).livingArea == r.fields.livingArea.value.v
    ensures MapRecord(r).rooms == r.fields.rooms && MapRecord(r).yearBuilt == r.fields.yearBuilt
    ensures MapRecord(r).lastRefurbish == r.fields.lastRefurbish
    ensures MapRecord(r).daysSinceListed == r.fields.daysSinceListed
    ensures MapRecord(r).pricePerSqm == r.fields.pricePerSqm && MapRecord(r).yieldPct == r.fields.yieldPct
    ensures MapRecord(r).flaggedPotentialDuplicate <==> r.fields.flaggedPotentialDuplicate == Some(true)
  {
  }

  const NoFields := RawFields(None, None, None, None, None, None, None, None, None, None, None,
                              None, None, None, None, None, None, None, None, None, None, None,
                              None, None, None, None, None, None, None, None, None, None, None)

  /** The listing a record with no fields at all maps to. */
  function DefaultListing(id: string): Listing {
    Listing(id, "", "", "", "", "", 0.0, 0.0, None, "", None, None, NotStated, NotStated,
            NotStated, NotStated, None, None, None, UnknownRating, "", "", NoRisks, "", "", "",
            "", "", "", "", "", "", "", false)
  }

  /** The stored record holding every field of `l`. */
  function StoredRecord(l: Listing): RawRecord {
    RawRecord(l.id, RawFields(
      Some(l.listingId), Some(l.url), Some(l.title), Some(l.address), Some(l.postcode),
      Some(Num(l.purchasePrice)), Some(Num(l.livingArea)), l.rooms, Some(l.buildingType),
      l.yearBuilt, l.lastRefurbish, Some(l.energyClass), Some(l.heatingType), Some(l.firingType),
      Some(l.isRented), l.daysSinceListed, l.pricePerSqm, l.yieldPct, Some(l.yieldRating),
      Some(l.status), Some(l.summary), Some(l.risks), Some(l.reason), Some(l.analyzedAt),
      Some(l.description), Some(l.agentEmail), Some(l.agentName), Some(l.agentPhone),
      Some(l.pipelineStage), Some(l.notes), Some(l.nextActionDate), Some(l.preFilterReason),
      Some(l.flaggedPotentialDuplicate)))
  }

  /** A record with no fields maps to all the defaults. */
  lemma MapRecordDefaults(id: string)
    ensures MapRecord(RawRecord(id, NoFields)) == DefaultListing(id)
  {
  }

  /** A record that stores every field maps back to exactly the listing the
      fields came from: mapping loses nothing that is present. */
  lemma MapRecordRoundTrip(l: Listing)
    ensures MapRecord(StoredRecord(l)) == l
  {
  }

  /** `data.records.map(mapRecord)`. */
  function MapAll(records: seq<RawRecord>): (r: seq<Listing>)
    ensures |r| == |records|
    ensures forall i :: 0 <= i < |records| ==> r[i] == MapRecord(records[i])
  {
    seq(|records|, i requires 0 <= i < |records| => MapRecord(records[i]))
  }

  // ---------------------------------------------------------------------------
  // Query construction

  datatype DateOption = Today | SevenDays | AllDates
  datatype Direction = Asc | Desc

  /** `FetchListingsOptions`; an omitted options object is `NoOptions`. */
  datatype FetchOptions = FetchOptions(
    status: Option<string>,
    date: Option<DateOption>,
    sortField: Option<string>,
    sortDir: Option<Direction>)

  const NoOptions := FetchOptions(None, None, None, None)

  const FormulaKey := "filterByFormula"
  const SortFieldKey := "sort[0][field]"
  const SortDirKey := "sort[0][direction]"
  const OffsetKey := "offset"
  const DefaultSortField := "analyzed_at"
  const TodayClause := "IS_SAME({analyzed_at}, TODAY(), 'day')"
  const SevenDayClause := "DATETIME_DIFF(TODAY(), {analyzed_at}, 'days') <= 7"

  function DirName(d: Direction): string {
    if d == Asc then "asc" else "desc"
  }

  /** A string option that is present and non-empty (JavaScript-truthy). */
  predicate Given(s: Option<string>) {
    s.Some? && s.value != ""
  }

  /** The clause for the status filter. */
  function StatusClause(status: string): string {
    "{status} = '" + status + "'"
  }

  /** The clause the date option contributes, if any. */
  function DateClause(date: Option<DateOption>): Option<string> {
    match date
    case Some(Today) => Some(TodayClause)
    case Some(SevenDays) => Some(SevenDayClause)
    case _ => None
  }

  /** What the query parameters for `opts` must be: no formula without a
      filter, the single filter verbatim, both filters under `AND(...)`;
      the given sort field with its direction (descending by default), or
      the analysis date descending. */
  ghost predicate ParamsFor(opts: FetchOptions, params: map<string, string>) {
    var date := DateClause(opts.date);
    && (FormulaKey in params <==> Given(opts.status) || date.Some?)
    && (Given(opts.status) && date.None? ==> params[FormulaKey] == StatusClause(opts.status.value))
    && (!Given(opts.status) && date.Some? ==> params[FormulaKey] == date.value)
    && (Given(opts.status) && date.Some? ==>
          params[FormulaKey] == "AND(" + StatusClause(opts.status.value) + ", " + date.value + ")")
    && SortFieldKey in params && SortDirKey in params
    && params[SortFieldKey] == (if Given(opts.sortField) then opts.sortField.value else DefaultSortField)
    && params[SortDirKey] == (if Given(opts.sortField) && opts.sortDir.Some? then DirName(opts.sortDir.value) else "desc")
    && params.Keys <= {FormulaKey, SortFieldKey, SortDirKey}
  }

  /** Builds the query parameters: pushes the filter clauses, combines them
      into one formula and sets the sort. */
  method BuildParams(opts: FetchOptions) returns (params: map<string, string>)
    ensures ParamsFor(opts, params)
  {
    params := map[];
    var filters: seq<string> := [];
    if Given(opts.status) {
      filters := filters + [StatusClause(opts.status.value)];
    }
    if opts.date == Some(Today) {
      filters := filters + [TodayClause];
    } else if opts.date == Some(SevenDays) {
      filters := filters + [SevenDayClause];
    }

    if |filters| > 1 {
      assert |filters| == 2;
      params := params[FormulaKey := "AND(" + Utils.Join(filters, ", ") + ")"];
    } else if |filters| == 1 {
      params := params[FormulaKey := filters[0]];
    }

    if Given(opts.sortField) {
      params := params[SortFieldKey := opts.sortField.value];
      params := params[SortDirKey := if opts.sortDir.Some? then DirName(opts.sortDir.value) else "desc"];
    } else {
      params := params[SortFieldKey := DefaultSortField];
      params := params[SortDirKey := "desc"];
    }
  }

  /** The fetch with no options filters nothing and sorts by analysis date,
      newest first. */
  lemma NoOptionsParams(params: map<string, string>)
    requires ParamsFor(NoOptions, params)
    ensures FormulaKey !in params
    ensures SortFieldKey in params && SortDirKey in params
    ensures params[SortFieldKey] == "analyzed_at" && params[SortDirKey] == "desc"
  {
  }

  // ---------------------------------------------------------------------------
  // Page accumulation

  /** One response of the list endpoint. */
  datatype Page = Page(ok: bool, status: int, statusText: string, records: seq<RawRecord>, offset: Option<string>)

  /** The error `fetchListings` throws on a response that is not ok. */
  datatype FetchError = HttpError(status: int, statusText: string)

  datatype FetchResult = FetchResult(records: seq<Listing>, total: nat)

  /** The loop asks for another page after this one. */
  predicate HasNext(p: Page) { p.ok && Given(p.offset) }

  /** Some page of the script ends the loop: it fails or has no offset. */
  predicate Ends(pages: seq<Page>) {
    pages != [] && (!HasNext(pages[0]) || Ends(pages[1..]))
  }

  /** The position of the page at which the loop stops. */
  function StopIndex(pages: seq<Page>): (n: nat)
    requires Ends(pages)
    ensures n < |pages| && !HasNext(pages[n])
    ensures forall k :: 0 <= k < n ==> HasNext(pages[k])
  {
    if !HasNext(pages[0]) then 0 else 1 + StopIndex(pages[1..])
  }

  /** The number of records the pages hold together. */
  function RecordCount(pages: seq<Page>): nat {
    if pages == [] then 0 else RecordCount(pages[..|pages| - 1]) + |pages[|pages| - 1].records|
  }

  /** The mapped records of `pages`, page after page, as many as the pages
      hold. */
  function AllRecords(pages: seq<Page>): (r: seq<Listing>)
    ensures |r| == RecordCount(pages)
  {
    if pages == [] then [] else AllRecords(pages[..|pages| - 1]) + MapAll(pages[|pages| - 1].records)
  }

  /** Every record of every page reaches the result, mapped. */
  lemma {:induction false} AllRecordsContains(pages: seq<Page>, i: nat, j: nat)
    requires i < |pages| && j < |pages[i].records|
    ensures MapRecord(pages[i].records[j]) in AllRecords(pages)
    decreases |pages|
  {
    var init := pages[..|pages| - 1];
    var last := MapAll(pages[|pages| - 1].records);
    if i < |init| {
      assert init[i] == pages[i];
      AllRecordsContains(init, i, j);
    } else {
      assert last[j] == MapRecord(pages[i].records[j]);
    }
  }

  /** The request loop of `fetchListings`. Request `k` carries the offset of
      page `k - 1`; each page's records are appended in page order; a page
      that is not ok ends the loop with an error. */
  method FetchPages(params: map<string, string>, pages: seq<Page>)
    returns (queries: seq<map<string, string>>, r: Result<FetchResult, FetchError>)
    requires Ends(pages)
    ensures var n := StopIndex(pages);
            && |queries| == n + 1
            && queries[0] == params
            && (forall k :: 0 < k <= n ==> queries[k] == params[OffsetKey := pages[k - 1].offset.value])
            && (r.Err? <==> !pages[n].ok)
            && (r.Err? ==> r.error == HttpError(pages[n].status, pages[n].statusText))
            && (r.Ok? ==> r.value.records == AllRecords(pages[..n + 1]) && r.value.total == |r.value.records|)
  {
    var current := params;
    var allRecords: seq<Listing> := [];
    var offset: Option<string> := None;
    var k := 0;
    queries := [];
    while true
      invariant k <= StopIndex(pages)
      invariant |queries| == k
      invariant forall j :: 0 <= j < k ==> queries[j] == if j == 0 then params else params[OffsetKey := pages[j - 1].offset.value]
      invariant allRecords == AllRecords(pages[..k])
      invariant k == 0 ==> offset.None?
      invariant k > 0 ==> offset == pages[k - 1].offset && Given(offset)
      invariant current == if k <= 1 then params else params[OffsetKey := pages[k - 2].offset.value]
      decreases StopIndex(pages) - k
    {
      if Given(offset) {
        assert current[OffsetKey := offset.value] == params[OffsetKey := offset.value];
        current := current[OffsetKey := offset.value];
      }
      queries := queries + [current];
      var res := pages[k];
      if !res.ok {
        r := Err(HttpError(res.status, res.statusText));
        return;
      }
      assert pages[..k + 1][..k] == pages[..k];
      allRecords := allRecords + MapAll(res.records);
      offset := res.offset;
      if !Given(offset) {
        r := Ok(FetchResult(allRecords, |allRecords|));
        return;
      }
      k := k + 1;
    }
  }

  /** A page's records all reach the result, at the position after the
      records of the pages before it. */
  lemma {:induction false} AllRecordsAppend(pages: seq<Page>, p: Page)
    ensures AllRecords(pages + [p]) == AllRecords(pages) + MapAll(p.records)
  {
    assert (pages + [p])[..|pages|] == pages;
  }

  // ---------------------------------------------------------------------------
  // The mock branch and fetchListings

  /** The wall clock and the date parser the mock filters use. */
  datatype Clock = Clock(now: int, parse: string -> Option<int>, dayOf: int -> int)

  /** Where `fetchListings` takes its records from: `MOCK_LISTINGS` when mock
      data is switched on, the list endpoint otherwise. */
  datatype Source = Mock(listings: seq<Listing>, clock: Clock) | Remote(pages: seq<Page>)

  /** The listings the mock branch keeps: the given status, and the day or
      the seven days the date option asks for. */
  predicate MockKeeps(l: Listing, opts: FetchOptions, clock: Clock) {
    && (Given(opts.status) ==> l.status == opts.status.value)
    && (opts.date == Some(Today) ==> Utils.IsToday(Some(l.analyzedAt), clock.parse, clock.now, clock.dayOf))
    && (opts.date == Some(SevenDays) ==> AnalyzedSince(l, clock.now - 7 * DayMs, clock.parse))
  }

  /** The mock branch: the status filter when a status is given, then the
      date filter of the date option. It keeps exactly the listings of `all`
      that pass both, and all of them when neither applies. */
  function MockFetch(all: seq<Listing>, opts: FetchOptions, clock: Clock): (r: seq<Listing>)
    ensures forall l :: l in r <==> l in all && MockKeeps(l, opts, clock)
    ensures !Given(opts.status) && DateClause(opts.date).None? ==> r == all
    ensures |r| <= |all|
  {
    var byStatus := if Given(opts.status) then Seqs.Filter(all, (l: Listing) => l.status == opts.status.value) else all;
    match opts.date
    case Some(Today) => Seqs.Filter(byStatus, (l: Listing) => Utils.IsToday(Some(l.analyzedAt), clock.parse, clock.now, clock.dayOf))
    case Some(SevenDays) => Seqs.Filter(byStatus, (l: Listing) => AnalyzedSince(l, clock.now - 7 * DayMs, clock.parse))
    case _ => byStatus
  }

  /** The two mock filters in a row are one filter by `MockKeeps`. */
  lemma MockFetchIsFilter(all: seq<Listing>, opts: FetchOptions, clock: Clock)
    ensures MockFetch(all, opts, clock) == Seqs.Filter(all, (l: Listing) => MockKeeps(l, opts, clock))
  {
    var keep := (l: Listing) => MockKeeps(l, opts, clock);
    var byStatus := if Given(opts.status) then Seqs.Filter(all, (l: Listing) => l.status == opts.status.value) else all;
    var onDate: Listing -> bool :=
      match opts.date
      case Some(Today) => (l: Listing) => Utils.IsToday(Some(l.analyzedAt), clock.parse, clock.now, clock.dayOf)
      case Some(SevenDays) => (l: Listing) => AnalyzedSince(l, clock.now - 7 * DayMs, clock.parse)
      case _ => (l: Listing) => true;
    if opts.date == Some(Today) || opts.date == Some(SevenDays) {
      assert MockFetch(all, opts, clock) == Seqs.Filter(byStatus, onDate);
    } else {
      Seqs.FilterAll(byStatus, onDate);
      assert MockFetch(all, opts, clock) == Seqs.Filter(byStatus, onDate);
    }
    if Given(opts.status) {
      Seqs.FilterTwice(all, (l: Listing) => l.status == opts.status.value, onDate, keep);
    } else {
      Seqs.FilterExt(all, onDate, keep);
    }
  }

  /** The mock branch keeps the order of `all` and each kept listing as often
      as it occurs there. */
  lemma MockFetchInOrder(all: seq<Listing>, opts: FetchOptions, clock: Clock)
    ensures Seqs.Subsequence(MockFetch(all, opts, clock), all)
    ensures forall l :: multiset(MockFetch(all, opts, clock))[l] ==
              if MockKeeps(l, opts, clock) then multiset(all)[l] else 0
  {
    MockFetchIsFilter(all, opts, clock);
    Seqs.FilterIsSubsequence(all, (l: Listing) => MockKeeps(l, opts, clock));
    Seqs.FilterMultiset(all, (l: Listing) => MockKeeps(l, opts, clock));
  }

  /** `fetchListings(options)`. */
  method FetchListings(opts: FetchOptions, source: Source)
    returns (queries: seq<map<string, string>>, r: Result<FetchResult, FetchError>)
    requires source.Remote? ==> Ends(source.pages)
    ensures source.Mock? ==>
              queries == [] && r == Ok(FetchResult(MockFetch(source.listings, opts, source.clock),
                                                   |MockFetch(source.listings, opts, source.clock)|))
    ensures source.Remote? ==>
              var n := StopIndex(source.pages);
              && |queries| == n + 1 && ParamsFor(opts, queries[0])
              && (r.Err? <==> !source.pages[n].ok)
              && (r.Ok? ==> r.value.records == AllRecords(source.pages[..n + 1]))
    ensures r.Ok? ==> r.value.total == |r.value.records|
  {
    match source
    case Mock(listings, clock) =>
      var records := MockFetch(listings, opts, clock);
      queries := [];
      r := Ok(FetchResult(records, |records|));
    case Remote(pages) =>
      var params := BuildParams(opts);
      queries, r := FetchPages(params, pages);
  }

  // ---------------------------------------------------------------------------
  // fetchListingById

  /** The position of the first listing with record id `id`. */
  function FirstWithId(ls: seq<Listing>, id: string): (r: Option<nat>)
    ensures r.None? <==> forall l :: l in ls ==> l.id != id
    ensures r.Some? ==> r.value < |ls| && ls[r.value].id == id
    ensures r.Some? ==> forall j :: 0 <= j < r.value ==> ls[j].id != id
  {
    if ls == [] then None
    else if ls[0].id == id then Some(0)
    else match FirstWithId(ls[1..], id)
      case None => None
      case Some(k) => Some(k + 1)
  }

  /** The single-record response of the network branch. */
  datatype RecordResponse = RecordResponse(ok: bool, record: RawRecord)

  datatype ByIdSource = MockRecords(listings: seq<Listing>) | RemoteRecord(response: RecordResponse)

  /** `fetchListingById(id)`: the first mock listing with that id, or the
      mapped record of an ok response; null otherwise. */
  function FetchListingById(id: string, source: ByIdSource): (r: Option<Listing>)
    ensures source.MockRecords? ==>
              (r.None? <==> forall l :: l in source.listings ==> l.id != id)
    ensures source.MockRecords? && r.Some? ==>
              exists i :: 0 <= i < |source.listings| && source.listings[i] == r.value && r.value.id == id
                          && forall j :: 0 <= j < i ==> source.listings[j].id != id
    ensures source.RemoteRecord? ==>
              (r.None? <==> !source.response.ok)
              && (r.Some? ==> r.value == MapRecord(source.response.record))
  {
    match source
    case MockRecords(listings) =>
      (match FirstWithId(listings, id)
       case None => None
       case Some(k) => Some(listings[k]))
    case RemoteRecord(response) =>
      if response.ok then Some(MapRecord(response.record)) else None
  }
}
