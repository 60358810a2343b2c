/** The listing record shared by every view of the dashboard, and the small
    wrapper types used for the source's `null`/`undefined` values and
    thrown errors. */
module Types {

  /** `T | null | undefined`: both the null and the undefined value are `None`. */
  datatype Option<+T> = None | Some(value: T)

  datatype Result<+R, +E> = Ok(value: R) | Err(error: E)

  /** One property listing after mapping from the data store.
      Every JavaScript number is a `real`; NaN is not part of the model.
      `status` and `pipelineStage` are plain strings because the record
      mapping casts whatever the store holds without checking it. */
  datatype Listing = Listing(
    id: string,
    listingId: string,
    url: string,
    title: string,
    address: string,
    postcode: string,
    purchasePrice: real,
    livingArea: real,
    rooms: Option<real>,
    buildingType: string,
    yearBuilt: Option<real>,
    lastRefurbish: Option<string>,
    energyClass: string,
    heatingType: string,
    firingType: string,
    isRented: string,
    daysSinceListed: Option<real>,
    pricePerSqm: Option<real>,
    yieldPct: Option<real>,
    yieldRating: string,
    status: string,
    summary: string,
    risks: string,
    reason: string,
    analyzedAt: string,
    description: string,
    agentEmail: string,
    agentName: string,
    agentPhone: string,
    pipelineStage: string,
    notes: string,
    nextActionDate: string,
    preFilterReason: string,
    flaggedPotentialDuplicate: bool)

  // The values of `ListingStatus`.
  const GO := "GO"
  const PRUEFEN := "PRÜFEN"
  const NO_GO := "NO-GO"

  // The values of `PipelineStage` (the empty string is "no stage").
  const NEW := "NEW"
  const CONTACTED := "CONTACTED"
  const VIEWING := "VIEWING"
  const OFFER := "OFFER"
  const PASSED := "PASSED"
  const CLOSED := "CLOSED"

  /** Milliseconds in a day. */
  const DayMs := 86400000

  predicate IsGo(l: Listing) { l.status == GO }
  predicate IsPruefen(l: Listing) { l.status == PRUEFEN }
  predicate IsNoGo(l: Listing) { l.status == NO_GO }

  /** `new Date(l.analyzed_at) >= cutoff` behind a check for an empty date:
      an empty or unparsable date (an invalid date compares false) fails. */
  predicate AnalyzedSince(l: Listing, cutoff: int, parse: string -> Option<int>) {
    l.analyzedAt != "" && parse(l.analyzedAt).Some? && parse(l.analyzedAt).value >= cutoff
  }
}
