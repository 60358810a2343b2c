/** The detail drawer of `src/components/ui/DetailDrawer.tsx`: how each shown
    value is derived from the listing, which sections appear, and how the
    open flag moves the panel and the backdrop. */
module DetailDrawer {
  import opened Types
  import Utils
  import StatusBadge
  import EnergyBadge
  import YieldDisplay

  // ---------------------------------------------------------------------------
  // Value rules

  /** `s.replace(/_/g, ' ')`. */
  function ReplaceUnderscores(s: string): (r: string)
    ensures |r| == |s|
    ensures forall i :: 0 <= i < |s| ==> r[i] == if s[i] == '_' then ' ' else s[i]
    ensures '_' !in r
  {
    seq(|s|, i requires 0 <= i < |s| => if s[i] == '_' then ' ' else s[i])
  }

  /** Replacing twice is replacing once, and a value without underscores is
      shown exactly as stored. */
  lemma ReplaceUnderscoresFixes(s: string)
    ensures ReplaceUnderscores(ReplaceUnderscores(s)) == ReplaceUnderscores(s)
    ensures ReplaceUnderscores(s) == s <==> '_' !in s
  {
    if '_' in s {
      var i :| 0 <= i < |s| && s[i] == '_';
      assert ReplaceUnderscores(s)[i] != s[i];
    }
  }

  /** The "Vermietet" value: `y` is yes, `n` is no, anything else unknown. */
  function RentedLabel(isRented: string): (r: string)
    ensures isRented == "y" ==> r == "Ja"
    ensures isRented == "n" ==> r == "Nein"
    ensures r == "Unbekannt" <==> isRented != "y" && isRented != "n"
  {
    if isRented == "y" then "Ja" else if isRented == "n" then "Nein" else "Unbekannt"
  }

  /** `x?.toString() ?? '—'` for a nullable number. */
  function NumberOrDash(x: Option<real>, show: real -> string): (r: string)
    ensures x.None? ==> r == Utils.Dash
    ensures x.Some? ==> r == show(x.value)
  {
    match x
    case None => Utils.Dash
    case Some(v) => show(v)
  }

  /** `x ?? '—'` for a nullable string: only a missing value is replaced; an
      empty string is shown as it is. */
  function StringOrDash(x: Option<string>): (r: string)
    ensures x.None? ==> r == Utils.Dash
    ensures x.Some? ==> r == x.value
  {
    match x
    case None => Utils.Dash
    case Some(v) => v
  }

  /** `s || '—'`: the empty string is replaced too. */
  function TextOrDash(s: string): (r: string)
    ensures s == "" ==> r == Utils.Dash
    ensures s != "" ==> r == s
  {
    if s == "" then Utils.Dash else s
  }

  /** The "€/m²" value: the test is on truthiness, so a price of 0 per square
      metre shows the dash just like a missing one. */
  function PricePerSqmText(x: Option<real>, locale: real -> string): (r: string)
    ensures (x.None? || x == Some(0.0)) ==> r == Utils.Dash
    ensures x.Some? && x.value != 0.0 ==> r == locale(x.value) + " €"
  {
    match x
    case None => Utils.Dash
    case Some(v) => if v == 0.0 then Utils.Dash else locale(v) + " €"
  }

  /** `s && <p>{s}</p>`: a paragraph for a non-empty string, nothing for an
      empty one. */
  function ShownIf(s: string): (r: Option<string>)
    ensures r.Some? <==> s != ""
    ensures r.Some? ==> r.value == s
  {
    if s != "" then Some(s) else None
  }

  /** `??` and `||` differ on the empty string: an empty last-refurbishment
      date is shown empty, an empty pipeline stage as a dash. */
  lemma NullishVersusFalsy()
    ensures StringOrDash(Some("")) == ""
    ensures TextOrDash("") == Utils.Dash
  {
  }

  // ---------------------------------------------------------------------------
  // Sections

  /** The agent section's lines; each is there only for a non-empty field. */
  datatype AgentLines = AgentLines(name: Option<string>, email: Option<string>, phone: Option<string>)

  /** The agent section: present when at least one of name, e-mail and phone
      is non-empty, each line present when its own field is. */
  function AgentSection(l: Listing): (r: Option<AgentLines>)
    ensures r.Some? <==> l.agentName != "" || l.agentEmail != "" || l.agentPhone != ""
    ensures r.Some? ==> r.value.name == ShownIf(l.agentName)
    ensures r.Some? ==> r.value.email == ShownIf(l.agentEmail)
    ensures r.Some? ==> r.value.phone == ShownIf(l.agentPhone)
    ensures r.Some? ==> r.value.name.Some? || r.value.email.Some? || r.value.phone.Some?
  {
    if l.agentName != "" || l.agentEmail != "" || l.agentPhone != "" then
      Some(AgentLines(ShownIf(l.agentName), ShownIf(l.agentEmail), ShownIf(l.agentPhone)))
    else None
  }

  /** Everything the drawer shows for one listing. */
  datatype DrawerContent = DrawerContent(
    status: StatusBadge.BadgeView,
    yieldLabel: YieldDisplay.YieldView,
    title: string,
    address: string,
    price: string,
    pricePerSqm: string,
    area: string,
    rooms: string,
    yearBuilt: string,
    buildingType: string,
    rented: string,
    heating: string,
    firing: string,
    energy: EnergyBadge.BadgeView,
    lastRefurbish: string,
    summary: Option<string>,
    risks: Option<seq<string>>,
    reason: Option<string>,
    agent: Option<AgentLines>,
    pipeline: string,
    analyzed: string,
    listingId: string,
    daysOnline: string,
    notes: Option<string>,
    url: string)

  /** The drawer's content: none without a listing; otherwise each value by
      its rule, and each optional section only when it has something to
      show. */
  function Content(listing: Option<Listing>, f: Utils.Formatters): (r: Option<DrawerContent>)
    ensures r.None? <==> listing.None?
    ensures r.Some? ==>
              var l := listing.value;
              var c := r.value;
              && c.status == StatusBadge.Render(l.status)
              && c.yieldLabel == YieldDisplay.Render(l.yieldPct, l.yieldRating, Some(YieldDisplay.Lg), f.fixed2)
              && c.title == l.title && c.address == l.address
              && c.listingId == l.listingId && c.url == l.url
              && c.price == Utils.FormatNumber(Some(l.purchasePrice), f.price)
              && c.area == Utils.FormatNumber(Some(l.livingArea), f.area)
              && c.pricePerSqm == PricePerSqmText(l.pricePerSqm, f.locale)
              && c.buildingType == ReplaceUnderscores(l.buildingType)
              && c.heating == ReplaceUnderscores(l.heatingType)
              && c.firing == ReplaceUnderscores(l.firingType)
              && '_' !in c.buildingType && '_' !in c.heating && '_' !in c.firing
              && c.rented == RentedLabel(l.isRented)
              && c.energy == EnergyBadge.Render(l.energyClass)
              && c.rooms == NumberOrDash(l.rooms, f.show)
              && c.yearBuilt == NumberOrDash(l.yearBuilt, f.show)
              && c.daysOnline == NumberOrDash(l.daysSinceListed, f.show)
              && (l.rooms.None? ==> c.rooms == Utils.Dash)
              && (l.yearBuilt.None? ==> c.yearBuilt == Utils.Dash)
              && (l.daysSinceListed.None? ==> c.daysOnline == Utils.Dash)
              && c.lastRefurbish == StringOrDash(l.lastRefurbish)
              && c.pipeline == TextOrDash(l.pipelineStage)
              && c.summary == ShownIf(l.summary)
              && c.reason == ShownIf(l.reason)
              && c.notes == ShownIf(l.notes)
              && (c.summary.Some? <==> l.summary != "")
              && (c.reason.Some? <==> l.reason != "")
              && (c.notes.Some? <==> l.notes != "")
              && (c.risks.Some? <==> Utils.ParseRisks(Some(l.risks), f.parseJson) != [])
              && (c.risks.Some? ==> c.risks.value == Utils.ParseRisks(Some(l.risks), f.parseJson))
              && c.agent == AgentSection(l)
              && c.analyzed == Utils.FormatDate(Some(l.analyzedAt), f.parseDate, f.date)
  {
    match listing
    case None => None
    case Some(l) =>
      var risks := Utils.ParseRisks(Some(l.risks), f.parseJson);
      Some(DrawerContent(
        StatusBadge.Render(l.status),
        YieldDisplay.Render(l.yieldPct, l.yieldRating, Some(YieldDisplay.Lg), f.fixed2),
        l.title,
        l.address,
        Utils.FormatNumber(Some(l.purchasePrice), f.price),
        PricePerSqmText(l.pricePerSqm, f.locale),
        Utils.FormatNumber(Some(l.livingArea), f.area),
        NumberOrDash(l.rooms, f.show),
        NumberOrDash(l.yearBuilt, f.show),
        ReplaceUnderscores(l.buildingType),
        RentedLabel(l.isRented),
        ReplaceUnderscores(l.heatingType),
        ReplaceUnderscores(l.firingType),
        EnergyBadge.Render(l.energyClass),
        StringOrDash(l.lastRefurbish),
        ShownIf(l.summary),
        if |risks| > 0 then Some(risks) else None,
        ShownIf(l.reason),
        AgentSection(l),
        TextOrDash(l.pipelineStage),
        Utils.FormatDate(Some(l.analyzedAt), f.parseDate, f.date),
        l.listingId,
        NumberOrDash(l.daysSinceListed, f.show),
        ShownIf(l.notes),
        l.url))
  }

  // ---------------------------------------------------------------------------
  // The open flag

  const BackdropBase := "fixed inset-0 bg-black/50 z-40 transition-opacity duration-300"
  const PanelBase := "fixed top-0 right-0 h-full w-[520px] max-w-[90vw] bg-gray-900 border-l border-gray-800 z-50 overflow-y-auto transition-transform duration-300 ease-in-out"

  /** The class strings of the backdrop and the panel: open shows both, closed
      fades the backdrop out, lets clicks through it and slides the panel off
      to the right. The content does not depend on the flag. */
  function Overlay(isOpen: bool): (r: (string, string))
    ensures isOpen ==> r == (BackdropBase + " " + "opacity-100", PanelBase + " " + "translate-x-0")
    ensures !isOpen ==>
              r == (BackdropBase + " " + "opacity-0 pointer-events-none", PanelBase + " " + "translate-x-full")
  {
    var backdrop := if isOpen then "opacity-100" else "opacity-0 pointer-events-none";
    var panel := if isOpen then "translate-x-0" else "translate-x-full";
    Utils.CnPair(BackdropBase, backdrop);
    Utils.CnPair(PanelBase, panel);
    (Utils.Cn([Utils.Str(BackdropBase), Utils.Str(backdrop)]), Utils.Cn([Utils.Str(PanelBase), Utils.Str(panel)]))
  }
}
