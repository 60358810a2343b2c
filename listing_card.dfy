/** The dashboard card of `src/components/ui/ListingCard.tsx`: the source
    label derived from the listing id, the truncated summary and the
    fallbacks of the key figures. */
module ListingCard {
  import opened Types
  import Utils
  import StatusBadge
  import EnergyBadge
  import YieldDisplay

  /** The label of a listing id without a portal prefix. */
  const DefaultSource := "ImmoScout24"

  /** The length the summary is cut to. */
  const SummaryLength := 120

  /** `s.split('_')[0]`: the text before the first underscore, or all of `s`
      when there is none. */
  function FirstSegment(s: string): (r: string)
    ensures '_' !in r
    ensures r <= s
    ensures '_' !in s ==> r == s
    ensures '_' in s ==> |r| < |s| && s[|r|] == '_'
  {
    if s == [] then []
    else if s[0] == '_' then []
    else [s[0]] + FirstSegment(s[1..])
  }

  /** The portal shown at the foot of the card: `'ImmoScout24'` for an id
      without an underscore, otherwise the text before the first underscore,
      which is empty when the id starts with one. Never contains `'_'`. */
  function SourceLabel(listingId: string): (r: string)
    ensures '_' !in listingId ==> r == DefaultSource
    ensures '_' in listingId ==> r == FirstSegment(listingId)
    ensures listingId != "" && listingId[0] == '_' ==> r == ""
    ensures '_' !in r
  {
    var head := FirstSegment(listingId);
    if head == listingId then DefaultSource else head
  }

  /** The prefix a portal writes before the underscore is its label. */
  lemma PrefixIsLabel(portal: string, rest: string)
    requires '_' !in portal
    ensures SourceLabel(portal + "_" + rest) == portal
  {
    FirstSegmentOfPrefix(portal, rest);
  }

  lemma {:induction false} FirstSegmentOfPrefix(portal: string, rest: string)
    requires '_' !in portal
    ensures FirstSegment(portal + "_" + rest) == portal
  {
    if portal != [] {
      assert (portal + "_" + rest)[1..] == portal[1..] + "_" + rest;
      assert portal[0] in portal;
      FirstSegmentOfPrefix(portal[1..], rest);
    }
  }

  datatype CardView = CardView(
    status: StatusBadge.BadgeView,
    energy: EnergyBadge.BadgeView,
    address: string,
    price: string,
    yieldLabel: YieldDisplay.YieldView,
    area: string,
    rooms: string,
    summary: Option<string>,
    source: string)

  /** `ListingCard({ listing })`. The summary paragraph is there only for a
      non-empty summary, cut to 120 characters plus an ellipsis; missing
      rooms show a dash. */
  function Render(l: Listing, f: Utils.Formatters): (c: CardView)
    ensures c.summary.Some? <==> l.summary != ""
    ensures c.summary.Some? ==> c.summary.value == Utils.Truncate(l.summary, SummaryLength)
    ensures c.summary.Some? ==> |c.summary.value| <= SummaryLength + 1
    ensures c.summary.Some? && |l.summary| <= SummaryLength ==> c.summary.value == l.summary
    ensures l.rooms.None? ==> c.rooms == Utils.Dash
    ensures l.rooms.Some? ==> c.rooms == f.show(l.rooms.value)
    ensures c.source == SourceLabel(l.listingId)
    ensures c.status == StatusBadge.Render(l.status)
    ensures c.energy == EnergyBadge.Render(l.energyClass)
    ensures c.yieldLabel == YieldDisplay.Render(l.yieldPct, l.yieldRating, Some(YieldDisplay.Sm), f.fixed2)
  {
    CardView(
      StatusBadge.Render(l.status),
      EnergyBadge.Render(l.energyClass),
      l.address,
      Utils.FormatNumber(Some(l.purchasePrice), f.price),
      YieldDisplay.Render(l.yieldPct, l.yieldRating, Some(YieldDisplay.Sm), f.fixed2),
      Utils.FormatNumber(Some(l.livingArea), f.area),
      match l.rooms case None => Utils.Dash case Some(n) => f.show(n),
      if l.summary != "" then Some(Utils.Truncate(l.summary, SummaryLength)) else None,
      SourceLabel(l.listingId))
  }
}
