/** The status pill of `src/components/ui/StatusBadge.tsx`. */
module StatusBadge {
  import opened Types
  import Utils

  const BaseClasses := "inline-flex items-center rounded-full border px-2.5 py-0.5 text-xs font-semibold"

  /** `STATUS_STYLES`. */
  const StatusStyles: map<string, string> := map[
    GO := "bg-emerald-900/50 text-emerald-400 border-emerald-800",
    PRUEFEN := "bg-amber-900/50 text-amber-400 border-amber-800",
    NO_GO := "bg-red-900/50 text-red-400 border-red-800",
    "" := "bg-gray-800 text-gray-500 border-gray-700"]

  /** The three statuses and the empty one each have their own style. */
  lemma StylesDistinct()
    ensures StatusStyles.Keys == {GO, PRUEFEN, NO_GO, ""}
    ensures StatusStyles[GO] != StatusStyles[PRUEFEN] && StatusStyles[GO] != StatusStyles[NO_GO]
    ensures StatusStyles[GO] != StatusStyles[""] && StatusStyles[PRUEFEN] != StatusStyles[NO_GO]
    ensures StatusStyles[PRUEFEN] != StatusStyles[""] && StatusStyles[NO_GO] != StatusStyles[""]
  {
  }

  /** The style of a status: its own entry, or the empty status's style for a
      status the table does not know. */
  function StatusStyle(status: string): (r: string)
    ensures status in StatusStyles ==> r == StatusStyles[status]
    ensures status !in StatusStyles ==> r == StatusStyles[""]
    ensures r != ""
  {
    Utils.LookupOr(StatusStyles, status, "")
  }

  datatype BadgeView = BadgeView(text: string, className: string)

  /** `StatusBadge({ status })`: the status, or `'Pending'` when it is empty,
      with the base classes first and the status style after them. */
  function Render(status: string): (b: BadgeView)
    ensures b.text == if status != "" then status else "Pending"
    ensures b.className == BaseClasses + " " + StatusStyle(status)
  {
    Utils.CnPair(BaseClasses, StatusStyle(status));
    BadgeView(if status != "" then status else "Pending",
              Utils.Cn([Utils.Str(BaseClasses), Utils.Str(StatusStyle(status))]))
  }

  /** A status the table does not know looks like a pending one, but keeps
      its own text. */
  lemma UnknownLooksPending(status: string)
    requires status !in StatusStyles
    ensures Render(status).className == Render("").className
    ensures Render(status).text == status
  {
  }

  /** The base classes are a prefix of every badge's class string. */
  lemma BaseFirst(status: string)
    ensures BaseClasses + " " <= Render(status).className
  {
    var b := Render(status);
    assert b.className == (BaseClasses + " ") + StatusStyle(status);
  }
}
