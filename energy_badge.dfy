/** The energy-class pill of `src/components/ui/EnergyBadge.tsx`. */
module EnergyBadge {
  import Utils

  const BaseClasses := "inline-flex items-center rounded-md border px-2 py-0.5 text-xs font-medium"
  const NotStated := "not stated"

  /** `ENERGY_STYLES`. */
  const EnergyStyles: map<string, string> := map[
    "A_PLUS" := "bg-green-900/50 text-green-300 border-green-800",
    "A" := "bg-green-900/50 text-green-400 border-green-800",
    "B" := "bg-green-900/40 text-green-400 border-green-800",
    "C" := "bg-lime-900/40 text-lime-400 border-lime-800",
    "D" := "bg-yellow-900/40 text-yellow-400 border-yellow-800",
    "E" := "bg-orange-900/40 text-orange-400 border-orange-800",
    "F" := "bg-red-900/40 text-red-400 border-red-800",
    "G" := "bg-red-900/50 text-red-400 border-red-800",
    "H" := "bg-red-900/60 text-red-300 border-red-700",
    NotStated := "bg-gray-800 text-gray-500 border-gray-700"]

  /** The shown label: `A_PLUS` is written `A+`, every other class as is. */
  function Label(energyClass: string): (r: string)
    ensures energyClass == "A_PLUS" ==> r == "A+"
    ensures energyClass != "A_PLUS" ==> r == energyClass
  {
    if energyClass == "A_PLUS" then "A+" else energyClass
  }

  /** The style of a class: its table entry, or the `'not stated'` style for
      a class the table does not know. */
  function EnergyStyle(energyClass: string): (r: string)
    ensures energyClass in EnergyStyles ==> r == EnergyStyles[energyClass]
    ensures energyClass !in EnergyStyles ==> r == EnergyStyles[NotStated]
    ensures r != ""
  {
    Utils.LookupOr(EnergyStyles, energyClass, NotStated)
  }

  /** The table knows the ten classes A+ to H and `'not stated'`, nothing
      else. */
  lemma KnownClasses()
    ensures EnergyStyles.Keys == {"A_PLUS", "A", "B", "C", "D", "E", "F", "G", "H", NotStated}
  {
  }

  datatype BadgeView = BadgeView(text: string, className: string)

  /** `EnergyBadge({ energyClass })`: the label, with the base classes first
      and the class style after them. */
  function Render(energyClass: string): (b: BadgeView)
    ensures b.text == Label(energyClass)
    ensures b.className == BaseClasses + " " + EnergyStyle(energyClass)
  {
    Utils.CnPair(BaseClasses, EnergyStyle(energyClass));
    BadgeView(Label(energyClass), Utils.Cn([Utils.Str(BaseClasses), Utils.Str(EnergyStyle(energyClass))]))
  }

  /** `A+` and `A_PLUS` are shown alike, but only `A_PLUS` gets the A+ style:
      the label is rewritten, the lookup key is not. */
  lemma APlusSpellings()
    ensures Render("A_PLUS").text == Render("A+").text == "A+"
    ensures Render("A_PLUS").className != Render("A+").className
    ensures Render("A+").className == Render(NotStated).className
  {
  }
}
