/** The yield label of `src/components/ui/YieldDisplay.tsx`: its colour band,
    the text shown without a yield, and the size classes. */
module YieldDisplay {
  import opened Types
  import Utils

  datatype Size = Sm | Md | Lg

  /** The size used when none is passed. */
  const DefaultSize := Md

  /** The `size` prop after its default: `md` when it is not passed. */
  function ChosenSize(size: Option<Size>): (s: Size)
    ensures size.None? ==> s == DefaultSize
    ensures size.Some? ==> s == size.value
  {
    if size.Some? then size.value else DefaultSize
  }

  /** The colour band of a yield. */
  datatype Tone = Emerald | Amber | Red

  /** At least 5.5 is emerald, at least 4 amber, anything lower red. */
  function ToneOf(y: real): (t: Tone)
    ensures t == Emerald <==> y >= 5.5
    ensures t == Amber <==> 4.0 <= y < 5.5
    ensures t == Red <==> y < 4.0
  {
    if y >= 5.5 then Emerald else if y >= 4.0 then Amber else Red
  }

  function ToneClass(t: Tone): string {
    match t
    case Emerald => "text-emerald-400"
    case Amber => "text-amber-400"
    case Red => "text-red-400"
  }

  /** How good a band is: red below amber below emerald. */
  function Grade(t: Tone): nat {
    match t
    case Red => 0
    case Amber => 1
    case Emerald => 2
  }

  /** A higher yield never gets a worse colour. */
  lemma ToneMonotone(x: real, y: real)
    requires x <= y
    ensures Grade(ToneOf(x)) <= Grade(ToneOf(y))
  {
  }

  /** The three `size === … && …` arguments; `large` is the class of `lg`. */
  function SizeArgs(size: Size, large: string): seq<Utils.ClassArg> {
    [Utils.When(size == Sm, "text-xs"), Utils.When(size == Md, "text-sm"), Utils.When(size == Lg, large)]
  }

  function SizeClass(size: Size, large: string): string {
    match size
    case Sm => "text-xs"
    case Md => "text-sm"
    case Lg => large
  }

  /** Exactly one of the size arguments survives `cn`. */
  lemma SizeArgsClass(size: Size, large: string)
    requires large != ""
    ensures Utils.Cn(SizeArgs(size, large)) == SizeClass(size, large)
  {
    var args := SizeArgs(size, large);
    assert args == [args[0]] + ([args[1]] + [args[2]]);
    Utils.CnAppend([args[0]], [args[1]] + [args[2]]);
    Utils.CnAppend([args[1]], [args[2]]);
    Utils.CnSingle(args[0]);
    Utils.CnSingle(args[1]);
    Utils.CnSingle(args[2]);
  }

  /** The class string without a yield: gray, then the size class. */
  lemma NoYieldClasses(size: Size)
    ensures Utils.Cn([Utils.Str("text-gray-500")] + SizeArgs(size, "text-lg"))
            == "text-gray-500" + " " + SizeClass(size, "text-lg")
  {
    Utils.CnAppend([Utils.Str("text-gray-500")], SizeArgs(size, "text-lg"));
    Utils.CnSingle(Utils.Str("text-gray-500"));
    SizeArgsClass(size, "text-lg");
  }

  /** The class string with a yield: semibold, the colour, then the size
      class, which is bold for `lg`. */
  lemma YieldClasses(tone: Tone, size: Size)
    ensures Utils.Cn([Utils.Str("font-semibold"), Utils.Str(ToneClass(tone))] + SizeArgs(size, "text-lg font-bold"))
            == "font-semibold" + " " + ToneClass(tone) + " " + SizeClass(size, "text-lg font-bold")
  {
    var head := [Utils.Str("font-semibold"), Utils.Str(ToneClass(tone))];
    Utils.CnAppend(head, SizeArgs(size, "text-lg font-bold"));
    Utils.CnPair("font-semibold", ToneClass(tone));
    SizeArgsClass(size, "text-lg font-bold");
  }

  /** The rendered `<span>`: its text and its class string. */
  datatype YieldView = YieldView(text: string, className: string)

  /** `YieldDisplay({ yieldPct, yieldRating, size })`. Without a yield: the
      rating, or `'n/a'` when the rating is empty, in gray at the size's text
      class (`md` when no size is passed). With one: the two-decimal yield and a percent sign, semibold in
      its band's colour, `lg` also bold. */
  function Render(yieldPct: Option<real>, yieldRating: string, sizeProp: Option<Size>, fixed2: real -> string): (v: YieldView)
    ensures yieldPct.None? ==>
              v.text == (if yieldRating != "" then yieldRating else "n/a")
              && v.className == "text-gray-500" + " " + SizeClass(ChosenSize(sizeProp), "text-lg")
    ensures yieldPct.Some? ==>
              v.text == fixed2(yieldPct.value) + "%"
              && v.className == "font-semibold" + " " + ToneClass(ToneOf(yieldPct.value)) + " "
                                + SizeClass(ChosenSize(sizeProp), "text-lg font-bold")
  {
    var size := ChosenSize(sizeProp);
    match yieldPct
    case None =>
      NoYieldClasses(size);
      YieldView(if yieldRating != "" then yieldRating else "n/a",
                Utils.Cn([Utils.Str("text-gray-500")] + SizeArgs(size, "text-lg")))
    case Some(y) =>
      YieldClasses(ToneOf(y), size);
      YieldView(fixed2(y) + "%",
                Utils.Cn([Utils.Str("font-semibold"), Utils.Str(ToneClass(ToneOf(y)))] + SizeArgs(size, "text-lg font-bold")))
  }
}
