/** The formatting and class-name helpers of `src/lib/utils.ts`.
    Locale formatting, date parsing and JSON parsing are calls into code this
    model cannot see, so they are parameters; what is modelled is each
    helper's own branching on missing or empty input, `cn` and `truncate`. */
module Utils {
  import opened Types
  import Seqs

  /** The placeholder shown for a missing value. */
  const Dash := "—"
  const Ellipsis := '…'

  // ---------------------------------------------------------------------------
  // formatPrice / formatYield / formatArea / formatDate

  /** The foreign formatters and parsers the views call: `Intl.NumberFormat`
      for prices and areas, `toFixed(2)`, `toLocaleString('de-DE')`,
      `Number.prototype.toString`, `Date` parsing and formatting, and
      `JSON.parse`. */
  datatype Formatters = Formatters(
    price: real -> string,
    area: real -> string,
    fixed2: real -> string,
    locale: real -> string,
    show: real -> string,
    parseDate: string -> Option<int>,
    date: int -> string,
    parseJson: string -> Option<seq<string>>)

  /** `formatPrice`, `formatYield` and `formatArea` share one shape: `'—'` for
      null or undefined, otherwise the locale formatter's text. */
  function FormatNumber(value: Option<real>, format: real -> string): (r: string)
    ensures value.None? ==> r == Dash
    ensures value.Some? ==> r == format(value.value)
  {
    match value
    case None => Dash
    case Some(v) => format(v)
  }

  /** `formatDate`: `'—'` for a missing or empty string, the string itself
      when it does not parse as a date, and the formatted date otherwise. */
  function FormatDate(dateStr: Option<string>, parse: string -> Option<int>, format: int -> string): (r: string)
    ensures (dateStr.None? || dateStr == Some("")) ==> r == Dash
    ensures dateStr.Some? && dateStr.value != "" && parse(dateStr.value).None? ==> r == dateStr.value
    ensures dateStr.Some? && dateStr.value != "" && parse(dateStr.value).Some? ==> r == format(parse(dateStr.value).value)
  {
    match dateStr
    case None => Dash
    case Some(s) =>
      if s == "" then Dash
      else match parse(s)
        case None => s
        case Some(t) => format(t)
  }

  /** `parseRisks`: no risks for a missing or empty field; otherwise whatever
      the JSON parser yields when it yields an array, and no risks when it
      fails or yields something else (`parseJson` returns `None` then). */
  function ParseRisks(risksField: Option<string>, parseJson: string -> Option<seq<string>>): (r: seq<string>)
    ensures (risksField.None? || risksField == Some("")) ==> r == []
    ensures risksField.Some? && risksField.value != "" ==>
              r == match parseJson(risksField.value) case None => [] case Some(a) => a
  {
    match risksField
    case None => []
    case Some(s) =>
      if s == "" then []
      else match parseJson(s)
        case None => []
        case Some(a) => a
  }

  /** `isToday`: false for a missing or empty string and for an unparsable
      one (an invalid date's calendar fields are NaN, which equals nothing);
      otherwise whether the date falls on the same local calendar day as
      `now`. `dayOf` gives a timestamp's local calendar day. */
  function IsToday(dateStr: Option<string>, parse: string -> Option<int>, now: int, dayOf: int -> int): (r: bool)
    ensures (dateStr.None? || dateStr == Some("")) ==> !r
    ensures r <==> dateStr.Some? && dateStr.value != "" && parse(dateStr.value).Some?
                   && dayOf(parse(dateStr.value).value) == dayOf(now)
  {
    match dateStr
    case None => false
    case Some(s) =>
      if s == "" then false
      else match parse(s)
        case None => false
        case Some(t) => dayOf(t) == dayOf(now)
  }

  // ---------------------------------------------------------------------------
  // cn

  /** One argument of `cn`: a string, a boolean (the value of `cond && 'x'`
      when `cond` is false), `null` or `undefined`. */
  datatype ClassArg = Str(s: string) | Flag(b: bool) | Null | Undefined

  /** `cond && text` as a `cn` argument: the text, or `false`. */
  function When(cond: bool, text: string): (a: ClassArg)
    ensures cond ==> a == Str(text)
    ensures !cond ==> !Truthy(a)
  {
    if cond then Str(text) else Flag(false)
  }

  /** `Boolean(a)`: the empty string, `false`, `null` and `undefined` are falsy. */
  predicate Truthy(a: ClassArg) {
    match a
    case Str(s) => s != ""
    case Flag(b) => b
    case Null => false
    case Undefined => false
  }

  /** How `Array.prototype.join` writes an element: booleans become
      `"true"`/`"false"`, `null` and `undefined` become the empty string. */
  function ClassText(a: ClassArg): string {
    match a
    case Str(s) => s
    case Flag(b) => if b then "true" else "false"
    case Null => ""
    case Undefined => ""
  }

  /** The summed lengths of `parts`. */
  function TotalLength(parts: seq<string>): nat {
    if parts == [] then 0 else |parts[0]| + TotalLength(parts[1..])
  }

  /** `parts.join(sep)`: the parts in order, starting with the first, one
      separator between neighbours and none at either end. */
  function Join(parts: seq<string>, sep: string): (r: string)
    ensures parts == [] ==> r == ""
    ensures parts != [] ==> parts[0] <= r
    ensures |parts| == 2 ==> r == parts[0] + sep + parts[1]
    ensures |r| == TotalLength(parts) + (if parts == [] then 0 else (|parts| - 1) * |sep|)
  {
    if parts == [] then ""
    else if |parts| == 1 then parts[0]
    else parts[0] + sep + Join(parts[1..], sep)
  }

  /** The texts of the arguments `cn` keeps, in order. */
  function Kept(classes: seq<ClassArg>): seq<string> {
    var kept := Seqs.Filter(classes, Truthy);
    seq(|kept|, i requires 0 <= i < |kept| => ClassText(kept[i]))
  }

  /** `cn(...classes)`: `classes.filter(Boolean).join(' ')`. */
  function Cn(classes: seq<ClassArg>): (r: string)
    ensures r == "" <==> forall a :: a in classes ==> !Truthy(a)
  {
    var kept := Seqs.Filter(classes, Truthy);
    KeptNonEmpty(classes);
    JoinEmpty(Kept(classes), " ");
    assert |Kept(classes)| == |kept|;
    assert kept == [] <==> forall a :: a in classes ==> !Truthy(a) by {
      if kept != [] { assert kept[0] in kept; }
    }
    Join(Kept(classes), " ")
  }

  /** Two class strings joined the way `cn` joins them: a single space between
      them, and no space next to an empty one. */
  function Glue(x: string, y: string): string {
    if x == "" then y else if y == "" then x else x + " " + y
  }

  lemma KeptNonEmpty(classes: seq<ClassArg>)
    ensures forall i :: 0 <= i < |Kept(classes)| ==> Kept(classes)[i] != ""
  {
    var kept := Seqs.Filter(classes, Truthy);
    forall i | 0 <= i < |kept| ensures ClassText(kept[i]) != "" {
      assert Truthy(kept[i]);
    }
  }

  /** A join of non-empty parts is empty exactly when there are no parts. */
  lemma {:induction false} JoinEmpty(parts: seq<string>, sep: string)
    requires forall i :: 0 <= i < |parts| ==> parts[i] != ""
    ensures Join(parts, sep) == "" <==> parts == []
  {
    if |parts| > 1 {
      assert |parts[0] + sep + Join(parts[1..], sep)| >= |parts[0]| > 0;
    }
  }

  lemma {:induction false} JoinAppend(a: seq<string>, b: seq<string>)
    requires forall i :: 0 <= i < |a| ==> a[i] != ""
    requires forall i :: 0 <= i < |b| ==> b[i] != ""
    ensures Join(a + b, " ") == Glue(Join(a, " "), Join(b, " "))
    decreases |a|
  {
    JoinEmpty(a, " ");
    JoinEmpty(b, " ");
    if a == [] {
      assert a + b == b;
    } else if |a| == 1 {
      if b != [] {
        assert (a + b)[1..] == b;
      } else {
        assert a + b == a;
      }
    } else {
      assert (a + b)[1..] == a[1..] + b;
      JoinAppend(a[1..], b);
      JoinEmpty(a[1..], " ");
      assert a[1..] + b != [];
      JoinEmpty(a[1..] + b, " ");
    }
  }

  lemma KeptAppend(a: seq<ClassArg>, b: seq<ClassArg>)
    ensures Kept(a + b) == Kept(a) + Kept(b)
  {
    Seqs.FilterAppend(a, b, Truthy);
  }

  /** `cn` of two argument lists in a row is the two class strings glued:
      the kept arguments stay in order with one space between neighbours. */
  lemma CnAppend(a: seq<ClassArg>, b: seq<ClassArg>)
    ensures Cn(a + b) == Glue(Cn(a), Cn(b))
  {
    KeptAppend(a, b);
    KeptNonEmpty(a);
    KeptNonEmpty(b);
    JoinAppend(Kept(a), Kept(b));
  }

  /** A truthy argument contributes its text; `true` contributes `"true"`. */
  lemma CnSingle(a: ClassArg)
    ensures Cn([a]) == if Truthy(a) then ClassText(a) else ""
    ensures Cn([Flag(true)]) == "true"
  {
    assert [a][1..] == [];
    assert [Flag(true)][1..] == [];
  }

  /** Two non-empty strings are joined by exactly one space. */
  lemma CnPair(x: string, y: string)
    requires x != "" && y != ""
    ensures Cn([Str(x), Str(y)]) == x + " " + y
  {
    CnAppend([Str(x)], [Str(y)]);
    CnSingle(Str(x));
    CnSingle(Str(y));
    assert [Str(x)] + [Str(y)] == [Str(x), Str(y)];
  }

  /** `table[key] || table[fallback]` for a style table: the key's entry when
      there is a non-empty one, the fallback entry otherwise. */
  function LookupOr(table: map<string, string>, key: string, fallback: string): (r: string)
    requires fallback in table
    ensures key in table && table[key] != "" ==> r == table[key]
    ensures !(key in table && table[key] != "") ==> r == table[fallback]
  {
    if key in table && table[key] != "" then table[key] else table[fallback]
  }

  // ---------------------------------------------------------------------------
  // truncate

  /** Where `str.slice(0, end)` stops: a negative `end` counts back from the
      end of the string, and the result is clamped to the string. */
  function SliceEnd(len: nat, end: int): (k: nat)
    ensures k <= len
    ensures 0 <= end <= len ==> k == end
    ensures end > len ==> k == len
  {
    if end < 0 then (if len + end < 0 then 0 else len + end)
    else if end > len then len
    else end
  }

  /** `truncate(str, maxLen)`. */
  function Truncate(str: string, maxLen: int): (r: string)
    ensures |str| <= maxLen ==> r == str
    ensures 0 <= maxLen < |str| ==>
              |r| == maxLen + 1 && r[..maxLen] == str[..maxLen] && r[maxLen] == Ellipsis
    ensures 0 <= maxLen ==> |r| <= maxLen + 1
    ensures |r| <= |str| + 1
  {
    if |str| <= maxLen then str
    else str[..SliceEnd(|str|, maxLen)] + [Ellipsis]
  }

  /** Truncating twice to the same non-negative length changes nothing more. */
  lemma TruncateIdempotent(str: string, maxLen: nat)
    ensures Truncate(Truncate(str, maxLen), maxLen) == Truncate(str, maxLen)
  {
    if |str| > maxLen {
      var once := Truncate(str, maxLen);
      assert once[..maxLen] == str[..maxLen];
    }
  }

  /** With a negative length the slice counts back from the end, so a second
      call can cut further: `truncate` is not idempotent there. */
  lemma TruncateNegativeShrinks()
    ensures Truncate("abcd", -2) == "ab…"
    ensures Truncate(Truncate("abcd", -2), -2) == "a…"
  {
    assert "abcd"[..2] == "ab";
    assert "ab…"[..1] == "a";
  }
}
