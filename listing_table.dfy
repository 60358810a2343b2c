/** The listing table of `src/components/ui/ListingTable.tsx`: its four
    state cells, the sort-header state machine and the
    filter / search / sort pipeline that derives the visible rows. */
module ListingTable {
  import opened Types
  import Seqs

  datatype SortField = PurchasePrice | YieldPct | LivingArea
  datatype SortDirection = Asc | Desc

  /** A status filter button: `'ALL'` or one status value. */
  datatype StatusFilter = All | Only(status: string)

  function Flip(d: SortDirection): SortDirection {
    if d == Asc then Desc else Asc
  }

  // ---------------------------------------------------------------------------
  // Status filter and search

  /** The row predicate of the status buttons: `'ALL'` keeps every row, a
      status keeps exactly the rows with that status. */
  function MatchesStatus(l: Listing, filter: StatusFilter): (r: bool)
    ensures filter.All? ==> r
    ensures filter.Only? ==> (r <==> l.status == filter.status)
  {
    filter.All? || l.status == filter.status
  }

  /** The characters `String.prototype.trim` removes: ECMAScript WhiteSpace
      and LineTerminator code points. */
  predicate IsWhitespace(c: char) {
    c == '\t' || c == '\n' || c == '\U{B}' || c == '\U{C}' || c == '\r' || c == ' '
    || c == '\U{A0}' || c == '\U{1680}' || ('\U{2000}' <= c <= '\U{200A}')
    || c == '\U{2028}' || c == '\U{2029}' || c == '\U{202F}' || c == '\U{205F}'
    || c == '\U{3000}' || c == '\U{FEFF}'
  }

  /** `search.trim()` is the empty string. */
  predicate IsBlank(s: string) {
    forall i :: 0 <= i < |s| ==> IsWhitespace(s[i])
  }

  /** Lower-casing of one character, for the ASCII and Latin-1 capitals. */
  function LowerChar(c: char): (r: char)
    ensures ('A' <= c <= 'Z' || ('À' <= c <= 'Þ' && c != '×')) ==> r as int == c as int + 32
    ensures !('A' <= c <= 'Z' || ('À' <= c <= 'Þ' && c != '×')) ==> r == c
    ensures 'A' <= c <= 'Z' ==> 'a' <= r <= 'z'
  {
    if 'A' <= c <= 'Z' || ('À' <= c <= 'Þ' && c != '×') then
      (c as int + 32) as char
    else c
  }

  /** `s.toLowerCase()`, character by character. */
  function Lower(s: string): (r: string)
    ensures |r| == |s|
    ensures forall i :: 0 <= i < |s| ==> r[i] == LowerChar(s[i])
  {
    seq(|s|, i requires 0 <= i < |s| => LowerChar(s[i]))
  }

  /** `hay.includes(needle)`: a prefix is found, a found needle is no longer
      than `hay`, and a needle as long as `hay` is found only when it is `hay`. */
  function Includes(hay: string, needle: string): (r: bool)
    ensures needle <= hay ==> r
    ensures r ==> |needle| <= |hay|
    ensures |needle| == |hay| ==> (r <==> needle == hay)
    decreases |hay|
  {
    needle <= hay || (hay != [] && Includes(hay[1..], needle))
  }

  /** `needle` occurs in `hay` starting at position `k`. */
  predicate OccursAt(hay: string, needle: string, k: int) {
    0 <= k <= |hay| - |needle| && hay[k..k + |needle|] == needle
  }

  /** `Includes` finds exactly the needles that occur at some position. */
  lemma {:induction false} IncludesAt(hay: string, needle: string)
    ensures Includes(hay, needle) <==> exists k :: OccursAt(hay, needle, k)
    decreases |hay|
  {
    if needle <= hay {
      assert hay[0..|needle|] == needle;
      assert OccursAt(hay, needle, 0);
    } else if hay == [] {
    } else {
      IncludesAt(hay[1..], needle);
      if Includes(hay[1..], needle) {
        var k :| OccursAt(hay[1..], needle, k);
        assert hay[k + 1..k + 1 + |needle|] == hay[1..][k..k + |needle|];
        assert OccursAt(hay, needle, k + 1);
      } else {
        forall k | OccursAt(hay, needle, k) ensures false {
          if k > 0 {
            var rest := hay[1..];
            assert k - 1 <= |rest| - |needle|;
            assert rest[k - 1..k - 1 + |needle|] == hay[k..k + |needle|];
            assert OccursAt(rest, needle, k - 1);
          }
        }
      }
    }
  }

  /** The row predicate of the search box. A blank search keeps every row;
      otherwise the query is lower-cased (not trimmed) and must occur in the
      lower-cased address or title, or in the postcode as written. */
  function MatchesSearch(l: Listing, search: string): (r: bool)
    ensures IsBlank(search) ==> r
    ensures !IsBlank(search) ==>
              (r <==> exists k :: OccursAt(Lower(l.address), Lower(search), k)
                               || OccursAt(Lower(l.title), Lower(search), k)
                               || OccursAt(l.postcode, Lower(search), k))
  {
    IncludesAt(Lower(l.address), Lower(search));
    IncludesAt(Lower(l.title), Lower(search));
    IncludesAt(l.postcode, Lower(search));
    IsBlank(search) ||
    (var q := Lower(search);
     Includes(Lower(l.address), q) || Includes(Lower(l.title), q) || Includes(l.postcode, q))
  }

  /** The rows that survive both filters, in input order. */
  function Selected(listings: seq<Listing>, filter: StatusFilter, search: string): (r: seq<Listing>)
    ensures forall l :: l in r <==> l in listings && MatchesStatus(l, filter) && MatchesSearch(l, search)
    ensures |r| <= |listings|
  {
    var byStatus := if filter.All? then listings else Seqs.Filter(listings, l => MatchesStatus(l, filter));
    if IsBlank(search) then byStatus else Seqs.Filter(byStatus, l => MatchesSearch(l, search))
  }

  // ---------------------------------------------------------------------------
  // Sorting

  /** `a[sortField] ?? -Infinity`: a missing value is below every number. */
  function SortKey(l: Listing, field: SortField): Option<real> {
    match field
    case PurchasePrice => Some(l.purchasePrice)
    case YieldPct => l.yieldPct
    case LivingArea => Some(l.livingArea)
  }

  predicate KeyLess(a: Option<real>, b: Option<real>) {
    match (a, b)
    case (None, Some(_)) => true
    case (Some(x), Some(y)) => x < y
    case _ => false
  }

  /** The comparator does not put `b` before `a`: in `Asc` the key of `a` is
      not above that of `b`, in `Desc` not below it. */
  predicate InOrder(a: Listing, b: Listing, field: SortField, dir: SortDirection) {
    if dir == Asc then !KeyLess(SortKey(b, field), SortKey(a, field))
    else !KeyLess(SortKey(a, field), SortKey(b, field))
  }

  predicate Sorted(s: seq<Listing>, field: SortField, dir: SortDirection) {
    forall i, j :: 0 <= i < j < |s| ==> InOrder(s[i], s[j], field, dir)
  }

  /** A sorted sequence in `Asc` has its missing keys first; in `Desc` last. */
  lemma NullsPlacement(s: seq<Listing>, field: SortField, dir: SortDirection, i: nat, j: nat)
    requires Sorted(s, field, dir) && i < j < |s|
    ensures dir == Asc && SortKey(s[j], field).None? ==> SortKey(s[i], field).None?
    ensures dir == Desc && SortKey(s[i], field).None? ==> SortKey(s[j], field).None?
  {
    assert InOrder(s[i], s[j], field, dir);
  }

  lemma InOrderTotal(a: Listing, b: Listing, field: SortField, dir: SortDirection)
    ensures !InOrder(a, b, field, dir) ==> InOrder(b, a, field, dir)
  {
  }

  lemma InOrderTransitive(a: Listing, b: Listing, c: Listing, field: SortField, dir: SortDirection)
    requires InOrder(a, b, field, dir) && InOrder(b, c, field, dir)
    ensures InOrder(a, c, field, dir)
  {
  }

  /** Exchanges two neighbouring elements of `a`. */
  method SwapDown(a: array<Listing>, j: int)
    requires 0 < j < a.Length
    modifies a
    ensures a[..] == old(a[..])[j - 1 := old(a[j])][j := old(a[j - 1])]
    ensures multiset(a[..]) == old(multiset(a[..]))
  {
    a[j - 1], a[j] := a[j], a[j - 1];
  }

  /** One step of insertion sort: moves `a[i]` down into the sorted prefix
      `a[..i]`, so that `a[..i + 1]` is sorted. */
  method InsertDown(a: array<Listing>, i: int, field: SortField, dir: SortDirection)
    requires 0 <= i < a.Length
    requires forall p, q :: 0 <= p < q < i ==> InOrder(a[p], a[q], field, dir)
    modifies a
    ensures forall p, q :: 0 <= p < q <= i ==> InOrder(a[p], a[q], field, dir)
    ensures forall k :: i < k < a.Length ==> a[k] == old(a[k])
    ensures multiset(a[..]) == old(multiset(a[..]))
  {
    var j := i;
    while j > 0 && !InOrder(a[j - 1], a[j], field, dir)
      invariant 0 <= j <= i
      invariant forall p, q :: 0 <= p < q <= i && p != j && q != j ==> InOrder(a[p], a[q], field, dir)
      invariant forall q :: j < q <= i ==> InOrder(a[j], a[q], field, dir)
      invariant forall k :: i < k < a.Length ==> a[k] == old(a[k])
      invariant multiset(a[..]) == old(multiset(a[..]))
    {
      InOrderTotal(a[j - 1], a[j], field, dir);
      SwapDown(a, j);
      j := j - 1;
    }
    forall p | 0 <= p < j ensures InOrder(a[p], a[j], field, dir) {
      if p < j - 1 {
        InOrderTransitive(a[p], a[j - 1], a[j], field, dir);
      }
    }
  }

  /** Sorts `a` in place by `field` in direction `dir` (insertion sort). */
  method SortInPlace(a: array<Listing>, field: SortField, dir: SortDirection)
    modifies a
    ensures Sorted(a[..], field, dir)
    ensures multiset(a[..]) == old(multiset(a[..]))
  {
    var i := 0;
    while i < a.Length
      invariant 0 <= i <= a.Length
      invariant forall p, q :: 0 <= p < q < i ==> InOrder(a[p], a[q], field, dir)
      invariant multiset(a[..]) == old(multiset(a[..]))
    {
      InsertDown(a, i, field, dir);
      i := i + 1;
    }
  }

  // ---------------------------------------------------------------------------
  // The component's state

  class Table {
    var statusFilter: StatusFilter
    var sortField: SortField
    var sortDir: SortDirection
    var search: string

    /** The initial state: all statuses, price descending, empty search. */
    constructor ()
      ensures statusFilter == All && sortField == PurchasePrice && sortDir == Desc && search == ""
    {
      statusFilter := All;
      sortField := PurchasePrice;
      sortDir := Desc;
      search := "";
    }

    /** `handleSort`: a click on the current sort column flips the direction;
        a click on another column sorts by it, descending. */
    method HandleSort(field: SortField)
      modifies this
      ensures sortField == field
      ensures old(sortField) == field ==> sortDir == Flip(old(sortDir))
      ensures old(sortField) != field ==> sortDir == Desc
      ensures statusFilter == old(statusFilter) && search == old(search)
    {
      if sortField == field {
        sortDir := if sortDir == Asc then Desc else Asc;
      } else {
        sortField := field;
        sortDir := Desc;
      }
    }

    method SetStatusFilter(filter: StatusFilter)
      modifies this
      ensures statusFilter == filter
      ensures sortField == old(sortField) && sortDir == old(sortDir) && search == old(search)
    {
      statusFilter := filter;
    }

    method SetSearch(text: string)
      modifies this
      ensures search == text
      ensures statusFilter == old(statusFilter) && sortField == old(sortField) && sortDir == old(sortDir)
    {
      search := text;
    }

    /** Two clicks on the current sort column restore the whole state. */
    method ClickTwice(field: SortField)
      requires sortField == field
      modifies this
      ensures sortField == old(sortField) && sortDir == old(sortDir)
      ensures statusFilter == old(statusFilter) && search == old(search)
    {
      HandleSort(field);
      HandleSort(field);
    }

    /** The `filtered` memo: copy the rows, keep those that pass the status
        filter and the search, and sort the copy in place. The result is
        exactly the passing rows, rearranged into sort order; the input is a
        value and stays as it was. */
    method Filtered(listings: seq<Listing>) returns (result: seq<Listing>)
      ensures multiset(result) == multiset(Selected(listings, statusFilter, search))
      ensures forall l :: l in result <==> l in listings && MatchesStatus(l, statusFilter) && MatchesSearch(l, search)
      ensures Sorted(result, sortField, sortDir)
      ensures |result| <= |listings|
    {
      var rows := Selected(listings, statusFilter, search);
      var a := new Listing[|rows|](i requires 0 <= i < |rows| => rows[i]);
      assert a[..] == rows;
      SortInPlace(a, sortField, sortDir);
      result := a[..];
      assert |result| == |multiset(result)| == |multiset(rows)| == |rows|;
      forall l ensures l in result <==> l in rows {
        assert l in result <==> l in multiset(result);
        assert l in rows <==> l in multiset(rows);
      }
    }
  }
}
