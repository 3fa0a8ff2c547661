/** The query of `getParts`: a keyword filter on the model number
    (case-insensitive), a category filter (`'All'` means none) and one of
    three sort orders, applied to the stored parts. */
module PartQuery {
  import opened Base
  import opened Parts

  /** The query-string parameters `getParts` reads, each possibly absent. */
  datatype Query = Query(keyword: Option<string>, category: Option<string>, sort: Option<string>)

  datatype SortOrder = NewestFirst | PriceLowFirst | PriceHighFirst

  /** The keyword filter is applied iff the keyword is present and
      non-empty. */
  function KeywordFilter(q: Query): (r: Option<string>)
    ensures r.Some? <==> q.keyword.Some? && q.keyword.value != ""
    ensures r.Some? ==> r == q.keyword
  {
    if q.keyword.Some? && q.keyword.value != "" then q.keyword else None
  }

  /** The category filter is applied iff the category is present, non-empty
      and not `'All'`. */
  function CategoryFilter(q: Query): (r: Option<string>)
    ensures r.Some? <==> q.category.Some? && q.category.value != "" && q.category.value != "All"
    ensures r.Some? ==> r == q.category
  {
    if q.category.Some? && q.category.value != "" && q.category.value != "All" then q.category else None
  }

  /** `'low'` sorts by ascending price, `'high'` by descending price, and
      anything else, absence included, newest first. */
  function OrderOf(q: Query): (r: SortOrder)
    ensures r == PriceLowFirst <==> q.sort == Some("low")
    ensures r == PriceHighFirst <==> q.sort == Some("high")
  {
    if q.sort == Some("low") then PriceLowFirst
    else if q.sort == Some("high") then PriceHighFirst
    else NewestFirst
  }

  /** ASCII lower-casing, standing for the regular expression's `i` flag. */
  function LowerChar(c: char): char
  {
    if 'A' <= c <= 'Z' then (c as int + 32) as char else c
  }

  function Lower(s: string): (r: string)
    ensures |r| == |s|
    ensures forall i :: 0 <= i < |s| ==> r[i] == LowerChar(s[i])
  {
    seq(|s|, i requires 0 <= i < |s| => LowerChar(s[i]))
  }

  /** `needle` occurs in `hay` starting at position `i`. */
  predicate OccursAt(hay: string, needle: string, i: nat)
  {
    i + |needle| <= |hay| && hay[i..i + |needle|] == needle
  }

  /** A left-to-right search for `needle` in `hay`. */
  function Contains(hay: string, needle: string): bool
    decreases |hay|
  {
    if |needle| > |hay| then false
    else hay[..|needle|] == needle || (hay != [] && Contains(hay[1..], needle))
  }

  /** The search finds `needle` iff it occurs somewhere in `hay`. */
  lemma {:induction false} ContainsIff(hay: string, needle: string)
    ensures Contains(hay, needle) <==> exists i: nat :: OccursAt(hay, needle, i)
    decreases |hay|
  {
    if |needle| > |hay| {
      forall i: nat ensures !OccursAt(hay, needle, i) {
      }
    } else if hay[..|needle|] == needle {
      assert OccursAt(hay, needle, 0);
    } else {
      assert hay != [];
      ContainsIff(hay[1..], needle);
      if Contains(hay[1..], needle) {
        var i: nat :| OccursAt(hay[1..], needle, i);
        assert hay[i + 1..i + 1 + |needle|] == hay[1..][i..i + |needle|];
        assert OccursAt(hay, needle, i + 1);
      }
      if exists i: nat :: OccursAt(hay, needle, i) {
        var i: nat :| OccursAt(hay, needle, i);
        assert i != 0;
        assert hay[1..][i - 1..i - 1 + |needle|] == hay[i..i + |needle|];
        assert OccursAt(hay[1..], needle, i - 1);
      }
    }
  }

  /** The model-number match: `keyword` occurs in the model number,
      ignoring case. */
  function KeywordMatches(keyword: string, p: Part): (r: bool)
    ensures r <==> exists i: nat :: OccursAt(Lower(p.modelNumber), Lower(keyword), i)
  {
    ContainsIff(Lower(p.modelNumber), Lower(keyword));
    Contains(Lower(p.modelNumber), Lower(keyword))
  }

  /** A part passes both filters of the query. */
  function Matches(q: Query, p: Part): (r: bool)
    ensures q.keyword.None? && q.category.None? ==> r
    ensures r && CategoryFilter(q).Some? ==> p.category == q.category.value
    ensures r && KeywordFilter(q).Some? ==> KeywordMatches(q.keyword.value, p)
  {
    && (KeywordFilter(q).None? || KeywordMatches(KeywordFilter(q).value, p))
    && (CategoryFilter(q).None? || p.category == CategoryFilter(q).value)
  }

  /** `Part.find({...keyword, ...category})`: the stored parts that pass
      both filters, in storage order. */
  function Selected(parts: seq<Part>, q: Query): (r: seq<Part>)
    ensures |r| <= |parts|
    ensures forall p :: p in r ==> p in parts && Matches(q, p)
  {
    if parts == [] then []
    else (if Matches(q, parts[0]) then [parts[0]] else []) + Selected(parts[1..], q)
  }

  /** Each part that passes the filters is selected as often as it is
      stored; no other part is selected. */
  lemma {:induction false} SelectedCount(parts: seq<Part>, q: Query, p: Part)
    ensures multiset(Selected(parts, q))[p] == if Matches(q, p) then multiset(parts)[p] else 0
  {
    if parts != [] {
      SelectedCount(parts[1..], q, p);
      assert parts == [parts[0]] + parts[1..];
      assert multiset(parts) == multiset([parts[0]]) + multiset(parts[1..]);
    }
  }

  /** `a` may come before `b` in the order. */
  predicate Before(o: SortOrder, a: Part, b: Part)
  {
    match o
    case NewestFirst => a.createdAt >= b.createdAt
    case PriceLowFirst => a.price <= b.price
    case PriceHighFirst => a.price >= b.price
  }

  predicate Sorted(o: SortOrder, s: seq<Part>)
  {
    forall i, j :: 0 <= i < j < |s| ==> Before(o, s[i], s[j])
  }

  /** Insert `x` into `s` before the first element it may precede. */
  function Insert(o: SortOrder, x: Part, s: seq<Part>): (r: seq<Part>)
    ensures multiset(r) == multiset(s) + multiset{x}
  {
    if s == [] then [x]
    else if Before(o, x, s[0]) then [x] + s
    else
      assert s == [s[0]] + s[1..];
      [s[0]] + Insert(o, x, s[1..])
  }

  lemma {:induction false} InsertSorted(o: SortOrder, x: Part, s: seq<Part>)
    requires Sorted(o, s)
    ensures Sorted(o, Insert(o, x, s))
  {
    if s != [] && !Before(o, x, s[0]) {
      var t := Insert(o, x, s[1..]);
      InsertSorted(o, x, s[1..]);
      forall k | 0 <= k < |t| ensures Before(o, s[0], t[k]) {
        assert t[k] in multiset(t);
        if t[k] != x {
          assert t[k] in multiset(s[1..]);
          var m :| 0 <= m < |s[1..]| && s[1..][m] == t[k];
          assert s[1..][m] == s[m + 1];
        }
      }
      var r := [s[0]] + t;
      forall i, j | 0 <= i < j < |r| ensures Before(o, r[i], r[j]) {
        if i == 0 {
          assert r[j] == t[j - 1];
        } else {
          assert r[i] == t[i - 1] && r[j] == t[j - 1];
        }
      }
    }
  }

  /** The parts of `s` rearranged into the order `o`. */
  function SortParts(o: SortOrder, s: seq<Part>): (r: seq<Part>)
    ensures multiset(r) == multiset(s)
    ensures Sorted(o, r)
  {
    if s == [] then []
    else
      assert s == [s[0]] + s[1..];
      InsertSorted(o, s[0], SortParts(o, s[1..]));
      Insert(o, s[0], SortParts(o, s[1..]))
  }

  /** The result of `getParts`: the parts that pass both filters, in the
      order the query asks for. */
  function ListParts(parts: seq<Part>, q: Query): (r: seq<Part>)
    ensures Sorted(OrderOf(q), r)
    ensures multiset(r) == multiset(Selected(parts, q))
  {
    SortParts(OrderOf(q), Selected(parts, q))
  }

  /** The list is a permutation of exactly the stored parts that pass both
      filters. */
  lemma ListedExactly(parts: seq<Part>, q: Query, p: Part)
    ensures multiset(ListParts(parts, q))[p] == if Matches(q, p) then multiset(parts)[p] else 0
    ensures p in ListParts(parts, q) <==> p in parts && Matches(q, p)
  {
    SelectedCount(parts, q, p);
  }

  /** The same, for every part at once. */
  lemma ListedExactlyAll(parts: seq<Part>, q: Query)
    ensures forall p :: multiset(ListParts(parts, q))[p] == if Matches(q, p) then multiset(parts)[p] else 0
  {
    forall p ensures multiset(ListParts(parts, q))[p] == if Matches(q, p) then multiset(parts)[p] else 0 {
      ListedExactly(parts, q, p);
    }
  }

  /** With no keyword and the category `'All'` (or none) nothing is
      filtered out. */
  lemma NoFilterListsAll(parts: seq<Part>, q: Query)
    requires q.keyword.None? || q.keyword == Some("")
    requires q.category.None? || q.category == Some("All")
    ensures multiset(ListParts(parts, q)) == multiset(parts)
  {
    forall p ensures multiset(ListParts(parts, q))[p] == multiset(parts)[p] {
      ListedExactly(parts, q, p);
    }
  }

  /** Lower-casing twice is lower-casing once. */
  lemma LowerIdempotent(s: string)
    ensures Lower(Lower(s)) == Lower(s)
  {
  }

  /** Matching ignores case on both sides: keywords that differ only in
      case match the same parts, and a model number matches the same
      keywords as its lower-case form. */
  lemma {:induction false} CaseIgnored(k1: string, k2: string, p: Part)
    ensures Lower(k1) == Lower(k2) ==> (KeywordMatches(k1, p) <==> KeywordMatches(k2, p))
    ensures KeywordMatches(k1, p) <==> KeywordMatches(Lower(k1), p)
    ensures KeywordMatches(k1, p) <==> KeywordMatches(k1, p.(modelNumber := Lower(p.modelNumber)))
  {
    LowerIdempotent(k1);
    LowerIdempotent(p.modelNumber);
  }
}
