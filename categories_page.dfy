/**
 * The category browser of src/app/categories/page.tsx.
 *
 * The page lists the distinct categories of all entries in sorted order,
 * shows either every entry or those of the selected category, and groups
 * the entries by category into a dictionary for the per-category counts.
 */
module CategoriesPage {
  import opened Seqs
  import opened EntryTypes

  // ---------------------------------------------------------------------
  // The order `Array.prototype.sort` uses on strings
  // ---------------------------------------------------------------------

  /**
   * `a` sorts before `b`: compared character by character, a proper prefix
   * first, as the default `sort` compares strings.
   */
  predicate Before(a: string, b: string)
    decreases |a|
  {
    if a == [] then b != []
    else if b == [] then false
    else if a[0] != b[0] then a[0] < b[0]
    else Before(a[1..], b[1..])
  }

  lemma {:induction false} BeforeIrreflexive(a: string)
    ensures !Before(a, a)
    decreases |a|
  {
    if a != [] {
      BeforeIrreflexive(a[1..]);
    }
  }

  lemma {:induction false} BeforeTransitive(a: string, b: string, c: string)
    requires Before(a, b) && Before(b, c)
    ensures Before(a, c)
    decreases |a|
  {
    if a != [] && b != [] && c != [] && a[0] == b[0] && b[0] == c[0] {
      BeforeTransitive(a[1..], b[1..], c[1..]);
    }
  }

  lemma {:induction false} BeforeTotal(a: string, b: string)
    requires a != b
    ensures Before(a, b) || Before(b, a)
    decreases |a|
  {
    if a != [] && b != [] && a[0] == b[0] {
      assert a == [a[0]] + a[1..] && b == [b[0]] + b[1..];
      BeforeTotal(a[1..], b[1..]);
    }
  }

  /** Sorted with no duplicates: every element sorts before every later one. */
  predicate StrictlySorted(s: seq<string>) {
    forall i, j :: 0 <= i < j < |s| ==> Before(s[i], s[j])
  }

  /** Adds `x` to a strictly sorted list, in its place, unless it is already there. */
  function Insert(sorted: seq<string>, x: string): (r: seq<string>)
    requires StrictlySorted(sorted)
    ensures StrictlySorted(r)
    ensures forall y :: y in r <==> y in sorted || y == x
    decreases |sorted|
  {
    if sorted == [] then [x]
    else if x == sorted[0] then sorted
    else if Before(x, sorted[0]) then
      forall j | 0 <= j < |sorted| ensures Before(x, sorted[j]) {
        if j > 0 {
          BeforeTransitive(x, sorted[0], sorted[j]);
        }
      }
      [x] + sorted
    else
      BeforeTotal(x, sorted[0]);
      var rest := Insert(sorted[1..], x);
      forall y | y in rest ensures Before(sorted[0], y) {
        if y != x {
          var k :| 0 <= k < |sorted[1..]| && sorted[1..][k] == y;
          assert sorted[k + 1] == y;
        }
      }
      [sorted[0]] + rest
  }

  /** `Array.from(new Set(names)).sort()`. */
  function DistinctSorted(names: seq<string>): (r: seq<string>)
    ensures StrictlySorted(r)
    ensures forall y :: y in r <==> y in names
    decreases |names|
  {
    if names == [] then [] else Insert(DistinctSorted(names[1..]), names[0])
  }

  /** `entries.map(e => e.category)`. */
  function CategoryList(entries: seq<Entry>): (r: seq<string>)
    ensures |r| == |entries|
    ensures forall i :: 0 <= i < |entries| ==> r[i] == entries[i].base.category
  {
    seq(|entries|, i requires 0 <= i < |entries| => entries[i].base.category)
  }

  /** `categories`. */
  function Categories(entries: seq<Entry>): (r: seq<string>)
  {
    DistinctSorted(CategoryList(entries))
  }

  /**
   * `categories` is sorted with no duplicates, and a name is in it exactly
   * when some entry has that category.
   */
  lemma CategoriesSortedAndComplete(entries: seq<Entry>, c: string)
    ensures StrictlySorted(Categories(entries))
    ensures c in Categories(entries) <==> exists i :: 0 <= i < |entries| && entries[i].base.category == c
  {
    if c in CategoryList(entries) {
      var i :| 0 <= i < |entries| && CategoryList(entries)[i] == c;
    }
  }

  /** Two strictly sorted lists with the same elements are the same list. */
  lemma {:induction false} StrictlySortedUnique(a: seq<string>, b: seq<string>)
    requires StrictlySorted(a) && StrictlySorted(b)
    requires forall y :: y in a <==> y in b
    ensures a == b
    decreases |a|
  {
    BothEmptyOrNeither(a, b);
    if a != [] {
      assert a[0] in a && b[0] in b;
      if a[0] != b[0] {
        var i :| 0 <= i < |b| && b[i] == a[0];
        var j :| 0 <= j < |a| && a[j] == b[0];
        assert Before(b[0], a[0]);
        assert Before(a[0], b[0]);
        BeforeTransitive(a[0], b[0], a[0]);
        BeforeIrreflexive(a[0]);
      }
      forall y | y in a[1..] ensures y in b[1..] {
        LaterIsInTail(a, b, y);
      }
      forall y | y in b[1..] ensures y in a[1..] {
        LaterIsInTail(b, a, y);
      }
      StrictlySortedUnique(a[1..], b[1..]);
      assert a == [a[0]] + a[1..] && b == [b[0]] + b[1..];
    }
  }

  /** Lists with the same elements are both empty or both not. */
  lemma BothEmptyOrNeither(a: seq<string>, b: seq<string>)
    requires forall y :: y in a <==> y in b
    ensures a == [] <==> b == []
  {
    if a != [] {
      assert a[0] in a;
    }
    if b != [] {
      assert b[0] in b;
    }
  }

  /** An element after the head of one list is after the head of another sorted list with the same head and elements. */
  lemma LaterIsInTail(a: seq<string>, b: seq<string>, y: string)
    requires StrictlySorted(a) && StrictlySorted(b) && a != [] && b != [] && a[0] == b[0]
    requires forall z :: z in a <==> z in b
    requires y in a[1..]
    ensures y in b[1..]
  {
    var i :| 0 <= i < |a[1..]| && a[1..][i] == y;
    assert Before(a[0], a[i + 1]);
    BeforeIrreflexive(a[0]);
    assert y in a;
    var k :| 0 <= k < |b| && b[k] == y;
    assert k != 0;
    assert b[1..][k - 1] == y;
  }

  /** `categories` is the one sorted, duplicate-free listing of the entries' categories. */
  lemma CategoriesCanonical(entries: seq<Entry>, listing: seq<string>)
    requires StrictlySorted(listing)
    requires forall c :: c in listing <==> c in CategoryList(entries)
    ensures listing == Categories(entries)
  {
    StrictlySortedUnique(listing, Categories(entries));
  }

  // ---------------------------------------------------------------------
  // The selection and the groups
  // ---------------------------------------------------------------------

  /** `e => e.category === c`. */
  function InCategory(c: string): Entry -> bool {
    (e: Entry) => e.base.category == c
  }

  /** `filteredEntries`: every entry when nothing is selected, else those of the selected category. */
  function Shown(entries: seq<Entry>, selectedCategory: string): (r: seq<Entry>)
    ensures selectedCategory == "" ==> r == entries
    ensures selectedCategory != "" ==>
      forall e :: e in r <==> e in entries && e.base.category == selectedCategory
  {
    if selectedCategory != "" then Filter(entries, InCategory(selectedCategory)) else entries
  }

  /** A selection keeps the entries in their original order. */
  lemma ShownInOrder(entries: seq<Entry>, selectedCategory: string)
    ensures IsSubsequence(Shown(entries, selectedCategory), entries)
  {
    if selectedCategory != "" {
      FilterIsSubsequence(entries, InCategory(selectedCategory));
    } else {
      FilterAll(entries, (e: Entry) => true);
      FilterIsSubsequence(entries, (e: Entry) => true);
    }
  }

  /** `entriesByCategory`: the `reduce` that stores each category's entries under its name. */
  method GroupByCategory(entries: seq<Entry>, categories: seq<string>) returns (acc: map<string, seq<Entry>>)
    ensures forall c :: c in acc <==> c in categories
    ensures forall c :: c in acc ==> acc[c] == Filter(entries, InCategory(c))
  {
    acc := map[];
    for i := 0 to |categories|
      invariant forall c :: c in acc <==> c in categories[..i]
      invariant forall c :: c in acc ==> acc[c] == Filter(entries, InCategory(c))
    {
      var cat := categories[i];
      acc := acc[cat := Filter(entries, InCategory(cat))];
      assert categories[..i + 1] == categories[..i] + [cat];
    }
    assert categories[..|categories|] == categories;
  }

  /** Every listed category has at least one entry. */
  lemma GroupsNonEmpty(entries: seq<Entry>, c: string)
    requires c in Categories(entries)
    ensures Filter(entries, InCategory(c)) != []
  {
    CategoriesSortedAndComplete(entries, c);
    var i :| 0 <= i < |entries| && entries[i].base.category == c;
    assert InCategory(c)(entries[i]);
  }

  /** The sizes of the groups of `cats`, added up. */
  function GroupSizes(cats: seq<string>, entries: seq<Entry>): nat
    decreases |cats|
  {
    if cats == [] then 0 else |Filter(entries, InCategory(cats[0]))| + GroupSizes(cats[1..], entries)
  }

  /** How often `x` occurs in `cats`. */
  function Occurrences(cats: seq<string>, x: string): nat
    decreases |cats|
  {
    if cats == [] then 0 else (if cats[0] == x then 1 else 0) + Occurrences(cats[1..], x)
  }

  /** A name occurs once in a strictly sorted list that holds it. */
  lemma {:induction false} OccursOnce(cats: seq<string>, x: string)
    requires StrictlySorted(cats) && x in cats
    ensures Occurrences(cats, x) == 1
    decreases |cats|
  {
    if cats[0] == x {
      NotAfterFirst(cats);
    } else {
      OccursOnce(cats[1..], x);
    }
  }

  /** The first element of a strictly sorted list does not occur again. */
  lemma NotAfterFirst(cats: seq<string>)
    requires StrictlySorted(cats) && cats != []
    ensures Occurrences(cats[1..], cats[0]) == 0
  {
    BeforeIrreflexive(cats[0]);
    NoOccurrences(cats[1..], cats[0]);
  }

  lemma {:induction false} NoOccurrences(cats: seq<string>, x: string)
    requires x !in cats
    ensures Occurrences(cats, x) == 0
    decreases |cats|
  {
    if cats != [] {
      NoOccurrences(cats[1..], x);
    }
  }

  /** Dropping the first entry shrinks the total by the number of groups it belongs to. */
  lemma {:induction false} GroupSizesStep(cats: seq<string>, entries: seq<Entry>)
    requires entries != []
    ensures GroupSizes(cats, entries) == GroupSizes(cats, entries[1..]) + Occurrences(cats, entries[0].base.category)
    decreases |cats|
  {
    if cats != [] {
      GroupSizesStep(cats[1..], entries);
    }
  }

  /** Over a duplicate-free list that covers every category, the group sizes add up to the entry count. */
  lemma {:induction false} GroupSizesCover(cats: seq<string>, entries: seq<Entry>)
    requires StrictlySorted(cats)
    requires forall i :: 0 <= i < |entries| ==> entries[i].base.category in cats
    ensures GroupSizes(cats, entries) == |entries|
    decreases |entries|
  {
    if entries == [] {
      EmptyGroups(cats);
    } else {
      GroupSizesStep(cats, entries);
      OccursOnce(cats, entries[0].base.category);
      GroupSizesCover(cats, entries[1..]);
    }
  }

  lemma {:induction false} EmptyGroups(cats: seq<string>)
    ensures GroupSizes(cats, []) == 0
    decreases |cats|
  {
    if cats != [] {
      EmptyGroups(cats[1..]);
    }
  }

  /** The per-category counts add up to the "All" count. */
  lemma GroupSizesSum(entries: seq<Entry>)
    ensures GroupSizes(Categories(entries), entries) == |entries|
  {
    forall i | 0 <= i < |entries| ensures entries[i].base.category in Categories(entries) {
      CategoriesSortedAndComplete(entries, entries[i].base.category);
    }
    GroupSizesCover(Categories(entries), entries);
  }
}
