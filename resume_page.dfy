/**
 * The resume view of src/app/resume/page.tsx.
 *
 * The page loads the job entries and the education entries, sorts each
 * array in place by start date, most recent first, and renders a section
 * per non-empty list, with `Present` for a missing end date and a message
 * when both lists are empty.
 *
 * `Array.prototype.sort` is stable, so with the comparator
 * `(a, b) => b.startDate - a.startDate` it orders by start date descending
 * and keeps entries with the same start date in their loaded order. The
 * model sorts with an in-place insertion sort that has exactly that
 * outcome, specified by the functional `SortDesc` whose order, stability and
 * permutation properties are proved below.
 */
module ResumePage {
  import opened Wrappers
  import opened EntryTypes
  import ExportFormat

  // ---------------------------------------------------------------------
  // The specification of the sort
  // ---------------------------------------------------------------------

  /** Ordered by key, largest first. */
  predicate SortedDesc<T>(s: seq<T>, key: T -> int) {
    forall i, j :: 0 <= i < j < |s| ==> key(s[i]) >= key(s[j])
  }

  /** Places `x` into `sorted` after every element whose key is at least its own. */
  function InsertDesc<T>(sorted: seq<T>, x: T, key: T -> int): (r: seq<T>)
    ensures |r| == |sorted| + 1
    decreases |sorted|
  {
    if sorted == [] then [x]
    else if key(sorted[|sorted| - 1]) >= key(x) then sorted + [x]
    else InsertDesc(sorted[..|sorted| - 1], x, key) + [sorted[|sorted| - 1]]
  }

  /** The stable sort by key, largest first: the elements inserted one by one, left to right. */
  function SortDesc<T>(s: seq<T>, key: T -> int): (r: seq<T>)
    ensures |r| == |s|
    decreases |s|
  {
    if s == [] then [] else InsertDesc(SortDesc(s[..|s| - 1], key), s[|s| - 1], key)
  }

  /** Inserting adds exactly the new element. */
  lemma {:induction false} InsertDescPermutes<T>(sorted: seq<T>, x: T, key: T -> int)
    ensures multiset(InsertDesc(sorted, x, key)) == multiset(sorted) + multiset{x}
    decreases |sorted|
  {
    if sorted != [] && key(sorted[|sorted| - 1]) < key(x) {
      var init := sorted[..|sorted| - 1];
      InsertDescPermutes(init, x, key);
      assert sorted == init + [sorted[|sorted| - 1]];
    }
  }

  /** The sort neither loses nor duplicates an element. */
  lemma {:induction false} SortDescPermutes<T>(s: seq<T>, key: T -> int)
    ensures multiset(SortDesc(s, key)) == multiset(s)
    decreases |s|
  {
    if s != [] {
      SortDescPermutes(s[..|s| - 1], key);
      InsertDescPermutes(SortDesc(s[..|s| - 1], key), s[|s| - 1], key);
      assert s == s[..|s| - 1] + [s[|s| - 1]];
    }
  }

  /** Inserting into a sorted list keeps it sorted. */
  lemma {:induction false} InsertDescSorted<T>(sorted: seq<T>, x: T, key: T -> int)
    requires SortedDesc(sorted, key)
    ensures SortedDesc(InsertDesc(sorted, x, key), key)
    decreases |sorted|
  {
    if sorted != [] {
      var last := sorted[|sorted| - 1];
      var init := sorted[..|sorted| - 1];
      if key(last) < key(x) {
        InsertDescSorted(init, x, key);
        InsertDescPermutes(init, x, key);
        var ins := InsertDesc(init, x, key);
        forall i | 0 <= i < |ins| ensures key(ins[i]) >= key(last) {
          assert ins[i] in multiset(ins);
          if ins[i] != x {
            var k :| 0 <= k < |init| && init[k] == ins[i];
          }
        }
      }
    }
  }

  /** The sort orders by key, largest first. */
  lemma {:induction false} SortDescSorted<T>(s: seq<T>, key: T -> int)
    ensures SortedDesc(SortDesc(s, key), key)
    decreases |s|
  {
    if s != [] {
      SortDescSorted(s[..|s| - 1], key);
      InsertDescSorted(SortDesc(s[..|s| - 1], key), s[|s| - 1], key);
    }
  }

  /** The elements of `s` whose key is `k`, in order. */
  function WithKey<T>(s: seq<T>, key: T -> int, k: int): seq<T>
    decreases |s|
  {
    if s == [] then []
    else WithKey(s[..|s| - 1], key, k) + (if key(s[|s| - 1]) == k then [s[|s| - 1]] else [])
  }

  lemma {:induction false} WithKeyAppend<T>(a: seq<T>, b: seq<T>, key: T -> int, k: int)
    ensures WithKey(a + b, key, k) == WithKey(a, key, k) + WithKey(b, key, k)
    decreases |b|
  {
    if b != [] {
      var b' := b[..|b| - 1];
      WithKeyAppend(a, b', key, k);
      var t := if key(b[|b| - 1]) == k then [b[|b| - 1]] else [];
      assert (a + b)[..|a + b| - 1] == a + b';
      assert (a + b)[|a + b| - 1] == b[|b| - 1];
      assert WithKey(a + b, key, k) == WithKey(a + b', key, k) + t;
      assert WithKey(b, key, k) == WithKey(b', key, k) + t;
    } else {
      assert a + b == a;
    }
  }

  /** Inserting `x` puts it after every element with the same key. */
  lemma {:induction false} InsertDescStable<T>(sorted: seq<T>, x: T, key: T -> int, k: int)
    ensures WithKey(InsertDesc(sorted, x, key), key, k)
         == WithKey(sorted, key, k) + (if key(x) == k then [x] else [])
    decreases |sorted|
  {
    if sorted == [] {
      assert WithKey([x], key, k) == WithKey([], key, k) + (if key(x) == k then [x] else []);
    } else {
      var last := sorted[|sorted| - 1];
      var init := sorted[..|sorted| - 1];
      if key(last) >= key(x) {
        WithKeyAppend(sorted, [x], key, k);
        assert WithKey([x], key, k) == WithKey([], key, k) + (if key(x) == k then [x] else []);
      } else {
        InsertDescStable(init, x, key, k);
        WithKeyAppend(InsertDesc(init, x, key), [last], key, k);
        WithKeyAppend(init, [last], key, k);
        assert sorted == init + [last];
        assert WithKey([last], key, k) == WithKey([], key, k) + (if key(last) == k then [last] else []);
      }
    }
  }

  /** The sort is stable: the elements sharing a key keep their relative order. */
  lemma {:induction false} SortDescStable<T>(s: seq<T>, key: T -> int, k: int)
    ensures WithKey(SortDesc(s, key), key, k) == WithKey(s, key, k)
    decreases |s|
  {
    if s != [] {
      SortDescStable(s[..|s| - 1], key, k);
      InsertDescStable(SortDesc(s[..|s| - 1], key), s[|s| - 1], key, k);
    }
  }

  // ---------------------------------------------------------------------
  // The in-place sort
  // ---------------------------------------------------------------------

  /** Moving `x` past an element with a smaller key leaves the insertion result as it was. */
  lemma InsertDescStep<T>(s: seq<T>, x: T, key: T -> int, j: nat)
    requires 0 < j <= |s| && key(s[j - 1]) < key(x)
    ensures InsertDesc(s[..j], x, key) + s[j..] == InsertDesc(s[..j - 1], x, key) + s[j - 1..]
  {
    assert s[..j][..j - 1] == s[..j - 1];
    assert s[j - 1..] == [s[j - 1]] + s[j..];
  }

  /** Where the shifting stops, `x` goes in. */
  lemma InsertDescStop<T>(s: seq<T>, x: T, key: T -> int, j: nat)
    requires j <= |s| && (j == 0 || key(s[j - 1]) >= key(x))
    ensures InsertDesc(s[..j], x, key) + s[j..] == s[..j] + [x] + s[j..]
  {
    if j > 0 {
      assert s[..j][j - 1] == s[j - 1];
    }
  }

  /** One insertion step: moves `a[i]` down past the elements with a smaller key. */
  method InsertAt<T>(a: array<T>, i: nat, key: T -> int)
    requires i < a.Length
    modifies a
    ensures a[..i + 1] == InsertDesc(old(a[..i]), old(a[i]), key)
    ensures a[i + 1..] == old(a[i + 1..])
  {
    ghost var s := a[..i];
    var x := a[i];
    var j := i;
    assert s[..j] == s && s[j..] == [];
    while j > 0 && key(a[j - 1]) < key(x)
      invariant 0 <= j <= i
      invariant forall k :: 0 <= k < j ==> a[k] == s[k]
      invariant forall k :: j < k <= i ==> a[k] == s[k - 1]
      invariant forall k :: i < k < a.Length ==> a[k] == old(a[k])
      invariant InsertDesc(s, x, key) == InsertDesc(s[..j], x, key) + s[j..]
      decreases j
    {
      InsertDescStep(s, x, key, j);
      a[j] := a[j - 1];
      j := j - 1;
    }
    a[j] := x;
    InsertDescStop(s, x, key, j);
    assert a[..i + 1] == s[..j] + [x] + s[j..];
  }

  /** `array.sort((a, b) => key(b) - key(a))`, in place. */
  method SortDescending<T>(a: array<T>, key: T -> int)
    modifies a
    ensures a[..] == SortDesc(old(a[..]), key)
  {
    ghost var s := a[..];
    for i := 0 to a.Length
      invariant a[..i] == SortDesc(s[..i], key)
      invariant a[i..] == s[i..]
    {
      InsertAt(a, i, key);
      assert s[..i + 1][..i] == s[..i];
    }
    assert s[..a.Length] == s;
  }

  // ---------------------------------------------------------------------
  // The page
  // ---------------------------------------------------------------------

  /** `new Date(e.startDate).getTime()` for the job and education entries the page loads. */
  function StartOf(e: Entry): int {
    if e.JobEntry? then e.startDate
    else if e.EducationEntry? then e.startDate
    else 0
  }

  /** `fetchData`'s two sorts: the jobs, then the education entries, each by start date, most recent first. */
  method SortResumeData(jobs: array<Entry>, education: array<Entry>)
    requires jobs != education
    modifies jobs, education
    ensures jobs[..] == SortDesc(old(jobs[..]), StartOf)
    ensures education[..] == SortDesc(old(education[..]), StartOf)
  {
    SortDescending(jobs, StartOf);
    SortDescending(education, StartOf);
  }

  /**
   * What the sort promises the page: most recent start first, the same
   * entries, and entries starting on the same date in their loaded order.
   */
  lemma SortedResume(loaded: seq<Entry>, start: int)
    ensures SortedDesc(SortDesc(loaded, StartOf), StartOf)
    ensures multiset(SortDesc(loaded, StartOf)) == multiset(loaded)
    ensures WithKey(SortDesc(loaded, StartOf), StartOf, start) == WithKey(loaded, StartOf, start)
  {
    SortDescSorted(loaded, StartOf);
    SortDescPermutes(loaded, StartOf);
    SortDescStable(loaded, StartOf, start);
  }

  /** The date range of a job or a course: its start, then its end or `Present`. */
  function DateRange(start: int, end: Option<int>, fmt: int -> string): (r: string)
    ensures end.None? ==> r == fmt(start) + " - Present"
    ensures end.Some? ==> r == fmt(start) + " - " + fmt(end.value)
  {
    fmt(start) + " - " + ExportFormat.EndText(end, fmt)
  }

  /** The sections the page renders once loading has finished. */
  datatype Sections = Sections(experience: bool, education: bool, emptyMessage: bool)

  /** `jobs.length > 0`, `education.length > 0`, and `jobs.length === 0 && education.length === 0`. */
  function Layout(jobCount: nat, educationCount: nat): (r: Sections)
    ensures r.emptyMessage <==> !r.experience && !r.education
    ensures r.experience <==> jobCount > 0
    ensures r.education <==> educationCount > 0
  {
    Sections(jobCount > 0, educationCount > 0, jobCount == 0 && educationCount == 0)
  }
}
