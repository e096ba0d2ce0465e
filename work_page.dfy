/**
 * The work log of src/app/work/page.tsx: the loaded entries narrowed to
 * work and outcome entries, and a view that shows all of them or one type.
 */
module WorkPage {
  import opened Seqs
  import opened EntryTypes

  /** `e => e.type === t`. */
  function OfType(t: EntryType): Entry -> bool {
    (e: Entry) => e.Type() == t
  }

  /** `e.type === 'work' || e.type === 'outcome'`. */
  function IsWorkLog(e: Entry): (r: bool)
    ensures r <==> TypeName(e.Type()) == "work" || TypeName(e.Type()) == "outcome"
  {
    e.WorkEntry? || e.OutcomeEntry?
  }

  /** The list `fetchEntries` keeps: the work and outcome entries of the response. */
  function Loaded(data: seq<Entry>): (r: seq<Entry>)
    ensures forall e :: e in r <==> e in data && (e.WorkEntry? || e.OutcomeEntry?)
  {
    Filter(data, IsWorkLog)
  }

  /** The loaded list keeps the response's order. */
  lemma LoadedInOrder(data: seq<Entry>)
    ensures IsSubsequence(Loaded(data), data)
  {
    FilterIsSubsequence(data, IsWorkLog);
  }

  /** The filter buttons: `'all' | 'work' | 'outcome'`. */
  datatype View = All | WorkOnly | OutcomeOnly

  /** `filteredEntries`. */
  function Visible(entries: seq<Entry>, view: View): (r: seq<Entry>)
    ensures view == All ==> r == entries
    ensures view == WorkOnly ==> forall e :: e in r <==> e in entries && e.WorkEntry?
    ensures view == OutcomeOnly ==> forall e :: e in r <==> e in entries && e.OutcomeEntry?
  {
    match view
    case All => entries
    case WorkOnly => Filter(entries, OfType(Work))
    case OutcomeOnly => Filter(entries, OfType(Outcome))
  }

  /** Every view is a subsequence of the loaded list. */
  lemma VisibleInOrder(entries: seq<Entry>, view: View)
    ensures IsSubsequence(Visible(entries, view), entries)
  {
    match view
    case All =>
      FilterAll(entries, (e: Entry) => true);
      FilterIsSubsequence(entries, (e: Entry) => true);
    case WorkOnly => FilterIsSubsequence(entries, OfType(Work));
    case OutcomeOnly => FilterIsSubsequence(entries, OfType(Outcome));
  }

  /** On the loaded list, the Work count plus the Outcomes count is the All count. */
  lemma CountsAddUp(data: seq<Entry>)
    ensures var entries := Loaded(data);
      |Visible(entries, WorkOnly)| + |Visible(entries, OutcomeOnly)| == |Visible(entries, All)|
  {
    FilterComplement(Loaded(data), OfType(Work), OfType(Outcome));
  }
}
