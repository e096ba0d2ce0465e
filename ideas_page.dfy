/**
 * The ideas board of src/app/ideas/page.tsx: one column per idea status,
 * in a fixed order, each holding the ideas with that status, and a preview
 * of at most two tags per idea.
 */
module IdeasPage {
  import opened Seqs
  import opened EntryTypes

  /** `statuses`: the columns, left to right. */
  const Statuses: seq<IdeaStatus> := [New, InProgress, Completed, Abandoned]

  /** `statusLabels`. */
  function StatusLabel(s: IdeaStatus): string {
    match s
    case New => "New Ideas"
    case InProgress => "In Progress"
    case Completed => "Completed"
    case Abandoned => "Abandoned"
  }

  /** The columns are new, in-progress, completed, abandoned: every status once. */
  lemma ColumnsInFixedOrder()
    ensures |Statuses| == 4
    ensures StatusName(Statuses[0]) == "new" && StatusName(Statuses[1]) == "in-progress"
         && StatusName(Statuses[2]) == "completed" && StatusName(Statuses[3]) == "abandoned"
    ensures forall s: IdeaStatus :: s in Statuses
    ensures forall i, j :: 0 <= i < j < |Statuses| ==> Statuses[i] != Statuses[j]
  {
    forall s: IdeaStatus ensures s in Statuses {
      match s
      case New => assert Statuses[0] == s;
      case InProgress => assert Statuses[1] == s;
      case Completed => assert Statuses[2] == s;
      case Abandoned => assert Statuses[3] == s;
    }
  }

  /** `idea => idea.status === status`; an entry that is not an idea has no status. */
  function HasStatus(status: IdeaStatus): Entry -> bool {
    (e: Entry) => e.IdeaEntry? && e.status == status
  }

  /** `getIdeasByStatus(status)`. */
  function Column(ideas: seq<Entry>, status: IdeaStatus): (r: seq<Entry>)
    ensures forall e :: e in r <==> e in ideas && e.IdeaEntry? && e.status == status
    ensures |r| <= |ideas|
  {
    Filter(ideas, HasStatus(status))
  }

  /** A column keeps the ideas in the order they were loaded. */
  lemma ColumnInOrder(ideas: seq<Entry>, status: IdeaStatus)
    ensures IsSubsequence(Column(ideas, status), ideas)
  {
    FilterIsSubsequence(ideas, HasStatus(status));
  }

  /** Every idea appears in the column of its status and in no other. */
  lemma ExactlyOneColumn(ideas: seq<Entry>, e: Entry)
    requires e in ideas && e.IdeaEntry?
    ensures forall k :: 0 <= k < |Statuses| ==> (e in Column(ideas, Statuses[k]) <==> Statuses[k] == e.status)
  {
  }

  /** The four column counts add up to the number of ideas. */
  lemma {:induction false} ColumnCountsSum(ideas: seq<Entry>)
    requires forall k :: 0 <= k < |ideas| ==> ideas[k].IdeaEntry?
    ensures |Column(ideas, New)| + |Column(ideas, InProgress)| + |Column(ideas, Completed)|
            + |Column(ideas, Abandoned)| == |ideas|
    decreases |ideas|
  {
    if ideas != [] {
      ColumnCountsSum(ideas[1..]);
    }
  }

  /** The tags shown on an idea's card: `#tag` for at most the first two, none for an idea without tags. */
  function TagPreview(tags: seq<string>): (r: seq<string>)
    ensures |r| <= 2 && |r| <= |tags|
    ensures |r| == (if |tags| < 2 then |tags| else 2)
    ensures forall i :: 0 <= i < |r| ==> r[i] == "#" + tags[i]
  {
    if |tags| > 0 then
      var shown := Take(tags, 2);
      seq(|shown|, i requires 0 <= i < |shown| => "#" + shown[i])
    else []
  }
}
