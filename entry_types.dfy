/**
 * The entry data model of src/types/entry.ts: the five entry kinds as one
 * tagged union whose variants share a base record.
 *
 * Dates are millisecond timestamps (`int`); object identifiers are strings.
 * A field the TypeScript interface marks optional (`notes?`, `timeInvested?`,
 * `wouldDoDifferently?`, `endDate?`) is an `Option`; every other field is
 * always present.
 */
module EntryTypes {
  import opened Wrappers

  /** `EntryType`: the discriminator of the union. */
  datatype EntryType = Idea | Work | Outcome | Job | Education

  /** `IdeaStatus`. */
  datatype IdeaStatus = New | InProgress | Completed | Abandoned

  /** `STAREntry`: a Situation/Task/Action/Result note attached to a job. */
  datatype Star = Star(situation: string, task: string, action: string, result: string)

  /** The `BaseEntry` fields every variant carries (apart from the `type` tag). */
  datatype Base = Base(
    id: string,
    title: string,
    content: string,
    date: int,
    category: string,
    tags: seq<string>,
    images: seq<string>,
    relatedTo: seq<string>,
    createdAt: int,
    updatedAt: int)

  /** `Entry = IdeaEntry | WorkEntry | OutcomeEntry | JobEntry | EducationEntry`. */
  datatype Entry =
    | IdeaEntry(base: Base, status: IdeaStatus, notes: Option<string>)
    | WorkEntry(base: Base, whatWasDone: string, toolsUsed: seq<string>, timeInvested: Option<int>)
    | OutcomeEntry(base: Base, impact: string, learned: string, wouldDoDifferently: Option<string>)
    | JobEntry(base: Base, companyName: string, jobTitle: string, startDate: int, endDate: Option<int>,
               starEntries: seq<Star>, skillsDeveloped: seq<string>, keyAchievements: seq<string>)
    | EducationEntry(base: Base, institution: string, qualification: string, startDate: int, endDate: Option<int>,
                     notableProjects: seq<string>, achievements: seq<string>)
  {
    /** The `type` tag, fixed by the variant. */
    function Type(): (t: EntryType)
      ensures t == Idea <==> IdeaEntry?
      ensures t == Work <==> WorkEntry?
      ensures t == Outcome <==> OutcomeEntry?
      ensures t == Job <==> JobEntry?
      ensures t == Education <==> EducationEntry?
    {
      match this
      case IdeaEntry(_, _, _) => Idea
      case WorkEntry(_, _, _, _) => Work
      case OutcomeEntry(_, _, _, _) => Outcome
      case JobEntry(_, _, _, _, _, _, _, _) => Job
      case EducationEntry(_, _, _, _, _, _, _) => Education
    }
  }

  /** The string literal of each entry type. */
  function TypeName(t: EntryType): string {
    match t
    case Idea => "idea"
    case Work => "work"
    case Outcome => "outcome"
    case Job => "job"
    case Education => "education"
  }

  /** Reads a `type` string; exactly the five literals are accepted. */
  function ParseType(s: string): (r: Option<EntryType>)
    ensures r.Some? ==> TypeName(r.value) == s
  {
    if s == "idea" then Some(Idea)
    else if s == "work" then Some(Work)
    else if s == "outcome" then Some(Outcome)
    else if s == "job" then Some(Job)
    else if s == "education" then Some(Education)
    else None
  }

  /** The string literal of each idea status. */
  function StatusName(s: IdeaStatus): string {
    match s
    case New => "new"
    case InProgress => "in-progress"
    case Completed => "completed"
    case Abandoned => "abandoned"
  }

  /** Reads a status string; exactly the four literals are accepted. */
  function ParseStatus(s: string): (r: Option<IdeaStatus>)
    ensures r.Some? ==> StatusName(r.value) == s
  {
    if s == "new" then Some(New)
    else if s == "in-progress" then Some(InProgress)
    else if s == "completed" then Some(Completed)
    else if s == "abandoned" then Some(Abandoned)
    else None
  }

  /** Every type literal reads back as its type, and distinct types have distinct literals. */
  lemma TypeNameRoundTrip(t: EntryType)
    ensures ParseType(TypeName(t)) == Some(t)
  {
  }

  /** Every status literal reads back as its status. */
  lemma StatusNameRoundTrip(s: IdeaStatus)
    ensures ParseStatus(StatusName(s)) == Some(s)
  {
  }

  /**
   * What the store's `findById(id).exec()` gives: the stored entry, `null`,
   * or an exception (the cast error of a malformed id, or a failed store).
   */
  datatype Lookup = Found(entry: Entry) | Missing | StoreFailed
}
