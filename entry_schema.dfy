/**
 * The Mongoose schema of src/models/Entry.ts, read as the validation and
 * defaulting a new document goes through before it is stored.
 *
 * A `RawDoc` is what a caller hands to the model: every path may be absent.
 * `Validate` picks the discriminator schema by the `type` path, applies the
 * defaults (`date` to the current time, lists to `[]`, an idea's `status` to
 * `new`), runs the `required` and `enum` validators of the base schema, of
 * the chosen discriminator and of each STAR sub-document, and either yields
 * the stored `Entry` or the set of every path that failed, as Mongoose
 * collects all failures of one document into one error.
 *
 * `required` on a `String` path rejects an absent value and the empty string
 * (Mongoose's check for strings); on a `Date` path it rejects only an absent
 * value. Paths that do not belong to the chosen schema are dropped.
 */
module EntrySchema {
  import opened Wrappers
  import opened EntryTypes

  /** A STAR sub-document as submitted. */
  datatype RawStar = RawStar(situation: Option<string>, task: Option<string>,
                             action: Option<string>, result: Option<string>)

  /** A document as submitted: any path may be missing. `kind` is the `type` path. */
  datatype RawDoc = RawDoc(
    kind: Option<string>,
    title: Option<string>,
    content: Option<string>,
    date: Option<int>,
    category: Option<string>,
    tags: Option<seq<string>>,
    images: Option<seq<string>>,
    relatedTo: Option<seq<string>>,
    status: Option<string>,
    notes: Option<string>,
    whatWasDone: Option<string>,
    toolsUsed: Option<seq<string>>,
    timeInvested: Option<int>,
    impact: Option<string>,
    learned: Option<string>,
    wouldDoDifferently: Option<string>,
    companyName: Option<string>,
    jobTitle: Option<string>,
    startDate: Option<int>,
    endDate: Option<int>,
    starEntries: Option<seq<RawStar>>,
    skillsDeveloped: Option<seq<string>>,
    keyAchievements: Option<seq<string>>,
    institution: Option<string>,
    qualification: Option<string>,
    notableProjects: Option<seq<string>>,
    achievements: Option<seq<string>>)

  /** A failing path: a top-level path, or a path inside the STAR sub-document at an index. */
  datatype Path = Field(name: string) | StarField(index: nat, name: string)

  /** Whether a `required` string path fails: absent or empty. */
  predicate MissingText(v: Option<string>) {
    v.None? || v.value == ""
  }

  /** The `required` failures of one STAR sub-document, at its index. */
  function StarErrors(s: RawStar, index: nat): (r: set<Path>)
    ensures r == {} <==> !MissingText(s.situation) && !MissingText(s.task)
                         && !MissingText(s.action) && !MissingText(s.result)
    ensures forall p :: p in r ==> p.StarField? && p.index == index
  {
    (if MissingText(s.situation) then {StarField(index, "situation")} else {})
    + (if MissingText(s.task) then {StarField(index, "task")} else {})
    + (if MissingText(s.action) then {StarField(index, "action")} else {})
    + (if MissingText(s.result) then {StarField(index, "result")} else {})
  }

  /** The failures of a list of STAR sub-documents whose first element sits at `from`. */
  function StarListErrors(stars: seq<RawStar>, from: nat): (r: set<Path>)
    ensures forall p :: p in r ==> p.StarField? && from <= p.index < from + |stars|
    decreases |stars|
  {
    if stars == [] then {}
    else StarErrors(stars[0], from) + StarListErrors(stars[1..], from + 1)
  }

  /** The failures of the base schema: `type` (required, enum), `title`, `content`, `category`. */
  function BaseErrors(doc: RawDoc): set<Path> {
    (if doc.kind.None? || ParseType(doc.kind.value).None? then {Field("type")} else {})
    + (if MissingText(doc.title) then {Field("title")} else {})
    + (if MissingText(doc.content) then {Field("content")} else {})
    + (if MissingText(doc.category) then {Field("category")} else {})
  }

  /** The failures of the discriminator schema chosen by `t`. */
  function VariantErrors(doc: RawDoc, t: EntryType): set<Path> {
    match t
    case Idea =>
      if doc.status.Some? && ParseStatus(doc.status.value).None? then {Field("status")} else {}
    case Work =>
      if MissingText(doc.whatWasDone) then {Field("whatWasDone")} else {}
    case Outcome =>
      (if MissingText(doc.impact) then {Field("impact")} else {})
      + (if MissingText(doc.learned) then {Field("learned")} else {})
    case Job =>
      (if MissingText(doc.companyName) then {Field("companyName")} else {})
      + (if MissingText(doc.jobTitle) then {Field("jobTitle")} else {})
      + (if doc.startDate.None? then {Field("startDate")} else {})
      + StarListErrors(doc.starEntries.GetOr([]), 0)
    case Education =>
      (if MissingText(doc.institution) then {Field("institution")} else {})
      + (if MissingText(doc.qualification) then {Field("qualification")} else {})
      + (if doc.startDate.None? then {Field("startDate")} else {})
  }

  /** Every failing path of a document; the discriminator's paths only once `type` is known. */
  function Errors(doc: RawDoc): set<Path> {
    BaseErrors(doc)
    + (if doc.kind.Some? && ParseType(doc.kind.value).Some?
       then VariantErrors(doc, ParseType(doc.kind.value).value) else {})
  }

  /** The stored STAR records of sub-documents that passed validation. */
  function Stars(stars: seq<RawStar>, from: nat): (r: seq<Star>)
    requires StarListErrors(stars, from) == {}
    ensures |r| == |stars|
    decreases |stars|
  {
    if stars == [] then []
    else
      assert StarErrors(stars[0], from) == {};
      [Star(stars[0].situation.value, stars[0].task.value, stars[0].action.value, stars[0].result.value)]
      + Stars(stars[1..], from + 1)
  }

  /** The stored base record: defaults applied, timestamps set to the creation time. */
  function StoredBase(doc: RawDoc, id: string, now: int): Base
    requires BaseErrors(doc) == {}
  {
    Base(id, doc.title.value, doc.content.value, doc.date.GetOr(now), doc.category.value,
         doc.tags.GetOr([]), doc.images.GetOr([]), doc.relatedTo.GetOr([]), now, now)
  }

  /** The stored entry of a document with no failing path. */
  function Stored(doc: RawDoc, id: string, now: int): Entry
    requires Errors(doc) == {}
  {
    var base := StoredBase(doc, id, now);
    match ParseType(doc.kind.value).value
    case Idea =>
      IdeaEntry(base, if doc.status.None? then New else ParseStatus(doc.status.value).value, doc.notes)
    case Work =>
      WorkEntry(base, doc.whatWasDone.value, doc.toolsUsed.GetOr([]), doc.timeInvested)
    case Outcome =>
      OutcomeEntry(base, doc.impact.value, doc.learned.value, doc.wouldDoDifferently)
    case Job =>
      JobEntry(base, doc.companyName.value, doc.jobTitle.value, doc.startDate.value, doc.endDate,
               Stars(doc.starEntries.GetOr([]), 0), doc.skillsDeveloped.GetOr([]), doc.keyAchievements.GetOr([]))
    case Education =>
      EducationEntry(base, doc.institution.value, doc.qualification.value, doc.startDate.value, doc.endDate,
                     doc.notableProjects.GetOr([]), doc.achievements.GetOr([]))
  }

  /** Validation on creation: the stored entry, or every path that failed. */
  function Validate(doc: RawDoc, id: string, now: int): (r: Result<Entry, set<Path>>)
    ensures r.Success? <==> Errors(doc) == {}
    ensures r.Failure? ==> r.error == Errors(doc) && r.error != {}
    ensures r.Success? ==> TypeName(r.value.Type()) == doc.kind.value
  {
    if Errors(doc) == {} then
      TypeNameRoundTrip(ParseType(doc.kind.value).value);
      Success(Stored(doc, id, now))
    else Failure(Errors(doc))
  }

  // ---------------------------------------------------------------------
  // Properties of the schema
  // ---------------------------------------------------------------------

  /** `type` must be one of the five literals; any other value, or none, is a failure on `type`. */
  lemma TypeMustBeKnown(doc: RawDoc, id: string, now: int)
    ensures Validate(doc, id, now).Success? ==>
      doc.kind.Some? && doc.kind.value in {"idea", "work", "outcome", "job", "education"}
    ensures doc.kind.None? || ParseType(doc.kind.value).None? ==>
      Validate(doc, id, now).Failure? && Field("type") in Validate(doc, id, now).error
  {
  }

  /** `title`, `content` and `category` are required and stored as given; `date` falls back to `now`. */
  lemma BaseFieldsRequired(doc: RawDoc, id: string, now: int)
    ensures MissingText(doc.title) ==> Field("title") in Errors(doc)
    ensures MissingText(doc.content) ==> Field("content") in Errors(doc)
    ensures MissingText(doc.category) ==> Field("category") in Errors(doc)
    ensures var r := Validate(doc, id, now);
      r.Success? ==> (r.value.base.title == doc.title.value && r.value.base.title != ""
                      && r.value.base.content == doc.content.value && r.value.base.content != ""
                      && r.value.base.category == doc.category.value && r.value.base.category != ""
                      && r.value.base.date == (if doc.date.Some? then doc.date.value else now))
  {
  }

  /** `tags`, `images` and `relatedTo` default to the empty list. */
  lemma BaseListsDefaultEmpty(doc: RawDoc, id: string, now: int)
    ensures var r := Validate(doc, id, now);
      r.Success? ==> (r.value.base.tags == (if doc.tags.Some? then doc.tags.value else [])
                      && r.value.base.images == (if doc.images.Some? then doc.images.value else [])
                      && r.value.base.relatedTo == (if doc.relatedTo.Some? then doc.relatedTo.value else []))
  {
  }

  /** An idea's `status` must be one of the four literals and defaults to `new`. */
  lemma IdeaStatusRule(doc: RawDoc, id: string, now: int)
    requires doc.kind == Some("idea")
    ensures doc.status.Some? && ParseStatus(doc.status.value).None? ==> Field("status") in Errors(doc)
    ensures var r := Validate(doc, id, now);
      r.Success? ==> (r.value.IdeaEntry?
                      && (doc.status.None? ==> r.value.status == New)
                      && (doc.status.Some? ==> StatusName(r.value.status) == doc.status.value))
  {
  }

  /** A work entry requires `whatWasDone`; `toolsUsed` defaults to the empty list. */
  lemma WorkRule(doc: RawDoc, id: string, now: int)
    requires doc.kind == Some("work")
    ensures MissingText(doc.whatWasDone) ==> Field("whatWasDone") in Errors(doc)
    ensures var r := Validate(doc, id, now);
      r.Success? ==> (r.value.WorkEntry? && r.value.whatWasDone == doc.whatWasDone.value
                      && r.value.toolsUsed == (if doc.toolsUsed.Some? then doc.toolsUsed.value else []))
  {
  }

  /** An outcome requires `impact` and `learned`. */
  lemma OutcomeRule(doc: RawDoc)
    requires doc.kind == Some("outcome")
    ensures MissingText(doc.impact) ==> Field("impact") in Errors(doc)
    ensures MissingText(doc.learned) ==> Field("learned") in Errors(doc)
  {
  }

  /**
   * A job requires `companyName`, `jobTitle` and `startDate`; its three
   * lists default to empty.
   */
  lemma JobRule(doc: RawDoc, id: string, now: int)
    requires doc.kind == Some("job")
    ensures MissingText(doc.companyName) ==> Field("companyName") in Errors(doc)
    ensures MissingText(doc.jobTitle) ==> Field("jobTitle") in Errors(doc)
    ensures doc.startDate.None? ==> Field("startDate") in Errors(doc)
    ensures var r := Validate(doc, id, now);
      r.Success? ==> (r.value.JobEntry? && r.value.startDate == doc.startDate.value
                      && |r.value.starEntries| == |doc.starEntries.GetOr([])|
                      && r.value.skillsDeveloped == doc.skillsDeveloped.GetOr([])
                      && r.value.keyAchievements == doc.keyAchievements.GetOr([]))
  {
  }

  /** An education entry requires `institution`, `qualification` and `startDate`. */
  lemma EducationRule(doc: RawDoc, id: string, now: int)
    requires doc.kind == Some("education")
    ensures MissingText(doc.institution) ==> Field("institution") in Errors(doc)
    ensures MissingText(doc.qualification) ==> Field("qualification") in Errors(doc)
    ensures doc.startDate.None? ==> Field("startDate") in Errors(doc)
    ensures var r := Validate(doc, id, now);
      r.Success? ==> (r.value.EducationEntry? && r.value.startDate == doc.startDate.value
                      && r.value.notableProjects == doc.notableProjects.GetOr([])
                      && r.value.achievements == doc.achievements.GetOr([]))
  {
  }

  /** A STAR sub-document missing a field fails at its own index and field name. */
  lemma {:induction false} StarFieldRequired(stars: seq<RawStar>, from: nat, i: nat)
    requires i < |stars|
    ensures MissingText(stars[i].situation) ==> StarField(from + i, "situation") in StarListErrors(stars, from)
    ensures MissingText(stars[i].task) ==> StarField(from + i, "task") in StarListErrors(stars, from)
    ensures MissingText(stars[i].action) ==> StarField(from + i, "action") in StarListErrors(stars, from)
    ensures MissingText(stars[i].result) ==> StarField(from + i, "result") in StarListErrors(stars, from)
    decreases i
  {
    if i > 0 {
      StarFieldRequired(stars[1..], from + 1, i - 1);
      assert stars[1..][i - 1] == stars[i];
    }
  }

  /** A job whose STAR record at index `i` lacks a field is refused. */
  lemma IncompleteStarRefused(doc: RawDoc, id: string, now: int, i: nat)
    requires doc.kind == Some("job") && doc.starEntries.Some? && i < |doc.starEntries.value|
    requires MissingText(doc.starEntries.value[i].situation) || MissingText(doc.starEntries.value[i].task)
          || MissingText(doc.starEntries.value[i].action) || MissingText(doc.starEntries.value[i].result)
    ensures Validate(doc, id, now).Failure?
    ensures exists name :: StarField(i, name) in Validate(doc, id, now).error
  {
    var stars := doc.starEntries.value;
    StarFieldRequired(stars, 0, i);
    var name := if MissingText(stars[i].situation) then "situation"
                else if MissingText(stars[i].task) then "task"
                else if MissingText(stars[i].action) then "action"
                else "result";
    assert StarField(i, name) in StarListErrors(stars, 0);
    assert StarListErrors(stars, 0) <= VariantErrors(doc, Job);
    assert VariantErrors(doc, Job) <= Errors(doc);
  }

  // ---------------------------------------------------------------------
  // Round trip: a stored entry submitted again is accepted unchanged
  // ---------------------------------------------------------------------

  /** The sub-document of a STAR record. */
  function StarDoc(s: Star): RawStar {
    RawStar(Some(s.situation), Some(s.task), Some(s.action), Some(s.result))
  }

  /** The sub-documents of a list of STAR records. */
  function StarDocs(stars: seq<Star>): (r: seq<RawStar>)
    ensures |r| == |stars|
    decreases |stars|
  {
    if stars == [] then [] else [StarDoc(stars[0])] + StarDocs(stars[1..])
  }

  /** The document that submits an entry: every path of its variant present. */
  function ToDoc(e: Entry): RawDoc {
    var b := e.base;
    var common := RawDoc(Some(TypeName(e.Type())), Some(b.title), Some(b.content), Some(b.date), Some(b.category),
                         Some(b.tags), Some(b.images), Some(b.relatedTo),
                         None, None, None, None, None, None, None, None, None, None, None, None, None, None,
                         None, None, None, None, None);
    match e
    case IdeaEntry(_, status, notes) =>
      common.(status := Some(StatusName(status)), notes := notes)
    case WorkEntry(_, whatWasDone, toolsUsed, timeInvested) =>
      common.(whatWasDone := Some(whatWasDone), toolsUsed := Some(toolsUsed), timeInvested := timeInvested)
    case OutcomeEntry(_, impact, learned, wouldDoDifferently) =>
      common.(impact := Some(impact), learned := Some(learned), wouldDoDifferently := wouldDoDifferently)
    case JobEntry(_, companyName, jobTitle, startDate, endDate, starEntries, skillsDeveloped, keyAchievements) =>
      common.(companyName := Some(companyName), jobTitle := Some(jobTitle), startDate := Some(startDate),
              endDate := endDate, starEntries := Some(StarDocs(starEntries)),
              skillsDeveloped := Some(skillsDeveloped), keyAchievements := Some(keyAchievements))
    case EducationEntry(_, institution, qualification, startDate, endDate, notableProjects, achievements) =>
      common.(institution := Some(institution), qualification := Some(qualification), startDate := Some(startDate),
              endDate := endDate, notableProjects := Some(notableProjects), achievements := Some(achievements))
  }

  /** Whether every STAR record has its four texts. */
  predicate CompleteStars(stars: seq<Star>) {
    forall k :: 0 <= k < |stars| ==>
      stars[k].situation != "" && stars[k].task != "" && stars[k].action != "" && stars[k].result != ""
  }

  /** Whether an entry satisfies every `required` rule of its schema. */
  predicate Conforms(e: Entry) {
    e.base.title != "" && e.base.content != "" && e.base.category != ""
    && match e
       case IdeaEntry(_, _, _) => true
       case WorkEntry(_, whatWasDone, _, _) => whatWasDone != ""
       case OutcomeEntry(_, impact, learned, _) => impact != "" && learned != ""
       case JobEntry(_, companyName, jobTitle, _, _, starEntries, _, _) =>
         companyName != "" && jobTitle != "" && CompleteStars(starEntries)
       case EducationEntry(_, institution, qualification, _, _, _, _) =>
         institution != "" && qualification != ""
  }

  /** Complete STAR records validate without failure and are stored back unchanged. */
  lemma {:induction false} StarsRoundTrip(stars: seq<Star>, from: nat)
    requires CompleteStars(stars)
    ensures StarListErrors(StarDocs(stars), from) == {}
    ensures Stars(StarDocs(stars), from) == stars
    decreases |stars|
  {
    if stars != [] {
      assert StarDocs(stars)[1..] == StarDocs(stars[1..]);
      assert CompleteStars(stars[1..]) by {
        forall k | 0 <= k < |stars[1..]| ensures stars[1..][k] == stars[k + 1] {}
      }
      StarsRoundTrip(stars[1..], from + 1);
      assert stars == [stars[0]] + stars[1..];
    }
  }

  /**
   * An entry that satisfies its schema, submitted again with its own
   * identifier at its creation time, is accepted and stored unchanged.
   */
  lemma ValidateRoundTrip(e: Entry)
    requires Conforms(e) && e.base.updatedAt == e.base.createdAt
    ensures Validate(ToDoc(e), e.base.id, e.base.createdAt) == Success(e)
  {
    var doc := ToDoc(e);
    TypeNameRoundTrip(e.Type());
    if e.IdeaEntry? {
      StatusNameRoundTrip(e.status);
    }
    if e.JobEntry? {
      StarsRoundTrip(e.starEntries, 0);
    }
    assert Errors(doc) == {};
  }
}
