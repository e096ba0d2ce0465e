/**
 * The resume-enhancement endpoint of src/app/api/ai/enhance-resume/route.ts.
 *
 * `POST` checks, in order, that an API key is configured, that the body
 * names an entry, that the entry exists and that it is a job or an
 * education entry. It then builds a plain-text context for the entry with
 * `+=`, asks a language model for a description, and answers with the
 * model's text next to the entry's original content. The model call is the
 * function parameter `ask`, which receives the entry's type literal and the
 * context; the store lookup is the request field `found`, which may also
 * report that the lookup threw.
 */
module EnhanceResume {
  import opened Wrappers
  import opened Strings
  import opened EntryTypes
  import opened AiMessages

  /**
   * The request as the route sees it: the configured key, whether
   * `request.json()` yields an object to read `entryId` from (an empty or
   * non-JSON body, or `null`, makes line 23 throw), the body's `entryId`
   * and the stored entry.
   */
  datatype Request = Request(hasApiKey: bool, bodyRead: bool, entryId: Option<string>, found: Lookup)

  /** The endpoint's answer: the two texts, or a JSON error with a status. */
  datatype Response =
    | Enhanced(enhancedContent: string, originalContent: string)
    | JsonError(status: nat, message: string)

  /** The entry types the route accepts. */
  predicate IsResumeEntry(e: Entry) {
    e.JobEntry? || e.EducationEntry?
  }

  /** The gates before the model is consulted; `None` means the model is asked. */
  function Gate(req: Request): (r: Option<Response>)
    ensures !req.hasApiKey ==> r == Some(JsonError(500, "Claude API key not configured"))
    ensures req.hasApiKey && !req.bodyRead ==> r == Some(JsonError(500, "Failed to enhance resume entry"))
    ensures req.hasApiKey && req.bodyRead && (req.entryId.None? || req.entryId.value == "") ==>
      r == Some(JsonError(400, "Entry ID is required"))
    ensures req.hasApiKey && req.bodyRead && req.entryId.Some? && req.entryId.value != "" && req.found.StoreFailed? ==>
      r == Some(JsonError(500, "Failed to enhance resume entry"))
    ensures req.hasApiKey && req.bodyRead && req.entryId.Some? && req.entryId.value != "" && req.found.Missing? ==>
      r == Some(JsonError(404, "Entry not found"))
    ensures (req.hasApiKey && req.bodyRead && req.entryId.Some? && req.entryId.value != "" && req.found.Found?
             && !IsResumeEntry(req.found.entry)) ==>
      r == Some(JsonError(400, "Only job and education entries can be enhanced"))
    ensures r.None? <==> (req.hasApiKey && req.bodyRead && req.entryId.Some? && req.entryId.value != ""
                          && req.found.Found? && IsResumeEntry(req.found.entry))
  {
    if !req.hasApiKey then Some(JsonError(500, "Claude API key not configured"))
    else if !req.bodyRead then Some(JsonError(500, "Failed to enhance resume entry"))
    else if req.entryId.None? || req.entryId.value == "" then Some(JsonError(400, "Entry ID is required"))
    else if req.found.StoreFailed? then Some(JsonError(500, "Failed to enhance resume entry"))
    else if req.found.Missing? then Some(JsonError(404, "Entry not found"))
    else if !IsResumeEntry(req.found.entry) then Some(JsonError(400, "Only job and education entries can be enhanced"))
    else None
  }

  // ---------------------------------------------------------------------
  // The context
  // ---------------------------------------------------------------------

  /** A `Name: a<sep>b` line for a list, left out when the list is empty. */
  function OptionalLine(name: string, items: seq<string>, sep: string): (r: seq<string>)
    ensures r == [] <==> items == []
  {
    if |items| > 0 then [name + Join(items, sep)] else []
  }

  /** A job's context: title, company and content, then skills and achievements when there are any. */
  function JobContextLines(jobTitle: string, companyName: string, content: string,
                           skillsDeveloped: seq<string>, keyAchievements: seq<string>): seq<string> {
    ["Job Title: " + jobTitle]
    + ["Company: " + companyName]
    + ["Content: " + content]
    + OptionalLine("Skills: ", skillsDeveloped, ", ")
    + OptionalLine("Achievements: ", keyAchievements, "; ")
  }

  /** An education entry's context: qualification, institution and content, then achievements and projects. */
  function EducationContextLines(qualification: string, institution: string, content: string,
                                 achievements: seq<string>, notableProjects: seq<string>): seq<string> {
    ["Qualification: " + qualification]
    + ["Institution: " + institution]
    + ["Content: " + content]
    + OptionalLine("Achievements: ", achievements, "; ")
    + OptionalLine("Projects: ", notableProjects, "; ")
  }

  /** The context lines of a job or education entry. */
  function ContextLines(e: Entry): seq<string>
    requires IsResumeEntry(e)
  {
    match e
    case JobEntry(base, companyName, jobTitle, _, _, _, skillsDeveloped, keyAchievements) =>
      JobContextLines(jobTitle, companyName, base.content, skillsDeveloped, keyAchievements)
    case EducationEntry(base, institution, qualification, _, _, notableProjects, achievements) =>
      EducationContextLines(qualification, institution, base.content, achievements, notableProjects)
  }

  /** The context text: every context line followed by a newline. */
  function Context(e: Entry): string
    requires IsResumeEntry(e)
  {
    Terminated(ContextLines(e))
  }

  /**
   * A job's context opens with its title, company and content lines; a
   * Skills line follows exactly when there are skills, and an Achievements
   * line exactly when there are key achievements.
   */
  lemma JobContextShape(jobTitle: string, companyName: string, content: string,
                        skillsDeveloped: seq<string>, keyAchievements: seq<string>)
    ensures var ls := JobContextLines(jobTitle, companyName, content, skillsDeveloped, keyAchievements);
      |ls| == 3 + (if skillsDeveloped == [] then 0 else 1) + (if keyAchievements == [] then 0 else 1)
      && ls[0] == "Job Title: " + jobTitle
      && ls[1] == "Company: " + companyName
      && ls[2] == "Content: " + content
      && (skillsDeveloped != [] ==> ls[3] == "Skills: " + Join(skillsDeveloped, ", "))
      && (keyAchievements != [] ==> ls[|ls| - 1] == "Achievements: " + Join(keyAchievements, "; "))
  {
  }

  /**
   * An education entry's context opens with its qualification, institution
   * and content lines; an Achievements line follows exactly when there are
   * achievements, and a Projects line exactly when there are projects.
   */
  lemma EducationContextShape(qualification: string, institution: string, content: string,
                              achievements: seq<string>, notableProjects: seq<string>)
    ensures var ls := EducationContextLines(qualification, institution, content, achievements, notableProjects);
      |ls| == 3 + (if achievements == [] then 0 else 1) + (if notableProjects == [] then 0 else 1)
      && ls[0] == "Qualification: " + qualification
      && ls[1] == "Institution: " + institution
      && ls[2] == "Content: " + content
      && (achievements != [] ==> ls[3] == "Achievements: " + Join(achievements, "; "))
      && (notableProjects != [] ==> ls[|ls| - 1] == "Projects: " + Join(notableProjects, "; "))
  {
  }

  /** When no field holds a line break, the context read back line by line is exactly its lines. */
  lemma ContextReadsBackAsLines(e: Entry)
    requires IsResumeEntry(e)
    requires forall k :: 0 <= k < |ContextLines(e)| ==> NoneIn(ContextLines(e)[k], '\n')
    ensures Split(Context(e), {'\n'}) == ContextLines(e) + [""]
  {
    SplitTerminated(ContextLines(e));
  }

  /** Appends a `Name: a<sep>b` line when the list is not empty. */
  method AppendOptionalLine(context: string, name: string, items: seq<string>, sep: string) returns (out: string)
    ensures out == context + Terminated(OptionalLine(name, items, sep))
  {
    out := context;
    if |items| > 0 {
      WriteLine(context, [], name + Join(items, sep));
      out := context + (name + Join(items, sep) + "\n");
    }
  }

  /** The three lines every context opens with, the first assigned and the other two appended. */
  method StartContext(first: string, second: string, third: string) returns (context: string)
    ensures context == Terminated([first] + [second] + [third])
  {
    WriteLine("", [], first);
    EmptyPrefix(first + "\n");
    context := first + "\n";
    ghost var ls := [first];
    WriteLine("", ls, second);
    context, ls := context + (second + "\n"), ls + [second];
    WriteLine("", ls, third);
    context, ls := context + (third + "\n"), ls + [third];
    EmptyPrefix(Terminated(ls));
  }

  /** The job branch of the context builder. */
  method BuildJobContext(jobTitle: string, companyName: string, content: string,
                         skillsDeveloped: seq<string>, keyAchievements: seq<string>) returns (context: string)
    ensures context == Terminated(JobContextLines(jobTitle, companyName, content, skillsDeveloped, keyAchievements))
  {
    context := StartContext("Job Title: " + jobTitle, "Company: " + companyName, "Content: " + content);
    ghost var ls := ["Job Title: " + jobTitle] + ["Company: " + companyName] + ["Content: " + content];
    EmptyPrefix(Terminated(ls));
    WriteLines("", ls, OptionalLine("Skills: ", skillsDeveloped, ", "));
    context := AppendOptionalLine(context, "Skills: ", skillsDeveloped, ", ");
    ls := ls + OptionalLine("Skills: ", skillsDeveloped, ", ");
    WriteLines("", ls, OptionalLine("Achievements: ", keyAchievements, "; "));
    context := AppendOptionalLine(context, "Achievements: ", keyAchievements, "; ");
    ls := ls + OptionalLine("Achievements: ", keyAchievements, "; ");
    EmptyPrefix(Terminated(ls));
  }

  /** The education branch of the context builder. */
  method BuildEducationContext(qualification: string, institution: string, content: string,
                               achievements: seq<string>, notableProjects: seq<string>) returns (context: string)
    ensures context == Terminated(EducationContextLines(qualification, institution, content, achievements, notableProjects))
  {
    context := StartContext("Qualification: " + qualification, "Institution: " + institution, "Content: " + content);
    ghost var ls := ["Qualification: " + qualification] + ["Institution: " + institution] + ["Content: " + content];
    EmptyPrefix(Terminated(ls));
    WriteLines("", ls, OptionalLine("Achievements: ", achievements, "; "));
    context := AppendOptionalLine(context, "Achievements: ", achievements, "; ");
    ls := ls + OptionalLine("Achievements: ", achievements, "; ");
    WriteLines("", ls, OptionalLine("Projects: ", notableProjects, "; "));
    context := AppendOptionalLine(context, "Projects: ", notableProjects, "; ");
    ls := ls + OptionalLine("Projects: ", notableProjects, "; ");
    EmptyPrefix(Terminated(ls));
  }

  /** The context builder: a job's branch for a job, the education branch otherwise. */
  method BuildContext(e: Entry) returns (context: string)
    requires IsResumeEntry(e)
    ensures context == Context(e)
  {
    if e.JobEntry? {
      context := BuildJobContext(e.jobTitle, e.companyName, e.base.content, e.skillsDeveloped, e.keyAchievements);
    } else {
      context := BuildEducationContext(e.qualification, e.institution, e.base.content, e.achievements, e.notableProjects);
    }
  }

  // ---------------------------------------------------------------------
  // The answer
  // ---------------------------------------------------------------------

  /**
   * `enhancedContent`: the first block's text, or the original content when
   * the first block is not text; `None` when reading the first block throws
   * (a failed call, or a message without blocks).
   */
  function EnhancedText(reply: AiReply, original: string): (r: Option<string>)
    ensures r.None? <==> reply.CallFailed? || reply.blocks == []
    ensures r.Some? && reply.blocks[0].OtherBlock? ==> r.value == original
    ensures r.Some? && reply.blocks[0].TextBlock? ==> r.value == reply.blocks[0].text
  {
    match reply
    case CallFailed => None
    case Replied(blocks) =>
      if blocks == [] then None
      else if blocks[0].TextBlock? then Some(blocks[0].text)
      else Some(original)
  }

  /** What `POST` answers, given the model's reply to the entry's type and context. */
  function Enhance(req: Request, ask: (string, string) -> AiReply): Response {
    match Gate(req)
    case Some(early) => early
    case None =>
      var e := req.found.entry;
      match EnhancedText(ask(TypeName(e.Type()), Context(e)), e.base.content)
      case None => JsonError(500, "Failed to enhance resume entry")
      case Some(text) => Enhanced(text, e.base.content)
  }

  /** `POST /api/ai/enhance-resume`. */
  method Post(req: Request, ask: (string, string) -> AiReply) returns (r: Response)
    ensures r == Enhance(req, ask)
  {
    var gate := Gate(req);
    if gate.Some? {
      return gate.value;
    }
    var e := req.found.entry;
    var context := BuildContext(e);
    var reply := ask(TypeName(e.Type()), context);
    var text := EnhancedText(reply, e.base.content);
    if text.None? {
      r := JsonError(500, "Failed to enhance resume entry");
    } else {
      r := Enhanced(text.value, e.base.content);
    }
  }

  /**
   * An answer with texts comes only for a stored job or education entry,
   * and its `originalContent` is always that entry's content.
   */
  lemma EnhancedKeepsOriginal(req: Request, ask: (string, string) -> AiReply)
    ensures var r := Enhance(req, ask);
      r.Enhanced? ==> (req.found.Found? && IsResumeEntry(req.found.entry)
                       && r.originalContent == req.found.entry.base.content)
  {
  }

  /** A failed model call, or a reply with no blocks, ends in the catch block's 500. */
  lemma ModelFailureAnswers500(req: Request, ask: (string, string) -> AiReply)
    requires Gate(req).None?
    requires ask(TypeName(req.found.entry.Type()), Context(req.found.entry)).CallFailed?
      || ask(TypeName(req.found.entry.Type()), Context(req.found.entry)) == Replied([])
    ensures Enhance(req, ask) == JsonError(500, "Failed to enhance resume entry")
  {
  }

  /** A first block that is not text gives back the entry's own content as the enhancement. */
  lemma NonTextReplyKeepsContent(req: Request, ask: (string, string) -> AiReply, rest: seq<Block>)
    requires Gate(req).None?
    requires ask(TypeName(req.found.entry.Type()), Context(req.found.entry)) == Replied([OtherBlock] + rest)
    ensures Enhance(req, ask) == Enhanced(req.found.entry.base.content, req.found.entry.base.content)
  {
  }

  /**
   * A request stopped by a gate never consults the model: its answer is the
   * same whatever the model would reply.
   */
  lemma GatedRequestsSkipModel(req: Request, ask1: (string, string) -> AiReply, ask2: (string, string) -> AiReply)
    requires Gate(req).Some?
    ensures Enhance(req, ask1) == Enhance(req, ask2)
    ensures Enhance(req, ask1).JsonError?
  {
  }

  /** The model is asked about the entry's type and its context, and nothing else decides the answer. */
  lemma ModelSeesContext(req: Request, ask1: (string, string) -> AiReply, ask2: (string, string) -> AiReply)
    requires Gate(req).None?
    requires ask1(TypeName(req.found.entry.Type()), Context(req.found.entry))
      == ask2(TypeName(req.found.entry.Type()), Context(req.found.entry))
    ensures Enhance(req, ask1) == Enhance(req, ask2)
  {
  }
}
