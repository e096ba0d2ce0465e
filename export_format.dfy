/**
 * What the Markdown export of src/app/api/export/route.ts writes.
 *
 * The text is specified as a list of lines (`Terminated` puts a newline
 * after each), grouped as the route writes them: one group per `+=`.
 * Locale date formatting is the parameter `fmt`, and the "Exported on"
 * time text is the parameter `exportedOn`.
 */
module ExportFormat {
  import opened Wrappers
  import opened Strings
  import opened EntryTypes
  import opened Seqs

  // ---------------------------------------------------------------------
  // The lines of one entry's block
  // ---------------------------------------------------------------------

  /** Title heading, then the Type, Date and Category lines. */
  function HeaderLines(title: string, typeName: string, date: string, category: string): seq<string> {
    ["# " + title, ""]
    + ["**Type**: " + typeName]
    + ["**Date**: " + date]
    + ["**Category**: " + category, ""]
  }

  /** The header of the block of `e`, its dates formatted by `fmt`. */
  function EntryHeaderLines(e: Entry, fmt: int -> string): seq<string> {
    HeaderLines(e.base.title, TypeName(e.Type()), fmt(e.base.date), e.base.category)
  }

  /** Each tag with a leading `#`. */
  function HashTags(tags: seq<string>): seq<string> {
    Prefixed("#", tags)
  }

  /** The Tags line, written only for a non-empty tag list. */
  function TagsLines(tags: seq<string>): (r: seq<string>)
    ensures r == [] <==> tags == []
    ensures tags != [] ==> r == ["**Tags**: " + Join(HashTags(tags), ", "), ""]
  {
    JoinedLine("**Tags**: ", HashTags(tags))
  }

  /** A `##` section holding one text. */
  function Section(heading: string, text: string): seq<string> {
    ["## " + heading, ""] + [text, ""]
  }

  /** A section for an optional text, left out when the text is absent or empty. */
  function OptionalSection(heading: string, text: Option<string>): (r: seq<string>)
    ensures r == [] <==> text.None? || text.value == ""
  {
    if text.Some? && text.value != "" then Section(heading, text.value) else []
  }

  /** A `**Name**: a, b, c` line (`name` holds the bold label) for a list, left out when the list is empty. */
  function JoinedLine(name: string, items: seq<string>): (r: seq<string>)
    ensures r == [] <==> items == []
  {
    if |items| > 0 then [name + Join(items, ", "), ""] else []
  }

  /** The hours line, left out when the time is absent or zero (the falsy number). */
  function TimeLine(t: Option<int>): (r: seq<string>)
    ensures r == [] <==> t.None? || t.value == 0
  {
    if t.Some? && t.value != 0 then ["**Time Invested**: " + IntToString(t.value) + " hours", ""] else []
  }

  /** The `- item` lines of a list. */
  function Bullets(items: seq<string>): seq<string> {
    Prefixed("- ", items)
  }

  /** A `###` heading, one bullet line per item and a blank line; nothing for an empty list. */
  function ListLines(heading: string, items: seq<string>): (r: seq<string>)
    ensures r == [] <==> items == []
  {
    if |items| > 0 then ["### " + heading, ""] + Bullets(items) + [""] else []
  }

  /** A non-empty list section: heading, blank line, one bullet per item in order, blank line. */
  lemma ListLinesShape(heading: string, items: seq<string>)
    requires items != []
    ensures var r := ListLines(heading, items);
      |r| == |items| + 3 && r[0] == "### " + heading && r[1] == "" && r[|r| - 1] == ""
      && forall k :: 0 <= k < |items| ==> r[k + 2] == "- " + items[k]
  {
  }

  /** The end of a Duration line: the formatted end date, or `Present` when there is none. */
  function EndText(end: Option<int>, fmt: int -> string): (r: string)
    ensures end.None? ==> r == "Present"
    ensures end.Some? ==> r == fmt(end.value)
  {
    if end.Some? then fmt(end.value) else "Present"
  }

  /** An idea's lines: its status, then its notes when there are any. */
  function IdeaLines(status: IdeaStatus, notes: Option<string>): seq<string> {
    ["**Status**: " + StatusName(status), ""]
    + OptionalSection("Notes", notes)
  }

  /** A work entry's lines: what was done, the tools used and the hours invested. */
  function WorkLines(whatWasDone: string, toolsUsed: seq<string>, timeInvested: Option<int>): seq<string> {
    Section("What Was Done", whatWasDone)
    + JoinedLine("**Tools Used**: ", toolsUsed)
    + TimeLine(timeInvested)
  }

  /** An outcome's lines: its impact, what was learned and what would be done differently. */
  function OutcomeLines(impact: string, learned: string, wouldDoDifferently: Option<string>): seq<string> {
    Section("Impact", impact)
    + Section("Learned", learned)
    + OptionalSection("Would Do Differently", wouldDoDifferently)
  }

  /** The Company, Job Title and Duration lines of a job. */
  function JobHeadLines(companyName: string, jobTitle: string, start: string, end: string): seq<string> {
    ["**Company**: " + companyName]
    + ["**Job Title**: " + jobTitle]
    + ["**Duration**: " + start + " - " + end, ""]
  }

  /** A job's lines: company, title, duration, skills and the key achievements. */
  function JobLines(companyName: string, jobTitle: string, startDate: int, endDate: Option<int>,
                    skillsDeveloped: seq<string>, keyAchievements: seq<string>, fmt: int -> string): seq<string> {
    JobHeadLines(companyName, jobTitle, fmt(startDate), EndText(endDate, fmt))
    + JoinedLine("**Skills Developed**: ", skillsDeveloped)
    + ListLines("Key Achievements", keyAchievements)
  }

  /** The Institution and Qualification lines of an education entry. */
  function EducationHeadLines(institution: string, qualification: string): seq<string> {
    ["**Institution**: " + institution]
    + ["**Qualification**: " + qualification, ""]
  }

  /** An education entry's lines: institution, qualification, notable projects and achievements. */
  function EducationLines(institution: string, qualification: string,
                          notableProjects: seq<string>, achievements: seq<string>): seq<string> {
    EducationHeadLines(institution, qualification)
    + ListLines("Notable Projects", notableProjects)
    + ListLines("Achievements", achievements)
  }

  /** The lines of the entry's own variant, in the order the export writes them. */
  function VariantLines(e: Entry, fmt: int -> string): seq<string> {
    match e
    case IdeaEntry(_, status, notes) => IdeaLines(status, notes)
    case WorkEntry(_, whatWasDone, toolsUsed, timeInvested) => WorkLines(whatWasDone, toolsUsed, timeInvested)
    case OutcomeEntry(_, impact, learned, wouldDoDifferently) => OutcomeLines(impact, learned, wouldDoDifferently)
    case JobEntry(_, companyName, jobTitle, startDate, endDate, _, skillsDeveloped, keyAchievements) =>
      JobLines(companyName, jobTitle, startDate, endDate, skillsDeveloped, keyAchievements, fmt)
    case EducationEntry(_, institution, qualification, _, _, notableProjects, achievements) =>
      EducationLines(institution, qualification, notableProjects, achievements)
  }

  /** `![Image k](url)`. */
  function ImageLine(k: nat, url: string): string {
    "![Image " + NatToString(k) + "](" + url + ")"
  }

  /** The image lines, numbered from 1. */
  function ImageLines(images: seq<string>): (r: seq<string>)
    ensures |r| == |images| && forall k :: 0 <= k < |r| ==> r[k] == ImageLine(k + 1, images[k])
  {
    seq(|images|, k requires 0 <= k < |images| => ImageLine(k + 1, images[k]))
  }

  /** The Images section, left out when there are no images. */
  function ImagesLines(images: seq<string>): (r: seq<string>)
    ensures r == [] <==> images == []
  {
    if |images| > 0 then ["## Images", ""] + ImageLines(images) + [""] else []
  }

  /** A non-empty Images section: heading, blank line, the images numbered from 1, blank line. */
  lemma ImagesLinesShape(images: seq<string>)
    requires images != []
    ensures var r := ImagesLines(images);
      |r| == |images| + 3 && r[0] == "## Images" && r[1] == "" && r[|r| - 1] == ""
      && forall k :: 0 <= k < |images| ==> r[k + 2] == ImageLine(k + 1, images[k])
  {
  }

  /** The rule and the Created and Updated lines that close every block. */
  function FooterLines(created: string, updated: string): seq<string> {
    ["---", ""]
    + ["*Created: " + created + "*"]
    + ["*Updated: " + updated + "*", ""]
  }

  /** The footer of the block of `e`, its dates formatted by `fmt`. */
  function EntryFooterLines(e: Entry, fmt: int -> string): seq<string> {
    FooterLines(fmt(e.base.createdAt), fmt(e.base.updatedAt))
  }

  /** The lines before the variant's own: header, tags and content. */
  function CommonLines(e: Entry, fmt: int -> string): seq<string> {
    EntryHeaderLines(e, fmt) + TagsLines(e.base.tags) + Section("Content", e.base.content)
  }

  /** Every line of the block `entryToMarkdown` returns for `e`. */
  function EntryLines(e: Entry, fmt: int -> string): seq<string> {
    CommonLines(e, fmt) + VariantLines(e, fmt) + ImagesLines(e.base.images) + EntryFooterLines(e, fmt)
  }

  /** The block `entryToMarkdown` returns for `e`. */
  function EntryMarkdown(e: Entry, fmt: int -> string): string {
    Terminated(EntryLines(e, fmt))
  }

  // ---------------------------------------------------------------------
  // What a block holds
  // ---------------------------------------------------------------------

  /** A block starts with the title heading and the Type, Date and Category lines. */
  lemma BlockStartsWithHeader(e: Entry, fmt: int -> string)
    ensures Terminated(EntryHeaderLines(e, fmt)) <= EntryMarkdown(e, fmt)
  {
    var h := EntryHeaderLines(e, fmt);
    var t := TagsLines(e.base.tags);
    var c := Section("Content", e.base.content);
    var v := VariantLines(e, fmt);
    var im := ImagesLines(e.base.images);
    TerminatedPrefix(h, t);
    TerminatedPrefix(h + t, c);
    TerminatedPrefix(h + t + c, v);
    TerminatedPrefix(h + t + c + v, im);
    TerminatedPrefix(h + t + c + v + im, EntryFooterLines(e, fmt));
  }

  /** A block ends with the rule and the Created and Updated lines. */
  lemma BlockEndsWithFooter(e: Entry, fmt: int -> string)
    ensures var md := EntryMarkdown(e, fmt); var f := Terminated(EntryFooterLines(e, fmt));
      |f| <= |md| && md[|md| - |f|..] == f
  {
    TerminatedSuffix(CommonLines(e, fmt) + VariantLines(e, fmt) + ImagesLines(e.base.images), EntryFooterLines(e, fmt));
  }

  /**
   * When no field holds a line break, the block read back line by line is
   * exactly its lines (the final newline leaves one empty part).
   */
  lemma BlockReadsBackAsLines(e: Entry, fmt: int -> string)
    requires forall k :: 0 <= k < |EntryLines(e, fmt)| ==> NoneIn(EntryLines(e, fmt)[k], '\n')
    ensures Split(EntryMarkdown(e, fmt), {'\n'}) == EntryLines(e, fmt) + [""]
  {
    SplitTerminated(EntryLines(e, fmt));
  }

  /**
   * A job's lines open with the Company and Job Title lines and the
   * Duration line, which runs from the start date to the end date, or to
   * `Present` when there is no end date.
   */
  lemma JobLinesOpenWithDuration(companyName: string, jobTitle: string, startDate: int, endDate: Option<int>,
                                 skillsDeveloped: seq<string>, keyAchievements: seq<string>, fmt: int -> string)
    ensures var ls := JobLines(companyName, jobTitle, startDate, endDate, skillsDeveloped, keyAchievements, fmt);
      |ls| >= 4
      && ls[0] == "**Company**: " + companyName
      && ls[1] == "**Job Title**: " + jobTitle
      && ls[2] == "**Duration**: " + fmt(startDate) + " - " + (if endDate.Some? then fmt(endDate.value) else "Present")
      && ls[3] == ""
  {
  }

  // ---------------------------------------------------------------------
  // The export document
  // ---------------------------------------------------------------------

  /** The document header: title, export time, number of entries and a rule. */
  function DocHeaderLines(exportedOn: string, total: string): seq<string> {
    ["# FreeBird Export", ""]
    + ["Exported on: " + exportedOn]
    + ["Total entries: " + total, ""]
    + ["---", ""]
  }

  /** The renderings of the first `n` items, in order. */
  function Rendered<T>(items: seq<T>, n: nat, render: T -> string): (r: seq<string>)
    requires n <= |items|
    ensures |r| == n
  {
    if n == 0 then [] else Rendered(items, n - 1, render) + [render(items[n - 1])]
  }

  /** `entryToMarkdown` with the dates formatted by `fmt`. */
  function MarkdownOf(fmt: int -> string): Entry -> string {
    (e: Entry) => EntryMarkdown(e, fmt)
  }

  /** The blocks of the first `n` entries, in order. */
  function Blocks(entries: seq<Entry>, n: nat, fmt: int -> string): (r: seq<string>)
    requires n <= |entries|
    ensures |r| == n
  {
    Rendered(entries, n, MarkdownOf(fmt))
  }

  /** The whole Markdown document `GET` returns: the header text, then the block of every entry. */
  function ExportDocument(entries: seq<Entry>, exportedOn: string, fmt: int -> string): string {
    Terminated(DocHeaderLines(exportedOn, NatToString(|entries|))) + Concat(Blocks(entries, |entries|, fmt))
  }

  /** The document starts with its header, which states the number of entries exported. */
  lemma DocumentStartsWithHeader(entries: seq<Entry>, exportedOn: string, fmt: int -> string)
    ensures Terminated(DocHeaderLines(exportedOn, NatToString(|entries|))) <= ExportDocument(entries, exportedOn, fmt)
  {
    PrefixSuffix(Terminated(DocHeaderLines(exportedOn, NatToString(|entries|))), Concat(Blocks(entries, |entries|, fmt)));
  }

  /** Items appended after the first `n` leave the renderings of those `n` as they were. */
  lemma {:induction false} RenderedPrefix<T>(items: seq<T>, more: seq<T>, n: nat, render: T -> string)
    requires n <= |items|
    ensures Rendered(items + more, n, render) == Rendered(items, n, render)
  {
    if n > 0 {
      RenderedPrefix(items, more, n - 1, render);
      assert (items + more)[n - 1] == items[n - 1];
    }
  }

  /**
   * Exporting one more entry raises the total and appends that entry's
   * block: the blocks of the other entries are kept as they were.
   */
  lemma DocumentAppend(entries: seq<Entry>, e: Entry, exportedOn: string, fmt: int -> string)
    ensures ExportDocument(entries + [e], exportedOn, fmt)
      == Terminated(DocHeaderLines(exportedOn, NatToString(|entries| + 1)))
        + Concat(Blocks(entries, |entries|, fmt)) + EntryMarkdown(e, fmt)
  {
    RenderedPrefix(entries, [e], |entries|, MarkdownOf(fmt));
    WriteConcat(Terminated(DocHeaderLines(exportedOn, NatToString(|entries| + 1))),
      Blocks(entries, |entries|, fmt), EntryMarkdown(e, fmt));
  }

  /** The two export formats. */
  datatype Format = Markdown | Json

  /** `searchParams.get('format') || 'json'`; then `markdown` or `md` select Markdown. */
  function ChooseFormat(param: Option<string>): (f: Format)
    ensures f == Markdown <==> param == Some("markdown") || param == Some("md")
  {
    var format := if param.Some? && param.value != "" then param.value else "json";
    if format == "markdown" || format == "md" then Markdown else Json
  }

  /**
   * The query filter: a non-empty `type` parameter must equal the entry's
   * type literal, and a non-empty `category` parameter its category.
   */
  predicate Selected(e: Entry, typeParam: Option<string>, categoryParam: Option<string>) {
    (typeParam.None? || typeParam.value == "" || TypeName(e.Type()) == typeParam.value)
    && (categoryParam.None? || categoryParam.value == "" || e.base.category == categoryParam.value)
  }

  /**
   * Without parameters every entry is exported; with a type parameter
   * exactly the entries of that type are, narrowed by a non-empty category.
   */
  lemma SelectedByParameters(e: Entry, t: EntryType, category: string)
    ensures Selected(e, None, None)
    ensures Selected(e, Some(TypeName(t)), None) <==> e.Type() == t
    ensures Selected(e, Some(TypeName(t)), Some(category))
      <==> e.Type() == t && (category == "" || e.base.category == category)
  {
    if TypeName(e.Type()) == TypeName(t) {
      TypeNameRoundTrip(e.Type());
      TypeNameRoundTrip(t);
    }
  }

  /** The query's filter as a predicate on entries. */
  function SelectedBy(typeParam: Option<string>, categoryParam: Option<string>): Entry -> bool {
    e => Selected(e, typeParam, categoryParam)
  }

  /**
   * The entries the store query returns: the selected ones, each as often
   * as it is stored, in the store's order.
   */
  function Query(stored: seq<Entry>, typeParam: Option<string>, categoryParam: Option<string>): (r: seq<Entry>)
    ensures |r| <= |stored|
    ensures forall e :: e in r <==> e in stored && Selected(e, typeParam, categoryParam)
    ensures forall e :: e in stored && Selected(e, typeParam, categoryParam) ==> multiset(r)[e] == multiset(stored)[e]
    ensures IsSubsequence(r, stored)
  {
    FilterIsSubsequence(stored, SelectedBy(typeParam, categoryParam));
    Filter(stored, SelectedBy(typeParam, categoryParam))
  }
}
