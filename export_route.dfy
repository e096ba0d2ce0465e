/**
 * The Markdown export of src/app/api/export/route.ts as the route writes
 * it: `entryToMarkdown` grows a string section by section with `+=`, and
 * `GET` writes a document header and appends the block of every entry.
 * Each method is proved to write exactly the text `ExportFormat` specifies.
 */
module ExportRoute {
  import opened Wrappers
  import opened Strings
  import opened EntryTypes
  import opened ExportFormat

  // Each builder appends to a text `md` with `+=` and is proved to leave
  // `md` followed by the text of the lines it specifies. The ghost `ls`
  // holds the lines written so far, grouped as the specification groups
  // them.

  /** Appends a `## heading` section holding `text`, as the `## ...\n\n${...}\n\n` templates do. */
  method AppendSection(md: string, heading: string, text: string) returns (out: string)
    ensures out == md + Terminated(Section(heading, text))
  {
    WriteParagraph(md, [], "## " + heading);
    WriteParagraph(md, ["## " + heading, ""], text);
    out := md + ("## " + heading + "\n\n" + text + "\n\n");
  }

  /** An optional `## heading` section, written only when the text is present and not empty. */
  method AppendOptionalSection(md: string, heading: string, text: Option<string>) returns (out: string)
    ensures out == md + Terminated(OptionalSection(heading, text))
  {
    out := md;
    if text.Some? && text.value != "" {
      out := AppendSection(md, heading, text.value);
    }
  }

  /** A `**Name**: a, b, c` line, written only when the list is not empty. */
  method AppendJoinedLine(md: string, name: string, items: seq<string>) returns (out: string)
    ensures out == md + Terminated(JoinedLine(name, items))
  {
    out := md;
    if |items| > 0 {
      WriteParagraph(md, [], name + Join(items, ", "));
      out := md + (name + Join(items, ", ") + "\n\n");
    }
  }

  /** The hours line, written only when the time is present and not zero. */
  method AppendTimeLine(md: string, timeInvested: Option<int>) returns (out: string)
    ensures out == md + Terminated(TimeLine(timeInvested))
  {
    out := md;
    if timeInvested.Some? && timeInvested.value != 0 {
      var hours := "**Time Invested**: " + IntToString(timeInvested.value) + " hours";
      WriteParagraph(md, [], hours);
      out := md + (hours + "\n\n");
    }
  }

  /** A list section: the heading, a `forEach` writing one bullet per item, and a blank line. */
  method AppendList(md: string, heading: string, items: seq<string>) returns (out: string)
    ensures out == md + Terminated(ListLines(heading, items))
  {
    out := md;
    if |items| > 0 {
      WriteParagraph(md, [], "### " + heading);
      ghost var ls := ["### " + heading, ""];
      out := out + ("### " + heading + "\n\n");
      for i := 0 to |items|
        invariant ls == ["### " + heading, ""] + Bullets(items[..i])
        invariant out == md + Terminated(ls)
      {
        WriteLine(md, ls, "- " + items[i]);
        assert Bullets(items[..i + 1]) == Bullets(items[..i]) + ["- " + items[i]];
        out, ls := out + ("- " + items[i] + "\n"), ls + ["- " + items[i]];
      }
      assert items[..|items|] == items;
      WriteLine(md, ls, "");
      assert "" + "\n" == "\n";
      out, ls := out + "\n", ls + [""];
    }
  }

  /** The Images section: the heading, a `forEach` numbering the images from 1, and a blank line. */
  method AppendImages(md: string, images: seq<string>) returns (out: string)
    ensures out == md + Terminated(ImagesLines(images))
  {
    out := md;
    if |images| > 0 {
      WriteParagraph(md, [], "## Images");
      ghost var ls := ["## Images", ""];
      out := out + "## Images\n\n";
      for i := 0 to |images|
        invariant ls == ["## Images", ""] + ImageLines(images[..i])
        invariant out == md + Terminated(ls)
      {
        WriteLine(md, ls, ImageLine(i + 1, images[i]));
        assert ImageLines(images[..i + 1]) == ImageLines(images[..i]) + [ImageLine(i + 1, images[i])];
        out, ls := out + ("![Image " + NatToString(i + 1) + "](" + images[i] + ")" + "\n"),
          ls + [ImageLine(i + 1, images[i])];
      }
      assert images[..|images|] == images;
      WriteLine(md, ls, "");
      assert "" + "\n" == "\n";
      out, ls := out + "\n", ls + [""];
    }
  }

  /** The idea fields: `**Status**`, then the notes when they are not empty. */
  method AppendIdea(md: string, status: IdeaStatus, notes: Option<string>) returns (out: string)
    ensures out == md + Terminated(IdeaLines(status, notes))
  {
    var st := "**Status**: " + StatusName(status);
    WriteParagraph(md, [], st);
    ghost var ls := [st, ""];
    out := md + (st + "\n\n");
    WriteLines(md, ls, OptionalSection("Notes", notes));
    out := AppendOptionalSection(out, "Notes", notes);
  }

  /** The work fields: what was done, the tools when there are any, the hours when not zero. */
  method AppendWork(md: string, whatWasDone: string, toolsUsed: seq<string>, timeInvested: Option<int>)
    returns (out: string)
    ensures out == md + Terminated(WorkLines(whatWasDone, toolsUsed, timeInvested))
  {
    out := AppendSection(md, "What Was Done", whatWasDone);
    ghost var ls := Section("What Was Done", whatWasDone);
    WriteLines(md, ls, JoinedLine("**Tools Used**: ", toolsUsed));
    out := AppendJoinedLine(out, "**Tools Used**: ", toolsUsed);
    ls := ls + JoinedLine("**Tools Used**: ", toolsUsed);
    WriteLines(md, ls, TimeLine(timeInvested));
    out := AppendTimeLine(out, timeInvested);
  }

  /** The outcome fields: impact, learned, and what would be done differently when given. */
  method AppendOutcome(md: string, impact: string, learned: string, wouldDoDifferently: Option<string>)
    returns (out: string)
    ensures out == md + Terminated(OutcomeLines(impact, learned, wouldDoDifferently))
  {
    out := AppendSection(md, "Impact", impact);
    ghost var ls := Section("Impact", impact);
    WriteLines(md, ls, Section("Learned", learned));
    out := AppendSection(out, "Learned", learned);
    ls := ls + Section("Learned", learned);
    WriteLines(md, ls, OptionalSection("Would Do Differently", wouldDoDifferently));
    out := AppendOptionalSection(out, "Would Do Differently", wouldDoDifferently);
  }

  /** The Company, Job Title and Duration lines. */
  method AppendJobHead(md: string, companyName: string, jobTitle: string, start: string, end: string)
    returns (out: string)
    ensures out == md + Terminated(JobHeadLines(companyName, jobTitle, start, end))
  {
    var company := "**Company**: " + companyName;
    WriteLine(md, [], company);
    ghost var ls := [company];
    out := md + (company + "\n");
    var title := "**Job Title**: " + jobTitle;
    WriteLine(md, ls, title);
    out, ls := out + (title + "\n"), ls + [title];
    var duration := "**Duration**: " + start + " - " + end;
    WriteParagraph(md, ls, duration);
    out, ls := out + (duration + "\n\n"), ls + [duration, ""];
  }

  /** The job fields: company, title, duration, skills when there are any, key achievements. */
  method AppendJob(md: string, companyName: string, jobTitle: string, startDate: int, endDate: Option<int>,
                   skillsDeveloped: seq<string>, keyAchievements: seq<string>, fmt: int -> string)
    returns (out: string)
    ensures out == md + Terminated(JobLines(companyName, jobTitle, startDate, endDate,
                                            skillsDeveloped, keyAchievements, fmt))
  {
    var endText := if endDate.Some? then fmt(endDate.value) else "Present";
    out := AppendJobHead(md, companyName, jobTitle, fmt(startDate), endText);
    ghost var ls := JobHeadLines(companyName, jobTitle, fmt(startDate), EndText(endDate, fmt));
    WriteLines(md, ls, JoinedLine("**Skills Developed**: ", skillsDeveloped));
    out := AppendJoinedLine(out, "**Skills Developed**: ", skillsDeveloped);
    ls := ls + JoinedLine("**Skills Developed**: ", skillsDeveloped);
    WriteLines(md, ls, ListLines("Key Achievements", keyAchievements));
    out := AppendList(out, "Key Achievements", keyAchievements);
  }

  /** The Institution and Qualification lines. */
  method AppendEducationHead(md: string, institution: string, qualification: string) returns (out: string)
    ensures out == md + Terminated(EducationHeadLines(institution, qualification))
  {
    var inst := "**Institution**: " + institution;
    WriteLine(md, [], inst);
    ghost var ls := [inst];
    out := md + (inst + "\n");
    var qual := "**Qualification**: " + qualification;
    WriteParagraph(md, ls, qual);
    out, ls := out + (qual + "\n\n"), ls + [qual, ""];
  }

  /** The education fields: institution, qualification, notable projects, achievements. */
  method AppendEducation(md: string, institution: string, qualification: string,
                         notableProjects: seq<string>, achievements: seq<string>)
    returns (out: string)
    ensures out == md + Terminated(EducationLines(institution, qualification, notableProjects, achievements))
  {
    out := AppendEducationHead(md, institution, qualification);
    ghost var ls := EducationHeadLines(institution, qualification);
    WriteLines(md, ls, ListLines("Notable Projects", notableProjects));
    out := AppendList(out, "Notable Projects", notableProjects);
    ls := ls + ListLines("Notable Projects", notableProjects);
    WriteLines(md, ls, ListLines("Achievements", achievements));
    out := AppendList(out, "Achievements", achievements);
  }

  /** The type-specific part of `entryToMarkdown`: the fields of the entry's own variant. */
  method AppendVariant(md: string, e: Entry, fmt: int -> string) returns (out: string)
    ensures out == md + Terminated(VariantLines(e, fmt))
  {
    match e {
      case IdeaEntry(_, status, notes) =>
        out := AppendIdea(md, status, notes);
      case WorkEntry(_, whatWasDone, toolsUsed, timeInvested) =>
        out := AppendWork(md, whatWasDone, toolsUsed, timeInvested);
      case OutcomeEntry(_, impact, learned, wouldDoDifferently) =>
        out := AppendOutcome(md, impact, learned, wouldDoDifferently);
      case JobEntry(_, companyName, jobTitle, startDate, endDate, _, skillsDeveloped, keyAchievements) =>
        out := AppendJob(md, companyName, jobTitle, startDate, endDate, skillsDeveloped, keyAchievements, fmt);
      case EducationEntry(_, institution, qualification, _, _, notableProjects, achievements) =>
        out := AppendEducation(md, institution, qualification, notableProjects, achievements);
    }
  }

  /** The first four statements of `entryToMarkdown`: title heading, Type, Date and Category. */
  method AppendHeader(md: string, title: string, typeName: string, date: string, category: string)
    returns (out: string)
    ensures out == md + Terminated(HeaderLines(title, typeName, date, category))
  {
    var heading := "# " + title;
    WriteParagraph(md, [], heading);
    ghost var ls := [heading, ""];
    out := md + (heading + "\n\n");
    var typeLine := "**Type**: " + typeName;
    WriteLine(md, ls, typeLine);
    out, ls := out + (typeLine + "\n"), ls + [typeLine];
    var dateLine := "**Date**: " + date;
    WriteLine(md, ls, dateLine);
    out, ls := out + (dateLine + "\n"), ls + [dateLine];
    var categoryLine := "**Category**: " + category;
    WriteParagraph(md, ls, categoryLine);
    out, ls := out + (categoryLine + "\n\n"), ls + [categoryLine, ""];
  }

  /** The last three statements of `entryToMarkdown`: the rule, Created and Updated. */
  method AppendFooter(md: string, created: string, updated: string) returns (out: string)
    ensures out == md + Terminated(FooterLines(created, updated))
  {
    WriteParagraph(md, [], "---");
    ghost var ls := ["---", ""];
    out := md + ("---" + "\n\n");
    var createdLine := "*Created: " + created + "*";
    WriteLine(md, ls, createdLine);
    out, ls := out + (createdLine + "\n"), ls + [createdLine];
    var updatedLine := "*Updated: " + updated + "*";
    WriteParagraph(md, ls, updatedLine);
    out, ls := out + (updatedLine + "\n\n"), ls + [updatedLine, ""];
  }

  /** The part of `entryToMarkdown` every type shares: header, tags and content. */
  method AppendCommon(md: string, e: Entry, fmt: int -> string) returns (out: string)
    ensures out == md + Terminated(CommonLines(e, fmt))
  {
    out := AppendHeader(md, e.base.title, TypeName(e.Type()), fmt(e.base.date), e.base.category);
    ghost var ls := EntryHeaderLines(e, fmt);
    WriteLines(md, ls, TagsLines(e.base.tags));
    out := AppendJoinedLine(out, "**Tags**: ", HashTags(e.base.tags));
    ls := ls + TagsLines(e.base.tags);
    WriteLines(md, ls, Section("Content", e.base.content));
    out := AppendSection(out, "Content", e.base.content);
  }

  /** `entryToMarkdown`: builds the block of one entry with `+=`, section by section. */
  method EntryToMarkdown(e: Entry, fmt: int -> string) returns (md: string)
    ensures md == EntryMarkdown(e, fmt)
  {
    md := AppendCommon("", e, fmt);
    ghost var ls := CommonLines(e, fmt);
    WriteLines("", ls, VariantLines(e, fmt));
    md := AppendVariant(md, e, fmt);
    ls := ls + VariantLines(e, fmt);
    WriteLines("", ls, ImagesLines(e.base.images));
    md := AppendImages(md, e.base.images);
    ls := ls + ImagesLines(e.base.images);
    WriteLines("", ls, EntryFooterLines(e, fmt));
    md := AppendFooter(md, fmt(e.base.createdAt), fmt(e.base.updatedAt));
    EmptyPrefix(EntryMarkdown(e, fmt));
  }

  /** The document header `GET` writes before the entries. */
  method AppendDocHeader(md: string, exportedOn: string, total: string) returns (out: string)
    ensures out == md + Terminated(DocHeaderLines(exportedOn, total))
  {
    WriteParagraph(md, [], "# FreeBird Export");
    ghost var ls := ["# FreeBird Export", ""];
    out := md + "# FreeBird Export\n\n";
    var exported := "Exported on: " + exportedOn;
    WriteLine(md, ls, exported);
    out, ls := out + (exported + "\n"), ls + [exported];
    var count := "Total entries: " + total;
    WriteParagraph(md, ls, count);
    out, ls := out + (count + "\n\n"), ls + [count, ""];
    WriteParagraph(md, ls, "---");
    out, ls := out + "---\n\n", ls + ["---", ""];
  }

  /** The Markdown branch of `GET`: the document header, then every entry's block in order. */
  method ExportMarkdown(entries: seq<Entry>, exportedOn: string, fmt: int -> string) returns (md: string)
    ensures md == ExportDocument(entries, exportedOn, fmt)
  {
    md := AppendDocHeader("", exportedOn, NatToString(|entries|));
    ghost var header := Terminated(DocHeaderLines(exportedOn, NatToString(|entries|)));
    EmptyPrefix(header);
    for i := 0 to |entries|
      invariant md == header + Concat(Blocks(entries, i, fmt))
    {
      var block := EntryToMarkdown(entries[i], fmt);
      WriteConcat(header, Blocks(entries, i, fmt), block);
      assert Blocks(entries, i + 1, fmt) == Blocks(entries, i, fmt) + [block];
      md := md + block;
    }
  }

  /** What `GET` answers: a Markdown file, a JSON file of the entries, or an error status. */
  datatype ExportResponse =
    | MarkdownFile(text: string)
    | JsonFile(entries: seq<Entry>)
    | Failed(status: int, error: string)

  /**
   * `GET /api/export`: the store's answer to the query is `stored`, or
   * `None` when the store fails, which the route's `catch` turns into a 500.
   * `markdown` or `md` gives the Markdown document, anything else JSON.
   */
  method Get(formatParam: Option<string>, typeParam: Option<string>, categoryParam: Option<string>,
             stored: Option<seq<Entry>>, exportedOn: string, fmt: int -> string)
    returns (r: ExportResponse)
    ensures stored.None? ==> r == Failed(500, "Failed to export entries")
    ensures stored.Some? && ChooseFormat(formatParam) == Markdown ==>
      r == MarkdownFile(ExportDocument(Query(stored.value, typeParam, categoryParam), exportedOn, fmt))
    ensures stored.Some? && ChooseFormat(formatParam) == Json ==>
      r == JsonFile(Query(stored.value, typeParam, categoryParam))
  {
    if stored.None? {
      return Failed(500, "Failed to export entries");
    }
    var format := if formatParam.Some? && formatParam.value != "" then formatParam.value else "json";
    var entries := Query(stored.value, typeParam, categoryParam);
    if format == "markdown" || format == "md" {
      var md := ExportMarkdown(entries, exportedOn, fmt);
      r := MarkdownFile(md);
    } else {
      r := JsonFile(entries);
    }
  }
}
