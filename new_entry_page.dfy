/**
 * The submit handler of the new-entry form, src/app/entry/new/page.tsx.
 *
 * `handleSubmit` reads the form, assembles the JSON body for
 * `POST /api/entries` field by field (the base fields, then the fields of
 * the selected entry type) and sends it. The form is a map from field name
 * to the text the browser submits; a field the form does not hold reads as
 * `null`. Comma-separated list fields go through one parser.
 */
module NewEntryPage {
  import opened Wrappers
  import opened Strings
  import opened Seqs
  import opened EntryTypes

  // ---------------------------------------------------------------------
  // The comma-list parser
  // ---------------------------------------------------------------------

  /** `parts.map(t => t.trim())`. */
  function TrimAll(parts: seq<string>): (r: seq<string>)
    ensures |r| == |parts|
    ensures forall k :: 0 <= k < |parts| ==> r[k] == Trim(parts[k])
  {
    seq(|parts|, k requires 0 <= k < |parts| => Trim(parts[k]))
  }

  /** `.filter(Boolean)` on strings: the empty string is falsy. */
  function NonEmpty(s: string): bool { s != "" }

  /**
   * `(v as string)?.split(',').map(t => t.trim()).filter(Boolean) || []`:
   * the trimmed, non-empty comma-separated items, or `[]` for a missing field.
   */
  function ParseList(v: Option<string>): (r: seq<string>)
    ensures v.None? ==> r == []
    ensures v.Some? ==> |r| <= |Split(v.value, {','})|
  {
    match v
    case None => []
    case Some(text) => Filter(TrimAll(Split(text, {','})), NonEmpty)
  }

  /** Filtering trimmed pieces leaves only non-empty strings that are their own trim. */
  lemma TrimmedKept(parts: seq<string>)
    ensures forall x :: x in Filter(TrimAll(parts), NonEmpty) ==> x != "" && Trim(x) == x
  {
    var trimmed := TrimAll(parts);
    forall j | 0 <= j < |trimmed| ensures Trim(trimmed[j]) == trimmed[j] {
      TrimFixed(trimmed[j]);
    }
    forall x | x in Filter(trimmed, NonEmpty) ensures x != "" && Trim(x) == x {
      assert x in trimmed && NonEmpty(x);
    }
  }

  /**
   * Every item is non-empty and trimmed, and an item appears exactly when it
   * is a non-empty trimmed comma piece.
   */
  lemma ParseListItems(text: string)
    ensures forall x :: x in ParseList(Some(text)) ==> x != "" && Trim(x) == x
    ensures forall x :: x in ParseList(Some(text)) <==> NonEmpty(x) && x in TrimAll(Split(text, {','}))
  {
    TrimmedKept(Split(text, {','}));
  }

  /** The items keep the order in which they were typed. */
  lemma ParseListInOrder(text: string)
    ensures IsSubsequence(ParseList(Some(text)), TrimAll(Split(text, {','})))
  {
    FilterIsSubsequence(TrimAll(Split(text, {','})), NonEmpty);
  }

  /** An empty field gives the empty list, as a missing one does. */
  lemma ParseEmptyField()
    ensures ParseList(Some("")) == []
  {
    assert Split("", {','}) == [""];
    assert TrimAll([""]) == [""];
  }

  /**
   * Items that are non-empty, carry no comma and no white space at either
   * end are read back exactly from their comma-joined text.
   */
  lemma ParseJoinedList(items: seq<string>)
    requires forall k :: 0 <= k < |items| ==>
      items[k] != "" && NoneIn(items[k], ',')
      && items[k][0] !in Whitespace && items[k][|items[k]| - 1] !in Whitespace
    ensures ParseList(Some(Join(items, ","))) == items
  {
    if items == [] {
      ParseEmptyField();
    } else {
      assert "," == [','];
      SplitJoin(items, ',');
      TrimAllFixed(items);
      forall x | x in items ensures NonEmpty(x) {
      }
      FilterAll(items, NonEmpty);
    }
  }

  /** Pieces with no white space at either end are left as they are by trimming. */
  lemma TrimAllFixed(items: seq<string>)
    requires forall k :: 0 <= k < |items| ==>
      items[k] != "" && items[k][0] !in Whitespace && items[k][|items[k]| - 1] !in Whitespace
    ensures TrimAll(items) == items
  {
    forall k | 0 <= k < |items| ensures TrimAll(items)[k] == items[k] {
      TrimFixed(items[k]);
    }
  }

  // ---------------------------------------------------------------------
  // The request body
  // ---------------------------------------------------------------------

  /** A JSON value of the body: `null`, a string, a list of strings, or `Number(text)`. */
  datatype Value = Null | Text(text: string) | List(items: seq<string>) | NumberOf(source: string)

  /** The fields of a body, each named by its JSON key. */
  datatype Field =
    | TypeField | Title | Content | Date | Category | Tags | Images
    | Status | Notes
    | WhatWasDone | ToolsUsed | TimeInvested
    | Impact | Learned | WouldDoDifferently
    | CompanyName | JobTitle | StartDate | EndDate | StarEntries | SkillsDeveloped | KeyAchievements
    | Institution | Qualification | NotableProjects | Achievements

  /** The submitted form: the text of each field the browser sends. */
  type Form = map<Field, string>

  /** `formData.get(key)`. */
  function Get(form: Form, key: Field): (r: Value)
    ensures r.Null? <==> key !in form
  {
    if key in form then Text(form[key]) else Null
  }

  /** A list field run through the comma-list parser. */
  function ListField(form: Form, key: Field): Value {
    List(ParseList(if key in form then Some(form[key]) else None))
  }

  /** Whether `formData.get(key)` is truthy: present and not empty. */
  predicate Truthy(form: Form, key: Field) {
    key in form && form[key] != ""
  }

  /** The fields every body carries. */
  const BaseKeys: set<Field> := {TypeField, Title, Content, Date, Category, Tags, Images}

  /**
   * The fields the entry interface of each type adds to the base entry, an
   * independent account of what a body of that type may carry.
   */
  function VariantFields(t: EntryType): set<Field> {
    match t
    case Idea => {Status, Notes}
    case Work => {WhatWasDone, ToolsUsed, TimeInvested}
    case Outcome => {Impact, Learned, WouldDoDifferently}
    case Job => {CompanyName, JobTitle, StartDate, EndDate, StarEntries, SkillsDeveloped, KeyAchievements}
    case Education => {Institution, Qualification, StartDate, EndDate, NotableProjects, Achievements}
  }

  /** `baseData`. */
  function BasePayload(t: EntryType, form: Form, images: seq<string>): map<Field, Value> {
    map[TypeField := Text(TypeName(t)), Title := Get(form, Title), Content := Get(form, Content),
        Date := Get(form, Date), Category := Get(form, Category),
        Tags := ListField(form, Tags), Images := List(images)]
  }

  /** The body after the `switch` has added the fields of type `t` to `m`. */
  function AddVariant(t: EntryType, form: Form, m: map<Field, Value>): map<Field, Value> {
    match t
    case Idea =>
      m[Status := Get(form, Status)][Notes := Get(form, Notes)]
    case Work =>
      var m1 := m[WhatWasDone := Get(form, WhatWasDone)][ToolsUsed := ListField(form, ToolsUsed)];
      if Truthy(form, TimeInvested) then m1[TimeInvested := NumberOf(form[TimeInvested])] else m1
    case Outcome =>
      m[Impact := Get(form, Impact)][Learned := Get(form, Learned)][WouldDoDifferently := Get(form, WouldDoDifferently)]
    case Job =>
      var m1 := m[CompanyName := Get(form, CompanyName)][JobTitle := Get(form, JobTitle)][StartDate := Get(form, StartDate)];
      var m2 := if Truthy(form, EndDate) then m1[EndDate := Text(form[EndDate])] else m1;
      m2[SkillsDeveloped := ListField(form, SkillsDeveloped)][KeyAchievements := ListField(form, KeyAchievements)]
    case Education =>
      var m1 := m[Institution := Get(form, Institution)][Qualification := Get(form, Qualification)][StartDate := Get(form, StartDate)];
      var m2 := if Truthy(form, EndDate) then m1[EndDate := Text(form[EndDate])] else m1;
      m2[NotableProjects := ListField(form, NotableProjects)][Achievements := ListField(form, Achievements)]
  }

  /** The body sent for an entry of type `t`. */
  function Payload(t: EntryType, form: Form, images: seq<string>): map<Field, Value> {
    AddVariant(t, form, BasePayload(t, form, images))
  }

  /** The work fields: `timeInvested` only when the field is filled in. */
  method AddWorkFields(entryData: map<Field, Value>, form: Form) returns (out: map<Field, Value>)
    ensures out == AddVariant(Work, form, entryData)
  {
    out := entryData[WhatWasDone := Get(form, WhatWasDone)];
    out := out[ToolsUsed := ListField(form, ToolsUsed)];
    var timeInvested := Get(form, TimeInvested);
    if timeInvested.Text? && timeInvested.text != "" {
      out := out[TimeInvested := NumberOf(timeInvested.text)];
    }
  }

  /** The job fields: `endDate` only when the field is filled in. */
  method AddJobFields(entryData: map<Field, Value>, form: Form) returns (out: map<Field, Value>)
    ensures out == AddVariant(Job, form, entryData)
  {
    out := entryData[CompanyName := Get(form, CompanyName)];
    out := out[JobTitle := Get(form, JobTitle)];
    out := out[StartDate := Get(form, StartDate)];
    var endDate := Get(form, EndDate);
    if endDate.Text? && endDate.text != "" {
      out := out[EndDate := endDate];
    }
    out := out[SkillsDeveloped := ListField(form, SkillsDeveloped)];
    out := out[KeyAchievements := ListField(form, KeyAchievements)];
  }

  /** The education fields: `endDate` only when the field is filled in. */
  method AddEducationFields(entryData: map<Field, Value>, form: Form) returns (out: map<Field, Value>)
    ensures out == AddVariant(Education, form, entryData)
  {
    out := entryData[Institution := Get(form, Institution)];
    out := out[Qualification := Get(form, Qualification)];
    out := out[StartDate := Get(form, StartDate)];
    var eduEndDate := Get(form, EndDate);
    if eduEndDate.Text? && eduEndDate.text != "" {
      out := out[EndDate := eduEndDate];
    }
    out := out[NotableProjects := ListField(form, NotableProjects)];
    out := out[Achievements := ListField(form, Achievements)];
  }

  /** `handleSubmit` up to the request: the body assembled field by field. */
  method BuildPayload(t: EntryType, form: Form, images: seq<string>) returns (entryData: map<Field, Value>)
    ensures entryData == Payload(t, form, images)
  {
    entryData := map[TypeField := Text(TypeName(t)), Title := Get(form, Title), Content := Get(form, Content),
                     Date := Get(form, Date), Category := Get(form, Category),
                     Tags := ListField(form, Tags), Images := List(images)];
    match t
    case Idea =>
      entryData := entryData[Status := Get(form, Status)];
      entryData := entryData[Notes := Get(form, Notes)];
    case Work =>
      entryData := AddWorkFields(entryData, form);
    case Outcome =>
      entryData := entryData[Impact := Get(form, Impact)];
      entryData := entryData[Learned := Get(form, Learned)];
      entryData := entryData[WouldDoDifferently := Get(form, WouldDoDifferently)];
    case Job =>
      entryData := AddJobFields(entryData, form);
    case Education =>
      entryData := AddEducationFields(entryData, form);
  }

  // ---------------------------------------------------------------------
  // Properties of the body
  // ---------------------------------------------------------------------

  /** Adding the fields of a type leaves every other field of the body as it was. */
  lemma AddVariantKeeps(t: EntryType, form: Form, m: map<Field, Value>, k: Field)
    requires k !in VariantFields(t)
    ensures k in AddVariant(t, form, m) <==> k in m
    ensures k in m ==> AddVariant(t, form, m)[k] == m[k]
  {
    match t
    case Idea =>
    case Work =>
    case Outcome =>
    case Job =>
    case Education =>
  }

  /** The base fields are always sent, `type` from the selector, `tags` parsed, `images` as uploaded. */
  lemma BaseFieldsAlwaysSent(t: EntryType, form: Form, images: seq<string>)
    ensures var p := Payload(t, form, images);
      BaseKeys <= p.Keys
      && p[TypeField] == Text(TypeName(t))
      && p[Title] == Get(form, Title)
      && p[Tags] == ListField(form, Tags)
      && p[Images] == List(images)
  {
    var b := BasePayload(t, form, images);
    forall k | k in BaseKeys ensures k in Payload(t, form, images) && Payload(t, form, images)[k] == b[k] {
      AddVariantKeeps(t, form, b, k);
    }
  }

  /** A body carries only base fields and fields of the selected type. */
  lemma OnlySelectedVariant(t: EntryType, form: Form, images: seq<string>)
    ensures Payload(t, form, images).Keys <= BaseKeys + VariantFields(t)
  {
  }

  /** `timeInvested` is sent exactly when the form field is filled in. */
  lemma TimeInvestedOnlyWhenGiven(form: Form, images: seq<string>)
    ensures var p := Payload(Work, form, images);
      (TimeInvested in p <==> Truthy(form, TimeInvested))
      && (TimeInvested in p ==> p[TimeInvested] == NumberOf(form[TimeInvested]))
  {
  }

  /** For jobs and education, `endDate` is sent exactly when provided, as submitted. */
  lemma EndDateOnlyWhenGiven(t: EntryType, form: Form, images: seq<string>)
    requires t == Job || t == Education
    ensures var p := Payload(t, form, images);
      (EndDate in p <==> Truthy(form, EndDate))
      && (EndDate in p ==> p[EndDate] == Text(form[EndDate]))
  {
  }

  /** Every list field of the variants is read with the comma-list parser. */
  lemma ListFieldsParsedAlike(form: Form, images: seq<string>)
    ensures var p := Payload(Work, form, images);
      ToolsUsed in p && p[ToolsUsed] == ListField(form, ToolsUsed)
    ensures var p := Payload(Job, form, images);
      SkillsDeveloped in p && p[SkillsDeveloped] == ListField(form, SkillsDeveloped)
      && KeyAchievements in p && p[KeyAchievements] == ListField(form, KeyAchievements)
    ensures var p := Payload(Education, form, images);
      NotableProjects in p && p[NotableProjects] == ListField(form, NotableProjects)
      && Achievements in p && p[Achievements] == ListField(form, Achievements)
  {
  }
}
