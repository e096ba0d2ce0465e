# FreeBird core, modelled in Dafny

FreeBird is a personal knowledge base. It stores five kinds of entry: ideas, work logs, outcomes, jobs and education. It has a Next.js front end and a MongoDB store. This project models its core logic and proves properties of that model:

- the entry types and the Mongoose schema, read as a validate-and-default function;
- the keyword fallback and the index validation of the related-entries endpoint;
- the Markdown export, built with `+=` as the route does;
- the resume-enhancement endpoint's gates, its context builder and its result;
- filename sanitising and the `.jpg` rewrite of the upload endpoint;
- the payload assembly of the new-entry form;
- the categories, ideas, work and resume pages;
- the entry card.

The model has one module per source file, except that the export route has two: `ExportFormat` holds the text the route writes, and `ExportRoute` holds the `+=` builders. There are also four helper modules:

- `Wrappers` holds `Option` and `Result`.
- `Strings` holds split, join, trim, lower-casing and decimal rendering.
- `Seqs` holds filter, subsequence and take.
- `AiMessages` holds the reply of a language-model call.

Code that builds a value by mutation is modelled as a method proved against a specification function. This covers the `+=` string builders, the `switch` that fills the request body, the `reduce` into a dictionary and the in-place `Array.prototype.sort`. Pure expressions are modelled as functions with lemmas.

Parts of the system that lie outside the model become parameters:

- the model call is an `AiReply` value;
- `JSON.parse` is a function `string -> Option<seq<int>>`;
- store answers are inputs: in the AI routes the entry lookup is an `EntryTypes.Lookup` (found, missing, or failed) and the candidates are a list, and in the export route the query result is an `Option`;
- whether the request body can be read as a JSON object is a flag, `bodyRead`;
- locale date formatting is a function `fmt: int -> string`;
- the clock is a `now` parameter.

## Model

| member | source | states |
|---|---|---|
| EntryTypes.Entry.Type | src/types/entry.ts:21-69 | Each of the five variants carries the type tag of its own literal, and only that one. |
| EntryTypes.ParseType | src/types/entry.ts:3 | A string read as an entry type is exactly that type's literal. |
| EntryTypes.ParseStatus | src/types/entry.ts:5 | A string read as an idea status is exactly that status's literal. |
| EntryTypes.TypeNameRoundTrip | src/types/entry.ts:3 | Every type literal reads back as its type. |
| EntryTypes.StatusNameRoundTrip | src/types/entry.ts:5 | Every one of the four status literals reads back as its status. |
| EntrySchema.StarErrors | src/models/Entry.ts:44-49 | A STAR sub-document fails exactly when one of situation, task, action or result is missing or empty. Every failure is reported at that sub-document's index. |
| EntrySchema.StarListErrors | src/models/Entry.ts:112-115 | The failures of a STAR list name only indices inside the list. |
| EntrySchema.Validate | src/models/Entry.ts:5-149 | A document is stored exactly when no path fails. Otherwise the error is the non-empty set of every failing path. A stored entry has the type the `type` path names. |
| EntrySchema.Errors | src/models/Entry.ts:5-149 | The set of failing paths: the base paths, plus the paths of the variant the `type` names. The per-type rule lemmas state which paths fail. |
| EntrySchema.Stored | src/models/Entry.ts:5-149 | The stored entry of a valid document, with defaults filled in. `BaseListsDefaultEmpty`, the per-type rule lemmas and `ValidateRoundTrip` state its fields. |
| EntrySchema.TypeMustBeKnown | src/models/Entry.ts:6-10 | A document is refused, with a failure on `type`, when `type` is missing or is not one of the five literals. |
| EntrySchema.BaseFieldsRequired | src/models/Entry.ts:11-27 | A missing or empty title, content or category fails on that path. A missing date becomes the creation time. |
| EntrySchema.BaseListsDefaultEmpty | src/models/Entry.ts:28-40 | Missing tags, images and relatedTo are stored as empty lists. Given lists are stored as given. |
| EntrySchema.IdeaStatusRule | src/models/Entry.ts:61-69 | A status outside the four literals fails. A missing status is stored as `new`. |
| EntrySchema.WorkRule | src/models/Entry.ts:72-82 | A work entry needs `whatWasDone`. A missing `toolsUsed` is stored as an empty list. |
| EntrySchema.OutcomeRule | src/models/Entry.ts:85-95 | An outcome needs `impact` and `learned`. |
| EntrySchema.JobRule | src/models/Entry.ts:98-124 | A job needs `companyName`, `jobTitle` and `startDate`. A missing STAR, skills or achievements list is stored as empty. |
| EntrySchema.EducationRule | src/models/Entry.ts:127-149 | An education entry needs `institution`, `qualification` and `startDate`. Missing project and achievement lists are stored as empty. |
| EntrySchema.StarFieldRequired | src/models/Entry.ts:44-49 | Each missing field of the STAR record at position i fails at that index. |
| EntrySchema.IncompleteStarRefused | src/models/Entry.ts:112-115 | A job with an incomplete STAR record is refused, with a failure inside that record. |
| EntrySchema.StarDocs | src/models/Entry.ts:44-49 | Writing STAR records back as sub-documents keeps their number. |
| EntrySchema.StarsRoundTrip | src/models/Entry.ts:44-49 | Complete STAR records written back pass validation and are stored unchanged. |
| EntrySchema.ValidateRoundTrip | src/models/Entry.ts:5-149 | Any conforming entry, written back as a document, validates to exactly itself. |
| FindRelated.SourceTerms | src/app/api/ai/find-related/route.ts:125-130 | The term set holds exactly the source's lower-cased words longer than three characters. |
| FindRelated.MatchText | src/app/api/ai/find-related/route.ts:126 | Title, content, category and the space-joined tags, separated by spaces. The scoring lemmas below are stated over it. |
| FindRelated.Words | src/app/api/ai/find-related/route.ts:126-128 | The lower-cased match text cut at white space. `SourceTerms`, `Score` and `ShortWordsNeverScore` state what is counted. |
| FindRelated.Matches | src/app/api/ai/find-related/route.ts:137 | The match count never exceeds the number of candidate words. |
| FindRelated.Score | src/app/api/ai/find-related/route.ts:132-141 | A candidate in the source's category scores at least 10. No score exceeds the word count plus 10. |
| FindRelated.ShortWordsNeverScore | src/app/api/ai/find-related/route.ts:129-137 | Dropping the words of three characters or fewer leaves every match count unchanged. |
| FindRelated.ScoreFrom | src/app/api/ai/find-related/route.ts:132-141 | Each candidate gets one record, in input order, holding its own score and position. |
| FindRelated.Keep | src/app/api/ai/find-related/route.ts:144 | The `score > 2` filter. `KeepMembers` and `KeepInOrder` below state which records it keeps and in what order. |
| FindRelated.KeepMembers | src/app/api/ai/find-related/route.ts:144 | A record survives the filter exactly when it was in the input and scores above 2. |
| FindRelated.KeepAbove | src/app/api/ai/find-related/route.ts:144 | The filter keeps only records from its input, so a lower bound on every input position still holds for every kept one. |
| FindRelated.KeepInOrder | src/app/api/ai/find-related/route.ts:144 | Records given in input order stay in input order after the filter. |
| FindRelated.Insert | src/app/api/ai/find-related/route.ts:145 | An insertion step adds exactly the one record. |
| FindRelated.InsertRanked | src/app/api/ai/find-related/route.ts:145 | Inserting an earlier record into a ranked list keeps the list ranked. |
| FindRelated.SortByScore | src/app/api/ai/find-related/route.ts:145 | The sort is a permutation. |
| FindRelated.SortRanked | src/app/api/ai/find-related/route.ts:145 | Sorting records given in input order yields non-increasing scores, with ties kept in input order (stability). |
| FindRelated.EntriesOf | src/app/api/ai/find-related/route.ts:147 | The entries are taken record by record, in order. |
| FindRelated.FallbackRanking | src/app/api/ai/find-related/route.ts:143-146 | Kept, sorted, cut to five. `TopRecords`, `RankingRecords` and `RankingComplete` state that it is ranked, sound and complete. |
| FindRelated.TopRecords | src/app/api/ai/find-related/route.ts:145-146 | The first five records are ranked and all come from the kept list. A kept record that is left out is matched or outscored by five returned ones. |
| FindRelated.CutOutscores | src/app/api/ai/find-related/route.ts:145-146 | A record of a ranked list that the cut to five leaves out is matched or outscored by each of the five records kept. |
| FindRelated.KeptRecords | src/app/api/ai/find-related/route.ts:132-144 | A record is kept exactly when it is a candidate at its own position, with its true score, and that score is above 2. |
| FindRelated.RankingRecords | src/app/api/ai/find-related/route.ts:143-147 | At most five ranked records, each a candidate with its true score above 2. |
| FindRelated.RankingComplete | src/app/api/ai/find-related/route.ts:143-147 | A candidate scoring above 2 is returned, unless five records scoring at least as high are returned instead. |
| FindRelated.Fallback | src/app/api/ai/find-related/route.ts:124-148 | At most five candidates are returned, each scoring above 2, in non-increasing score order. |
| FindRelated.CategoryMatchKept | src/app/api/ai/find-related/route.ts:138-144 | A same-category candidate is returned, unless five results scoring at least 10 fill the list. |
| FindRelated.NoOverlapExcluded | src/app/api/ai/find-related/route.ts:137-144 | A candidate with no shared term and a different category is never returned. |
| FindRelated.InRange | src/app/api/ai/find-related/route.ts:103 | Exactly the in-range indices survive, with their multiplicities and in reply order. |
| FindRelated.SelectIndices | src/app/api/ai/find-related/route.ts:102-104 | The result is the candidate at each in-range index, in reply order, and no longer than the reply. |
| FindRelated.OutOfRangeIndexDropped | src/app/api/ai/find-related/route.ts:102-104 | The reply [1, 7, 2] over three candidates yields the candidates at 1 and 2. |
| FindRelated.ReadReply | src/app/api/ai/find-related/route.ts:87-99 | The first block's trimmed text is parsed, or `'[]'` when the block is not text. A failed call or a message with no blocks throws. |
| FindRelated.Gate | src/app/api/ai/find-related/route.ts:13-50 | Without a key the answer is 500. A body that cannot be read is an unhandled failure. Without an id it is 400. A lookup that throws is an unhandled failure. Without the entry it is 404. Without candidates it is an empty list. The model is asked only when all gates pass. |
| FindRelated.FindRelatedAsWritten | src/app/api/ai/find-related/route.ts:107-120 | The route as written: an exception from the model call ends in an unhandled failure. |
| FindRelated.FindRelated | src/app/api/ai/find-related/route.ts:11-121 | The gates come first, then the selected candidates. An unparsable reply or a thrown model call falls back to the keyword scorer. Otherwise the answer equals the written route's. It fails unhandled exactly when the body cannot be read or the entry lookup throws. |
| FindRelated.NoCandidatesNoRelated | src/app/api/ai/find-related/route.ts:48-50 | No candidates means an empty list, whatever the model says. |
| FindRelated.OutOfRangeReplyIsEmpty | src/app/api/ai/find-related/route.ts:102-106 | A reply whose indices are all out of range gives an empty list, not the fallback. |
| FindRelated.InRangeNone | src/app/api/ai/find-related/route.ts:103 | With every index out of range, none survive. |
| FindRelated.NonTextReplyIsEmpty | src/app/api/ai/find-related/route.ts:87-89 | A non-text first block gives an empty list. |
| FindRelated.ModelAnswerFromCandidates | src/app/api/ai/find-related/route.ts:102-106 | A parsed reply gives at most as many entries as indices, all of them candidates. |
| FindRelated.CatchPathDiscrepancy | src/app/api/ai/find-related/route.ts:107-120 | When the model call throws, the written route fails while the corrected one returns the fallback. |
| Strings.Prefixed | src/app/api/export/route.ts:14 | Each item gets the same prefix, in order, one output per input. The export's `#tag` list and `- item` bullets, and the card's `#tag` chips, are built this way. |
| ExportFormat.TagsLines | src/app/api/export/route.ts:13-15 | The Tags line appears exactly when there are tags, joined by `, `. |
| ExportFormat.OptionalSection | src/app/api/export/route.ts:24-26 | A notes or would-do-differently section appears exactly when its text is present and non-empty. |
| ExportFormat.JoinedLine | src/app/api/export/route.ts:32-34 | A tools or skills line appears exactly when its list is non-empty. |
| ExportFormat.TimeLine | src/app/api/export/route.ts:36-38 | The hours line is left out exactly when the time is absent or 0. |
| ExportFormat.ListLines | src/app/api/export/route.ts:67-73 | A list section appears exactly when the list is non-empty. |
| ExportFormat.ListLinesShape | src/app/api/export/route.ts:80-94 | A non-empty list gives its heading, then exactly one bullet per item in order. |
| ExportFormat.EndText | src/app/api/export/route.ts:56-58 | A missing end date reads `Present`. Otherwise the formatted date is used. |
| ExportFormat.ImageLines | src/app/api/export/route.ts:98-100 | The k-th image is written as `![Image k](url)`, counting from 1. |
| ExportFormat.ImagesLines | src/app/api/export/route.ts:96-102 | The Images section appears exactly when there are images. |
| ExportFormat.ImagesLinesShape | src/app/api/export/route.ts:96-102 | A non-empty Images section has its heading, then the numbered images in order. |
| ExportFormat.BlockStartsWithHeader | src/app/api/export/route.ts:8-11 | Every block starts with `# title`, a blank line, then the Type, Date and Category lines. |
| ExportFormat.BlockEndsWithFooter | src/app/api/export/route.ts:104-106 | Every block ends with `---` and the Created and Updated lines. |
| ExportFormat.BlockReadsBackAsLines | src/app/api/export/route.ts:7-109 | When no field contains a newline, the block splits back into exactly its lines. |
| ExportFormat.JobLinesOpenWithDuration | src/app/api/export/route.ts:52-61 | A job's lines open with Company, Job Title and a Duration line that ends in `Present` when there is no end date. |
| ExportFormat.Blocks | src/app/api/export/route.ts:136-138 | One block per exported entry. |
| ExportFormat.EntryMarkdown | src/app/api/export/route.ts:7-109 | One entry's block. `ExportRoute.EntryToMarkdown` is proved equal to it, and the block lemmas here state its header, footer and line structure. |
| ExportFormat.ExportDocument | src/app/api/export/route.ts:131-138 | The header, then every entry's block in order. `DocumentStartsWithHeader` and `DocumentAppend` state it, and `ExportRoute.ExportMarkdown` is proved equal to it. |
| ExportFormat.DocumentStartsWithHeader | src/app/api/export/route.ts:131-134 | The document starts with its header, whose total is the number of entries. |
| ExportFormat.RenderedPrefix | src/app/api/export/route.ts:136-138 | Appending entries leaves the blocks of the earlier ones unchanged. |
| ExportFormat.DocumentAppend | src/app/api/export/route.ts:136-138 | Exporting one more entry appends exactly its block. |
| ExportFormat.ChooseFormat | src/app/api/export/route.ts:117-129 | Markdown is chosen exactly for `markdown` or `md`. Anything else, or no parameter, chooses JSON. |
| ExportFormat.SelectedByParameters | src/app/api/export/route.ts:121-123 | No parameter selects every entry. A type parameter selects that type. Type and category together select both. |
| ExportFormat.Selected | src/app/api/export/route.ts:121-123 | The query filter: a non-empty type parameter must equal the type, and a non-empty category parameter the category. `SelectedByParameters` states what each choice of parameters selects. |
| ExportFormat.Query | src/app/api/export/route.ts:121-127 | The queried entries are exactly the stored ones that match the parameters, each as often as it is stored, and in store order (a subsequence of the stored list). |
| ExportRoute.AppendSection | src/app/api/export/route.ts:17 | Appends exactly one `##` section. |
| ExportRoute.AppendOptionalSection | src/app/api/export/route.ts:24-26 | Appends the optional section's lines. |
| ExportRoute.AppendJoinedLine | src/app/api/export/route.ts:32-34 | Appends the joined list line. |
| ExportRoute.AppendTimeLine | src/app/api/export/route.ts:36-38 | Appends the hours line. |
| ExportRoute.AppendList | src/app/api/export/route.ts:67-73 | The `forEach` loop appends the heading and one bullet per item. |
| ExportRoute.AppendImages | src/app/api/export/route.ts:96-102 | The `forEach` loop appends the numbered image lines. |
| ExportRoute.AppendIdea | src/app/api/export/route.ts:20-26 | Appends an idea's status and notes lines. |
| ExportRoute.AppendWork | src/app/api/export/route.ts:28-38 | Appends a work entry's lines. |
| ExportRoute.AppendOutcome | src/app/api/export/route.ts:40-50 | Appends an outcome's lines. |
| ExportRoute.AppendJobHead | src/app/api/export/route.ts:52-61 | Appends the Company, Job Title and Duration lines. |
| ExportRoute.AppendJob | src/app/api/export/route.ts:52-73 | Appends a job's lines. |
| ExportRoute.AppendEducationHead | src/app/api/export/route.ts:75-78 | Appends the Institution and Qualification lines. |
| ExportRoute.AppendEducation | src/app/api/export/route.ts:75-94 | Appends an education entry's lines. |
| ExportRoute.AppendVariant | src/app/api/export/route.ts:19-94 | Appends the lines of the entry's own variant. |
| ExportRoute.AppendHeader | src/app/api/export/route.ts:8-11 | Appends the title and the Type, Date and Category lines. |
| ExportRoute.AppendFooter | src/app/api/export/route.ts:104-106 | Appends the rule and the Created and Updated lines. |
| ExportRoute.AppendCommon | src/app/api/export/route.ts:8-17 | Appends the header, tags and content. |
| ExportRoute.EntryToMarkdown | src/app/api/export/route.ts:7-109 | The `+=` builder yields exactly the block specified by `EntryMarkdown`. |
| ExportRoute.AppendDocHeader | src/app/api/export/route.ts:131-134 | Appends the document header. |
| ExportRoute.ExportMarkdown | src/app/api/export/route.ts:131-138 | The `forEach` yields exactly the header followed by every entry's block, in order. |
| ExportRoute.Get | src/app/api/export/route.ts:112-162 | A store failure answers 500. Markdown answers the document of the queried entries. JSON answers those entries. |
| EnhanceResume.Gate | src/app/api/ai/enhance-resume/route.ts:14-46 | In order: no key is 500, a body that cannot be read is the catch block's 500, no id is 400, a lookup that throws is the catch block's 500, an unknown id is 404, and a type other than job or education is 400. The model is asked only when all gates pass. |
| EnhanceResume.OptionalLine | src/app/api/ai/enhance-resume/route.ts:55-60 | An optional context line appears exactly when its list is non-empty. |
| EnhanceResume.JobContextShape | src/app/api/ai/enhance-resume/route.ts:50-60 | The job context is Job Title, Company and Content, then Skills joined by `, ` and Achievements joined by `; `, each only when non-empty. |
| EnhanceResume.EducationContextShape | src/app/api/ai/enhance-resume/route.ts:61-71 | The education context is Qualification, Institution and Content, then Achievements and Projects joined by `; `, each only when non-empty. |
| EnhanceResume.ContextReadsBackAsLines | src/app/api/ai/enhance-resume/route.ts:49-72 | When no field contains a newline, the context splits back into exactly its lines. |
| EnhanceResume.AppendOptionalLine | src/app/api/ai/enhance-resume/route.ts:55-60 | The `+=` step appends the optional line. |
| EnhanceResume.StartContext | src/app/api/ai/enhance-resume/route.ts:52-54 | The first three assignments yield three terminated lines. |
| EnhanceResume.BuildJobContext | src/app/api/ai/enhance-resume/route.ts:50-60 | The job builder yields exactly the job context. |
| EnhanceResume.BuildEducationContext | src/app/api/ai/enhance-resume/route.ts:61-71 | The education builder yields exactly the education context. |
| EnhanceResume.BuildContext | src/app/api/ai/enhance-resume/route.ts:49-72 | The builder yields exactly `Context(e)`. |
| EnhanceResume.EnhancedText | src/app/api/ai/enhance-resume/route.ts:90-92 | A text first block gives its text, and another block gives the original content. A failed call or an empty message gives nothing. |
| EnhanceResume.Context | src/app/api/ai/enhance-resume/route.ts:48-72 | The context text of a job or education entry. `JobContextShape`, `EducationContextShape` and `ContextReadsBackAsLines` state its lines. |
| EnhanceResume.Enhance | src/app/api/ai/enhance-resume/route.ts:12-105 | The endpoint's answer. The lemmas below state what it promises: the original content is kept, a failed call is 500, gated requests skip the model, and the model sees only the type and context. |
| EnhanceResume.ModelFailureAnswers500 | src/app/api/ai/enhance-resume/route.ts:60-104 | A failed model call, or a reply with no blocks, answers 500 "Failed to enhance resume entry". |
| EnhanceResume.Post | src/app/api/ai/enhance-resume/route.ts:12-105 | The endpoint answers exactly as `Enhance` specifies. |
| EnhanceResume.EnhancedKeepsOriginal | src/app/api/ai/enhance-resume/route.ts:94-97 | Every success carries the entry's own content as `originalContent`. |
| EnhanceResume.NonTextReplyKeepsContent | src/app/api/ai/enhance-resume/route.ts:90-92 | A non-text first block returns the content unchanged. |
| EnhanceResume.GatedRequestsSkipModel | src/app/api/ai/enhance-resume/route.ts:14-46 | A gated request gets the same error whatever the model would say. |
| EnhanceResume.ModelSeesContext | src/app/api/ai/enhance-resume/route.ts:74-97 | The answer depends on the model only through its reply to this type and context. |
| UploadRoute.Sanitize | src/app/api/upload/route.ts:20 | The length is kept. Every character is allowed or `_`. Allowed characters are unchanged, and the others become `_`. |
| UploadRoute.SanitizeIdempotent | src/app/api/upload/route.ts:20 | Sanitising twice gives the same result as sanitising once. |
| UploadRoute.UniqueName | src/app/api/upload/route.ts:19-21 | The name is the decimal timestamp, then `-`, then the sanitised name. This is the naming rule itself. `StoredNameStaysInDirectory` states what it guarantees: the stored name has no `/`. |
| UploadRoute.ExtensionAtUnique | src/app/api/upload/route.ts:37 | A name has at most one final extension. |
| UploadRoute.FindExtension | src/app/api/upload/route.ts:37 | The backward scan finds the final extension, or shows there is none. |
| UploadRoute.ExtensionStart | src/app/api/upload/route.ts:37 | Returns the position of the final extension, or nothing when there is none. |
| UploadRoute.AsJpeg | src/app/api/upload/route.ts:37 | A final `.ext` (non-empty, with no `.` or `/`) is replaced by `.jpg`. A name without one is left unchanged. |
| UploadRoute.AsJpegShape | src/app/api/upload/route.ts:37 | A name with an extension ends in `.jpg` after the rewrite. A name without one is unchanged. |
| UploadRoute.AsJpegIdempotent | src/app/api/upload/route.ts:37-41 | Rewriting twice gives the same result as rewriting once. |
| UploadRoute.AsJpegNoSlash | src/app/api/upload/route.ts:37 | The rewrite adds no `/`. |
| UploadRoute.StoredNameStaysInDirectory | src/app/api/upload/route.ts:20-37 | The stored name has no `/`, so the file stays in the uploads directory. |
| UploadRoute.Post | src/app/api/upload/route.ts:6-51 | A missing file answers 400. A failed conversion or a non-file part answers 500. Otherwise the file is uploaded. |
| UploadRoute.UrlMatchesSavedFile | src/app/api/upload/route.ts:37-41 | The public URL is `/uploads/` plus the same name that was written to disk. |
| NewEntryPage.TrimAll | src/app/entry/new/page.tsx:53 | Each part is trimmed, in order. |
| NewEntryPage.ParseList | src/app/entry/new/page.tsx:53 | A missing field gives `[]`. A present one gives no more items than it has comma pieces. |
| NewEntryPage.ParseListItems | src/app/entry/new/page.tsx:53 | Every item is non-empty and trimmed. An item appears exactly when it is a non-empty trimmed comma piece. |
| NewEntryPage.TrimmedKept | src/app/entry/new/page.tsx:53 | Trimming pieces and then dropping the empty ones leaves only non-empty strings that are already trimmed. |
| NewEntryPage.TrimAllFixed | src/app/entry/new/page.tsx:53 | Pieces with no white space at either end come through the trim unchanged. |
| NewEntryPage.ParseListInOrder | src/app/entry/new/page.tsx:53 | Items keep their typed order. |
| NewEntryPage.ParseEmptyField | src/app/entry/new/page.tsx:53 | An empty field gives `[]`. |
| NewEntryPage.ParseJoinedList | src/app/entry/new/page.tsx:53 | Clean items joined by commas parse back to exactly those items. |
| NewEntryPage.Get | src/app/entry/new/page.tsx:49-52 | A field the form lacks reads as `null`. |
| NewEntryPage.AddWorkFields | src/app/entry/new/page.tsx:65-70 | The work case adds exactly what `AddVariant(Work, ...)` specifies. |
| NewEntryPage.BasePayload | src/app/entry/new/page.tsx:47-55 | The base fields. `BaseFieldsAlwaysSent` states that each is present and where its value comes from. |
| NewEntryPage.AddVariant | src/app/entry/new/page.tsx:57-94 | The fields the `switch` adds for one type. `AddVariantKeeps`, `OnlySelectedVariant`, `TimeInvestedOnlyWhenGiven` and `EndDateOnlyWhenGiven` state them. |
| NewEntryPage.Payload | src/app/entry/new/page.tsx:47-94 | The whole body. `BuildPayload` is proved equal to it. |
| NewEntryPage.AddJobFields | src/app/entry/new/page.tsx:76-84 | The job case adds exactly what `AddVariant(Job, ...)` specifies. |
| NewEntryPage.AddEducationFields | src/app/entry/new/page.tsx:85-93 | The education case adds exactly what `AddVariant(Education, ...)` specifies. |
| NewEntryPage.BuildPayload | src/app/entry/new/page.tsx:47-94 | The `switch` fills exactly the payload `Payload` specifies. |
| NewEntryPage.AddVariantKeeps | src/app/entry/new/page.tsx:57-94 | A key outside the variant's fields is neither added nor changed. |
| NewEntryPage.BaseFieldsAlwaysSent | src/app/entry/new/page.tsx:47-55 | Every base field is present. `type` comes from the selector, `title` and `tags` from the form, and `images` from the uploaded list. |
| NewEntryPage.OnlySelectedVariant | src/app/entry/new/page.tsx:60-94 | The payload holds only base keys and the selected variant's keys. |
| NewEntryPage.TimeInvestedOnlyWhenGiven | src/app/entry/new/page.tsx:68-69 | `timeInvested` is sent exactly when the field is non-empty, as `Number(text)`. |
| NewEntryPage.EndDateOnlyWhenGiven | src/app/entry/new/page.tsx:80-90 | For a job or education entry, `endDate` is sent exactly when it is non-empty. |
| NewEntryPage.ListFieldsParsedAlike | src/app/entry/new/page.tsx:67-92 | Every list field goes through the same comma-list parse. |
| CategoriesPage.BeforeIrreflexive | src/app/categories/page.tsx:29 | No string sorts before itself. |
| CategoriesPage.BeforeTransitive | src/app/categories/page.tsx:29 | The sort order is transitive. |
| CategoriesPage.BeforeTotal | src/app/categories/page.tsx:29 | Of two distinct strings, one sorts first. |
| CategoriesPage.Insert | src/app/categories/page.tsx:29 | Inserting into a strictly sorted list keeps it strictly sorted and adds exactly the one value. |
| CategoriesPage.DistinctSorted | src/app/categories/page.tsx:29 | The result is strictly sorted and holds exactly the input's values. |
| CategoriesPage.Categories | src/app/categories/page.tsx:29 | The distinct categories, sorted. `CategoriesSortedAndComplete` and `CategoriesCanonical` state it. |
| CategoriesPage.CategoryList | src/app/categories/page.tsx:29 | `entries.map(e => e.category)`. |
| CategoriesPage.CategoriesSortedAndComplete | src/app/categories/page.tsx:29 | The categories are strictly ascending, and a string is listed exactly when some entry has it. |
| CategoriesPage.StrictlySortedUnique | src/app/categories/page.tsx:29 | Two strictly sorted lists with the same members are equal. |
| CategoriesPage.CategoriesCanonical | src/app/categories/page.tsx:29 | Any strictly sorted listing of the categories is the computed list. |
| CategoriesPage.Shown | src/app/categories/page.tsx:30-32 | No selection shows all entries. A selection shows exactly the entries in that category. |
| CategoriesPage.ShownInOrder | src/app/categories/page.tsx:30-32 | The shown entries keep their order. |
| CategoriesPage.GroupByCategory | src/app/categories/page.tsx:34-37 | The `reduce` makes one key per category, each holding exactly that category's entries in order. |
| CategoriesPage.GroupsNonEmpty | src/app/categories/page.tsx:34-37 | No group is empty. |
| CategoriesPage.OccursOnce | src/app/categories/page.tsx:29 | A listed category occurs exactly once. |
| CategoriesPage.GroupSizesSum | src/app/categories/page.tsx:34-37 | The group sizes add up to the number of entries. |
| IdeasPage.ColumnsInFixedOrder | src/app/ideas/page.tsx:27 | The columns are new, in-progress, completed and abandoned, each status exactly once. |
| IdeasPage.Column | src/app/ideas/page.tsx:35-37 | A column holds exactly the ideas with its status. |
| IdeasPage.ColumnInOrder | src/app/ideas/page.tsx:35-37 | A column keeps the loaded order. |
| IdeasPage.ExactlyOneColumn | src/app/ideas/page.tsx:27-37 | Every idea is in the column of its status and in no other. |
| IdeasPage.ColumnCountsSum | src/app/ideas/page.tsx:27-37 | The four column sizes add up to the number of ideas. |
| IdeasPage.TagPreview | src/app/ideas/page.tsx:106-113 | At most the first two tags are shown, each as `#tag`. |
| IdeasPage.StatusLabel | src/app/ideas/page.tsx:28-33 | The column heading of each status, as in `statusLabels`. |
| WorkPage.Loaded | src/app/work/page.tsx:22-24 | Exactly the work and outcome entries are kept. |
| WorkPage.LoadedInOrder | src/app/work/page.tsx:22-24 | The kept entries keep the response's order. |
| WorkPage.Visible | src/app/work/page.tsx:33-35 | `all` gives the list unchanged. `work` and `outcome` give exactly the entries of that type. |
| WorkPage.VisibleInOrder | src/app/work/page.tsx:33-35 | Every view is a subsequence of the loaded list. |
| WorkPage.CountsAddUp | src/app/work/page.tsx:75-95 | The Work and Outcomes counts add up to the All count. |
| WorkPage.IsWorkLog | src/app/work/page.tsx:22-24 | True exactly when the type tag is `work` or `outcome`. |
| WorkPage.OfType | src/app/work/page.tsx:35 | The `e.type === filter` test. `Visible` and `CountsAddUp` state what it selects. |
| ResumePage.InsertDesc | src/app/resume/page.tsx:26-31 | An insertion step adds one element. |
| ResumePage.SortDesc | src/app/resume/page.tsx:26-31 | The sort keeps the length. |
| ResumePage.InsertDescPermutes | src/app/resume/page.tsx:26-31 | An insertion adds exactly the new element. |
| ResumePage.SortDescPermutes | src/app/resume/page.tsx:26-31 | The sort is a permutation. |
| ResumePage.InsertDescSorted | src/app/resume/page.tsx:26-31 | Insertion keeps the list sorted. |
| ResumePage.SortDescSorted | src/app/resume/page.tsx:26-31 | The result is ordered by key, largest first. |
| ResumePage.WithKeyAppend | src/app/resume/page.tsx:26-31 | The entries with a given key distribute over concatenation. |
| ResumePage.InsertDescStable | src/app/resume/page.tsx:26-31 | An inserted element goes after the entries with its key. |
| ResumePage.SortDescStable | src/app/resume/page.tsx:26-31 | Entries with the same key keep their relative order. |
| ResumePage.InsertDescStep | src/app/resume/page.tsx:26-31 | Shifting past a smaller key does not change the outcome. |
| ResumePage.InsertDescStop | src/app/resume/page.tsx:26-31 | Where the shifting stops, the element goes in. |
| ResumePage.InsertAt | src/app/resume/page.tsx:26-31 | The in-place shift inserts `a[i]` into the sorted prefix and leaves the rest of the array alone. |
| ResumePage.SortDescending | src/app/resume/page.tsx:26-31 | The in-place sort leaves the array equal to `SortDesc` of its old contents. |
| ResumePage.SortResumeData | src/app/resume/page.tsx:25-31 | Jobs and education entries are each sorted by start date, most recent first. |
| ResumePage.SortedResume | src/app/resume/page.tsx:25-31 | The sorted list is ordered most recent first, is a permutation, and keeps same-date entries in loaded order. |
| ResumePage.DateRange | src/app/resume/page.tsx:90 | A missing end date shows `Present`. Otherwise the formatted end date is shown. |
| ResumePage.StartOf | src/app/resume/page.tsx:26-31 | The sort key: the start date of a job or education entry. `SortResumeData` and `SortedResume` sort by it. |
| ResumePage.Layout | src/app/resume/page.tsx:75-181 | Each section shows exactly when its list is non-empty. The empty message shows exactly when both lists are empty. |
| EntryCard.HueOf | src/components/EntryCard.tsx:17-26 | The colour is gray exactly when the string names no entry type. |
| EntryCard.TypeColorsDistinct | src/components/EntryCard.tsx:17-26 | Each type name gets its table colour. Distinct types get distinct colours. Any other string is gray. |
| EntryCard.TypeColor | src/components/EntryCard.tsx:17-26 | `getTypeColor`: the classes of `HueOf`. `TypeColorsDistinct` states the colours. |
| EntryCard.TagChips | src/components/EntryCard.tsx:56-66 | The `#tag` chips, built with `Strings.Prefixed`: one per tag, in order. |
| EntryCard.Thumbnails | src/components/EntryCard.tsx:71 | At most three thumbnails are shown, forming a prefix of the images. |
| EntryCard.Overflow | src/components/EntryCard.tsx:79-81 | The overflow badge shows exactly when there are more than three images. |
| EntryCard.ImagesAccountedFor | src/components/EntryCard.tsx:69-83 | The thumbnails plus the overflow count make up every image, and the badge reads `+` followed by that count. |
| EntryCard.Render | src/components/EntryCard.tsx:28-85 | The card shows its type's colour, a category badge exactly when the category is non-empty, one chip per tag, at most three thumbnails, and an overflow badge exactly when there are more than three images. |

## Left out

- Store access (connection, `find`, `findById`, `.sort({ date: -1 })`, `.limit(100)`, `.select`) is not modelled. The looked-up entry and the candidate lists are inputs. In the two AI routes, the entry lookup is an `EntryTypes.Lookup`: the entry, `null` (a well-formed but unknown id), or `StoreFailed` (the lookup threw, as a malformed id's cast error does). In the export route, a failed query is `None`.
- The AI routes assume that `dbConnect()` succeeds (find-related line 20, enhance-resume line 21) and, in find-related, that the candidate query at line 41 succeeds. A failure there reaches the same catch blocks as a failed lookup. In the source that happens before the `entryId` check, which the model does not capture.
- Parsing the request body in the AI routes is not modelled. Its outcome is the flag `bodyRead`: `false` stands for an empty body, a body that is not JSON, or `null`, each of which makes `request.json()` or the `{ entryId }` destructuring throw. Any other body supplies only `entryId`.
- The language-model calls and their prompt wording are not modelled. The reply is an `AiReply` value: a list of text and non-text blocks, or a failed call.
- `JSON.parse` of the model's reply is a parameter. A reply that parses to something other than an array of integers is not modelled.
- `JSON.stringify` of the JSON export is not modelled. That branch answers the list of entries.
- Locale date formatting (`toLocaleDateString`, `toLocaleString`) is the parameter `fmt`. Dates are integer timestamps.
- `Date.now()` is the parameter `now`.
- `Number(timeInvested)` is kept symbolic as `NumberOf(text)`.
- `ResumePage.StartOf`: `new Date(startDate).getTime()` is the stored timestamp. An invalid date, which gives `NaN` in JavaScript, is not modelled.
- `ResumePage.SortDescending`: `Array.prototype.sort` is a stable sort of unspecified algorithm. The model uses an insertion sort, which produces the same stable order.
- `CategoriesPage.Before`: JavaScript's default sort compares UTF-16 code units, while Dafny compares characters. The two orders differ only for characters outside the Basic Multilingual Plane.
- UploadRoute.Sanitize: the source's regular expression has no `u` flag, so it replaces each UTF-16 code unit. A character outside the Basic Multilingual Plane (two code units) becomes `__` in the source and `_` in the model, which works on characters.
- FindRelated.SourceTerms: `w.length > 3` counts UTF-16 code units, while the model's `|w| > 3` counts characters. A word holding characters outside the Basic Multilingual Plane can enter the source's term set and not the model's.
- Strings.Trim: `trim()` strips all Unicode white space and line terminators (for example U+00A0, U+FEFF, U+2028). The model's `Whitespace` is ASCII only (space, tab, line feed, carriage return, vertical tab, form feed). This affects `NewEntryPage.ParseList`, `FindRelated.ReadReply` and `FindRelated.Words`.
- `timeInvested` is a whole number of hours in the model (`Option<int>`, written with `IntToString`). The schema accepts any JavaScript number, so a fractional value sent through the API, such as 1.5, is not modelled. The form's number input keeps form submissions whole.
- FindRelated.Words: the text is split on the ASCII white-space characters of `Strings.Whitespace` only. JavaScript's `\s` also matches non-ASCII white space (U+00A0, U+2028, U+3000, U+FEFF and others), so a text such as `alpha\u00A0betagamma` is two words in the source and one in the model, and its score can differ. Splitting at each ASCII white-space character, rather than at runs of them, differs from `\s+` only by empty tokens, which never score. Lower-casing is ASCII only.
- `EntrySchema.Validate`: Mongoose type casting (for example a number given for a string path) and strict-mode handling of unknown paths are not modelled. A document's paths already have their schema types, and unknown paths are dropped.
- `EntrySchema.Validate`: `updatedAt` changes on later saves. Only creation is modelled, where both timestamps are the current time.
- `EntryCard.HueOf`: the colour table is looked up as an own-property table. JavaScript prototype keys such as `constructor` are not modelled; stored types are always one of the five literals.
- `UploadRoute.Post`: `sharp` resizing and JPEG encoding, `arrayBuffer`, `writeFile` and the `process.cwd()` join are not modelled. The conversion's success is the `converted` flag.
- The image upload handler of the new-entry form (`handleImageUpload`), the `fetch` calls, React state and rendering details beyond the modelled conditions are not modelled.
- The export endpoint's `Content-Disposition` file names (which hold `Date.now()`) are not modelled.

## Findings

| source | as written | input that shows it | evidently intended | confidence | as-written member | corrected member |
|---|---|---|---|---|---|---|
| src/app/api/ai/find-related/route.ts:107-120 | The catch block reads `request.json()` a second time, but the body was already consumed at line 22. So any exception from the model call ends in an unhandled failure instead of the keyword fallback. | Any request that passes the gates while the model call throws (`CallFailed`) | Fall back to the keyword scorer on the entry and candidates already loaded | not executed | FindRelated.FindRelatedAsWritten | FindRelated.FindRelated |
