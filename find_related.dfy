/**
 * The related-entries endpoint of src/app/api/ai/find-related/route.ts.
 *
 * The route asks a language model to rank up to 100 candidate entries by
 * index, keeps the indices that are in range, and falls back to a keyword
 * scorer when the model's reply cannot be parsed. The model call, the
 * store queries and `JSON.parse` are inputs here: the reply is an `AiReply`
 * value and parsing is the function parameter `parse`.
 */
module FindRelated {
  import opened Wrappers
  import opened Strings
  import opened Seqs
  import opened EntryTypes
  import opened AiMessages

  // ---------------------------------------------------------------------
  // Keyword fallback scorer (`fallbackRelatedSearch`)
  // ---------------------------------------------------------------------

  /** The text the scorer reads: title, content, category and the tags joined by spaces. */
  function MatchText(e: Entry): string {
    e.base.title + " " + e.base.content + " " + e.base.category + " " + Join(e.base.tags, " ")
  }

  /** The lower-cased text cut at white space. */
  function Words(e: Entry): seq<string> {
    Split(Lower(MatchText(e)), Whitespace)
  }

  /** The source entry's term set: its words longer than three characters. */
  function SourceTerms(src: Entry): (terms: set<string>)
    ensures forall w :: w in terms <==> w in Words(src) && |w| > 3
  {
    set w | w in Words(src) && |w| > 3
  }

  /** How many of `words`, counted with repetition, lie in `terms`. */
  function Matches(words: seq<string>, terms: set<string>): (n: nat)
    ensures n <= |words|
    decreases |words|
  {
    if words == [] then 0
    else (if words[0] in terms then 1 else 0) + Matches(words[1..], terms)
  }

  /** The bonus for a candidate in the source's category. */
  const CategoryBonus: nat := 10

  /** A candidate's score: its matching words plus the category bonus. */
  function Score(src: Entry, c: Entry): (s: nat)
    ensures s >= CategoryBonus <== c.base.category == src.base.category
    ensures s <= |Words(c)| + CategoryBonus
  {
    Matches(Words(c), SourceTerms(src)) + (if c.base.category == src.base.category then CategoryBonus else 0)
  }

  predicate IsLong(w: string) { |w| > 3 }

  /** A word of at most three characters never adds to a score. */
  lemma {:induction false} ShortWordsNeverScore(src: Entry, words: seq<string>)
    ensures Matches(words, SourceTerms(src)) == Matches(Filter(words, IsLong), SourceTerms(src))
    decreases |words|
  {
    if words != [] {
      ShortWordsNeverScore(src, words[1..]);
      if !IsLong(words[0]) {
        assert words[0] !in SourceTerms(src);
      }
    }
  }

  /** The per-candidate record of the scorer, with the candidate's index in the input. */
  datatype Scored = Scored(entry: Entry, score: nat, pos: nat)

  /** The scored records, in input order, numbered from `from`. */
  function ScoreFrom(src: Entry, cands: seq<Entry>, from: nat): (r: seq<Scored>)
    ensures |r| == |cands|
    ensures forall k :: 0 <= k < |r| ==> r[k] == Scored(cands[k], Score(src, cands[k]), from + k)
    decreases |cands|
  {
    if cands == [] then [] else [Scored(cands[0], Score(src, cands[0]), from)] + ScoreFrom(src, cands[1..], from + 1)
  }

  ghost predicate PosIncreasing(ss: seq<Scored>) {
    forall i, j :: 0 <= i < j < |ss| ==> ss[i].pos < ss[j].pos
  }

  /** The threshold a score must exceed to be kept. */
  const Threshold: nat := 2

  /** `scored.filter(s => s.score > 2)`. */
  function Keep(ss: seq<Scored>): seq<Scored>
    decreases |ss|
  {
    if ss == [] then []
    else if ss[0].score > Threshold then [ss[0]] + Keep(ss[1..])
    else Keep(ss[1..])
  }

  /** Exactly the records scoring above two are kept. */
  lemma {:induction false} KeepMembers(ss: seq<Scored>)
    ensures forall x :: x in Keep(ss) <==> x in ss && x.score > Threshold
    decreases |ss|
  {
    if ss != [] {
      KeepMembers(ss[1..]);
      assert ss == [ss[0]] + ss[1..];
    }
  }

  /** Keeping records never brings in a position at or below a bound all the records exceed. */
  lemma {:induction false} KeepAbove(ss: seq<Scored>, bound: int)
    requires forall i :: 0 <= i < |ss| ==> bound < ss[i].pos
    ensures forall j :: 0 <= j < |Keep(ss)| ==> bound < Keep(ss)[j].pos
    decreases |ss|
  {
    if ss != [] {
      KeepAbove(ss[1..], bound);
    }
  }

  /** The kept records stay in input order. */
  lemma {:induction false} KeepInOrder(ss: seq<Scored>)
    requires PosIncreasing(ss)
    ensures PosIncreasing(Keep(ss))
    decreases |ss|
  {
    if ss != [] {
      var rest := Keep(ss[1..]);
      KeepInOrder(ss[1..]);
      KeepAbove(ss[1..], ss[0].pos);
      if ss[0].score > Threshold {
        var r := [ss[0]] + rest;
        forall i, j | 0 <= i < j < |r| ensures r[i].pos < r[j].pos {
          if i > 0 { assert r[i] == rest[i - 1]; }
          assert r[j] == rest[j - 1];
        }
      }
    }
  }

  /** `a` is ranked before `b`: a higher score, or an equal score and an earlier input position. */
  predicate Before(a: Scored, b: Scored) {
    a.score > b.score || (a.score == b.score && a.pos < b.pos)
  }

  /** Scores never increase, and equal scores keep their input order. */
  ghost predicate Ranked(ss: seq<Scored>) {
    forall i, j :: 0 <= i < j < |ss| ==> Before(ss[i], ss[j])
  }

  /** One step of a stable sort by descending score: `x` goes before the first record it does not score below. */
  function Insert(x: Scored, ss: seq<Scored>): (r: seq<Scored>)
    ensures multiset(r) == multiset(ss) + multiset{x}
    decreases |ss|
  {
    if ss == [] || x.score >= ss[0].score then [x] + ss
    else
      assert ss == [ss[0]] + ss[1..];
      [ss[0]] + Insert(x, ss[1..])
  }

  /** Inserting a record that precedes all others in input order keeps a ranked list ranked. */
  lemma {:induction false} InsertRanked(x: Scored, ss: seq<Scored>)
    requires Ranked(ss)
    requires forall y :: y in ss ==> x.pos < y.pos
    ensures Ranked(Insert(x, ss))
    decreases |ss|
  {
    var r := Insert(x, ss);
    if ss == [] {
    } else if x.score >= ss[0].score {
      assert r == [x] + ss;
      forall j | 0 <= j < |ss| ensures Before(x, ss[j]) {
        if j > 0 { assert Before(ss[0], ss[j]); }
      }
    } else {
      var rest := Insert(x, ss[1..]);
      InsertRanked(x, ss[1..]);
      assert r == [ss[0]] + rest;
      forall j | 0 <= j < |rest| ensures Before(ss[0], rest[j]) {
        assert rest[j] in multiset(rest);
        if rest[j] != x {
          assert rest[j] in ss[1..];
          var i :| 0 <= i < |ss[1..]| && ss[1..][i] == rest[j];
          assert Before(ss[0], ss[i + 1]);
        }
      }
      forall i, j | 0 <= i < j < |r| ensures Before(r[i], r[j]) {
        if i > 0 { assert r[i] == rest[i - 1] && r[j] == rest[j - 1]; }
        else { assert r[j] == rest[j - 1]; }
      }
    }
  }

  /** `.sort((a, b) => b.score - a.score)`, a stable sort (insertion of each record before the later ones). */
  function SortByScore(ss: seq<Scored>): (r: seq<Scored>)
    ensures multiset(r) == multiset(ss)
    decreases |ss|
  {
    if ss == [] then []
    else
      assert ss == [ss[0]] + ss[1..];
      Insert(ss[0], SortByScore(ss[1..]))
  }

  /** Sorting records that arrive in input order ranks them: scores non-increasing, ties in input order. */
  lemma {:induction false} SortRanked(ss: seq<Scored>)
    requires PosIncreasing(ss)
    ensures Ranked(SortByScore(ss))
    decreases |ss|
  {
    if ss != [] {
      var rest := SortByScore(ss[1..]);
      SortRanked(ss[1..]);
      forall y | y in rest ensures ss[0].pos < y.pos {
        assert y in multiset(rest);
        assert y in ss[1..];
      }
      InsertRanked(ss[0], rest);
    }
  }

  /** The number of results the scorer returns at most. */
  const Limit: nat := 5

  /** The scorer's ranking: kept records, sorted, cut to the first five. */
  function FallbackRanking(src: Entry, cands: seq<Entry>): seq<Scored> {
    Take(SortByScore(Keep(ScoreFrom(src, cands, 0))), Limit)
  }

  function EntriesOf(ss: seq<Scored>): (r: seq<Entry>)
    ensures |r| == |ss| && forall k :: 0 <= k < |ss| ==> r[k] == ss[k].entry
  {
    seq(|ss|, k requires 0 <= k < |ss| => ss[k].entry)
  }

  /**
   * Cutting a sorted list of records that arrived in input order: the first
   * five are ranked, come from the list, and any record left out is
   * outscored (or tied and later) by five returned ones.
   */
  lemma {:induction false} TopRecords(kept: seq<Scored>)
    requires PosIncreasing(kept)
    ensures var r := Take(SortByScore(kept), Limit);
      && Ranked(r)
      && (forall x :: x in r ==> x in kept)
      && (forall x :: x in kept ==> x in r || (|r| == Limit && forall k :: 0 <= k < |r| ==> r[k].score >= x.score))
  {
    var sorted := SortByScore(kept);
    var r := Take(sorted, Limit);
    SortRanked(kept);
    assert r <= sorted;
    forall x | x in r ensures x in kept {
      assert x in multiset(sorted);
    }
    forall x | x in kept
      ensures x in r || (|r| == Limit && forall k :: 0 <= k < |r| ==> r[k].score >= x.score)
    {
      assert x in multiset(sorted);
      CutOutscores(sorted, x);
    }
  }

  /** A record of a ranked list is among its first five, or each of those five scores at least as high. */
  lemma CutOutscores(sorted: seq<Scored>, x: Scored)
    requires Ranked(sorted) && x in sorted
    ensures var r := Take(sorted, Limit);
      x in r || (|r| == Limit && forall k :: 0 <= k < |r| ==> r[k].score >= x.score)
  {
    var r := Take(sorted, Limit);
    var m :| 0 <= m < |sorted| && sorted[m] == x;
    if m < Limit {
      assert r[m] == x;
    } else {
      forall k | 0 <= k < |r| ensures r[k].score >= x.score {
        assert r[k] == sorted[k];
        assert Before(sorted[k], sorted[m]);
      }
    }
  }

  /** Every record of the scored, filtered list is its candidate at its own position, scoring above two. */
  lemma KeptRecords(src: Entry, cands: seq<Entry>)
    ensures PosIncreasing(Keep(ScoreFrom(src, cands, 0)))
    ensures forall x :: x in Keep(ScoreFrom(src, cands, 0)) <==>
      x.pos < |cands| && x == Scored(cands[x.pos], Score(src, cands[x.pos]), x.pos) && x.score > Threshold
  {
    var all := ScoreFrom(src, cands, 0);
    assert PosIncreasing(all);
    KeepInOrder(all);
    KeepMembers(all);
    forall x: Scored | x.pos < |cands| && x == Scored(cands[x.pos], Score(src, cands[x.pos]), x.pos)
      ensures x in all
    {
      assert all[x.pos] == x;
    }
  }

  /** The ranking's records are candidates at their own positions, with their true scores above two. */
  lemma RankingRecords(src: Entry, cands: seq<Entry>)
    ensures var r := FallbackRanking(src, cands);
      && |r| <= Limit
      && Ranked(r)
      && forall k :: 0 <= k < |r| ==>
           r[k].pos < |cands| && r[k].entry == cands[r[k].pos]
           && r[k].score == Score(src, r[k].entry) && r[k].score > Threshold
  {
    var kept := Keep(ScoreFrom(src, cands, 0));
    var r := FallbackRanking(src, cands);
    KeptRecords(src, cands);
    TopRecords(kept);
    forall k | 0 <= k < |r|
      ensures r[k].pos < |cands| && r[k].entry == cands[r[k].pos]
      ensures r[k].score == Score(src, r[k].entry) && r[k].score > Threshold
    {
      assert r[k] in kept;
    }
  }

  /** No candidate scoring above two is left out unless five records scoring at least as high were returned. */
  lemma RankingComplete(src: Entry, cands: seq<Entry>, p: nat)
    requires p < |cands| && Score(src, cands[p]) > Threshold
    ensures var r := FallbackRanking(src, cands);
      (exists k :: 0 <= k < |r| && r[k].pos == p)
      || (|r| == Limit && forall k :: 0 <= k < |r| ==> r[k].score >= Score(src, cands[p]))
  {
    var kept := Keep(ScoreFrom(src, cands, 0));
    var r := FallbackRanking(src, cands);
    KeptRecords(src, cands);
    TopRecords(kept);
    var x := Scored(cands[p], Score(src, cands[p]), p);
    assert x in kept;
    if x in r {
      var k :| 0 <= k < |r| && r[k] == x;
    }
  }

  /**
   * `fallbackRelatedSearch`: at most five candidates, each scoring above
   * two, in non-increasing score order.
   */
  function Fallback(src: Entry, cands: seq<Entry>): (r: seq<Entry>)
    ensures |r| <= Limit
    ensures forall e :: e in r ==> e in cands && Score(src, e) > Threshold
    ensures forall i, j :: 0 <= i < j < |r| ==> Score(src, r[i]) >= Score(src, r[j])
  {
    RankingRecords(src, cands);
    var ranking := FallbackRanking(src, cands);
    assert forall i, j :: 0 <= i < j < |ranking| ==> Before(ranking[i], ranking[j]);
    EntriesOf(ranking)
  }

  /** A candidate in the source's category scores at least ten, so only five higher-or-equal results can push it out. */
  lemma CategoryMatchKept(src: Entry, cands: seq<Entry>, p: nat)
    requires p < |cands| && cands[p].base.category == src.base.category
    ensures var r := FallbackRanking(src, cands);
      (exists k :: 0 <= k < |r| && r[k].pos == p)
      || (|r| == Limit && forall k :: 0 <= k < |r| ==> r[k].score >= CategoryBonus)
  {
    RankingComplete(src, cands, p);
  }

  /** A candidate sharing no term and no category with the source is never returned. */
  lemma NoOverlapExcluded(src: Entry, cands: seq<Entry>, p: nat)
    requires p < |cands| && cands[p].base.category != src.base.category
    requires Matches(Words(cands[p]), SourceTerms(src)) == 0
    ensures var r := FallbackRanking(src, cands);
      forall k :: 0 <= k < |r| ==> r[k].pos != p
  {
    RankingRecords(src, cands);
  }

  // ---------------------------------------------------------------------
  // Index validation of the model's reply
  // ---------------------------------------------------------------------

  /** `indices.filter(idx => idx >= 0 && idx < n)`: duplicates kept, out-of-range dropped, order kept. */
  function InRange(indices: seq<int>, n: nat): (r: seq<int>)
    ensures |r| <= |indices|
    ensures forall k :: 0 <= k < |r| ==> 0 <= r[k] < n
    ensures forall i :: multiset(r)[i] == if 0 <= i < n then multiset(indices)[i] else 0
    ensures IsSubsequence(r, indices)
    decreases |indices|
  {
    if indices == [] then []
    else
      var rest := InRange(indices[1..], n);
      assert indices == [indices[0]] + indices[1..];
      if 0 <= indices[0] < n then [indices[0]] + rest
      else
        SubsequenceCons(rest, indices[1..], indices[0]);
        rest
  }

  /** `.filter(...).map(idx => allEntries[idx])`: the candidates at the in-range indices, in reply order. */
  function SelectIndices(indices: seq<int>, all: seq<Entry>): (r: seq<Entry>)
    ensures |r| == |InRange(indices, |all|)| <= |indices|
    ensures forall k :: 0 <= k < |r| ==> r[k] == all[InRange(indices, |all|)[k]]
    decreases |indices|
  {
    if indices == [] then []
    else if 0 <= indices[0] < |all| then [all[indices[0]]] + SelectIndices(indices[1..], all)
    else SelectIndices(indices[1..], all)
  }

  /** A reply listing indices 1, 7 and 2 over three candidates yields the candidates at 1 and 2. */
  lemma OutOfRangeIndexDropped(a: Entry, b: Entry, c: Entry)
    ensures SelectIndices([1, 7, 2], [a, b, c]) == [b, c]
  {
  }

  // ---------------------------------------------------------------------
  // The endpoint
  // ---------------------------------------------------------------------

  /** What the model call contributes: parsed indices, an unparsable reply, or an exception. */
  datatype Ranking = Indices(indices: seq<int>) | Unparsable | Thrown

  /**
   * Lines 87-99: the first block's trimmed text (or `'[]'` for a non-text
   * block) parsed as JSON; reading the first block of an empty message throws.
   */
  function ReadReply(reply: AiReply, parse: string -> Option<seq<int>>): (r: Ranking)
    ensures reply.CallFailed? || reply.blocks == [] ==> r == Thrown
    ensures reply.Replied? && reply.blocks != [] && reply.blocks[0].OtherBlock? ==>
      r == (if parse("[]").Some? then Indices(parse("[]").value) else Unparsable)
    ensures reply.Replied? && reply.blocks != [] && reply.blocks[0].TextBlock? ==>
      r == (if parse(Trim(reply.blocks[0].text)).Some? then Indices(parse(Trim(reply.blocks[0].text)).value) else Unparsable)
  {
    match reply
    case CallFailed => Thrown
    case Replied(blocks) =>
      if blocks == [] then Thrown
      else
        var text := if blocks[0].TextBlock? then Trim(blocks[0].text) else "[]";
        match parse(text)
        case Some(ix) => Indices(ix)
        case None => Unparsable
  }

  /** The endpoint's answer: `{ related }`, a JSON error with a status, or an unhandled failure (a bare 500). */
  datatype Response = Related(related: seq<Entry>) | JsonError(status: nat, message: string) | Unhandled

  /**
   * The request as the route sees it: the configured key, whether
   * `request.json()` yields an object to read `entryId` from (an empty or
   * non-JSON body, or `null`, makes line 22 throw), the body's `entryId`,
   * and the store's answers (the lookup of the entry, which may throw, and
   * the other entries).
   */
  datatype Request = Request(
    hasApiKey: bool,
    bodyRead: bool,
    entryId: Option<string>,
    found: Lookup,
    others: seq<Entry>)

  /**
   * The gates before the model is consulted (lines 13-50); `None` means the
   * model is asked. A body that cannot be read, or a lookup that throws,
   * lands in the catch block, whose second read of the body throws again:
   * an unhandled failure.
   */
  function Gate(req: Request): (r: Option<Response>)
    ensures !req.hasApiKey ==> r == Some(JsonError(500, "Claude API key not configured"))
    ensures req.hasApiKey && !req.bodyRead ==> r == Some(Unhandled)
    ensures req.hasApiKey && req.bodyRead && (req.entryId.None? || req.entryId.value == "") ==> r == Some(JsonError(400, "Entry ID is required"))
    ensures r.None? <==> req.hasApiKey && req.bodyRead && req.entryId.Some? && req.entryId.value != "" && req.found.Found? && req.others != []
    ensures req.hasApiKey && req.bodyRead && req.entryId.Some? && req.entryId.value != "" && req.found.StoreFailed? ==>
      r == Some(Unhandled)
    ensures req.hasApiKey && req.bodyRead && req.entryId.Some? && req.entryId.value != "" && req.found.Missing? ==>
      r == Some(JsonError(404, "Entry not found"))
    ensures req.hasApiKey && req.bodyRead && req.entryId.Some? && req.entryId.value != "" && req.found.Found? && req.others == [] ==>
      r == Some(Related([]))
    ensures r.Some? && r.value.Related? ==> r.value.related == []
  {
    if !req.hasApiKey then Some(JsonError(500, "Claude API key not configured"))
    else if !req.bodyRead then Some(Unhandled)
    else if req.entryId.None? || req.entryId.value == "" then Some(JsonError(400, "Entry ID is required"))
    else if req.found.StoreFailed? then Some(Unhandled)
    else if req.found.Missing? then Some(JsonError(404, "Entry not found"))
    else if req.others == [] then Some(Related([]))
    else None
  }

  /**
   * The route as written. An exception from the model call lands in the
   * catch block, which reads the request body a second time; the body was
   * consumed at line 22, so that read throws and the handler fails.
   */
  function FindRelatedAsWritten(req: Request, reply: AiReply, parse: string -> Option<seq<int>>): (r: Response)
    ensures reply.CallFailed? && Gate(req).None? ==> r.Unhandled?
  {
    match Gate(req)
    case Some(early) => early
    case None =>
      match ReadReply(reply, parse)
      case Thrown => Unhandled
      case Unparsable => Related(Fallback(req.found.entry, req.others))
      case Indices(ix) => Related(SelectIndices(ix, req.others))
  }

  /**
   * The route with the request read once: an exception from the model call
   * falls back to the keyword scorer on the entry and candidates already
   * loaded. An unreadable body or a lookup that throws still fails: there
   * is no entry id to fall back on, or the catch block repeats the lookup.
   */
  function FindRelated(req: Request, reply: AiReply, parse: string -> Option<seq<int>>): (r: Response)
    ensures r.Unhandled? <==>
      (req.hasApiKey && (!req.bodyRead || (req.entryId.Some? && req.entryId.value != "" && req.found.StoreFailed?)))
    ensures Gate(req).Some? ==> r == Gate(req).value
    ensures Gate(req).None? && ReadReply(reply, parse) != Thrown ==> r == FindRelatedAsWritten(req, reply, parse)
    ensures Gate(req).None? && (ReadReply(reply, parse).Thrown? || ReadReply(reply, parse).Unparsable?) ==>
      r == Related(Fallback(req.found.entry, req.others))
    ensures r.Related? && Gate(req).None? && ReadReply(reply, parse).Indices? ==>
      r.related == SelectIndices(ReadReply(reply, parse).indices, req.others)
  {
    match Gate(req)
    case Some(early) => early
    case None =>
      match ReadReply(reply, parse)
      case Thrown => Related(Fallback(req.found.entry, req.others))
      case Unparsable => Related(Fallback(req.found.entry, req.others))
      case Indices(ix) => Related(SelectIndices(ix, req.others))
  }

  /** With no candidates the answer is an empty list whatever the model would say. */
  lemma NoCandidatesNoRelated(req: Request, reply: AiReply, parse: string -> Option<seq<int>>)
    requires req.hasApiKey && req.bodyRead && req.entryId.Some? && req.entryId.value != "" && req.found.Found?
    requires req.others == []
    ensures FindRelated(req, reply, parse) == Related([])
    ensures FindRelatedAsWritten(req, reply, parse) == Related([])
  {
  }

  /** A reply whose indices are all out of range yields an empty list, not the fallback. */
  lemma OutOfRangeReplyIsEmpty(req: Request, text: string, parse: string -> Option<seq<int>>)
    requires Gate(req).None?
    requires parse(Trim(text)).Some?
    requires forall k :: 0 <= k < |parse(Trim(text)).value| ==>
      !(0 <= parse(Trim(text)).value[k] < |req.others|)
    ensures FindRelated(req, Replied([TextBlock(text)]), parse) == Related([])
  {
    InRangeNone(parse(Trim(text)).value, |req.others|);
  }

  lemma {:induction false} InRangeNone(indices: seq<int>, n: nat)
    requires forall k :: 0 <= k < |indices| ==> !(0 <= indices[k] < n)
    ensures InRange(indices, n) == []
    decreases |indices|
  {
    if indices != [] {
      InRangeNone(indices[1..], n);
    }
  }

  /** A non-text first block is read as `'[]'`, so the answer is an empty list. */
  lemma NonTextReplyIsEmpty(req: Request, rest: seq<Block>, parse: string -> Option<seq<int>>)
    requires Gate(req).None?
    requires parse("[]") == Some([])
    ensures FindRelated(req, Replied([OtherBlock] + rest), parse) == Related([])
  {
  }

  /** Lines 102-104 in the answer: every returned entry is a candidate at an in-range reply index. */
  lemma ModelAnswerFromCandidates(req: Request, reply: AiReply, parse: string -> Option<seq<int>>)
    requires Gate(req).None? && ReadReply(reply, parse).Indices?
    ensures var r := FindRelated(req, reply, parse);
      r.Related? && |r.related| <= |ReadReply(reply, parse).indices|
      && forall e :: e in r.related ==> e in req.others
  {
  }

  /**
   * Whenever the model call throws, the written route fails outright while
   * the corrected one answers with the fallback ranking.
   */
  lemma CatchPathDiscrepancy(req: Request, parse: string -> Option<seq<int>>)
    requires Gate(req).None?
    ensures FindRelatedAsWritten(req, CallFailed, parse) == Unhandled
    ensures FindRelated(req, CallFailed, parse) == Related(Fallback(req.found.entry, req.others))
  {
  }
}
