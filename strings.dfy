/**
 * String helpers standing in for the JavaScript string library calls the
 * application uses: `toLowerCase`, `split`, `join`, `trim` and number-to-text.
 * Strings are sequences of characters; only the ASCII behaviour of
 * lower-casing and whitespace is modelled.
 */
module Strings {

  /** The characters the source's `\s` class and `trim` treat as white space (ASCII subset). */
  const Whitespace: set<char> := {' ', '\t', '\n', '\r', '\U{000B}', '\U{000C}'}

  predicate IsUpper(c: char) { 'A' <= c <= 'Z' }

  function LowerChar(c: char): (d: char)
    ensures !IsUpper(d)
    ensures !IsUpper(c) ==> d == c
  {
    if IsUpper(c) then (c as int + 32) as char else c
  }

  /** ASCII `toLowerCase`: every character lower-cased, length kept. */
  function Lower(s: string): (r: string)
    ensures |r| == |s|
    ensures forall i :: 0 <= i < |s| ==> r[i] == LowerChar(s[i])
  {
    seq(|s|, i requires 0 <= i < |s| => LowerChar(s[i]))
  }

  /**
   * `s.split(sep)` where any character of `seps` separates: consecutive
   * separators give empty parts, and there is always at least one part.
   */
  function Split(s: string, seps: set<char>): (parts: seq<string>)
    ensures |parts| >= 1
    ensures forall k, i :: 0 <= k < |parts| && 0 <= i < |parts[k]| ==> parts[k][i] !in seps
    decreases |s|
  {
    if s == [] then [""]
    else
      var rest := Split(s[1..], seps);
      if s[0] in seps then [""] + rest
      else [[s[0]] + rest[0]] + rest[1..]
  }

  /** `parts.join(sep)`. */
  function Join(parts: seq<string>, sep: string): (r: string)
    decreases |parts|
  {
    if |parts| == 0 then ""
    else if |parts| == 1 then parts[0]
    else parts[0] + sep + Join(parts[1..], sep)
  }

  /** `items.map(t => prefix + t)`: every item with the same prefix, in order. */
  function Prefixed(prefix: string, items: seq<string>): (r: seq<string>)
    ensures |r| == |items|
    ensures forall k :: 0 <= k < |r| ==> r[k] == prefix + items[k]
  {
    seq(|items|, k requires 0 <= k < |items| => prefix + items[k])
  }

  predicate NoneIn(s: string, c: char) { forall i :: 0 <= i < |s| ==> s[i] != c }

  /** Splitting on `c` undoes joining with `c`, as long as no part contains `c`. */
  lemma {:induction false} SplitJoin(parts: seq<string>, c: char)
    requires |parts| >= 1
    requires forall k :: 0 <= k < |parts| ==> NoneIn(parts[k], c)
    ensures Split(Join(parts, [c]), {c}) == parts
    decreases |parts|
  {
    if |parts| == 1 {
      SplitNoSep(parts[0], c);
    } else {
      SplitJoin(parts[1..], c);
      assert Join(parts, [c]) == parts[0] + ([c] + Join(parts[1..], [c]));
      SplitPrefix(parts[0], Join(parts[1..], [c]), c);
    }
  }

  /** A string without the separator splits into itself. */
  lemma {:induction false} SplitNoSep(s: string, c: char)
    requires NoneIn(s, c)
    ensures Split(s, {c}) == [s]
    decreases |s|
  {
    if s != [] {
      SplitNoSep(s[1..], c);
      assert [s[0]] + s[1..] == s;
    }
  }

  /** A separator-free prefix followed by the separator becomes the first part. */
  lemma {:induction false} SplitPrefix(a: string, b: string, c: char)
    requires NoneIn(a, c)
    ensures Split(a + [c] + b, {c}) == [a] + Split(b, {c})
    decreases |a|
  {
    if a == [] {
      assert a + [c] + b == [c] + b;
      assert ([c] + b)[1..] == b;
    } else {
      SplitPrefix(a[1..], b, c);
      assert (a + [c] + b)[1..] == a[1..] + [c] + b;
      assert [a[0]] + a[1..] == a;
    }
  }

  /** Joining with `c` undoes splitting on `c`. */
  lemma {:induction false} JoinSplit(s: string, c: char)
    ensures Join(Split(s, {c}), [c]) == s
    decreases |s|
  {
    if s != [] {
      JoinSplit(s[1..], c);
      var rest := Split(s[1..], {c});
      if s[0] == c {
        assert Split(s, {c}) == [""] + rest;
        assert ([""] + rest)[1..] == rest;
        assert [c] + s[1..] == s;
      } else {
        var parts := Split(s, {c});
        assert parts == [[s[0]] + rest[0]] + rest[1..];
        if |rest| == 1 {
          assert [s[0]] + s[1..] == s;
        } else {
          assert parts[1..] == rest[1..];
          assert Join(rest, [c]) == rest[0] + [c] + Join(rest[1..], [c]);
          assert [s[0]] + s[1..] == s;
        }
      }
    }
  }

  /** The lines `ls`, each followed by a newline (text assembled line by line). */
  function Terminated(ls: seq<string>): (r: string)
    ensures |ls| > 0 ==> r != []
    decreases |ls|
  {
    if ls == [] then "" else ls[0] + "\n" + Terminated(ls[1..])
  }

  /** Newline-terminated lines read back as those lines followed by one empty part. */
  lemma {:induction false} SplitTerminated(ls: seq<string>)
    requires forall k :: 0 <= k < |ls| ==> NoneIn(ls[k], '\n')
    ensures Split(Terminated(ls), {'\n'}) == ls + [""]
    decreases |ls|
  {
    if ls != [] {
      SplitTerminated(ls[1..]);
      SplitPrefix(ls[0], Terminated(ls[1..]), '\n');
      assert [ls[0]] + (ls[1..] + [""]) == ls + [""];
    }
  }

  /** The text of two line lists is the text of the first followed by that of the second. */
  lemma {:induction false} TerminatedConcat(a: seq<string>, b: seq<string>)
    ensures Terminated(a + b) == Terminated(a) + Terminated(b)
    decreases |a|
  {
    if a == [] {
      assert a + b == b;
    } else {
      TerminatedConcat(a[1..], b);
      assert (a + b)[1..] == a[1..] + b;
    }
  }

  /** Appending `a` and a newline to a text adds the line `a`. */
  lemma EmitLine(ls: seq<string>, a: string)
    ensures Terminated(ls + [a]) == Terminated(ls) + (a + "\n")
  {
    TerminatedConcat(ls, [a]);
  }

  /** Appending `a` and two newlines to a text adds the line `a` and a blank line. */
  lemma EmitParagraph(ls: seq<string>, a: string)
    ensures Terminated(ls + [a, ""]) == Terminated(ls) + (a + "\n\n")
  {
    TerminatedConcat(ls, [a, ""]);
    assert [a, ""][1..] == [""];
    assert Terminated([""]) == "\n";
    assert Terminated([a, ""]) == a + "\n" + "\n";
    assert a + "\n" + "\n" == a + "\n\n";
  }

  /** Writing a line onto a text that ends with the lines `ls`. */
  lemma WriteLine(md: string, ls: seq<string>, a: string)
    ensures md + Terminated(ls) + (a + "\n") == md + Terminated(ls + [a])
  {
    EmitLine(ls, a);
  }

  /** Writing a line and a blank line onto a text that ends with the lines `ls`. */
  lemma WriteParagraph(md: string, ls: seq<string>, a: string)
    ensures md + Terminated(ls) + (a + "\n\n") == md + Terminated(ls + [a, ""])
  {
    EmitParagraph(ls, a);
  }

  /** Writing the lines `more` onto a text that ends with the lines `ls`. */
  lemma WriteLines(md: string, ls: seq<string>, more: seq<string>)
    ensures md + Terminated(ls) + Terminated(more) == md + Terminated(ls + more)
  {
    TerminatedConcat(ls, more);
  }

  /** The text of `a` starts the text of `a + b`. */
  lemma TerminatedPrefix(a: seq<string>, b: seq<string>)
    ensures Terminated(a) <= Terminated(a + b)
  {
    TerminatedConcat(a, b);
    PrefixSuffix(Terminated(a), Terminated(b));
  }

  /** The text of `b` ends the text of `a + b`. */
  lemma TerminatedSuffix(a: seq<string>, b: seq<string>)
    ensures var t := Terminated(a + b);
      |Terminated(b)| <= |t| && t[|t| - |Terminated(b)|..] == Terminated(b)
  {
    TerminatedConcat(a, b);
    PrefixSuffix(Terminated(a), Terminated(b));
  }

  /** The parts written one after the other. */
  function Concat(parts: seq<string>): string
    decreases |parts|
  {
    if parts == [] then "" else parts[0] + Concat(parts[1..])
  }

  /** Writing one more part extends the text by exactly that part. */
  lemma {:induction false} ConcatAppend(parts: seq<string>, p: string)
    ensures Concat(parts + [p]) == Concat(parts) + p
    decreases |parts|
  {
    if parts == [] {
      assert parts + [p] == [p];
    } else {
      ConcatAppend(parts[1..], p);
      assert (parts + [p])[1..] == parts[1..] + [p];
    }
  }

  /** Writing one more part onto a text that ends with the parts `parts`. */
  lemma WriteConcat(md: string, parts: seq<string>, p: string)
    ensures md + Concat(parts) + p == md + Concat(parts + [p])
  {
    ConcatAppend(parts, p);
  }

  /** The first part written, then the rest. */
  lemma ConcatCons(p: string, rest: seq<string>)
    ensures Concat([p] + rest) == p + Concat(rest)
  {
    assert ([p] + rest)[1..] == rest;
  }

  /** Nothing written before a text leaves the text. */
  lemma EmptyPrefix(s: string)
    ensures "" + s == s
  {
  }

  /** A text is a prefix of itself followed by another, which is its suffix. */
  lemma PrefixSuffix(a: string, b: string)
    ensures a <= a + b
    ensures (a + b)[|a|..] == b
  {
  }

  /** `trimStart`: drop leading white space. */
  function TrimStart(s: string): (r: string)
    ensures |r| <= |s| && r == s[|s| - |r|..]
    ensures r == [] || r[0] !in Whitespace
    ensures s == [] || s[0] !in Whitespace ==> r == s
    decreases |s|
  {
    if s != [] && s[0] in Whitespace then TrimStart(s[1..]) else s
  }

  /** `trimEnd`: drop trailing white space. */
  function TrimEnd(s: string): (r: string)
    ensures |r| <= |s| && r == s[..|r|]
    ensures r == [] || r[|r| - 1] !in Whitespace
    ensures s == [] || s[|s| - 1] !in Whitespace ==> r == s
    decreases |s|
  {
    if s != [] && s[|s| - 1] in Whitespace then TrimEnd(s[..|s| - 1]) else s
  }

  /** `trim`: a contiguous slice of `s` with no white space at either end. */
  function Trim(s: string): (r: string)
    ensures r == [] || (r[0] !in Whitespace && r[|r| - 1] !in Whitespace)
    ensures exists i, j :: 0 <= i <= j <= |s| && r == s[i..j]
  {
    var t := TrimStart(s);
    var r := TrimEnd(t);
    assert r == s[|s| - |t|..][..|r|] == s[|s| - |t|..|s| - |t| + |r|];
    r
  }

  /** A string that already has no white space at either end is its own trim. */
  lemma TrimFixed(s: string)
    requires s == [] || (s[0] !in Whitespace && s[|s| - 1] !in Whitespace)
    ensures Trim(s) == s
  {
  }

  predicate IsDigit(c: char) { '0' <= c <= '9' }

  function DigitChar(d: nat): (c: char)
    requires d < 10
    ensures IsDigit(c)
  {
    ['0', '1', '2', '3', '4', '5', '6', '7', '8', '9'][d]
  }

  /** Decimal rendering of a natural number, as JavaScript prints an integer. */
  function NatToString(n: nat): (r: string)
    ensures r != []
    ensures forall i :: 0 <= i < |r| ==> IsDigit(r[i])
  {
    if n < 10 then [DigitChar(n)] else NatToString(n / 10) + [DigitChar(n % 10)]
  }

  /** Decimal rendering of an integer, with a leading `-` when negative. */
  function IntToString(n: int): (r: string)
    ensures r != []
    ensures n >= 0 <==> IsDigit(r[0])
  {
    if n >= 0 then NatToString(n) else "-" + NatToString(-n)
  }
}
