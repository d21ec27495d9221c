/** The JSONC comment stripper, against a grammar of text segments.

    A configuration text is read as a sequence of segments: single plain characters, quoted
    strings, line comments and block comments.  `Parse` and `Render` are inverse on well-formed
    sequences, so the meaning of stripping can be stated once: drop the comment segments.
  */
module Jsonc {

  /** `closed` is false for a string or block comment that the end of the text cuts off. */
  datatype Segment =
    | Plain(c: char)
    | Quoted(body: string, closed: bool)
    | LineComment(body: string)
    | BlockComment(body: string, closed: bool)

  function Text(g: Segment): string {
    match g
    case Plain(c) => [c]
    case Quoted(body, closed) => "\"" + body + (if closed then "\"" else "")
    case LineComment(body) => "//" + body
    case BlockComment(body, closed) => "/*" + body + (if closed then "*/" else "")
  }

  function Render(gs: seq<Segment>): string {
    if gs == [] then "" else Text(gs[0]) + Render(gs[1..])
  }

  predicate IsComment(g: Segment) {
    g.LineComment? || g.BlockComment?
  }

  function WithoutComments(gs: seq<Segment>): seq<Segment> {
    if gs == [] then []
    else if IsComment(gs[0]) then WithoutComments(gs[1..])
    else [gs[0]] + WithoutComments(gs[1..])
  }

  /** Offset of the quote that closes a string, or |s| when nothing closes it. */
  function StringEnd(s: string, escape: bool): (k: nat)
    ensures k <= |s|
    ensures k < |s| ==> s[k] == '"'
  {
    if s == "" then 0
    else if escape then 1 + StringEnd(s[1..], false)
    else if s[0] == '"' then 0
    else 1 + StringEnd(s[1..], s[0] == '\\')
  }

  /** Offset of the first newline, or |s|. */
  function LineEnd(s: string): (k: nat)
    ensures k <= |s|
    ensures k < |s| ==> s[k] == '\n'
    ensures forall i :: 0 <= i < k ==> s[i] != '\n'
  {
    if s == "" || s[0] == '\n' then 0 else 1 + LineEnd(s[1..])
  }

  predicate ClosesAt(s: string, i: nat) {
    i + 1 < |s| && s[i] == '*' && s[i + 1] == '/'
  }

  /** Offset of the first comment terminator, or |s|. */
  function BlockEnd(s: string): (k: nat)
    ensures k <= |s|
    ensures k < |s| ==> ClosesAt(s, k)
    ensures forall i: nat :: i < k ==> !ClosesAt(s, i)
  {
    if s == "" then 0
    else if ClosesAt(s, 0) then 0
    else
      var k := 1 + BlockEnd(s[1..]);
      assert forall i: nat :: 0 < i ==> (ClosesAt(s, i) <==> ClosesAt(s[1..], i - 1));
      k
  }

  /** May segment `g` stand directly before the text `after`? */
  predicate Fits(g: Segment, after: string) {
    match g
    case Plain(c) =>
      // a lone slash may not run into a character that would make it a comment
      c != '"' && (c == '/' && after != "" ==> after[0] != '/' && after[0] != '*')
    case Quoted(body, closed) =>
      StringEnd(body, false) == |body| &&
      (if closed then StringEnd(body + "\"", false) == |body| else after == "")
    case LineComment(body) =>
      '\n' !in body && (after != "" ==> after[0] == '\n')
    case BlockComment(body, closed) =>
      BlockEnd(body) == |body| && (!closed ==> after == "")
  }

  predicate WellFormed(gs: seq<Segment>) {
    gs == [] || (Fits(gs[0], Render(gs[1..])) && WellFormed(gs[1..]))
  }

  predicate Starts(g: Segment, s: string) {
    0 < |Text(g)| <= |s| && Text(g) == s[..|Text(g)|]
  }

  lemma {:induction false} QuotedText(t: string, k: nat)
    requires k <= |t| && (k < |t| ==> t[k] == '"')
    ensures Starts(Quoted(t[..k], k < |t|), "\"" + t)
  {
    var s := "\"" + t;
    assert s == "\"" + t[..k] + t[k..];
    if k == |t| {
      assert t[..k] == t && Text(Quoted(t, false)) == s;
    } else {
      assert Text(Quoted(t[..k], true)) == s[..k + 2];
    }
  }

  lemma {:induction false} LineText(t: string, k: nat)
    requires k <= |t|
    ensures Starts(LineComment(t[..k]), "//" + t)
  {
  }

  lemma {:induction false} BlockText(t: string, k: nat)
    requires k <= |t| && (k < |t| ==> ClosesAt(t, k))
    ensures Starts(BlockComment(t[..k], k < |t|), "/*" + t)
  {
    var s := "/*" + t;
    if k == |t| {
      assert t[..k] == t && Text(BlockComment(t, false)) == s;
    } else {
      assert Text(BlockComment(t[..k], true)) == s[..k + 4];
    }
  }

  function Head(s: string): (g: Segment)
    requires s != ""
    ensures 0 < |Text(g)| <= |s| && Text(g) == s[..|Text(g)|]
  {
    hide StringEnd, BlockEnd, LineEnd;
    if s[0] == '"' then
      var t := s[1..];
      var k := StringEnd(t, false);
      assert s == "\"" + t;
      QuotedText(t, k);
      Quoted(t[..k], k < |t|)
    else if |s| > 1 && s[0] == '/' && s[1] == '/' then
      var t := s[2..];
      assert s == "//" + t;
      LineText(t, LineEnd(t));
      LineComment(t[..LineEnd(t)])
    else if |s| > 1 && s[0] == '/' && s[1] == '*' then
      var t := s[2..];
      var k := BlockEnd(t);
      assert s == "/*" + t;
      BlockText(t, k);
      BlockComment(t[..k], k < |t|)
    else
      Plain(s[0])
  }

  function Parse(s: string): seq<Segment>
    decreases |s|
  {
    if s == "" then [] else [Head(s)] + Parse(s[|Text(Head(s))|..])
  }

  /** What stripping means: render the text again without its comment segments. */
  function Stripped(s: string): string {
    Render(WithoutComments(Parse(s)))
  }

  // ---- Parse and Render are inverse ---------------------------------------------------------

  lemma {:induction false} StringEndStep(c: char, s: string, escape: bool)
    ensures StringEnd([c] + s, escape) ==
            if !escape && c == '"' then 0 else 1 + StringEnd(s, !escape && c == '\\')
  {
    assert ([c] + s)[1..] == s;
  }

  lemma {:induction false} StringEndMore(s: string, rest: string, escape: bool)
    ensures StringEnd(s, escape) < |s| ==> StringEnd(s + rest, escape) == StringEnd(s, escape)
  {
    if s != "" {
      var c, t := s[0], s[1..];
      assert s == [c] + t && s + rest == [c] + (t + rest);
      hide StringEnd;
      StringEndStep(c, t, escape);
      StringEndStep(c, t + rest, escape);
      StringEndMore(t, rest, !escape && c == '\\');
    }
  }

  lemma {:induction false} StringEndFront(s: string, escape: bool)
    ensures StringEnd(s[..StringEnd(s, escape)], escape) == StringEnd(s, escape)
  {
    if s == "" {
      assert s[..StringEnd(s, escape)] == "";
    } else {
      hide StringEnd;
      var c, t := s[0], s[1..];
      var next := !escape && c == '\\';
      assert s == [c] + t;
      StringEndStep(c, t, escape);
      StringEndFront(t, next);
      if escape || c != '"' {
        var k := StringEnd(t, next);
        assert s[..k + 1] == [c] + t[..k];
        StringEndStep(c, t[..k], escape);
      } else {
        StringEndNone(escape);
        assert s[..0] == "";
      }
    }
  }

  lemma {:induction false} StringEndPrefix(s: string, rest: string, escape: bool)
    ensures StringEnd(s, escape) < |s| ==> StringEnd(s + rest, escape) == StringEnd(s, escape)
    ensures StringEnd(s[..StringEnd(s, escape)], escape) == StringEnd(s, escape)
  {
    hide StringEnd;
    StringEndMore(s, rest, escape);
    StringEndFront(s, escape);
  }

  lemma {:induction false} StringEndNone(escape: bool)
    ensures StringEnd("", escape) == 0
  {
  }

  lemma {:induction false} BlockEndPrefix(s: string, k: nat, rest: string)
    requires k <= |s| && BlockEnd(s[..k]) == k
    requires rest != "" ==> rest[0] == '*'
    ensures forall i: nat :: i < k ==> !ClosesAt(s[..k] + rest, i)
  {
    var t := s[..k] + rest;
    forall i: nat | i < k
      ensures !ClosesAt(t, i)
    {
      assert !ClosesAt(s[..k], i);
    }
  }

  lemma {:induction false} BlockEndUnique(s: string, k: nat)
    requires k <= |s|
    requires k < |s| ==> ClosesAt(s, k)
    requires forall i: nat :: i < k ==> !ClosesAt(s, i)
    ensures BlockEnd(s) == k
  {
    var e: nat := BlockEnd(s);
    assert ClosesAt(s, e) || e == |s|;
    assert ClosesAt(s, k) || k == |s|;
  }

  lemma {:induction false} LineEndUnique(s: string, k: nat)
    requires k <= |s| && forall i :: 0 <= i < k ==> s[i] != '\n'
    requires k < |s| ==> s[k] == '\n'
    ensures LineEnd(s) == k
  {
  }

  lemma {:induction false} QuotedFits(t: string, k: nat)
    requires k == StringEnd(t, false)
    ensures StringEnd(t[..k], false) == k
    ensures k < |t| ==> StringEnd(t[..k] + "\"", false) == k
  {
    StringEndPrefix(t, "", false);
    if k < |t| {
      StringEndWithQuote(t, k, false);
      hide StringEnd;
      assert t[..k + 1] == t[..k] + "\"";
    }
  }

  lemma {:induction false} BlockFits(t: string, k: nat)
    requires k == BlockEnd(t)
    ensures Fits(BlockComment(t[..k], k < |t|), t[if k < |t| then k + 2 else k..])
  {
    var body := t[..k];
    forall i: nat | i < k ensures !ClosesAt(body, i) {
      assert !ClosesAt(t, i);
    }
    BlockEndUnique(body, k);
  }

  lemma {:induction false} HeadFits(s: string)
    requires s != ""
    ensures Fits(Head(s), s[|Text(Head(s))|..])
  {
    hide StringEnd, BlockEnd, LineEnd;
    var g := Head(s);
    match g {
      case Quoted(body, closed) =>
        var t := s[1..];
        var k := StringEnd(t, false);
        QuotedFits(t, k);
        assert s[|Text(g)|..] == t[if k < |t| then k + 1 else k..];
      case BlockComment(body, closed) =>
        var t := s[2..];
        var k := BlockEnd(t);
        BlockFits(t, k);
        assert s[|Text(g)|..] == t[if k < |t| then k + 2 else k..];
      case LineComment(body) =>
        var t := s[2..];
        LineFits(t);
        assert s[|Text(g)|..] == t[LineEnd(t)..];
      case Plain(c) =>
        PlainFits(s);
    }
  }

  lemma {:induction false} LineFits(t: string)
    ensures Fits(LineComment(t[..LineEnd(t)]), t[LineEnd(t)..])
  {
    hide LineEnd;
  }

  lemma {:induction false} PlainFits(s: string)
    requires s != "" && Head(s).Plain?
    ensures Fits(Head(s), s[1..])
  {
    hide StringEnd, BlockEnd, LineEnd;
  }

  lemma {:induction false} StringEndWithQuote(s: string, k: nat, escape: bool)
    requires k < |s| && StringEnd(s, escape) == k
    ensures StringEnd(s[..k + 1], escape) == k
  {
    if k > 0 {
      assert s[..k + 1][1..] == s[1..][..k];
      StringEndWithQuote(s[1..], k - 1, !escape && s[0] == '\\');
    }
  }

  /** Every text, well formed or not, is the rendering of its parse. */
  lemma {:induction false} RenderParse(s: string)
    ensures Render(Parse(s)) == s && WellFormed(Parse(s))
    decreases |s|
  {
    if s != "" {
      var g := Head(s);
      var after := s[|Text(g)|..];
      RenderParse(after);
      HeadFits(s);
      assert Parse(s)[1..] == Parse(after);
      assert s == Text(g) + after;
    }
  }

  /** A segment is recognised again in front of any text it fits. */
  lemma {:induction false} HeadOfText(g: Segment, after: string)
    requires Fits(g, after)
    ensures Head(Text(g) + after) == g
  {
    var s := Text(g) + after;
    match g {
      case Plain(c) =>
        assert after != "" ==> s[1] == after[0];
      case Quoted(body, closed) =>
        HeadOfQuoted(body, closed, after);
      case LineComment(body) =>
        var t := s[2..];
        assert t == body + after;
        assert t[..|body|] == body;
        LineEndUnique(t, |body|);
      case BlockComment(body, closed) =>
        HeadOfBlock(body, closed, after);
    }
  }

  lemma {:induction false} HeadOfQuoted(body: string, closed: bool, after: string)
    requires Fits(Quoted(body, closed), after)
    ensures Head(Text(Quoted(body, closed)) + after) == Quoted(body, closed)
  {
    var s := Text(Quoted(body, closed)) + after;
    var t := s[1..];
    if closed {
      assert t == (body + "\"") + after;
      StringEndPrefix(body + "\"", after, false);
    } else {
      assert t == body;
    }
    assert t[..|body|] == body;
  }

  lemma {:induction false} HeadOfBlock(body: string, closed: bool, after: string)
    requires Fits(BlockComment(body, closed), after)
    ensures Head(Text(BlockComment(body, closed)) + after) == BlockComment(body, closed)
  {
    var s := Text(BlockComment(body, closed)) + after;
    var t := s[2..];
    var rest := (if closed then "*/" else "") + after;
    assert t == body + rest;
    assert body[..|body|] == body;
    BlockEndPrefix(body, |body|, rest);
    if closed {
      assert t[|body|] == '*' && t[|body| + 1] == '/';
    }
    BlockEndUnique(t, |body|);
    assert t[..|body|] == body;
  }

  /** Parsing recovers every well-formed sequence of segments from its rendering. */
  lemma {:induction false} ParseFront(g: Segment, after: string)
    requires Fits(g, after)
    ensures Parse(Text(g) + after) == [g] + Parse(after)
  {
    hide Fits, Head;
    HeadOfText(g, after);
    var s := Text(g) + after;
    assert |Text(Head(s))| > 0;
    hide Text;
    assert s[|Text(g)|..] == after;
  }

  lemma {:induction false} ParseRender(gs: seq<Segment>)
    requires WellFormed(gs)
    ensures Parse(Render(gs)) == gs
  {
    if gs != [] {
      hide Parse, Fits, Text, Head;
      ParseFront(gs[0], Render(gs[1..]));
      ParseRender(gs[1..]);
      assert gs == [gs[0]] + gs[1..];
    }
  }

  // ---- What stripping does ------------------------------------------------------------------

  /** Stripping the rendering of any well-formed segments leaves the rendering of the others. */
  lemma {:induction false} StripInvertsRender(gs: seq<Segment>)
    requires WellFormed(gs)
    ensures Stripped(Render(gs)) == Render(WithoutComments(gs))
  {
    ParseRender(gs);
  }

  lemma {:induction false} WithoutCommentsWellFormed(gs: seq<Segment>)
    requires WellFormed(gs)
    ensures WellFormed(WithoutComments(gs))
    ensures gs != [] && !IsComment(gs[0]) ==> WithoutComments(gs) != [] && WithoutComments(gs)[0] == gs[0]
    ensures Render(gs) == "" ==> Render(WithoutComments(gs)) == ""
    ensures forall g <- WithoutComments(gs) :: !IsComment(g)
  {
    if gs != [] {
      WithoutCommentsWellFormed(gs[1..]);
      assert gs[1..] != [] ==> |Text(gs[1])| > 0 && Render(gs[1..])[0] == Text(gs[1])[0];
      var kept := WithoutComments(gs[1..]);
      if !IsComment(gs[0]) {
        assert ([gs[0]] + kept)[1..] == kept;
        assert kept != [] ==> Render(kept)[0] == Text(kept[0])[0];
      }
    }
  }

  lemma {:induction false} NothingToDrop(gs: seq<Segment>)
    requires forall g <- gs :: !IsComment(g)
    ensures WithoutComments(gs) == gs
  {
    if gs != [] {
      NothingToDrop(gs[1..]);
      assert gs == [gs[0]] + gs[1..];
    }
  }

  /** Stripping twice is stripping once, on every text. */
  lemma {:induction false} StripIdempotent(s: string)
    ensures Stripped(Stripped(s)) == Stripped(s)
  {
    RenderParse(s);
    var kept := WithoutComments(Parse(s));
    WithoutCommentsWellFormed(Parse(s));
    ParseRender(kept);
    NothingToDrop(kept);
  }

  /** a is obtained from b by deleting characters. */
  predicate Subsequence(a: string, b: string) {
    a == "" || (b != "" && ((a[0] == b[0] && Subsequence(a[1..], b[1..])) || Subsequence(a, b[1..])))
  }

  lemma {:induction false} SubsequenceSkip(a: string, skipped: string, b: string)
    requires Subsequence(a, b)
    ensures Subsequence(a, skipped + b)
  {
    if skipped == "" {
      assert skipped + b == b;
    } else {
      SubsequenceSkip(a, skipped[1..], b);
      assert (skipped + b)[1..] == skipped[1..] + b;
    }
  }

  lemma {:induction false} SubsequenceKeep(kept: string, a: string, b: string)
    requires Subsequence(a, b)
    ensures Subsequence(kept + a, kept + b)
  {
    if kept == "" {
      assert kept + a == a && kept + b == b;
    } else {
      SubsequenceKeep(kept[1..], a, b);
      assert (kept + a)[1..] == kept[1..] + a && (kept + b)[1..] == kept[1..] + b;
    }
  }

  lemma {:induction false} WithoutCommentsSubsequence(gs: seq<Segment>)
    ensures Subsequence(Render(WithoutComments(gs)), Render(gs))
  {
    if gs != [] {
      WithoutCommentsSubsequence(gs[1..]);
      var kept := WithoutComments(gs[1..]);
      if IsComment(gs[0]) {
        SubsequenceSkip(Render(kept), Text(gs[0]), Render(gs[1..]));
      } else {
        assert ([gs[0]] + kept)[1..] == kept;
        SubsequenceKeep(Text(gs[0]), Render(kept), Render(gs[1..]));
      }
    }
  }

  /** Stripping only deletes: it never reorders or invents characters. */
  lemma {:induction false} StripIsSubsequence(s: string)
    ensures Subsequence(Stripped(s), s)
  {
    RenderParse(s);
    WithoutCommentsSubsequence(Parse(s));
  }

  // ---- The state machine --------------------------------------------------------------------

  /** What the loop still has to output from position i on. */
  ghost function Rest(text: string, i: nat, inString: bool, escape: bool): string {
    if i > |text| then ""
    else if !inString then Stripped(text[i..])
    else
      var s := text[i..];
      var k := StringEnd(s, escape);
      if k == |s| then s else s[..k + 1] + Stripped(s[k + 1..])
  }

  lemma {:induction false} StrippedEmpty()
    ensures Stripped("") == ""
  {
  }

  lemma {:induction false} StrippedStep(s: string)
    requires s != ""
    ensures Stripped(s) == (if IsComment(Head(s)) then "" else Text(Head(s))) + Stripped(s[|Text(Head(s))|..])
  {
    var after := Parse(s[|Text(Head(s))|..]);
    assert Parse(s)[1..] == after;
    var kept := WithoutComments(after);
    assert ([Head(s)] + kept)[1..] == kept;
  }

  lemma {:induction false} StepInString(text: string, i: nat, escape: bool)
    requires i < |text|
    ensures Rest(text, i, true, escape) == [text[i]] +
              (if !escape && text[i] == '"' then Rest(text, i + 1, false, false)
               else Rest(text, i + 1, true, !escape && text[i] == '\\'))
  {
    hide Stripped;
    var s, t := text[i..], text[i + 1..];
    assert s == [text[i]] + t && s[1..] == t;
    var k := StringEnd(s, escape);
    hide StringEnd;
    if 0 < k < |s| {
      assert s[..k + 1] == [text[i]] + t[..k];
      assert s[k + 1..] == t[k..];
      assert s[..k + 1] + Stripped(t[k..]) == [text[i]] + (t[..k] + Stripped(t[k..]));
    }
  }

  lemma {:induction false} OpenHead(t: string, k: nat)
    requires k == StringEnd(t, false)
    ensures Head("\"" + t) == Quoted(t[..k], k < |t|)
  {
    assert ("\"" + t)[1..] == t;
  }

  lemma {:induction false} StrippedOpen(t: string, k: nat)
    requires k == StringEnd(t, false)
    ensures Stripped("\"" + t) == "\"" + (if k < |t| then t[..k + 1] + Stripped(t[k + 1..]) else t)
  {
    hide Stripped, Head, StringEnd;
    OpenHead(t, k);
    var s := "\"" + t;
    StrippedStep(s);
    StrippedEmpty();
    var g := Head(s);
    if k < |t| {
      assert Text(g) == "\"" + t[..k + 1];
      assert s[k + 2..] == t[k + 1..];
      assert Text(g) + Stripped(t[k + 1..]) == "\"" + (t[..k + 1] + Stripped(t[k + 1..]));
    } else {
      assert t[..k] == t;
      assert Text(g) == s;
      assert s[|s|..] == "" && s + "" == s;
    }
  }

  lemma {:induction false} StepOpen(text: string, i: nat)
    requires i < |text| && text[i] == '"'
    ensures Rest(text, i, false, false) == [text[i]] + Rest(text, i + 1, true, false)
  {
    hide Stripped;
    var t := text[i + 1..];
    assert text[i..] == "\"" + t;
    StrippedOpen(t, StringEnd(t, false));
  }

  lemma {:induction false} LineHead(s: string, k: nat)
    requires |s| > 1 && s[0] == '/' && s[1] == '/' && k == LineEnd(s[2..])
    ensures Head(s).LineComment? && |Text(Head(s))| == k + 2
  {
    hide LineEnd, StringEnd, BlockEnd;
  }

  lemma {:induction false} StepLineComment(text: string, i: nat, j: nat)
    requires i + 1 < |text| && text[i] == '/' && text[i + 1] == '/'
    requires i + 2 <= j <= |text| && (j < |text| ==> text[j] == '\n')
    requires forall k :: i <= k < j ==> text[k] != '\n'
    ensures Rest(text, i, false, false) == Rest(text, j, false, false)
  {
    hide Stripped, Head;
    var s := text[i..];
    var t := s[2..];
    forall k | 0 <= k < j - i - 2 ensures t[k] != '\n' {
      assert t[k] == text[k + i + 2];
    }
    LineEndUnique(t, j - i - 2);
    LineHead(s, j - i - 2);
    StrippedStep(s);
    assert text[j..] == s[j - i..];
  }

  lemma {:induction false} BlockHead(s: string, k: nat)
    requires |s| > 1 && s[0] == '/' && s[1] == '*' && k == BlockEnd(s[2..])
    ensures Head(s).BlockComment? && |Text(Head(s))| == (if 2 + k < |s| then k + 4 else |s|)
  {
  }

  lemma {:induction false} StepBlockComment(text: string, i: nat, j: nat)
    requires i + 1 < |text| && text[i] == '/' && text[i + 1] == '*'
    requires i + 2 <= j <= |text| && (j + 1 < |text| ==> ClosesAt(text, j))
    requires forall k: nat :: i + 2 <= k < j ==> !ClosesAt(text, k)
    ensures Rest(text, i, false, false) == Rest(text, j + 2, false, false)
  {
    hide Stripped, Head, BlockEnd;
    var s, t := text[i..], text[i + 2..];
    assert s[2..] == t;
    var e := if j + 1 < |text| then j - i - 2 else |t|;
    CommentEnds(text, i + 2, j);
    BlockHead(s, e);
    StrippedStep(s);
    if j + 1 < |text| {
      assert text[j + 2..] == s[j - i + 2..];
    } else {
      StrippedEmpty();
      assert s[|s|..] == "" && text[|text|..] == "";
    }
  }

  lemma {:induction false} CommentEnds(text: string, from: nat, j: nat)
    requires from <= j <= |text| && (j + 1 < |text| ==> ClosesAt(text, j))
    requires forall k: nat :: from <= k < j ==> !ClosesAt(text, k)
    ensures BlockEnd(text[from..]) == if j + 1 < |text| then j - from else |text| - from
  {
    hide BlockEnd;
    var t := text[from..];
    forall k: nat | k < j - from ensures !ClosesAt(t, k) {
      assert !ClosesAt(text, k + from);
    }
    BlockEndUnique(t, if j + 1 < |text| then j - from else |t|);
  }

  lemma {:induction false} StepPlain(text: string, i: nat)
    requires i < |text| && text[i] != '"'
    requires text[i] == '/' && i + 1 < |text| ==> text[i + 1] != '/' && text[i + 1] != '*'
    ensures Rest(text, i, false, false) == [text[i]] + Rest(text, i + 1, false, false)
  {
    StrippedStep(text[i..]);
    assert text[i..][1..] == text[i + 1..];
  }

  /** The loop invariant: what was output, then what is still owed, is the stripped text. */
  ghost predicate Owes(text: string, result: string, i: nat, inString: bool, escape: bool) {
    result + Rest(text, i, inString, escape) == Stripped(text)
  }

  lemma {:induction false} OwesSame(text: string, result: string, i: nat, j: nat)
    requires Owes(text, result, i, false, false)
    requires Rest(text, i, false, false) == Rest(text, j, false, false)
    ensures Owes(text, result, j, false, false)
  {
  }

  lemma {:induction false} OwesLess(text: string, result: string, i: nat, was: (bool, bool), now: (bool, bool))
    requires i < |text| && Owes(text, result, i, was.0, was.1)
    requires Rest(text, i, was.0, was.1) == [text[i]] + Rest(text, i + 1, now.0, now.1)
    ensures Owes(text, result + [text[i]], i + 1, now.0, now.1)
  {
    hide Rest, Stripped;
    var rest := Rest(text, i + 1, now.0, now.1);
    assert result + ([text[i]] + rest) == (result + [text[i]]) + rest;
  }

  lemma {:induction false} OwesAtStart(text: string)
    ensures Owes(text, "", 0, false, false)
  {
    assert text[0..] == text;
  }

  lemma {:induction false} OwesAtEnd(text: string, result: string, i: nat, inString: bool, escape: bool)
    requires i >= |text| && Owes(text, result, i, inString, escape)
    ensures result == Stripped(text)
  {
    assert i == |text| ==> text[i..] == "";
    assert result + "" == result;
  }

  method StripJsoncComments(text: string) returns (result: string)
    ensures result == Stripped(text)
  {
    hide Owes, Stripped;
    result := "";
    var i, n := 0, |text|;
    var inString, escape := false, false;
    OwesAtStart(text);
    while i < n
      invariant inString || !escape
      invariant Owes(text, result, i, inString, escape)
      decreases n - i
    {
      var c := text[i];
      if inString {
        StepInString(text, i, escape);
        ghost var was := (inString, escape);
        if escape {
          escape := false;
        } else if c == '\\' {
          escape := true;
        } else if c == '"' {
          inString := false;
        }
        OwesLess(text, result, i, was, (inString, escape));
        result := result + [c];
        i := i + 1;
        continue;
      }
      if c == '"' {
        StepOpen(text, i);
        OwesLess(text, result, i, (false, false), (true, false));
        inString := true;
        result := result + [c];
        i := i + 1;
        continue;
      }
      if c == '/' && i + 1 < n && text[i + 1] == '/' {
        ghost var start := i;
        while i < n && text[i] != '\n'
          invariant start <= i <= n && (i < start + 2 ==> i < n && text[i] == '/')
          invariant forall k :: start <= k < i ==> text[k] != '\n'
        {
          i := i + 1;
        }
        StepLineComment(text, start, i);
        OwesSame(text, result, start, i);
        continue;
      }
      if c == '/' && i + 1 < n && text[i + 1] == '*' {
        ghost var start := i;
        i := i + 2;
        while i + 1 < n && !(text[i] == '*' && text[i + 1] == '/')
          invariant start + 2 <= i <= n
          invariant forall k: nat :: start + 2 <= k < i ==> !ClosesAt(text, k)
        {
          i := i + 1;
        }
        StepBlockComment(text, start, i);
        OwesSame(text, result, start, i + 2);
        i := i + 2;
        continue;
      }
      StepPlain(text, i);
      OwesLess(text, result, i, (false, false), (false, false));
      result := result + [c];
      i := i + 1;
    }
    OwesAtEnd(text, result, i, inString, escape);
  }
}
