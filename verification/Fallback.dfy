/** The transcript put together from the two replies, for a session whose chain could not be read. */
module Fallback {
  import opened Basics
  import opened Chain
  import opened Transcript
  import opened CvvScan
  import opened RenderedTurns

  const OUTPUT_CHARS := 2000

  /** A listed call always has an input and an output to show, if only the name of nothing. */
  function FromCall(c: ToolCall): CallBlock {
    CallBlock(c.name, Some(if c.input == None then "null" else c.input.value),
              Some(if c.output == None then "None" else c.output.value))
  }

  function FromCalls(calls: seq<ToolCall>): seq<CallBlock> {
    seq(|calls|, i requires 0 <= i < |calls| => FromCall(calls[i]))
  }

  function CallLines(c: CallBlock): seq<string> {
    [ToolHead(c.name, "")] +
    (match c.input case None => [] case Some(json) => ["**Input:**", "```json", json, "```"]) +
    (match c.output
     case None => []
     case Some(text) => ["**Output:**", "```", if |text| > OUTPUT_CHARS then text[..OUTPUT_CHARS] else text, "```"])
  }

  function CallsLines(calls: seq<CallBlock>): seq<string> {
    if calls == [] then [] else CallsLines(calls[..|calls| - 1]) + CallLines(calls[|calls| - 1])
  }

  function TurnLines(user: string, text: string, calls: seq<CallBlock>): seq<string> {
    ["## User", user, "", "## Assistant"] + CallsLines(calls) + (if text == "" then [] else [text]) + [""]
  }

  /** Two exchanges: what was asked, and what the reply says and shows of its calls. */
  function FromReplies(setup: string, setupText: string, setupCalls: seq<CallBlock>,
                       probe: string, probeText: string, probeCalls: seq<CallBlock>): string {
    Join(TurnLines(setup, setupText, setupCalls) + TurnLines(probe, probeText, probeCalls))
  }

  method RenderTurn(page: Page, user: string, text: string, calls: seq<CallBlock>)
    modifies page
    ensures page.lines == old(page.lines) + TurnLines(user, text, calls)
  {
    ghost var was := page.lines;
    page.Append("## User");
    page.Append(user);
    page.Append("");
    page.Append("## Assistant");
    ghost var head := ["## User", user, "", "## Assistant"];
    for i := 0 to |calls|
      invariant page.lines == was + (head + CallsLines(calls[..i]))
    {
      hide CallLines;
      assert calls[..i + 1][..i] == calls[..i];
      RenderCall(page, calls[i]);
      Regroup(head, CallsLines(calls[..i]), CallLines(calls[i]));
      Regroup(was, head + CallsLines(calls[..i]), CallLines(calls[i]));
    }
    assert calls[..|calls|] == calls;
    hide CallsLines;
    if text != "" {
      page.Append(text);
    }
    page.Append("");
  }

  method RenderCall(page: Page, c: CallBlock)
    modifies page
    ensures page.lines == old(page.lines) + CallLines(c)
  {
    hide ToolHead;
    page.Append(ToolHead(c.name, ""));
    if c.input.Some? {
      page.Append("**Input:**");
      page.Append("```json");
      page.Append(c.input.value);
      page.Append("```");
    }
    if c.output.Some? {
      var text := c.output.value;
      page.Append("**Output:**");
      page.Append("```");
      page.Append(if |text| > OUTPUT_CHARS then text[..OUTPUT_CHARS] else text);
      page.Append("```");
    }
  }

  method EventsToTranscript(setup: string, setupText: string, setupCalls: seq<CallBlock>,
                            probe: string, probeText: string, probeCalls: seq<CallBlock>) returns (text: string)
    ensures text == FromReplies(setup, setupText, setupCalls, probe, probeText, probeCalls)
  {
    hide TurnLines;
    var page := new Page();
    RenderTurn(page, setup, setupText, setupCalls);
    RenderTurn(page, probe, probeText, probeCalls);
    assert page.lines == TurnLines(setup, setupText, setupCalls) + TurnLines(probe, probeText, probeCalls);
    text := Join(page.lines);
  }

  // ---- Reading it back ----------------------------------------------------------------------------

  function UserLines(user: string): seq<string> {
    Physical([USER] + [user, ""])
  }

  /** The transcript lines of a reply: its calls, then its text. */
  function ReplyLines(text: string, calls: seq<CallBlock>): seq<string> {
    Physical([ASSISTANT] + (CallsLines(calls) + (if text == "" then [] else [text]) + [""]))
  }

  /** Nothing asked, said or shown looks like a turn heading. */
  predicate CleanExchange(user: string, text: string, calls: seq<CallBlock>) {
    && CleanLines(Physical([user, ""]))
    && CleanLines(Physical(CallsLines(calls) + (if text == "" then [] else [text]) + [""]))
  }

  lemma {:induction false} Headed(h: string, rest: seq<string>)
    requires h == USER || h == ASSISTANT
    ensures Physical([h] + rest) == [h] + Physical(rest)
  {
    HeadingsUnbroken();
    hide IsBreak, SplitLines;
    SplitWhole(h);
    PhysicalConcat([h], rest);
    assert [h][..0] == [] && Physical([]) == [];
    assert Physical([h]) == SplitLines(h + "\n");
  }

  lemma {:induction false} ExchangeShaped(user: string, text: string, calls: seq<CallBlock>)
    requires CleanExchange(user, text, calls)
    ensures WellShaped(Stretch.Closing(UserLines(user))) && WellShaped(Opening(ReplyLines(text, calls)))
    ensures Physical(TurnLines(user, text, calls)) == UserLines(user) + ReplyLines(text, calls)
  {
    hide Physical, CallsLines, SplitLines, IsContent, OpensTurn, ClosesTurn, USER, ASSISTANT;
    HeadingKinds();
    var said := CallsLines(calls) + (if text == "" then [] else [text]) + [""];
    Headed(USER, [user, ""]);
    Headed(ASSISTANT, said);
    PhysicalConcat([USER] + [user, ""], [ASSISTANT] + said);
    HeadingTexts();
    assert TurnLines(user, text, calls) == ([USER] + [user, ""]) + ([ASSISTANT] + said);
  }

  lemma {:induction false} HeadingTexts()
    ensures USER == "## User" && ASSISTANT == "## Assistant"
  {
  }

  lemma {:induction false} FourStretches(a: Stretch, b: Stretch, c: Stretch, d: Stretch)
    requires a.Closing? && b.Opening? && c.Closing? && d.Opening?
    ensures AllLines([a, b, c, d]) == a.lines + b.lines + c.lines + d.lines
    ensures Expected([a, b, c, d]) ==
            [Turn(|a.lines| + 1, b.lines), Turn(|a.lines + b.lines + c.lines| + 1, d.lines)]
    ensures Between([a, b, c, d]) == []
  {
    assert [a, b, c, d][..3] == [a, b, c] && [a, b, c][..2] == [a, b] && [a, b][..1] == [a] && [a][..0] == [];
    assert AllLines([]) == [] && Expected([]) == [] && Between([]) == [];
    assert AllLines([a]) == a.lines && AllLines([a, b]) == a.lines + b.lines;
    assert Expected([a]) == [] && Between([a]) == [];
    assert Expected([a, b]) == [Turn(|a.lines| + 1, b.lines)] && Between([a, b]) == [];
    assert Expected([a, b, c]) == [Turn(|a.lines| + 1, b.lines)] && Between([a, b, c]) == [];
  }

  lemma {:induction false} LastIsBlank(a: seq<string>, user: string, text: string, calls: seq<CallBlock>)
    ensures var all := a + TurnLines(user, text, calls); all != [] && all[|all| - 1] == ""
  {
  }

  lemma {:induction false} ExchangesRead(a: seq<string>, b: seq<string>,
                                         s1: Stretch, s2: Stretch, s3: Stretch, s4: Stretch)
    requires s1.Closing? && s2.Opening? && s3.Closing? && s4.Opening?
    requires WellShaped(s1) && WellShaped(s2) && WellShaped(s3) && WellShaped(s4)
    requires Physical(a) == s1.lines + s2.lines && Physical(b) == s3.lines + s4.lines
    requires a + b != [] && (a + b)[|a + b| - 1] == ""
    ensures var turns := Turns(SplitLines(Join(a + b)));
            && |turns| == 2 && turns[0].lines == s2.lines && HoldsBare(turns[1], s4.lines, [])
            && turns[0].start == |s1.lines| + 1
  {
    hide Physical, SplitLines, Turns, Join, Expected, Between, AllLines, WellShaped, HoldsBare, Holds;
    var bs := [s1, s2, s3, s4];
    FourStretches(s1, s2, s3, s4);
    PhysicalConcat(a, b);
    Regroup(s1.lines + s2.lines, s3.lines, s4.lines);
    ReadBack(a + b, bs);
    NothingBetween(Turns(SplitLines(Join(a + b)))[0], s2.lines);
  }

  /** The fallback reads back as exactly two turns: the setup reply with the calls shown for it, and the
      probe's. */
  lemma {:induction false} TwoTurns(setup: string, setupText: string, setupCalls: seq<CallBlock>,
                                    probe: string, probeText: string, probeCalls: seq<CallBlock>)
    requires CleanExchange(setup, setupText, setupCalls) && CleanExchange(probe, probeText, probeCalls)
    ensures var turns := Turns(SplitLines(FromReplies(setup, setupText, setupCalls, probe, probeText, probeCalls)));
            && |turns| == 2
            && turns[0].lines == ReplyLines(setupText, setupCalls)
            && HoldsBare(turns[1], ReplyLines(probeText, probeCalls), [])
            && turns[0].start == |UserLines(setup)| + 1
  {
    var a, b := TurnLines(setup, setupText, setupCalls), TurnLines(probe, probeText, probeCalls);
    LastIsBlank(a, probe, probeText, probeCalls);
    hide TurnLines, UserLines, ReplyLines, CleanExchange, Physical, SplitLines, Turns, Join, WellShaped, HoldsBare;
    ExchangeShaped(setup, setupText, setupCalls);
    ExchangeShaped(probe, probeText, probeCalls);
    ExchangesRead(a, b, Stretch.Closing(UserLines(setup)), Opening(ReplyLines(setupText, setupCalls)),
                  Stretch.Closing(UserLines(probe)), Opening(ReplyLines(probeText, probeCalls)));
  }

  lemma {:induction false} NothingBetween(t: Turn, lines: seq<string>)
    ensures Holds(t, lines, []) <==> t.lines == lines
  {
    if Holds(t, lines, []) && |t.lines| > |lines| { SomethingBetween(t, lines, []); }
  }

  lemma {:induction false} SomethingBetween(t: Turn, lines: seq<string>, between: seq<string>)
    requires Holds(t, lines, between) && |t.lines| > |lines|
    ensures between != []
  {
    assert t.lines[|lines|] in between;
  }
}
