/** Rendering a recorded chain as a transcript, and the lines and turns a scanner reads out of it. */
module Transcript {
  import opened Basics
  import opened Chain

  // ---- Rendering --------------------------------------------------------------------------------

  /** One call's worth of rendered lines; a tool part renders as one block of them. */
  datatype Block = Line(text: string) | ToolBlock(lines: seq<string>)

  function Lines(b: Block): seq<string> {
    match b
    case Line(text) => [text]
    case ToolBlock(lines) => lines
  }

  function Flatten(blocks: seq<Block>): seq<string> {
    if blocks == [] then [] else Flatten(blocks[..|blocks| - 1]) + Lines(blocks[|blocks| - 1])
  }

  function CutNote(more: nat): string {
    "[... " + Digits(more) + " more characters -- full output in this tier's raw.json message_chain]"
  }

  function OutputLines(output: string, cap: nat): seq<string> {
    ["**Output:**", "```"] +
    (if |output| > cap then [output[..cap], CutNote(|output| - cap)] else [output]) +
    ["```"]
  }

  function ToolHead(name: string, status: string): string {
    "**Tool: " + (if name == "" then "unknown" else name) + "**" +
    (if status == "" then "" else " (status: " + status + ")")
  }

  function InputLines(t: Part): seq<string>
    requires t.Tool?
  {
    match t.input case None => [] case Some(json) => ["**Input:**", "```json", json, "```"]
  }

  function RenderTool(t: Part, cap: nat): seq<string>
    requires t.Tool?
  {
    [ToolHead(t.name, t.status)] +
    InputLines(t) +
    (match t.output case None => [] case Some(text) => OutputLines(text, cap))
  }

  function RenderPart(p: Part, cap: nat): seq<Block> {
    match p
    case Words(text) => [Line(text)]
    case Reasoning(text) => [Line("**Reasoning:**"), Line(text)]
    case Tool(_, _, _, _) => [ToolBlock(RenderTool(p, cap))]
    case StepStart => []
    case OtherPart => []
  }

  function RenderParts(parts: seq<Part>, cap: nat): seq<Block> {
    if parts == [] then [] else RenderParts(parts[..|parts| - 1], cap) + RenderPart(parts[|parts| - 1], cap)
  }

  /** First character upper case, the others lower case, within Latin-1. */
  function Capitalize(s: string): string {
    if s == "" then ""
    else
      (if s[0] == '\U{df}' then "Ss" else [UpperChar(s[0])]) +
      seq(|s| - 1, i requires 0 <= i < |s| - 1 => LowerChar(s[i + 1]))
  }

  function Heading(role: string): string {
    "## " + Capitalize(if role == "" then "unknown" else role)
  }

  function Closing(m: Message): seq<Block> {
    (if m.finish == "" then [] else [Line("_[finish: " + m.finish + "]_")]) + [Line("")]
  }

  function RenderMessage(m: Message, cap: nat): seq<Block> {
    [Line(Heading(m.role))] + RenderParts(m.parts, cap) + Closing(m)
  }

  function RenderMessages(ms: seq<Message>, cap: nat): seq<Block> {
    if ms == [] then [] else RenderMessages(ms[..|ms| - 1], cap) + RenderMessage(ms[|ms| - 1], cap)
  }

  function ChildHeading(id: string): seq<Block> {
    [Line("# Subagent session " + id), Line("")]
  }

  function RenderChildren(children: seq<Child>, cap: nat): seq<Block> {
    if children == [] then []
    else
      var last := children[|children| - 1];
      RenderChildren(children[..|children| - 1], cap) + ChildHeading(last.id) + RenderMessages(last.messages, cap)
  }

  function Note(incomplete: Option<string>): seq<Block> {
    match incomplete
    case None => []
    case Some(why) => [Line("_[CAPTURE INCOMPLETE: " + why + "]_")]
  }

  /** `incomplete` is the reason recorded when something could not be fetched. */
  function Render(r: Record, incomplete: Option<string>, cap: nat): seq<Block> {
    RenderMessages(r.messages, cap) + RenderChildren(r.children, cap) + Note(incomplete)
  }

  function Join(lines: seq<string>): string {
    if lines == [] then ""
    else if |lines| == 1 then lines[0]
    else Join(lines[..|lines| - 1]) + "\n" + lines[|lines| - 1]
  }

  function ToolBlocks(blocks: seq<Block>): nat {
    if blocks == [] then 0
    else ToolBlocks(blocks[..|blocks| - 1]) + (if blocks[|blocks| - 1].ToolBlock? then 1 else 0)
  }

  // ---- The imperative renderer ------------------------------------------------------------------

  /** The growing list of lines that the renderers append to. */
  class Page {
    var lines: seq<string>

    constructor ()
      ensures lines == []
    {
      lines := [];
    }

    method Append(line: string)
      modifies this
      ensures lines == old(lines) + [line]
    {
      lines := lines + [line];
    }

    method WriteInput(t: Part)
      requires t.Tool?
      modifies this
      ensures lines == old(lines) + InputLines(t)
    {
      if t.input.Some? {
        Append("**Input:**");
        Append("```json");
        Append(t.input.value);
        Append("```");
      }
    }

    method WriteOutput(text: string, cap: nat)
      modifies this
      ensures lines == old(lines) + OutputLines(text, cap)
    {
      hide CutNote;
      Append("**Output:**");
      Append("```");
      if |text| > cap {
        Append(text[..cap]);
        Append(CutNote(|text| - cap));
      } else {
        Append(text);
      }
      Append("```");
    }

    method WriteTool(t: Part, cap: nat)
      requires t.Tool?
      modifies this
      ensures lines == old(lines) + RenderTool(t, cap)
    {
      hide ToolHead, InputLines, OutputLines;
      Append(ToolHead(t.name, t.status));
      WriteInput(t);
      if t.output.Some? {
        WriteOutput(t.output.value, cap);
      }
    }

    method WritePart(p: Part, cap: nat)
      modifies this
      ensures lines == old(lines) + Flatten(RenderPart(p, cap))
    {
      hide RenderTool, Flatten, RenderPart;
      RenderPartLines(p, cap);
      match p {
        case Words(text) =>
          Append(text);
        case Reasoning(text) =>
          Append("**Reasoning:**");
          Append(text);
        case Tool(_, _, _, _) =>
          WriteTool(p, cap);
        case StepStart =>
        case OtherPart =>
      }
    }

    method WriteMessage(m: Message, cap: nat)
      modifies this
      ensures lines == old(lines) + Flatten(RenderMessage(m, cap))
    {
      hide RenderTool, Heading, RenderPart, Closing, Flatten;
      var head := Heading(m.role);
      Append(head);
      OneBlock(Line(head));
      ghost var first := [Line(head)];
      FlattenConcat(first, []);
      assert Flatten(first + RenderParts(m.parts[..0], cap)) == [head] by { assert first + [] == first; }
      for i := 0 to |m.parts|
        invariant lines == old(lines) + Flatten(first + RenderParts(m.parts[..i], cap))
      {
        assert m.parts[..i + 1][..i] == m.parts[..i];
        WritePart(m.parts[i], cap);
        FlattenMore(first, RenderParts(m.parts[..i], cap), RenderPart(m.parts[i], cap), old(lines));
      }
      assert m.parts[..|m.parts|] == m.parts;
      FlattenMore(first + RenderParts(m.parts, cap), [], Closing(m), old(lines));
      assert first + RenderParts(m.parts, cap) + [] == first + RenderParts(m.parts, cap);
      ClosingLines(m);
      if m.finish != "" {
        Append("_[finish: " + m.finish + "]_");
      }
      Append("");
    }

    method WriteMessages(ms: seq<Message>, cap: nat)
      modifies this
      ensures lines == old(lines) + Flatten(RenderMessages(ms, cap))
    {
      hide RenderMessage, Flatten;
      NoBlocks();
      for i := 0 to |ms|
        invariant lines == old(lines) + Flatten(RenderMessages(ms[..i], cap))
      {
        assert ms[..i + 1][..i] == ms[..i];
        WriteMessage(ms[i], cap);
        FlattenMore(RenderMessages(ms[..i], cap), [], RenderMessage(ms[i], cap), old(lines));
        assert RenderMessages(ms[..i], cap) + [] == RenderMessages(ms[..i], cap);
      }
      assert ms[..|ms|] == ms;
    }
  }

  lemma {:induction false} NoBlocks()
    ensures Flatten([]) == []
  {
  }

  lemma {:induction false} OneBlock(b: Block)
    ensures Flatten([b]) == Lines(b)
  {
    assert [b][..0] == [];
  }

  lemma {:induction false} FlattenLast(blocks: seq<Block>, b: Block)
    ensures Flatten(blocks + [b]) == Flatten(blocks) + Lines(b)
  {
    hide Lines;
    assert (blocks + [b])[..|blocks|] == blocks;
  }

  lemma {:induction false} FlattenConcat(a: seq<Block>, b: seq<Block>)
    ensures Flatten(a + b) == Flatten(a) + Flatten(b)
  {
    if b == [] {
      assert a + b == a;
    } else {
      var init, last := b[..|b| - 1], b[|b| - 1];
      assert b == init + [last] && a + b == (a + init) + [last];
      FlattenConcat(a, init);
      hide Flatten, Lines;
      FlattenLast(a + init, last);
      FlattenLast(init, last);
      Regroup(Flatten(a), Flatten(init), Lines(last));
    }
  }

  lemma {:induction false} FlattenMore(a: seq<Block>, b: seq<Block>, c: seq<Block>, before: seq<string>)
    ensures before + Flatten(a + b) + Flatten(c) == before + Flatten(a + (b + c))
    ensures before + Flatten(a + b) + Flatten(c) == before + Flatten((a + b) + c)
  {
    assert a + (b + c) == (a + b) + c;
    FlattenConcat(a + b, c);
  }

  lemma {:induction false} TwoBlocks(a: Block, b: Block)
    ensures Flatten([a, b]) == Lines(a) + Lines(b)
  {
    assert [a, b] == [a] + [b];
    FlattenConcat([a], [b]);
    OneBlock(a);
    OneBlock(b);
  }

  lemma {:induction false} RenderPartLines(p: Part, cap: nat)
    ensures Flatten(RenderPart(p, cap)) ==
            (match p
             case Words(text) => [text]
             case Reasoning(text) => ["**Reasoning:**", text]
             case Tool(_, _, _, _) => RenderTool(p, cap)
             case StepStart => []
             case OtherPart => [])
  {
    hide RenderTool;
    match p {
      case Words(text) => OneBlock(Line(text));
      case Reasoning(text) => TwoBlocks(Line("**Reasoning:**"), Line(text));
      case Tool(_, _, _, _) => OneBlock(ToolBlock(RenderTool(p, cap)));
      case StepStart =>
      case OtherPart =>
    }
  }

  lemma {:induction false} ClosingLines(m: Message)
    ensures Flatten(Closing(m)) == (if m.finish == "" then [] else ["_[finish: " + m.finish + "]_"]) + [""]
  {
    if m.finish == "" {
      OneBlock(Line(""));
      assert Closing(m) == [Line("")];
    } else {
      var f := Line("_[finish: " + m.finish + "]_");
      TwoBlocks(f, Line(""));
      assert Closing(m) == [f, Line("")];
    }
  }

  method ChainToTranscript(r: Record, incomplete: Option<string>, cap: nat) returns (text: string)
    ensures text == Join(Flatten(Render(r, incomplete, cap)))
  {
    hide RenderMessages, Flatten, Join;
    var page := new Page();
    page.WriteMessages(r.messages, cap);
    ghost var blocks := RenderMessages(r.messages, cap);
    ghost var first := blocks;
    assert first + [] == first;
    for i := 0 to |r.children|
      invariant blocks == first + RenderChildren(r.children[..i], cap)
      invariant page.lines == Flatten(blocks)
    {
      assert r.children[..i + 1][..i] == r.children[..i];
      var Child(id, ms) := r.children[i];
      page.Append("# Subagent session " + id);
      page.Append("");
      TwoBlocks(Line("# Subagent session " + id), Line(""));
      FlattenConcat(blocks, ChildHeading(id));
      page.WriteMessages(ms, cap);
      FlattenConcat(blocks + ChildHeading(id), RenderMessages(ms, cap));
      assert first + (RenderChildren(r.children[..i], cap) + ChildHeading(id) + RenderMessages(ms, cap)) ==
             blocks + ChildHeading(id) + RenderMessages(ms, cap);
      blocks := blocks + ChildHeading(id) + RenderMessages(ms, cap);
    }
    assert r.children[..|r.children|] == r.children;
    if incomplete.Some? {
      var note := "_[CAPTURE INCOMPLETE: " + incomplete.value + "]_";
      page.Append(note);
      OneBlock(Line(note));
      FlattenConcat(blocks, [Line(note)]);
      blocks := blocks + [Line(note)];
    }
    assert blocks == Render(r, incomplete, cap);
    return Join(page.lines);
  }

  // ---- One tool block per tool call -------------------------------------------------------------

  lemma {:induction false} ToolBlocksConcat(a: seq<Block>, b: seq<Block>)
    ensures ToolBlocks(a + b) == ToolBlocks(a) + ToolBlocks(b)
  {
    if b == [] {
      assert a + b == a;
    } else {
      var init := b[..|b| - 1];
      assert (a + b)[..|a + b| - 1] == a + init;
      ToolBlocksConcat(a, init);
    }
  }

  lemma {:induction false} NoToolBlocks(blocks: seq<Block>)
    requires forall i | 0 <= i < |blocks| :: blocks[i].Line?
    ensures ToolBlocks(blocks) == 0
  {
    if blocks != [] { NoToolBlocks(blocks[..|blocks| - 1]); }
  }

  lemma {:induction false} PartToolBlocks(p: Part, cap: nat)
    ensures ToolBlocks(RenderPart(p, cap)) == ToolWeight(p)
  {
    hide RenderTool;
    if p.Tool? {
      var b := ToolBlock(RenderTool(p, cap));
      assert [b][..0] == [];
      assert ToolBlocks([b]) == 1;
    } else {
      NoToolBlocks(RenderPart(p, cap));
    }
  }

  lemma {:induction false} PartsToolBlocks(parts: seq<Part>, cap: nat)
    ensures ToolBlocks(RenderParts(parts, cap)) == PartTotal(parts, ToolWeight)
  {
    if parts != [] {
      hide ToolBlocks, RenderPart, ToolWeight;
      var init, last := parts[..|parts| - 1], parts[|parts| - 1];
      PartsToolBlocks(init, cap);
      PartToolBlocks(last, cap);
      ToolBlocksConcat(RenderParts(init, cap), RenderPart(last, cap));
    }
  }

  lemma {:induction false} ToolBlocksConcat3(a: seq<Block>, b: seq<Block>, c: seq<Block>)
    ensures ToolBlocks(a + b + c) == ToolBlocks(a) + ToolBlocks(b) + ToolBlocks(c)
  {
    hide ToolBlocks;
    ToolBlocksConcat(a, b);
    ToolBlocksConcat(a + b, c);
  }

  lemma {:induction false} MessageToolBlocks(m: Message, cap: nat)
    ensures ToolBlocks(RenderMessage(m, cap)) == PartTotal(m.parts, ToolWeight)
  {
    hide ToolBlocks, RenderParts, Heading, PartTotal;
    PartsToolBlocks(m.parts, cap);
    NoToolBlocks([Line(Heading(m.role))]);
    NoToolBlocks(Closing(m));
    ToolBlocksConcat3([Line(Heading(m.role))], RenderParts(m.parts, cap), Closing(m));
  }

  lemma {:induction false} MessagesToolBlocks(ms: seq<Message>, cap: nat)
    ensures ToolBlocks(RenderMessages(ms, cap)) == Total(ms, ToolWeight)
  {
    if ms != [] {
      hide ToolBlocks, RenderMessage, PartTotal;
      var init, m := ms[..|ms| - 1], ms[|ms| - 1];
      MessagesToolBlocks(init, cap);
      MessageToolBlocks(m, cap);
      ToolBlocksConcat(RenderMessages(init, cap), RenderMessage(m, cap));
    }
  }

  lemma {:induction false} NoToolInHeading(id: string)
    ensures ToolBlocks(ChildHeading(id)) == 0
  {
    NoToolBlocks(ChildHeading(id));
  }

  lemma {:induction false} ChildToolBlocks(before: seq<Block>, id: string, ms: seq<Message>, cap: nat)
    ensures ToolBlocks(before + ChildHeading(id) + RenderMessages(ms, cap)) ==
            ToolBlocks(before) + Total(ms, ToolWeight)
  {
    hide ToolBlocks, RenderMessages, Total, ChildHeading;
    NoToolInHeading(id);
    MessagesToolBlocks(ms, cap);
    ToolBlocksConcat3(before, ChildHeading(id), RenderMessages(ms, cap));
  }

  lemma {:induction false} ChildrenToolBlocks(children: seq<Child>, cap: nat)
    ensures ToolBlocks(RenderChildren(children, cap)) == RecordTools(children)
  {
    if children != [] {
      hide ToolBlocks, RenderMessages, Total, ChildHeading;
      var init, last := children[..|children| - 1], children[|children| - 1];
      ChildrenToolBlocks(init, cap);
      ChildToolBlocks(RenderChildren(init, cap), last.id, last.messages, cap);
    }
  }

  /** The three reductions of one message tree, whatever requests failed: there is a progress counter
      if and only if the parent's chain was answered and is not empty, and then it is the number of
      calls listed; the record renders as many tool blocks if and only if no child listed twice made
      calls. */
  lemma {:induction false} ReductionsAgree(view: View, id: string, incomplete: Option<string>, cap: nat)
    ensures Progress(view, id).Some? <==> id in view.messages && view.messages[id] != []
    ensures Progress(view, id).Some? ==> Progress(view, id).value.tools == |ToolCalls(view, id)|
    ensures ToolBlocks(Render(Recorded(view, id), incomplete, cap)) == |ToolCalls(view, id)| <==>
              id !in view.messages || NoRepeatedCalls(view, ChildIds(view, id))
  {
    var ms, ids, record := OwnMessages(view, id), ChildIds(view, id), Recorded(view, id);
    hide ToolBlocks, RenderMessages, RenderChildren, Total, ListCalls, ChildCalls, MergeChildren, PutChildren,
         RecordTools, NoRepeatedCalls;
    if ms != [] { CounterAgrees(view, Counted(ms), ids); }
    RecordAgrees(view, ids);
    ListCallsCount(ms, id);
    MessagesToolBlocks(record.messages, cap);
    ChildrenToolBlocks(record.children, cap);
    NoToolBlocks(Note(incomplete));
    ToolBlocksConcat3(RenderMessages(record.messages, cap), RenderChildren(record.children, cap), Note(incomplete));
    NoChildren(view);
    if id !in view.messages { EmptyTotals(); }
  }

  lemma {:induction false} NoChildren(view: View)
    ensures PutChildren(view, []) == [] && RecordTools([]) == 0
  {
  }

  lemma {:induction false} EmptyTotals()
    ensures Total([], ToolWeight) == 0
  {
  }

  const BASH := Tool("bash", "completed", None, None)

  /** A session "s" whose own chain is `own`, with subagent sessions that each made one call. */
  function OneCallEach(own: seq<Message>, children: seq<string>): View {
    View(map["s" := own, "c" := [Message("assistant", "", None, [BASH])]], map["s" := children])
  }

  lemma {:induction false} ChildCallsOf(own: seq<Message>)
    ensures var call := ToolCall("bash", "completed", None, None, "c");
            && ChildCalls(OneCallEach(own, ["c"]), ["c"]) == [call]
            && ChildCalls(OneCallEach(own, ["c", "c"]), ["c", "c"]) == [call, call]
  {
    assert PartCalls([BASH], "c") == [ToolCall("bash", "completed", None, None, "c")] by { assert [BASH][..0] == []; }
    var m := Message("assistant", "", None, [BASH]);
    assert ListCalls([m], "c") == PartCalls([BASH], "c") by { assert [m][..0] == []; assert ListCalls([], "c") == []; }
    hide ListCalls;
    assert ["c"][..0] == [] && ["c", "c"][..1] == ["c"];
    forall ids: seq<string> ensures ChildCalls(OneCallEach(own, ids), ["c"]) == ListCalls([m], "c") {
      assert ChildCalls(OneCallEach(own, ids), []) == [];
    }
  }

  /** An empty parent chain with a working subagent: no counter, one call, one block. */
  lemma {:induction false} EmptyParentDisagrees(incomplete: Option<string>, cap: nat)
    ensures var view := OneCallEach([], ["c"]);
            && Progress(view, "s") == None && |ToolCalls(view, "s")| == 1
            && ToolBlocks(Render(Recorded(view, "s"), incomplete, cap)) == 1
  {
    var view := OneCallEach([], ["c"]);
    ReductionsAgree(view, "s", incomplete, cap);
    ChildCallsOf([]);
    hide ToolBlocks, Render, Recorded, ChildCalls, Progress;
  }

  /** A subagent listed twice: its call is listed and counted twice, and rendered once. */
  lemma {:induction false} RepeatedChildDisagrees(incomplete: Option<string>, cap: nat)
    ensures var view := OneCallEach([Message("user", "", None, [])], ["c", "c"]);
            && |ToolCalls(view, "s")| == 2 && Progress(view, "s").Some? && Progress(view, "s").value.tools == 2
            && ToolBlocks(Render(Recorded(view, "s"), incomplete, cap)) != 2
  {
    hide ToolBlocks, Render, Recorded, ChildCalls, Progress, OwnCalls, ListCalls;
    var m := Message("user", "", None, []);
    var view := OneCallEach([m], ["c", "c"]);
    ReductionsAgree(view, "s", incomplete, cap);
    ChildCallsOf([m]);
    NoOwnCalls(m, ["c", "c"]);
    CallsOfChild([m], ["c", "c"]);
    assert ChildIds(view, "s")[0] == ChildIds(view, "s")[1];
    assert !NoRepeatedCalls(view, ChildIds(view, "s"));
  }

  lemma {:induction false} NoOwnCalls(m: Message, children: seq<string>)
    requires m.parts == []
    ensures OwnCalls(OneCallEach([m], children), "s") == []
  {
    assert [m][..0] == [] && ListCalls([], "s") == [];
  }

  lemma {:induction false} CallsOfChild(own: seq<Message>, children: seq<string>)
    ensures |OwnCalls(OneCallEach(own, children), "c")| == 1
  {
    assert [BASH][..0] == [];
    var m := Message("assistant", "", None, [BASH]);
    assert [m][..0] == [];
    assert PartCalls([BASH], "c") == [ToolCall("bash", "completed", None, None, "c")];
    assert ListCalls([], "c") == [];
    assert |ListCalls([m], "c")| == 1;
  }
}
