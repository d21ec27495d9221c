/** A session's message chain, and the reductions the eval client makes of it. */
module Chain {
  import opened Basics

  /** A tool part's input is the JSON text it is recorded with. */
  datatype Part =
    | StepStart
    | Tool(name: string, status: string, input: Option<string>, output: Option<string>)
    | Words(text: string)
    | Reasoning(text: string)
    | OtherPart

  /** Empty `role` and `finish` stand for absent ones; `tokens` is the output count, if reported. */
  datatype Message = Message(role: string, finish: string, tokens: Option<Option<nat>>, parts: seq<Part>)

  /** What the server answers while one snapshot of it lasts; a missing entry is a failed request. */
  datatype View = View(messages: map<string, seq<Message>>, children: map<string, seq<string>>)

  // ---- Counting -------------------------------------------------------------------------------

  function StepWeight(p: Part): nat { if p.StepStart? then 1 else 0 }
  function ToolWeight(p: Part): nat { if p.Tool? then 1 else 0 }
  function WordsWeight(p: Part): nat { if p.Words? then |p.text| else 0 }
  function ReasoningWeight(p: Part): nat { if p.Reasoning? then |p.text| else 0 }

  function PartTotal(parts: seq<Part>, w: Part -> nat): nat {
    if parts == [] then 0 else PartTotal(parts[..|parts| - 1], w) + w(parts[|parts| - 1])
  }

  function Total(ms: seq<Message>, w: Part -> nat): nat {
    if ms == [] then 0 else Total(ms[..|ms| - 1], w) + PartTotal(ms[|ms| - 1].parts, w)
  }

  function CountMessages(ms: seq<Message>, p: Message -> bool): nat {
    if ms == [] then 0
    else CountMessages(ms[..|ms| - 1], p) + (if p(ms[|ms| - 1]) then 1 else 0)
  }

  predicate IsAssistant(m: Message) { m.role == "assistant" }
  predicate FinishUnknown(m: Message) { m.role == "assistant" && m.finish == "unknown" }

  function OutputTokens(ms: seq<Message>): Option<nat> {
    if ms == [] then None
    else if ms[|ms| - 1].tokens.Some? then ms[|ms| - 1].tokens.value
    else OutputTokens(ms[..|ms| - 1])
  }

  datatype Snapshot = Snapshot(messages: nat, steps: nat, tools: nat, textChars: nat, reasoningChars: nat,
                               assistants: nat, finishUnknown: nat, outputTokens: Option<nat>)

  /** The snapshot of one non-empty message list. */
  function Counted(ms: seq<Message>): Snapshot {
    Snapshot(|ms|, Total(ms, StepWeight), Total(ms, ToolWeight), Total(ms, WordsWeight),
             Total(ms, ReasoningWeight), CountMessages(ms, IsAssistant), CountMessages(ms, FinishUnknown),
             OutputTokens(ms))
  }

  function Merge(parent: Snapshot, child: Snapshot): Snapshot {
    parent.(messages := parent.messages + child.messages, steps := parent.steps + child.steps,
            tools := parent.tools + child.tools, textChars := parent.textChars + child.textChars,
            reasoningChars := parent.reasoningChars + child.reasoningChars)
  }

  /** A failed request and an empty chain both give no snapshot. */
  function OwnProgress(view: View, id: string): Option<Snapshot> {
    if id in view.messages && view.messages[id] != [] then Some(Counted(view.messages[id])) else None
  }

  function MergeChildren(view: View, parent: Snapshot, ids: seq<string>): Snapshot {
    if ids == [] then parent
    else
      var merged, last := MergeChildren(view, parent, ids[..|ids| - 1]), ids[|ids| - 1];
      if last == "" then merged
      else
        match OwnProgress(view, last)
        case None => merged
        case Some(child) => Merge(merged, child)
  }

  function ChildIds(view: View, id: string): seq<string> {
    if id in view.children then view.children[id] else []
  }

  function Progress(view: View, id: string): Option<Snapshot> {
    match OwnProgress(view, id)
    case None => None
    case Some(own) => Some(MergeChildren(view, own, ChildIds(view, id)))
  }

  lemma {:induction false} PartTotalStep(parts: seq<Part>, j: nat, w: Part -> nat)
    requires j < |parts|
    ensures PartTotal(parts[..j + 1], w) == PartTotal(parts[..j], w) + w(parts[j])
  {
    assert parts[..j + 1][..j] == parts[..j];
  }

  lemma {:induction false} NothingCounted(parts: seq<Part>)
    ensures PartTotal(parts[..0], StepWeight) == 0 && PartTotal(parts[..0], ToolWeight) == 0
    ensures PartTotal(parts[..0], WordsWeight) == 0 && PartTotal(parts[..0], ReasoningWeight) == 0
  {
  }

  lemma {:induction false} CountedStep(ms: seq<Message>, i: nat)
    requires i < |ms|
    ensures var a, b, m := Counted(ms[..i]), Counted(ms[..i + 1]), ms[i];
            b == Snapshot(i + 1, a.steps + PartTotal(m.parts, StepWeight), a.tools + PartTotal(m.parts, ToolWeight),
                          a.textChars + PartTotal(m.parts, WordsWeight),
                          a.reasoningChars + PartTotal(m.parts, ReasoningWeight),
                          a.assistants + (if IsAssistant(m) then 1 else 0),
                          a.finishUnknown + (if FinishUnknown(m) then 1 else 0),
                          if m.tokens.Some? then m.tokens.value else a.outputTokens)
  {
    hide PartTotal;
    assert ms[..i + 1][..i] == ms[..i];
  }

  lemma {:induction false} MergeStep(view: View, parent: Snapshot, ids: seq<string>, k: nat)
    requires k < |ids|
    ensures MergeChildren(view, parent, ids[..0]) == parent
    ensures var merged := MergeChildren(view, parent, ids[..k]);
            MergeChildren(view, parent, ids[..k + 1]) ==
              if ids[k] == "" || OwnProgress(view, ids[k]) == None then merged
              else Merge(merged, OwnProgress(view, ids[k]).value)
  {
    hide OwnProgress, Merge;
    assert ids[..k + 1][..k] == ids[..k];
  }

  method SessionProgress(view: View, id: string, includeChildren: bool) returns (snapshot: Option<Snapshot>)
    ensures snapshot == if includeChildren then Progress(view, id) else OwnProgress(view, id)
    decreases includeChildren
  {
    if id !in view.messages || view.messages[id] == [] {
      return None;
    }
    assert Counted([]) == Snapshot(0, 0, 0, 0, 0, 0, 0, None);
    hide Counted, PartTotal, Total, Merge;
    var messages := view.messages[id];
    var steps: nat, tools: nat, textChars: nat, reasoningChars: nat := 0, 0, 0, 0;
    var assistants: nat, finishUnknown: nat := 0, 0;
    var tokens := None;
    for i := 0 to |messages|
      invariant Snapshot(i, steps, tools, textChars, reasoningChars, assistants, finishUnknown, tokens)
             == Counted(messages[..i])
    {
      var message := messages[i];
      CountedStep(messages, i);
      ghost var before := Counted(messages[..i]);
      NothingCounted(message.parts);
      for j := 0 to |message.parts|
        invariant steps == before.steps + PartTotal(message.parts[..j], StepWeight)
        invariant tools == before.tools + PartTotal(message.parts[..j], ToolWeight)
        invariant textChars == before.textChars + PartTotal(message.parts[..j], WordsWeight)
        invariant reasoningChars == before.reasoningChars + PartTotal(message.parts[..j], ReasoningWeight)
      {
        PartTotalStep(message.parts, j, StepWeight);
        PartTotalStep(message.parts, j, ToolWeight);
        PartTotalStep(message.parts, j, WordsWeight);
        PartTotalStep(message.parts, j, ReasoningWeight);
        match message.parts[j] {
          case StepStart => steps := steps + 1;
          case Tool(_, _, _, _) => tools := tools + 1;
          case Words(text) => textChars := textChars + |text|;
          case Reasoning(text) => reasoningChars := reasoningChars + |text|;
          case OtherPart =>
        }
      }
      assert message.parts[..|message.parts|] == message.parts;
      if message.role == "assistant" {
        assistants := assistants + 1;
        if message.finish == "unknown" {
          finishUnknown := finishUnknown + 1;
        }
      }
      if message.tokens.Some? {
        tokens := message.tokens.value;
      }
    }
    assert messages[..|messages|] == messages;
    var merged := Snapshot(|messages|, steps, tools, textChars, reasoningChars, assistants, finishUnknown, tokens);
    if includeChildren {
      var ids := if id in view.children then view.children[id] else [];
      ghost var own := merged;
      assert MergeChildren(view, own, ids[..0]) == own;
      hide MergeChildren;
      for k := 0 to |ids|
        invariant merged == MergeChildren(view, own, ids[..k])
      {
        MergeStep(view, own, ids, k);
        if ids[k] != "" {
          var child := SessionProgress(view, ids[k], false);
          if child.Some? {
            merged := Merge(merged, child.value);
          }
        }
      }
      assert ids[..|ids|] == ids;
    }
    return Some(merged);
  }

  // ---- Is anything happening? -----------------------------------------------------------------

  predicate ProgressIsMoving(previous: Option<Snapshot>, current: Option<Snapshot>) {
    if previous == None || current == None then true
    else
      var p, c := previous.value, current.value;
      p.messages != c.messages || p.steps != c.steps || p.tools != c.tools || p.textChars != c.textChars ||
      p.reasoningChars != c.reasoningChars || p.outputTokens != c.outputTokens
  }

  predicate UnproductiveLoop(previous: Option<Snapshot>, current: Option<Snapshot>, threshold: int) {
    previous != None && current != None &&
    var p, c := previous.value, current.value;
    c.finishUnknown >= threshold && c.messages > p.messages &&
    p.textChars == c.textChars && p.reasoningChars == c.reasoningChars && p.tools == c.tools
  }

  /** A message carries something: text, reasoning, or a tool call. */
  predicate Carries(m: Message) {
    exists i | 0 <= i < |m.parts| ::
      m.parts[i].Tool? || (m.parts[i].Words? && m.parts[i].text != "") ||
      (m.parts[i].Reasoning? && m.parts[i].text != "")
  }

  /** The chain only grows: old messages stay, and may gain parts or longer text. */
  ghost predicate Grows(before: seq<Message>, after: seq<Message>) {
    && |before| <= |after|
    && forall i | 0 <= i < |before| :: GrowsInto(before[i], after[i])
  }

  ghost predicate GrowsInto(a: Message, b: Message) {
    && PartTotal(a.parts, ToolWeight) <= PartTotal(b.parts, ToolWeight)
    && PartTotal(a.parts, WordsWeight) <= PartTotal(b.parts, WordsWeight)
    && PartTotal(a.parts, ReasoningWeight) <= PartTotal(b.parts, ReasoningWeight)
  }

  ghost predicate SameWork(a: Message, b: Message) {
    && PartTotal(a.parts, ToolWeight) == PartTotal(b.parts, ToolWeight)
    && PartTotal(a.parts, WordsWeight) == PartTotal(b.parts, WordsWeight)
    && PartTotal(a.parts, ReasoningWeight) == PartTotal(b.parts, ReasoningWeight)
  }

  lemma {:induction false} PartTotalZero(parts: seq<Part>, w: Part -> nat)
    ensures PartTotal(parts, w) == 0 <==> forall i | 0 <= i < |parts| :: w(parts[i]) == 0
  {
    if parts != [] {
      var init := parts[..|parts| - 1];
      PartTotalZero(init, w);
      assert forall i | 0 <= i < |init| :: init[i] == parts[i];
    }
  }

  lemma {:induction false} CarriesNothing(m: Message)
    ensures !Carries(m) <==>
              (PartTotal(m.parts, ToolWeight) == 0 && PartTotal(m.parts, WordsWeight) == 0 &&
               PartTotal(m.parts, ReasoningWeight) == 0)
  {
    PartTotalZero(m.parts, ToolWeight);
    PartTotalZero(m.parts, WordsWeight);
    PartTotalZero(m.parts, ReasoningWeight);
    hide PartTotal;
    if !Carries(m) {
      forall i | 0 <= i < |m.parts|
        ensures ToolWeight(m.parts[i]) == 0 && WordsWeight(m.parts[i]) == 0 && ReasoningWeight(m.parts[i]) == 0
      {
      }
    } else {
      var i :| 0 <= i < |m.parts| && (m.parts[i].Tool? || (m.parts[i].Words? && m.parts[i].text != "") ||
        (m.parts[i].Reasoning? && m.parts[i].text != ""));
      assert ToolWeight(m.parts[i]) + WordsWeight(m.parts[i]) + ReasoningWeight(m.parts[i]) > 0;
    }
  }

  /** A weight does not shrink as the chain grows, and stays the same exactly when no old message
      gained any and no new message has any. */
  lemma {:induction false} TotalGrows(a: seq<Message>, b: seq<Message>, w: Part -> nat)
    requires |a| <= |b|
    requires forall i | 0 <= i < |a| :: PartTotal(a[i].parts, w) <= PartTotal(b[i].parts, w)
    ensures Total(a, w) <= Total(b, w)
    ensures Total(a, w) == Total(b, w) <==>
              (forall i | 0 <= i < |a| :: PartTotal(a[i].parts, w) == PartTotal(b[i].parts, w)) &&
              (forall i | |a| <= i < |b| :: PartTotal(b[i].parts, w) == 0)
  {
    hide PartTotal;
    if |b| > |a| {
      var init := b[..|b| - 1];
      assert forall i | 0 <= i < |init| :: init[i] == b[i];
      TotalGrows(a, init, w);
    } else if a != [] {
      var a', b' := a[..|a| - 1], b[..|b| - 1];
      assert forall i | 0 <= i < |a'| :: a'[i] == a[i] && b'[i] == b[i];
      TotalGrows(a', b', w);
    }
  }

  /** Enough turns ended unreported, messages were added, none of them carries anything, and no old
      one gained anything. */
  ghost predicate OnlyEmptyTurns(before: seq<Message>, after: seq<Message>, threshold: int) {
    && CountMessages(after, FinishUnknown) >= threshold
    && |after| > |before|
    && (forall i | |before| <= i < |after| :: !Carries(after[i]))
    && (forall i | 0 <= i < |before| :: SameWork(before[i], after[i]))
  }

  /** On a chain that only grows the detector fires exactly when enough turns ended unreported,
      messages were added, none of the added messages carries anything, and no old one gained
      anything.  It never fires on a failed snapshot, and whenever it fires the progress check calls
      the session moving. */
  lemma {:induction false} UnproductiveMeaning(before: seq<Message>, after: seq<Message>, threshold: int)
    requires before != [] && Grows(before, after)
    ensures UnproductiveLoop(Some(Counted(before)), Some(Counted(after)), threshold) <==>
            OnlyEmptyTurns(before, after, threshold)
  {
    TotalGrows(before, after, ToolWeight);
    TotalGrows(before, after, WordsWeight);
    TotalGrows(before, after, ReasoningWeight);
    hide PartTotal, Total, CountMessages;
    forall i | |before| <= i < |after|
      ensures !Carries(after[i]) <==>
        (PartTotal(after[i].parts, ToolWeight) == 0 && PartTotal(after[i].parts, WordsWeight) == 0 &&
         PartTotal(after[i].parts, ReasoningWeight) == 0)
    {
      CarriesNothing(after[i]);
    }
  }

  lemma {:induction false} UnproductiveIsMoving(previous: Option<Snapshot>, current: Option<Snapshot>, threshold: int)
    requires UnproductiveLoop(previous, current, threshold)
    ensures previous.Some? && current.Some? && ProgressIsMoving(previous, current)
  {
  }

  // ---- Tool calls and the recorded chain ------------------------------------------------------

  datatype ToolCall =
    ToolCall(name: string, status: string, input: Option<string>, output: Option<string>, session: string)

  /** What a transcript put together from replies shows of a call. */
  datatype CallBlock = CallBlock(name: string, input: Option<string>, output: Option<string>)

  function PartCalls(parts: seq<Part>, id: string): seq<ToolCall> {
    if parts == [] then []
    else
      var last := parts[|parts| - 1];
      PartCalls(parts[..|parts| - 1], id) +
      (if last.Tool? then [ToolCall(last.name, last.status, last.input, last.output, id)] else [])
  }

  function ListCalls(ms: seq<Message>, id: string): seq<ToolCall> {
    if ms == [] then [] else ListCalls(ms[..|ms| - 1], id) + PartCalls(ms[|ms| - 1].parts, id)
  }

  function OwnCalls(view: View, id: string): seq<ToolCall> {
    if id in view.messages then ListCalls(view.messages[id], id) else []
  }

  function ChildCalls(view: View, ids: seq<string>): seq<ToolCall> {
    if ids == [] then []
    else
      var last := ids[|ids| - 1];
      ChildCalls(view, ids[..|ids| - 1]) + (if last == "" then [] else OwnCalls(view, last))
  }

  /** A parent whose own chain cannot be fetched has its children skipped too. */
  function ToolCalls(view: View, id: string): seq<ToolCall> {
    if id !in view.messages then [] else OwnCalls(view, id) + ChildCalls(view, ChildIds(view, id))
  }

  lemma {:induction false} PartCallsStep(parts: seq<Part>, j: nat, id: string)
    requires j < |parts|
    ensures PartCalls(parts[..j + 1], id) == PartCalls(parts[..j], id) +
              (if parts[j].Tool? then
                 [ToolCall(parts[j].name, parts[j].status, parts[j].input, parts[j].output, id)] else [])
  {
    assert parts[..j + 1][..j] == parts[..j];
  }

  method SessionToolCalls(view: View, id: string, includeChildren: bool) returns (calls: seq<ToolCall>)
    ensures calls == if includeChildren then ToolCalls(view, id) else OwnCalls(view, id)
    decreases includeChildren
  {
    calls := [];
    if id !in view.messages {
      return;
    }
    var messages := view.messages[id];
    for i := 0 to |messages|
      invariant calls == ListCalls(messages[..i], id)
    {
      hide PartCalls;
      var parts := messages[i].parts;
      assert messages[..i + 1][..i] == messages[..i];
      ghost var before := calls;
      NoCallsYet(parts, id);
      Regroup(before, [], []);
      for j := 0 to |parts|
        invariant calls == before + PartCalls(parts[..j], id)
      {
        hide ListCalls;
        PartCallsStep(parts, j, id);
        var part := parts[j];
        if !part.Tool? {
          Regroup(PartCalls(parts[..j], id), [], []);
          continue;
        }
        var call := ToolCall(part.name, part.status, part.input, part.output, id);
        Regroup(before, PartCalls(parts[..j], id), [call]);
        calls := calls + [call];
      }
      assert parts[..|parts|] == parts;
    }
    assert messages[..|messages|] == messages;
    if includeChildren {
      var ids := if id in view.children then view.children[id] else [];
      ghost var own := calls;
      Regroup(own, [], []);
      for k := 0 to |ids|
        invariant calls == own + ChildCalls(view, ids[..k])
      {
        hide ListCalls, OwnCalls;
        assert ids[..k + 1][..k] == ids[..k];
        Regroup(ChildCalls(view, ids[..k]), [], []);
        if ids[k] != "" {
          var more := SessionToolCalls(view, ids[k], false);
          Regroup(own, ChildCalls(view, ids[..k]), more);
          calls := calls + more;
        }
      }
      assert ids[..|ids|] == ids;
    }
  }

  lemma {:induction false} NoCallsYet(parts: seq<Part>, id: string)
    ensures PartCalls(parts[..0], id) == []
  {
  }

  /** The record kept of a session: its chain, its children's chains in the order first met, and
      whether anything could not be fetched. */
  datatype Child = Child(id: string, messages: seq<Message>)

  datatype Record = Record(messages: seq<Message>, children: seq<Child>, incomplete: bool)

  /** A dictionary assignment: an existing key keeps its place. */
  function PutChild(children: seq<Child>, id: string, ms: seq<Message>): seq<Child> {
    if children == [] then [Child(id, ms)]
    else if children[0].id == id then [Child(id, ms)] + children[1..]
    else [children[0]] + PutChild(children[1..], id, ms)
  }

  function OwnMessages(view: View, id: string): seq<Message> {
    if id in view.messages then view.messages[id] else []
  }

  function PutChildren(view: View, ids: seq<string>): seq<Child> {
    if ids == [] then []
    else
      var before, last := PutChildren(view, ids[..|ids| - 1]), ids[|ids| - 1];
      if last == "" then before else PutChild(before, last, OwnMessages(view, last))
  }

  function AnyMissing(view: View, ids: seq<string>): bool {
    exists i | 0 <= i < |ids| :: ids[i] != "" && ids[i] !in view.messages
  }

  function Recorded(view: View, id: string): Record {
    if id !in view.messages then Record([], [], true)
    else if id !in view.children then Record(view.messages[id], [], true)
    else Record(view.messages[id], PutChildren(view, view.children[id]), AnyMissing(view, view.children[id]))
  }

  method SessionMessages(view: View, id: string, includeChildren: bool) returns (record: Record)
    ensures includeChildren ==> record == Recorded(view, id)
    ensures !includeChildren ==> record == Record(OwnMessages(view, id), [], id !in view.messages)
    decreases includeChildren
  {
    if id !in view.messages {
      return Record([], [], true);
    }
    record := Record(view.messages[id], [], false);
    if !includeChildren {
      return;
    }
    if id !in view.children {
      return record.(incomplete := true);
    }
    var ids := view.children[id];
    for k := 0 to |ids|
      invariant record == Record(view.messages[id], PutChildren(view, ids[..k]), AnyMissing(view, ids[..k]))
    {
      assert ids[..k + 1][..k] == ids[..k];
      assert AnyMissing(view, ids[..k + 1]) <==>
             AnyMissing(view, ids[..k]) || (ids[k] != "" && ids[k] !in view.messages) by {
        if AnyMissing(view, ids[..k]) {
          var i :| 0 <= i < k && ids[..k][i] != "" && ids[..k][i] !in view.messages;
          assert ids[..k + 1][i] == ids[..k][i];
        }
        assert ids[..k + 1][k] == ids[k];
      }
      if ids[k] != "" {
        var child := SessionMessages(view, ids[k], false);
        record := record.(children := PutChild(record.children, ids[k], child.messages),
                          incomplete := record.incomplete || child.incomplete);
      }
    }
    assert ids[..|ids|] == ids;
  }

  // ---- The three reductions agree -------------------------------------------------------------

  function RecordTools(children: seq<Child>): nat {
    if children == [] then 0
    else RecordTools(children[..|children| - 1]) + Total(children[|children| - 1].messages, ToolWeight)
  }

  /** No child that is listed again made any calls. */
  predicate NoRepeatedCalls(view: View, ids: seq<string>) {
    forall i, j | 0 <= i < j < |ids| && ids[i] == ids[j] && ids[j] != "" :: OwnCalls(view, ids[j]) == []
  }

  lemma {:induction false} PartCallsCount(parts: seq<Part>, id: string)
    ensures |PartCalls(parts, id)| == PartTotal(parts, ToolWeight)
  {
    if parts != [] { PartCallsCount(parts[..|parts| - 1], id); }
  }

  lemma {:induction false} ListCallsCount(ms: seq<Message>, id: string)
    ensures |ListCalls(ms, id)| == Total(ms, ToolWeight)
  {
    if ms != [] {
      ListCallsCount(ms[..|ms| - 1], id);
      PartCallsCount(ms[|ms| - 1].parts, id);
    }
  }

  predicate HasKey(children: seq<Child>, id: string) {
    exists i | 0 <= i < |children| :: children[i].id == id
  }

  lemma {:induction false} PutFresh(children: seq<Child>, id: string, ms: seq<Message>)
    requires !HasKey(children, id)
    ensures PutChild(children, id, ms) == children + [Child(id, ms)]
  {
    if children != [] {
      assert children[0].id != id;
      assert forall i | 0 <= i < |children| - 1 :: children[1..][i] == children[i + 1];
      PutFresh(children[1..], id, ms);
    }
  }

  lemma {:induction false} RecordToolsSnoc(children: seq<Child>, last: Child)
    ensures RecordTools(children + [last]) == RecordTools(children) + Total(last.messages, ToolWeight)
  {
    assert (children + [last])[..|children|] == children;
  }

  lemma {:induction false} HasKeySnoc(children: seq<Child>, last: Child)
    ensures forall id :: HasKey(children + [last], id) <==> HasKey(children, id) || id == last.id
  {
    var all := children + [last];
    forall id ensures HasKey(all, id) <==> HasKey(children, id) || id == last.id {
      if HasKey(all, id) {
        var i :| 0 <= i < |all| && all[i].id == id;
        if i < |children| { assert children[i].id == id; }
      }
      if HasKey(children, id) {
        var i :| 0 <= i < |children| && children[i].id == id;
        assert all[i].id == id;
      }
      assert all[|children|].id == last.id;
    }
  }

  predicate FromView(view: View, children: seq<Child>) {
    forall i | 0 <= i < |children| :: children[i].messages == OwnMessages(view, children[i].id)
  }

  /** A child met again is recorded as before. */
  lemma {:induction false} PutKnown(view: View, children: seq<Child>, id: string)
    requires FromView(view, children) && HasKey(children, id)
    ensures PutChild(children, id, OwnMessages(view, id)) == children
  {
    if children[0].id != id {
      var i :| 0 <= i < |children| && children[i].id == id;
      assert children[1..][i - 1].id == id;
      PutKnown(view, children[1..], id);
    }
  }

  lemma {:induction false} RepeatedStep(view: View, ids: seq<string>, last: string)
    ensures NoRepeatedCalls(view, ids + [last]) <==>
              NoRepeatedCalls(view, ids) && (last != "" && last in ids ==> OwnCalls(view, last) == [])
  {
    var all := ids + [last];
    hide OwnCalls;
    if NoRepeatedCalls(view, all) {
      forall i, j | 0 <= i < j < |ids| && ids[i] == ids[j] && ids[j] != "" ensures OwnCalls(view, ids[j]) == [] {
        assert all[i] == ids[i] && all[j] == ids[j];
      }
      if last in ids && last != "" {
        var i :| 0 <= i < |ids| && ids[i] == last;
        assert all[i] == all[|ids|];
      }
    }
    if NoRepeatedCalls(view, ids) && (last != "" && last in ids ==> OwnCalls(view, last) == []) {
      forall i, j | 0 <= i < j < |all| && all[i] == all[j] && all[j] != "" ensures OwnCalls(view, all[j]) == [] {
        assert all[i] == ids[i];
        if j < |ids| { assert all[j] == ids[j]; }
      }
    }
  }

  lemma {:induction false} OwnCallsCount(view: View, id: string)
    ensures |OwnCalls(view, id)| == Total(OwnMessages(view, id), ToolWeight)
  {
    ListCallsCount(OwnMessages(view, id), id);
  }

  /** The progress counter and the call list count alike, repeated children and failed requests
      included. */
  lemma {:induction false} CounterAgrees(view: View, parent: Snapshot, ids: seq<string>)
    ensures MergeChildren(view, parent, ids).tools == parent.tools + |ChildCalls(view, ids)|
  {
    if ids != [] {
      var init, last := ids[..|ids| - 1], ids[|ids| - 1];
      CounterAgrees(view, parent, init);
      OwnCallsCount(view, last);
      hide OwnCalls, PartTotal;
    }
  }

  /** The children recorded are those listed. */
  ghost predicate Keyed(children: seq<Child>, ids: seq<string>) {
    forall id :: HasKey(children, id) <==> id != "" && id in ids
  }

  lemma {:induction false} PutStep(view: View, before: seq<Child>, ids: seq<string>, last: string)
    requires FromView(view, before) && Keyed(before, ids) && last != ""
    ensures var after := PutChild(before, last, OwnMessages(view, last));
            && FromView(view, after) && Keyed(after, ids + [last])
            && RecordTools(after) ==
               RecordTools(before) + (if last in ids then 0 else Total(OwnMessages(view, last), ToolWeight))
  {
    hide OwnMessages, Total, RecordTools;
    if last in ids {
      PutKnown(view, before, last);
      assert forall id :: id in ids + [last] <==> id in ids;
    } else {
      var child := Child(last, OwnMessages(view, last));
      PutFresh(before, last, child.messages);
      hide PutChild;
      assert Keyed(before + [child], ids + [last]) by { HasKeySnoc(before, child); hide HasKey; }
      RecordToolsSnoc(before, child);
    }
  }

  /** The record keeps a child once however often it is listed. */
  lemma {:induction false} RecordAgrees(view: View, ids: seq<string>)
    ensures FromView(view, PutChildren(view, ids)) && Keyed(PutChildren(view, ids), ids)
    ensures RecordTools(PutChildren(view, ids)) <= |ChildCalls(view, ids)|
    ensures RecordTools(PutChildren(view, ids)) == |ChildCalls(view, ids)| <==> NoRepeatedCalls(view, ids)
  {
    if ids != [] {
      var init, last := ids[..|ids| - 1], ids[|ids| - 1];
      assert ids == init + [last];
      RecordAgrees(view, init);
      hide PutChildren, ChildCalls, Keyed, FromView, RecordTools, NoRepeatedCalls;
      if last == "" { NoChildMore(view, init); } else { ChildMore(view, init, last); }
    }
  }

  lemma {:induction false} ChildrenLast(view: View, ids: seq<string>, last: string)
    ensures var before := PutChildren(view, ids);
            PutChildren(view, ids + [last]) ==
            if last == "" then before else PutChild(before, last, OwnMessages(view, last))
    ensures ChildCalls(view, ids + [last]) == ChildCalls(view, ids) + (if last == "" then [] else OwnCalls(view, last))
  {
    hide PutChild, OwnCalls, OwnMessages;
    assert (ids + [last])[..|ids|] == ids;
  }

  lemma {:induction false} NoChildMore(view: View, ids: seq<string>)
    requires Keyed(PutChildren(view, ids), ids)
    ensures PutChildren(view, ids + [""]) == PutChildren(view, ids) && Keyed(PutChildren(view, ids), ids + [""])
    ensures |ChildCalls(view, ids + [""])| == |ChildCalls(view, ids)|
    ensures NoRepeatedCalls(view, ids + [""]) <==> NoRepeatedCalls(view, ids)
  {
    hide PutChildren, ChildCalls, NoRepeatedCalls, Keyed;
    ChildrenLast(view, ids, "");
    RepeatedStep(view, ids, "");
    KeyedEmpty(PutChildren(view, ids), ids);
  }

  lemma {:induction false} ChildMore(view: View, ids: seq<string>, last: string)
    requires FromView(view, PutChildren(view, ids)) && Keyed(PutChildren(view, ids), ids) && last != ""
    ensures var before, after := PutChildren(view, ids), PutChildren(view, ids + [last]);
            && FromView(view, after) && Keyed(after, ids + [last])
            && RecordTools(after) == RecordTools(before) + (if last in ids then 0 else |OwnCalls(view, last)|)
    ensures |ChildCalls(view, ids + [last])| == |ChildCalls(view, ids)| + |OwnCalls(view, last)|
    ensures NoRepeatedCalls(view, ids + [last]) <==>
              NoRepeatedCalls(view, ids) && (last in ids ==> |OwnCalls(view, last)| == 0)
  {
    hide PutChildren, ChildCalls, NoRepeatedCalls, Keyed, FromView, RecordTools, OwnCalls, PutChild, Total;
    ChildrenLast(view, ids, last);
    RepeatedStep(view, ids, last);
    OwnCallsCount(view, last);
    PutStep(view, PutChildren(view, ids), ids, last);
  }

  lemma {:induction false} KeyedEmpty(children: seq<Child>, ids: seq<string>)
    requires Keyed(children, ids)
    ensures Keyed(children, ids + [""])
  {
    hide HasKey;
  }
}
