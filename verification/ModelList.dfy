/** Reading the model list: id lines, each followed by a block of JSON lines.

    The parser counts braces line by line and never looks inside the JSON, so a record keeps the
    block's lines; decoding them is not part of this model.
  */
module ModelList {
  import opened Basics

  datatype Record = Record(provider: string, model: string, fullId: string, block: seq<string>)

  datatype Entry = Entry(id: string, block: seq<string>)

  predicate IsIdLine(line: string) {
    '/' in line && !("{" <= line)
  }

  function Braces(line: string): int {
    Count('{', line) - Count('}', line)
  }

  function Depth(lines: seq<string>): int {
    if lines == [] then 0 else Depth(lines[..|lines| - 1]) + Braces(lines[|lines| - 1])
  }

  predicate Started(lines: seq<string>) {
    exists i | 0 <= i < |lines| :: '{' in lines[i]
  }

  predicate Closed(lines: seq<string>) {
    Started(lines) && Depth(lines) <= 0
  }

  /** A block's brace depth first returns to zero on its last line. */
  predicate IsBlock(lines: seq<string>) {
    Closed(lines) && forall n | 0 <= n < |lines| :: !Closed(lines[..n])
  }

  /** Where the block that starts at line `from` stops: at its close, or at the end of the text. */
  ghost predicate StopsAt(lines: seq<string>, from: nat, to: nat) {
    && from <= to <= |lines|
    && (Closed(lines[from..to]) || to == |lines|)
    && forall n | from <= n < to :: !Closed(lines[from..n])
  }

  function Stop(lines: seq<string>, from: nat, to: nat): (end: nat)
    requires from <= to <= |lines| && forall n | from <= n < to :: !Closed(lines[from..n])
    ensures StopsAt(lines, from, end)
    decreases |lines| - to
  {
    if to == |lines| || Closed(lines[from..to]) then to else Stop(lines, from, to + 1)
  }

  lemma {:induction false} StopUnique(lines: seq<string>, from: nat, a: nat, b: nat)
    requires StopsAt(lines, from, a) && StopsAt(lines, from, b)
    ensures a == b
  {
  }

  function RecordOf(id: string, block: seq<string>): Record {
    Record(Before(id, '/'), After(id, '/'), id, block)
  }

  /** The records of the lines from i on. */
  function Records(lines: seq<string>, i: nat): seq<Record>
    requires i <= |lines|
    decreases |lines| - i
  {
    if i == |lines| then []
    else
      var line := Strip(lines[i]);
      if IsIdLine(line) then
        var end := Stop(lines, i + 1, i + 1);
        [RecordOf(line, lines[i + 1..end])] + Records(lines, end)
      else Records(lines, i + 1)
  }

  lemma {:induction false} Extend(lines: seq<string>, from: nat, i: nat)
    requires from <= i < |lines|
    ensures lines[from..i + 1] == lines[from..i] + [lines[i]]
    ensures Depth(lines[from..i + 1]) == Depth(lines[from..i]) + Braces(lines[i])
    ensures Started(lines[from..i + 1]) <==> Started(lines[from..i]) || '{' in lines[i]
  {
    var was, now := lines[from..i], lines[from..i + 1];
    assert now == was + [lines[i]] && now[..|was|] == was;
    assert now[|was|] == lines[i];
    assert forall k | 0 <= k < |was| :: now[k] == was[k];
  }

  method ParseModels(lines: seq<string>) returns (records: seq<Record>)
    ensures records == Records(lines, 0)
  {
    hide Stop, Depth, Started, Strip, IsIdLine, RecordOf;
    records := [];
    var i := 0;
    while i < |lines|
      invariant i <= |lines|
      invariant records + Records(lines, i) == Records(lines, 0)
      decreases |lines| - i
    {
      var line := Strip(lines[i]);
      if IsIdLine(line) {
        ghost var idAt := i;
        i := i + 1;
        ghost var from := i;
        var jsonLines: seq<string> := [];
        var depth := 0;
        var started := false;
        EmptyBlock();
        assert lines[from..i] == [];
        while i < |lines|
          invariant from <= i <= |lines| && jsonLines == lines[from..i]
          invariant depth == Depth(jsonLines) && started == Started(jsonLines)
          invariant forall n | from <= n <= i :: !Closed(lines[from..n])
        {
          Extend(lines, from, i);
          jsonLines := jsonLines + [lines[i]];
          depth := depth + Braces(lines[i]);
          if '{' in lines[i] {
            started := true;
          }
          i := i + 1;
          if started && depth <= 0 {
            break;
          }
        }
        assert StopsAt(lines, from, i);
        StopUnique(lines, from, i, Stop(lines, from, from));
        var rest := Records(lines, i);
        assert Records(lines, idAt) == [RecordOf(line, jsonLines)] + rest;
        assert records + ([RecordOf(line, jsonLines)] + rest) == (records + [RecordOf(line, jsonLines)]) + rest;
        records := records + [RecordOf(line, jsonLines)];
      } else {
        i := i + 1;
      }
    }
  }

  lemma {:induction false} EmptyBlock()
    ensures Depth([]) == 0 && !Started([])
  {
  }

  // ---- The parser undoes the printer ----------------------------------------------------------

  predicate Printable(e: Entry) {
    IsIdLine(e.id) && Trimmed(e.id) && IsBlock(e.block)
  }

  function Print(entries: seq<Entry>): seq<string> {
    if entries == [] then [] else [entries[0].id] + entries[0].block + Print(entries[1..])
  }

  function ToRecords(entries: seq<Entry>): seq<Record> {
    if entries == [] then [] else [RecordOf(entries[0].id, entries[0].block)] + ToRecords(entries[1..])
  }

  lemma {:induction false} ParseUndoesPrintFrom(before: seq<string>, entries: seq<Entry>)
    requires forall i | 0 <= i < |entries| :: Printable(entries[i])
    ensures Records(before + Print(entries), |before|) == ToRecords(entries)
    decreases |entries|
  {
    hide Depth, Started, Strip, IsIdLine;
    var lines := before + Print(entries);
    if entries != [] {
      var e, rest := entries[0], entries[1..];
      var at := |before| + 1;
      var end := at + |e.block|;
      assert lines == before + [e.id] + e.block + Print(rest);
      assert lines[|before|] == e.id && lines[at..end] == e.block;
      StripTrimmed(e.id);
      forall n | at <= n < end ensures !Closed(lines[at..n]) {
        assert lines[at..n] == e.block[..n - at];
      }
      StopUnique(lines, at, end, Stop(lines, at, at));
      ParseUndoesPrintFrom(before + [e.id] + e.block, rest);
    }
  }

  /** Printing any entries and parsing them back gives one record each, in order, block intact. */
  lemma {:induction false} ParseUndoesPrint(entries: seq<Entry>)
    requires forall i | 0 <= i < |entries| :: Printable(entries[i])
    ensures Records(Print(entries), 0) == ToRecords(entries)
  {
    ParseUndoesPrintFrom([], entries);
    assert [] + Print(entries) == Print(entries);
  }

  /** On any input whatever, provider and model split the id at its first slash, and each record's
      block is a block of the input, or runs to its end. */
  lemma {:induction false} RecordsSplitIds(lines: seq<string>, i: nat)
    requires i <= |lines|
    ensures forall k | 0 <= k < |Records(lines, i)| :: WellRead(lines, Records(lines, i)[k])
    decreases |lines| - i
  {
    if i < |lines| {
      var line := Strip(lines[i]);
      if IsIdLine(line) {
        var end := Stop(lines, i + 1, i + 1);
        RecordWellRead(lines, i, line, end);
        RecordsSplitIds(lines, end);
        hide WellRead, Stop;
        var r := RecordOf(line, lines[i + 1..end]);
        assert Records(lines, i) == [r] + Records(lines, end);
      } else {
        RecordsSplitIds(lines, i + 1);
      }
    }
  }

  lemma {:induction false} RecordWellRead(lines: seq<string>, i: nat, line: string, end: nat)
    requires i < |lines| && line == Strip(lines[i]) && IsIdLine(line) && StopsAt(lines, i + 1, end)
    ensures WellRead(lines, RecordOf(line, lines[i + 1..end]))
  {
    hide Strip, Depth, Started;
    StripTrims(lines[i]);
    Partition(line, '/');
    var block := lines[i + 1..end];
    if end < |lines| {
      forall n | 0 <= n < |block| ensures !Closed(block[..n]) {
        assert block[..n] == lines[i + 1..i + 1 + n];
      }
    } else {
      assert block == lines[|lines| - |block|..];
    }
  }

  predicate WellRead(lines: seq<string>, r: Record) {
    && r.provider + "/" + r.model == r.fullId && '/' !in r.provider
    && Trimmed(r.fullId) && !("{" <= r.fullId)
    && (IsBlock(r.block) || (|r.block| <= |lines| && r.block == lines[|lines| - |r.block|..]))
  }
}
