/** Octet streams as the capture proxy reads them.

    An octet is represented by its Latin-1 character, the decoding the proxy itself uses.  A
    connection holds what the peer will still send before it closes; a raw read returns however
    much of that the network happens to deliver.
  */
module Wire {
  import opened Basics

  /** The most a single line read returns. */
  const LINE_LIMIT := 65536

  function Take(s: string, n: int): string {
    if n <= 0 then "" else if n < |s| then s[..n] else s
  }

  function Drop(s: string, n: int): string {
    if n <= 0 then s else if n < |s| then s[n..] else ""
  }

  lemma {:induction false} TakeDrop(a: string, b: string)
    ensures Take(a + b, |a|) == a && Drop(a + b, |a|) == b
  {
  }

  /** A line up to and including its newline, cut at `limit` octets. */
  function FirstLine(s: string, limit: nat): (line: string)
    ensures |line| <= |s| && line == s[..|line|] && (s != "" && limit > 0 ==> line != "")
  {
    if s == "" || limit == 0 then ""
    else if s[0] == '\n' then s[..1]
    else [s[0]] + FirstLine(s[1..], limit - 1)
  }

  function AfterLine(s: string, limit: nat): string {
    s[|FirstLine(s, limit)|..]
  }

  lemma {:induction false} FirstLineOf(line: string, rest: string, limit: nat)
    requires '\n' !in line && |line| + 1 <= limit
    ensures FirstLine(line + "\n" + rest, limit) == line + "\n"
    ensures AfterLine(line + "\n" + rest, limit) == rest
  {
    var s := line + "\n" + rest;
    if line != "" {
      FirstLineOf(line[1..], rest, limit - 1);
      assert s[1..] == line[1..] + "\n" + rest;
    }
    assert s[|line| + 1..] == rest;
  }

  lemma {:induction false} FirstLineStep(s: string, limit: nat)
    ensures s == "" || limit == 0 ==> FirstLine(s, limit) == ""
    ensures s != "" && limit > 0 ==>
              FirstLine(s, limit) == [s[0]] + (if s[0] == '\n' then "" else FirstLine(s[1..], limit - 1))
  {
  }

  /** One more octet of a line. */
  lemma {:induction false} LineGrows(line: string, s: string, limit: nat, octet: string, rest: string)
    requires |line| < limit && s == octet + rest && |octet| == 1
    ensures line + FirstLine(s, limit - |line|) ==
            if octet == "\n" then line + octet else (line + octet) + FirstLine(rest, limit - |line| - 1)
  {
    FirstLineStep(s, limit - |line|);
    hide FirstLine;
    assert s[0] == octet[0] && s[1..] == rest && octet == [octet[0]];
    Regroup(line, octet, FirstLine(rest, limit - |line| - 1));
    assert octet + "" == octet;
  }

  lemma {:induction false} Ends(line: string, rest: string, whole: string, limit: nat)
    requires line + rest == whole && line == FirstLine(whole, limit)
    ensures rest == AfterLine(whole, limit)
  {
    hide FirstLine;
    assert whole[|line|..] == rest;
  }

  class Connection {
    var incoming: string

    constructor (incoming: string)
      ensures this.incoming == incoming
    {
      this.incoming := incoming;
    }

    /** One raw read: any non-empty amount up to `count`, or nothing at the end of the stream. */
    method Recv(count: nat) returns (data: string)
      requires count > 0
      modifies this
      ensures data + incoming == old(incoming)
      ensures |data| <= count && (data == "" <==> old(incoming) == "")
    {
      if incoming == "" {
        return "";
      }
      var n: nat :| 1 <= n <= count && n <= |incoming|;
      data := incoming[..n];
      incoming := incoming[n..];
    }

    /** A raw stream reads a line octet by octet. */
    method ReadLine(limit: nat) returns (line: string)
      modifies this
      ensures line == FirstLine(old(incoming), limit) && incoming == AfterLine(old(incoming), limit)
    {
      hide FirstLine;
      line := "";
      ghost var whole := incoming;
      assert "" + incoming == incoming && "" + FirstLine(incoming, limit) == FirstLine(incoming, limit);
      while |line| < limit
        invariant |line| <= limit && line + incoming == whole
        invariant line + FirstLine(incoming, limit - |line|) == FirstLine(whole, limit)
      {
        ghost var was := incoming;
        var octet := Recv(1);
        if octet == "" {
          break;
        }
        LineGrows(line, was, limit, octet, incoming);
        Regroup(line, octet, incoming);
        line := line + octet;
        if octet == "\n" {
          Ends(line, incoming, whole, limit);
          return;
        }
      }
      FirstLineStep(incoming, limit - |line|);
      assert line + "" == line;
      Ends(line, incoming, whole, limit);
    }

    /** Exactly `count` octets, or as many as arrive before the end of the stream. */
    method ReadExact(count: int) returns (data: string)
      modifies this
      ensures data == Take(old(incoming), count) && incoming == Drop(old(incoming), count)
    {
      data := "";
      var remaining := count;
      while remaining > 0
        invariant data + incoming == old(incoming)
        invariant count > 0 ==> remaining >= 0 && |data| == count - remaining
        invariant count <= 0 ==> data == "" && remaining == count
        decreases remaining
      {
        var chunk := Recv(remaining);
        if chunk == "" {
          break;
        }
        data := data + chunk;
        remaining := remaining - |chunk|;
      }
      assert incoming == old(incoming)[|data|..];
    }
  }

  // ---- Header fields --------------------------------------------------------------------------

  datatype Field = Field(name: string, value: string)

  function StripCrLf(s: string): string {
    if s != "" && (s[|s| - 1] == '\r' || s[|s| - 1] == '\n') then StripCrLf(s[..|s| - 1]) else s
  }

  function ParseField(line: string): seq<Field> {
    var decoded := StripCrLf(line);
    if ':' in decoded then [Field(Strip(Before(decoded, ':')), Strip(After(decoded, ':')))] else []
  }

  predicate EndsHeaders(line: string) {
    line == "" || line == "\r\n" || line == "\n"
  }

  /** The fields at the front of a stream, and what follows their blank line. */
  function ParseFields(s: string): (r: (seq<Field>, string))
    decreases |s|
  {
    var line := FirstLine(s, LINE_LIMIT);
    var rest := AfterLine(s, LINE_LIMIT);
    if EndsHeaders(line) then ([], rest)
    else
      var (fields, after) := ParseFields(rest);
      (ParseField(line) + fields, after)
  }

  method ReadHeaders(conn: Connection) returns (headers: seq<Field>)
    modifies conn
    ensures (headers, conn.incoming) == ParseFields(old(conn.incoming))
  {
    hide FirstLine, AfterLine, ParseField;
    headers := [];
    assert headers + ParseFields(conn.incoming).0 == ParseFields(conn.incoming).0;
    while true
      invariant ParseFields(old(conn.incoming)) ==
        (var (fields, after) := ParseFields(conn.incoming); (headers + fields, after))
      decreases |conn.incoming|
    {
      ghost var was := conn.incoming;
      var line := conn.ReadLine(LINE_LIMIT);
      if EndsHeaders(line) {
        assert headers + [] == headers;
        break;
      }
      Shorter(was);
      var found := ParseField(line);
      ghost var more := ParseFields(conn.incoming).0;
      assert headers + (found + more) == (headers + found) + more;
      headers := headers + found;
    }
  }

  lemma {:induction false} Shorter(s: string)
    requires FirstLine(s, LINE_LIMIT) != ""
    ensures |AfterLine(s, LINE_LIMIT)| < |s|
  {
  }

  /** The value of the first field with this lower-case name, or the empty string. */
  function Lookup(fields: seq<Field>, name: string): string {
    if fields == [] then ""
    else if Lower(fields[0].name) == name then fields[0].value
    else Lookup(fields[1..], name)
  }

  // ---- Printing fields and reading them back --------------------------------------------------

  function FieldLine(f: Field): string {
    f.name + ": " + f.value + "\r\n"
  }

  function PrintFields(fields: seq<Field>): string {
    if fields == [] then "" else FieldLine(fields[0]) + PrintFields(fields[1..])
  }

  predicate Printable(f: Field) {
    && Trimmed(f.name) && Trimmed(f.value)
    && ':' !in f.name && '\n' !in f.name && '\n' !in f.value
  }

  predicate ShortLine(f: Field) {
    |FieldLine(f)| <= LINE_LIMIT
  }

  lemma {:induction false} ParseFieldLine(f: Field)
    requires Printable(f)
    ensures ParseField(FieldLine(f)) == [f]
  {
    var line, text := FieldLine(f), f.name + ": " + f.value;
    assert line[..|line| - 1] == text + "\r" && (text + "\r")[..|text|] == text;
    StripTrimmed(f.name);
    StripTrimmed(f.value);
    hide Strip;
    assert text[|text| - 1] == if f.value == "" then ' ' else f.value[|f.value| - 1];
    assert StripCrLf(text) == text;
    assert StripCrLf(line) == text;
    assert text == f.name + [':'] + (" " + f.value);
    PartitionOf(f.name, ':', " " + f.value);
    StripSpaced(f.value);
  }

  lemma {:induction false} StripSpaced(value: string)
    requires Trimmed(value)
    ensures Strip(" " + value) == value
  {
    var s := " " + value;
    assert s[1..] == value;
    assert IsSpace(s[0]);
    if value == "" {
      assert s[..0] == "";
      assert StripRight(s) == StripRight("") == "";
    } else {
      assert s[|s| - 1] == value[|value| - 1];
      assert StripRight(s) == s;
      assert StripLeft(s) == StripLeft(value) == value;
    }
  }

  /** The first of some printed fields is read back, and what follows it is left for the others. */
  lemma {:induction false} ParseFirst(f: Field, more: string)
    requires Printable(f) && ShortLine(f)
    ensures ParseFields(FieldLine(f) + more) == ([f] + ParseFields(more).0, ParseFields(more).1)
  {
    var text := f.name + ": " + f.value + "\r";
    assert FieldLine(f) == text + "\n";
    FirstLineOf(text, more, LINE_LIMIT);
    ParseFieldLine(f);
    assert !EndsHeaders(text + "\n") by { assert |text + "\n"| >= 4; }
    hide FirstLine, AfterLine, ParseField, FieldLine, EndsHeaders;
  }

  lemma {:induction false} ParseBlank(rest: string)
    ensures ParseFields("\r\n" + rest) == ([], rest)
  {
    assert "\r\n" + rest == "\r" + "\n" + rest;
    FirstLineOf("\r", rest, LINE_LIMIT);
    hide FirstLine, AfterLine;
  }

  // ---- Lines that do not fit one read ---------------------------------------------------------

  /** The one kind of longer line that is harmless: all but the white space after its colon fits. */
  predicate Survives(f: Field) {
    ShortLine(f) || (|f.name| == LINE_LIMIT - 1 && f.value == "")
  }

  /** A line of more octets than one read takes is cut. */
  lemma {:induction false} FirstLineCut(a: string, b: string, limit: nat)
    requires |a| == limit && '\n' !in a
    ensures FirstLine(a + b, limit) == a && AfterLine(a + b, limit) == b
  {
    var s := a + b;
    if limit > 0 {
      FirstLineCut(a[1..], b, limit - 1);
      assert s[1..] == a[1..] + b && s[0] == a[0] && a == [a[0]] + a[1..];
    }
    assert s[limit..] == b;
  }

  lemma {:induction false} StripCrLfAfter(a: string, w: string)
    requires a != "" && a[|a| - 1] != '\r' && a[|a| - 1] != '\n'
    ensures StripCrLf(a + w) == a + StripCrLf(w) && StripCrLf(w) <= w
  {
    if w == "" {
      assert a + w == a;
    } else {
      var init := w[..|w| - 1];
      assert (a + w)[..|a + w| - 1] == a + init;
      StripCrLfAfter(a, init);
    }
  }

  lemma {:induction false} StripShorter(s: string)
    ensures |StripLeft(s)| <= |s| && |StripRight(s)| <= |s| && StripRight(s) <= s
    ensures s != "" && IsSpace(s[0]) ==> |StripLeft(s)| < |s|
    decreases |s|
  {
    if s != "" {
      StripShorter(s[1..]);
      StripShorter(s[..|s| - 1]);
    }
  }

  lemma {:induction false} StripLoses(x: string)
    requires x != "" && x[0] == ' '
    ensures |Strip(x)| < |x|
  {
    StripShorter(x);
    StripShorter(StripRight(x));
  }

  /** What a line, or the front of one, gives when its colon is there. */
  lemma {:induction false} ParseColon(name: string, w: string)
    requires ':' !in name
    ensures ParseField(name + ":" + w) == [Field(Strip(name), Strip(StripCrLf(w)))]
  {
    hide Strip, StripCrLf;
    assert (name + ":")[|name|] == ':';
    StripCrLfAfter(name + ":", w);
    assert name + ":" + StripCrLf(w) == name + [':'] + StripCrLf(w);
    PartitionOf(name, ':', StripCrLf(w));
    assert (name + [':'] + StripCrLf(w))[|name|] == ':';
  }

  /** A cut piece without a colon gives nothing. */
  lemma {:induction false} ParseNoColon(line: string)
    requires ':' !in line
    ensures ParseField(line) == []
  {
    StripCrLfPrefix(line);
  }

  lemma {:induction false} ParseStep(line: string, rest: string)
    requires FirstLine(line + rest, LINE_LIMIT) == line && !EndsHeaders(line)
    ensures ParseFields(line + rest) == (ParseField(line) + ParseFields(rest).0, ParseFields(rest).1)
  {
    hide FirstLine, ParseField;
    assert (line + rest)[|line|..] == rest;
  }

  /** After a name was cut, the first field read, if any, has a shorter name. */
  lemma {:induction false} NameTail(name: string, value: string, more: string)
    requires ':' !in name && '\n' !in name && '\n' !in value
    ensures var r := ParseFields(name + ": " + value + "\r\n" + more).0; r == [] || |r[0].name| <= |name|
    decreases |name|
  {
    var text := name + ": " + value + "\r\n" + more;
    if |name| >= LINE_LIMIT {
      var a, b := name[..LINE_LIMIT], name[LINE_LIMIT..];
      var rest := b + ": " + value + "\r\n" + more;
      assert text == a + rest;
      FirstLineCut(a, rest, LINE_LIMIT);
      ParseNoColon(a);
      hide ParseFields, ParseField, FirstLine;
      ParseStep(a, rest);
      NameTail(b, value, more);
    } else {
      var w, rest := LineOfColon(name, " " + value + "\r", more);
      assert name + ":" + (" " + value + "\r") + "\n" + more == text;
      ParseColon(name, w);
      StripShorter(name);
      StripShorter(StripRight(name));
      hide ParseFields, ParseField, FirstLine, Strip, StripCrLf;
      ParseStep(name + ":" + w, rest);
    }
  }

  /** The first line read of a text with a colon within reach, and what is left of the text. */
  lemma {:induction false} LineOfColon(name: string, tail: string, more: string) returns (w: string, rest: string)
    requires '\n' !in name && '\n' !in tail && |name| < LINE_LIMIT
    ensures name + ":" + tail + "\n" + more == (name + ":" + w) + rest
    ensures FirstLine((name + ":" + w) + rest, LINE_LIMIT) == name + ":" + w && !EndsHeaders(name + ":" + w)
    ensures |name| + 1 + |tail| >= LINE_LIMIT ==>
              |w| == LINE_LIMIT - |name| - 1 && w == tail[..|w|] && rest == tail[|w|..] + "\n" + more
  {
    var line, text := name + ":" + tail, name + ":" + tail + "\n" + more;
    if |line| >= LINE_LIMIT {
      w := tail[..LINE_LIMIT - |name| - 1];
      rest := tail[LINE_LIMIT - |name| - 1..] + "\n" + more;
      assert text == (name + ":" + w) + rest;
      FirstLineCut(name + ":" + w, rest, LINE_LIMIT);
    } else {
      w, rest := tail + "\n", more;
      assert line + "\n" == name + ":" + w;
      FirstLineOf(line, more, LINE_LIMIT);
    }
    var read := name + ":" + w;
    assert read[|name|] == ':';
  }

  lemma {:induction false} LongNameLost(f: Field, more: string)
    requires Printable(f) && |f.name| >= LINE_LIMIT
    ensures var r := ParseFields(FieldLine(f) + more).0; r == [] || r[0] != f
  {
    hide ParseFields, ParseField, FirstLine, AfterLine;
    var a, b := f.name[..LINE_LIMIT], f.name[LINE_LIMIT..];
    assert f.name == a + b;
    var rest := b + ": " + f.value + "\r\n" + more;
    assert FieldLine(f) + more == a + rest;
    FirstLineCut(a, rest, LINE_LIMIT);
    ParseNoColon(a);
    NotTheEnd(a);
    ParseStep(a, rest);
    NameTail(b, f.value, more);
  }

  lemma {:induction false} NotTheEnd(a: string)
    requires a != "" && '\n' !in a
    ensures !EndsHeaders(a)
  {
  }

  lemma {:induction false} LongValueLost(f: Field, more: string)
    requires Printable(f) && !Survives(f) && |f.name| < LINE_LIMIT
    ensures var r := ParseFields(FieldLine(f) + more).0; |r| <= 1 || r[0] != f
  {
    var tail := " " + f.value + "\r";
    FieldText(f, more);
    assert |f.name| + 1 + |tail| >= LINE_LIMIT && '\n' !in tail && ':' !in f.name;
    assert f.value == "" ==> |f.name| != LINE_LIMIT - 1;
    hide ParseFields, ParseField, FirstLine, AfterLine, Strip, StripCrLf, EndsHeaders, Survives, FieldLine, Printable;
    var w, rest := LineOfColon(f.name, tail, more);
    ParseColon(f.name, w);
    ParseStep(f.name + ":" + w, rest);
    if |w| <= |f.value| {
      ShortValue(w, f.value);
    } else {
      EndsAtOnce(tail[|w|..], more);
    }
  }

  lemma {:induction false} FieldText(f: Field, more: string)
    ensures FieldLine(f) + more == f.name + ":" + (" " + f.value + "\r") + "\n" + more
  {
  }

  /** A cut line never reads back as its field with others behind it. */
  lemma {:induction false} LongFieldLost(f: Field, more: string)
    requires Printable(f) && !Survives(f)
    ensures var r := ParseFields(FieldLine(f) + more).0; |r| <= 1 || r[0] != f
  {
    hide ParseFields, FieldLine, Survives, Printable;
    if |f.name| >= LINE_LIMIT { LongNameLost(f, more); } else { LongValueLost(f, more); }
  }

  /** A value that was cut comes out shorter. */
  lemma {:induction false} ShortValue(w: string, v: string)
    requires |w| <= |v| && v != "" && w == (" " + v + "\r")[..|w|]
    ensures Strip(StripCrLf(w)) != v
  {
    if w != "" {
      assert w[0] == ' ' && w == " " + w[1..];
      StripCrLfAfter(" ", w[1..]);
      StripLoses(StripCrLf(w));
    }
  }

  lemma {:induction false} EndsAtOnce(left: string, more: string)
    requires left == "\r" || left == ""
    ensures ParseFields(left + "\n" + more).0 == []
  {
    FirstLineOf(left, more, LINE_LIMIT);
    hide FirstLine;
  }

  lemma {:induction false} BlankLineIgnored(more: string)
    ensures ParseFields(" \r\n" + more) == ParseFields(more)
  {
    assert " \r\n" + more == " \r" + "\n" + more;
    FirstLineOf(" \r", more, LINE_LIMIT);
    ParseNoColon(" \r\n");
    hide ParseFields, ParseField, FirstLine, AfterLine;
    assert " \r" + "\n" == " \r\n";
    ParseStep(" \r\n", more);
    assert [] + ParseFields(more).0 == ParseFields(more).0;
  }

  /** The harmless kind: what is cut off is a line of white space. */
  lemma {:induction false} EmptyValueSurvives(f: Field, more: string)
    requires Printable(f) && |f.name| == LINE_LIMIT - 1 && f.value == ""
    ensures ParseFields(FieldLine(f) + more) == ([f] + ParseFields(more).0, ParseFields(more).1)
  {
    assert StripCrLf("") == "" && Strip("") == "";
    StripTrimmed(f.name);
    hide ParseFields, ParseField, FirstLine, AfterLine, Strip, StripCrLf;
    var read, blank := f.name + ":", " \r\n";
    assert FieldLine(f) + more == read + (blank + more);
    FirstLineCut(read, blank + more, LINE_LIMIT);
    ParseColon(f.name, "");
    assert f.name + ":" + "" == read;
    NotTheEnd(read);
    ParseStep(read, blank + more);
    BlankLineIgnored(more);
  }

  predicate AllPrintable(fields: seq<Field>) {
    forall i | 0 <= i < |fields| :: Printable(fields[i])
  }

  predicate AllSurvive(fields: seq<Field>) {
    forall i | 0 <= i < |fields| :: Survives(fields[i])
  }

  lemma {:induction false} AllOfTail(fields: seq<Field>)
    requires fields != []
    ensures AllPrintable(fields) <==> Printable(fields[0]) && AllPrintable(fields[1..])
    ensures AllSurvive(fields) <==> Survives(fields[0]) && AllSurvive(fields[1..])
  {
    hide Printable, Survives;
    assert forall i | 0 < i < |fields| :: fields[i] == fields[1..][i - 1];
    assert forall i | 0 <= i < |fields| - 1 :: fields[1..][i] == fields[i + 1];
  }

  lemma {:induction false} PrintedHead(fields: seq<Field>, rest: string)
    requires fields != []
    ensures PrintFields(fields) + "\r\n" + rest == FieldLine(fields[0]) + (PrintFields(fields[1..]) + "\r\n" + rest)
  {
    hide FieldLine;
  }

  lemma {:induction false} SurvivorRead(f: Field, more: string)
    requires Printable(f) && Survives(f)
    ensures ParseFields(FieldLine(f) + more) == ([f] + ParseFields(more).0, ParseFields(more).1)
  {
    hide ParseFields, Printable;
    if ShortLine(f) { ParseFirst(f, more); } else { EmptyValueSurvives(f, more); }
  }

  lemma {:induction false} ShortSurvives(f: Field)
    requires ShortLine(f)
    ensures Survives(f)
  {
  }

  lemma {:induction false} SameHead(fields: seq<Field>, r: seq<Field>)
    requires fields != []
    ensures [fields[0]] + r == fields <==> r == fields[1..]
  {
    assert ([fields[0]] + r)[1..] == r;
    assert fields == [fields[0]] + fields[1..];
  }

  /** Printed fields, the last of them short, are read back if and only if each of them survives. */
  lemma {:induction false} ReadBackIff(fields: seq<Field>, rest: string)
    requires AllPrintable(fields) && (fields != [] ==> ShortLine(fields[|fields| - 1]))
    ensures var r := ParseFields(PrintFields(fields) + "\r\n" + rest);
            && (r.0 == fields <==> AllSurvive(fields))
            && (r.0 == fields ==> r.1 == rest)
  {
    hide ParseFields, PrintFields, Printable, ShortLine, Survives, FieldLine, AllPrintable, AllSurvive;
    if fields == [] {
      NothingPrinted(rest);
      return;
    }
    var f, tail := fields[0], fields[1..];
    AllOfTail(fields);
    PrintedHead(fields, rest);
    var more := PrintFields(tail) + "\r\n" + rest;
    SameHead(fields, ParseFields(more).0);
    if Survives(f) {
      SurvivorRead(f, more);
      ReadBackIff(tail, rest);
    } else {
      if tail == [] { ShortSurvives(f); }
      LongFieldLost(f, more);
    }
  }

  lemma {:induction false} NothingPrinted(rest: string)
    ensures ParseFields(PrintFields([]) + "\r\n" + rest) == ([], rest) && AllSurvive([])
  {
    ParseBlank(rest);
    hide ParseFields;
    assert "" + "\r\n" + rest == "\r\n" + rest;
  }

  /** In particular short ones are, and what follows the blank line is left. */
  lemma {:induction false} ParsePrint(fields: seq<Field>, rest: string)
    requires AllPrintable(fields) && forall i | 0 <= i < |fields| :: ShortLine(fields[i])
    ensures ParseFields(PrintFields(fields) + "\r\n" + rest) == (fields, rest)
  {
    hide ParseFields, PrintFields, AllPrintable, ShortLine;
    ReadBackIff(fields, rest);
  }

  /** A newline only at the end, as in anything a line read returns. */
  predicate OneLine(line: string) {
    forall i | 0 <= i < |line| && line[i] == '\n' :: i == |line| - 1
  }

  lemma {:induction false} FirstLineIsOne(s: string, limit: nat)
    ensures OneLine(FirstLine(s, limit))
  {
    if s != "" && limit > 0 && s[0] != '\n' {
      FirstLineIsOne(s[1..], limit - 1);
      var line, rest := FirstLine(s, limit), FirstLine(s[1..], limit - 1);
      forall i | 0 <= i < |line| && line[i] == '\n' ensures i == |line| - 1 {
        assert line[i] == rest[i - 1];
      }
    }
  }

  lemma {:induction false} StripCrLfPrefix(s: string)
    ensures StripCrLf(s) <= s
    ensures StripCrLf(s) != "" ==> StripCrLf(s)[|StripCrLf(s)| - 1] != '\n'
  {
    if s != "" && (s[|s| - 1] == '\r' || s[|s| - 1] == '\n') { StripCrLfPrefix(s[..|s| - 1]); }
  }

  lemma {:induction false} StripMembers(s: string)
    ensures forall c :: c in Strip(s) ==> c in s
  {
    StripLeftMembers(StripRight(s));
    StripRightMembers(s);
  }

  lemma {:induction false} StripLeftMembers(s: string)
    ensures forall c :: c in StripLeft(s) ==> c in s
  {
    if s != "" && IsSpace(s[0]) { StripLeftMembers(s[1..]); }
  }

  lemma {:induction false} StripRightMembers(s: string)
    ensures forall c :: c in StripRight(s) ==> c in s
  {
    if s != "" && IsSpace(s[|s| - 1]) { StripRightMembers(s[..|s| - 1]); }
  }

  lemma {:induction false} ParsedFieldPrintable(line: string)
    requires OneLine(line)
    ensures forall i | 0 <= i < |ParseField(line)| :: Printable(ParseField(line)[i])
  {
    var decoded := StripCrLf(line);
    StripCrLfPrefix(line);
    assert '\n' !in decoded;
    if ':' in decoded {
      Partition(decoded, ':');
      var n, v := Before(decoded, ':'), After(decoded, ':');
      assert forall c :: c in n ==> c in decoded;
      assert forall c :: c in v ==> c in decoded;
      StripTrims(n);
      StripTrims(v);
      StripMembers(n);
      StripMembers(v);
    }
  }

  /** Whatever the reader reads can be printed again. */
  lemma {:induction false} ParsedPrintable(s: string)
    ensures forall i | 0 <= i < |ParseFields(s).0| :: Printable(ParseFields(s).0[i])
    decreases |s|
  {
    var line := FirstLine(s, LINE_LIMIT);
    if !EndsHeaders(line) {
      FirstLineIsOne(s, LINE_LIMIT);
      ParsedFieldPrintable(line);
      hide ParseField, FirstLine;
      ParsedPrintable(AfterLine(s, LINE_LIMIT));
    }
  }
}
