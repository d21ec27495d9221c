/** Forwarding a request: hop-by-hop fields are dropped (section 7.6.1 of RFC 9110), the body is
    re-framed by length, and the proxy adds its own Host, Via and Connection fields.

    Splitting the absolute request target is library behaviour, so authority and origin form are
    parameters.
  */
module ProxyForward {
  import opened Basics
  import opened Wire
  import opened ProxyBody

  const HOP_BY_HOP: set<string> := {
    "connection", "proxy-connection", "keep-alive", "te", "trailer",
    "transfer-encoding", "upgrade", "proxy-authenticate", "proxy-authorization" }

  const VIA_TOKEN := "1.1 opencode-model-eval-capture"

  // ---- Stripping --------------------------------------------------------------------------------

  function Split(s: string, c: char): seq<string>
    decreases |s|
  {
    if c in s then [Before(s, c)] + Split(After(s, c), c) else [s]
  }

  /** The field names a Connection value declares single-hop. */
  function Tokens(parts: seq<string>): set<string> {
    set i | 0 <= i < |parts| :: Lower(Strip(parts[i]))
  }

  function ConnectionNamed(headers: seq<Field>): set<string> {
    if headers == [] then {}
    else (if Lower(headers[0].name) == "connection" then Tokens(Split(headers[0].value, ',')) else {})
         + ConnectionNamed(headers[1..])
  }

  function Without(headers: seq<Field>, names: set<string>): seq<Field> {
    if headers == [] then []
    else if Lower(headers[0].name) in names then Without(headers[1..], names)
    else [headers[0]] + Without(headers[1..], names)
  }

  function Stripped(headers: seq<Field>): seq<Field> {
    Without(headers, HOP_BY_HOP + ConnectionNamed(headers))
  }

  lemma {:induction false} NamedConcat(a: seq<Field>, b: seq<Field>)
    ensures ConnectionNamed(a + b) == ConnectionNamed(a) + ConnectionNamed(b)
  {
    if a == [] {
      assert a + b == b;
    } else {
      NamedConcat(a[1..], b);
      assert (a + b)[1..] == a[1..] + b;
    }
  }

  method StripHopByHop(headers: seq<Field>) returns (kept: seq<Field>)
    ensures kept == Stripped(headers)
  {
    var named: set<string> := {};
    for i := 0 to |headers|
      invariant named == ConnectionNamed(headers[..i])
    {
      var f := headers[i];
      if Lower(f.name) == "connection" {
        var parts := Split(f.value, ',');
        named := named + Tokens(parts);
      }
      assert headers[..i + 1] == headers[..i] + [f];
      NamedConcat(headers[..i], [f]);
    }
    assert headers[..|headers|] == headers;
    kept := Without(headers, HOP_BY_HOP + named);
  }

  lemma {:induction false} WithoutMembers(headers: seq<Field>, names: set<string>)
    ensures forall f | f in Without(headers, names) :: f in headers && Lower(f.name) !in names
  {
    if headers != [] { WithoutMembers(headers[1..], names); }
  }

  lemma {:induction false} WithoutNothing(headers: seq<Field>, names: set<string>)
    requires forall i | 0 <= i < |headers| :: Lower(headers[i].name) !in names
    ensures Without(headers, names) == headers
  {
    if headers != [] {
      assert forall i | 0 <= i < |headers| - 1 :: headers[1..][i] == headers[i + 1];
      WithoutNothing(headers[1..], names);
      assert headers == [headers[0]] + headers[1..];
    }
  }

  lemma {:induction false} NamesNobody(headers: seq<Field>)
    requires forall i | 0 <= i < |headers| :: Lower(headers[i].name) != "connection"
    ensures ConnectionNamed(headers) == {}
  {
    if headers != [] {
      assert forall i | 0 <= i < |headers| - 1 :: headers[1..][i] == headers[i + 1];
      NamesNobody(headers[1..]);
    }
  }

  /** No hop-by-hop field and no field named by Connection survives, and stripping again changes
      nothing, since no Connection field is left to name anything. */
  lemma {:induction false} StripIdempotent(headers: seq<Field>)
    ensures forall f | f in Stripped(headers) ::
              f in headers && Lower(f.name) !in HOP_BY_HOP && Lower(f.name) !in ConnectionNamed(headers)
    ensures Stripped(Stripped(headers)) == Stripped(headers)
  {
    var names := HOP_BY_HOP + ConnectionNamed(headers);
    var kept := Stripped(headers);
    WithoutMembers(headers, names);
    hide ConnectionNamed, Without;
    forall i | 0 <= i < |kept| ensures Lower(kept[i].name) !in names && Lower(kept[i].name) != "connection" {
      assert kept[i] in kept;
    }
    NamesNobody(kept);
    WithoutNothing(kept, HOP_BY_HOP);
    assert HOP_BY_HOP + {} == HOP_BY_HOP;
  }

  // ---- The forwarded request --------------------------------------------------------------------

  datatype Target = Target(netloc: string, originForm: string)

  /** Fields the proxy forwards from the client. */
  function Forwarded(headers: seq<Field>): seq<Field> {
    Without(Stripped(headers), {"host"})
  }

  function ViaValue(headers: seq<Field>): string {
    var existing := Lookup(headers, "via");
    if existing == "" then VIA_TOKEN else existing + ", " + VIA_TOKEN
  }

  function LengthField(body: string): seq<Field> {
    if body == "" then [] else [Field("Content-Length", Digits(|body|))]
  }

  function OwnTail(headers: seq<Field>, body: string): seq<Field> {
    [Field("Via", ViaValue(headers))] + LengthField(body) + [Field("Connection", "close")]
  }

  function OutFields(target: Target, headers: seq<Field>, body: string): seq<Field> {
    [Field("Host", target.netloc)] + Forwarded(headers) + OwnTail(headers, body)
  }

  function RequestLine(verb: string, target: Target, version: string): string {
    verb + " " + target.originForm + " " + version + "\r\n"
  }

  function Request(verb: string, target: Target, version: string, headers: seq<Field>, body: string): string {
    RequestLine(verb, target, version) + PrintFields(OutFields(target, headers, body)) + "\r\n" + body
  }

  lemma {:induction false} PrintHead(f: Field, fields: seq<Field>)
    ensures PrintFields([f] + fields) == FieldLine(f) + PrintFields(fields)
  {
    hide FieldLine;
    assert ([f] + fields)[1..] == fields;
  }

  lemma {:induction false} PrintConcat(a: seq<Field>, b: seq<Field>)
    ensures PrintFields(a + b) == PrintFields(a) + PrintFields(b)
  {
    if a == [] {
      assert a + b == b;
    } else {
      var f, rest := a[0], a[1..];
      assert a == [f] + rest && a + b == [f] + (rest + b);
      PrintConcat(rest, b);
      hide PrintFields, FieldLine;
      PrintHead(f, rest);
      PrintHead(f, rest + b);
      Regroup(FieldLine(f), PrintFields(rest), PrintFields(b));
    }
  }

  /** The lines of the head: the request line, the forwarded fields, and the proxy's own. */
  method AssembleHead(verb: string, target: Target, version: string, headers: seq<Field>, body: string)
    returns (out: string)
    ensures out == RequestLine(verb, target, version) + PrintFields(OutFields(target, headers, body)) + "\r\n"
  {
    hide PrintFields, Lookup, Stripped, Without, Digits, FieldLine;
    var kept := StripHopByHop(headers);
    var forwarded := Without(kept, {"host"});
    out := RequestLine(verb, target, version);
    ghost var first := out;
    var host := Field("Host", target.netloc);
    ghost var fields := [host];
    out := out + FieldLine(host);
    PrintOne(host);
    for i := 0 to |forwarded|
      invariant fields == [host] + forwarded[..i]
      invariant out == first + PrintFields(fields)
    {
      out := out + FieldLine(forwarded[i]);
      PrintMore(first, fields, forwarded[i]);
      fields := fields + [forwarded[i]];
    }
    assert forwarded[..|forwarded|] == forwarded;
    var existing := Lookup(headers, "via");
    var via := Field("Via", (if existing != "" then existing + ", " else "") + VIA_TOKEN);
    assert via.value == ViaValue(headers);
    hide ViaValue, VIA_TOKEN;
    out := out + FieldLine(via);
    PrintMore(first, fields, via);
    fields := fields + [via];
    if body != "" {
      var length := Field("Content-Length", Digits(|body|));
      out := out + FieldLine(length);
      PrintMore(first, fields, length);
      fields := fields + [length];
    }
    var close := Field("Connection", "close");
    out := out + FieldLine(close) + "\r\n";
    PrintMore(first, fields, close);
    fields := fields + [close];
    assert fields == OutFields(target, headers, body);
  }

  /** Reads the body and assembles what goes upstream; None where reading the body raises. */
  method Forward(conn: Connection, verb: string, target: Target, version: string, headers: seq<Field>)
    returns (sent: Option<string>)
    modifies conn
    ensures match BodyOf(headers, old(conn.incoming))
            case None => sent == None
            case Some((body, rest)) =>
              sent == Some(Request(verb, target, version, headers, body)) && conn.incoming == rest
  {
    hide BodyOf, PrintFields, OutFields;
    var read := ReadBody(conn, headers);
    if read == None {
      return None;
    }
    var out := AssembleHead(verb, target, version, headers, read.value);
    return Some(out + read.value);
  }

  lemma {:induction false} PrintOne(f: Field)
    ensures PrintFields([f]) == FieldLine(f)
  {
  }

  lemma {:induction false} PrintMore(first: string, fields: seq<Field>, f: Field)
    ensures first + PrintFields(fields) + FieldLine(f) == first + PrintFields(fields + [f])
  {
    PrintConcat(fields, [f]);
    PrintOne(f);
  }

  // ---- Re-framing preserves the request ---------------------------------------------------------

  predicate PlainTarget(verb: string, target: Target, version: string) {
    && '\n' !in verb && '\n' !in target.originForm && '\n' !in version
    && |RequestLine(verb, target, version)| <= LINE_LIMIT
    && Trimmed(target.netloc) && '\n' !in target.netloc
  }

  lemma {:induction false} LookupPrintable(headers: seq<Field>, name: string)
    requires AllPrintable(headers)
    ensures var v := Lookup(headers, name); Trimmed(v) && '\n' !in v
  {
    if headers != [] {
      assert forall i | 0 <= i < |headers| - 1 :: headers[1..][i] == headers[i + 1];
      LookupPrintable(headers[1..], name);
    }
  }

  lemma {:induction false} ViaPrintable(headers: seq<Field>)
    requires AllPrintable(headers)
    ensures Printable(Field("Via", ViaValue(headers)))
  {
    LookupPrintable(headers, "via");
    var existing, v := Lookup(headers, "via"), ViaValue(headers);
    hide Lookup;
    TokenPlain();
    assert Trimmed("Via") && ':' !in "Via" && '\n' !in "Via";
    hide IsSpace, VIA_TOKEN;
    if existing != "" {
      PlainEnd(existing, ", ", VIA_TOKEN);
    }
  }

  lemma {:induction false} TokenPlain()
    ensures VIA_TOKEN != "" && '\n' !in VIA_TOKEN && Trimmed(VIA_TOKEN)
  {
    assert VIA_TOKEN[0] == '1' && VIA_TOKEN[|VIA_TOKEN| - 1] == 'e';
  }

  lemma {:induction false} PlainEnd(a: string, sep: string, b: string)
    requires a != "" && b != "" && Trimmed(a) && Trimmed(b) && '\n' !in a && '\n' !in b && '\n' !in sep
    ensures Trimmed(a + sep + b) && '\n' !in a + sep + b
  {
    hide IsSpace;
    var v := a + sep + b;
    assert v[0] == a[0] && v[|v| - 1] == b[|b| - 1];
  }

  lemma {:induction false} LengthPrintable(n: nat)
    ensures Printable(Field("Content-Length", Digits(n)))
  {
    var s := Digits(n);
    DigitsDecimal(n);
    hide Digits;
    assert !IsSpace(s[0]) && !IsSpace(s[|s| - 1]);
    var name := "Content-Length";
    assert name[0] == 'C' && name[|name| - 1] == 'h';
  }

  lemma {:induction false} PrintableConcat(a: seq<Field>, b: seq<Field>)
    requires AllPrintable(a) && AllPrintable(b)
    ensures AllPrintable(a + b)
  {
    hide Printable;
  }

  lemma {:induction false} PrintableWithout(headers: seq<Field>, names: set<string>)
    requires AllPrintable(headers)
    ensures AllPrintable(Without(headers, names))
  {
    hide Printable, Lower;
    WithoutMembers(headers, names);
    var kept := Without(headers, names);
    forall i | 0 <= i < |kept| ensures Printable(kept[i]) {
      assert kept[i] in kept;
    }
  }

  lemma {:induction false} OutPrintable(target: Target, headers: seq<Field>, body: string)
    requires AllPrintable(headers) && Trimmed(target.netloc) && '\n' !in target.netloc
    ensures AllPrintable(OutFields(target, headers, body))
  {
    ViaPrintable(headers);
    LengthPrintable(|body|);
    OwnPrintable(target);
    hide ViaValue, Digits, Without, ConnectionNamed, Printable;
    PrintableWithout(headers, HOP_BY_HOP + ConnectionNamed(headers));
    PrintableWithout(Stripped(headers), {"host"});
    assert AllPrintable([Field("Host", target.netloc)]) && AllPrintable(OwnTail(headers, body));
    hide AllPrintable;
    PrintableConcat([Field("Host", target.netloc)], Forwarded(headers));
    PrintableConcat([Field("Host", target.netloc)] + Forwarded(headers), OwnTail(headers, body));
  }

  lemma {:induction false} OwnPrintable(target: Target)
    requires Trimmed(target.netloc) && '\n' !in target.netloc
    ensures Printable(Field("Host", target.netloc)) && Printable(Field("Connection", "close"))
  {
    var h, c, v := "Host", "Connection", "close";
    assert h[0] == 'H' && h[|h| - 1] == 't' && c[0] == 'C' && c[|c| - 1] == 'n' && v[0] == 'c' && v[|v| - 1] == 'e';
  }

  /** The last field sent is one of the proxy's own, and short. */
  lemma {:induction false} EndsShort(target: Target, headers: seq<Field>, body: string)
    ensures var out := OutFields(target, headers, body); out != [] && ShortLine(out[|out| - 1])
  {
    hide Forwarded, ViaValue, LengthField;
  }

  lemma {:induction false} RequestStarts(verb: string, target: Target, version: string,
                                         headers: seq<Field>, body: string, next: string)
    requires PlainTarget(verb, target, version)
    ensures var wire := Request(verb, target, version, headers, body) + next;
            && FirstLine(wire, LINE_LIMIT) == RequestLine(verb, target, version)
            && AfterLine(wire, LINE_LIMIT) == PrintFields(OutFields(target, headers, body)) + "\r\n" + (body + next)
  {
    hide OutFields, PrintFields;
    var text := verb + " " + target.originForm + " " + version + "\r";
    var more := PrintFields(OutFields(target, headers, body)) + "\r\n" + (body + next);
    assert text + "\n" == RequestLine(verb, target, version);
    assert Request(verb, target, version, headers, body) + next == text + "\n" + more;
    FirstLineOf(text, more, LINE_LIMIT);
  }

  /** Reading the forwarded octets back gives exactly the fields that were sent if and only if each of
      their lines survives the limit of a line read; and then what follows them is the body. */
  lemma {:induction false} ReadBackFields(verb: string, target: Target, version: string,
                                          headers: seq<Field>, body: string, next: string)
    requires AllPrintable(headers) && PlainTarget(verb, target, version)
    ensures var wire, out := Request(verb, target, version, headers, body) + next, OutFields(target, headers, body);
            && FirstLine(wire, LINE_LIMIT) == RequestLine(verb, target, version)
            && (ParseFields(AfterLine(wire, LINE_LIMIT)).0 == out <==> AllSurvive(out))
            && (AllSurvive(out) ==> ParseFields(AfterLine(wire, LINE_LIMIT)) == (out, body + next))
  {
    OutPrintable(target, headers, body);
    EndsShort(target, headers, body);
    RequestStarts(verb, target, version, headers, body, next);
    hide OutFields, AllPrintable, AllSurvive, ParseFields, Request, FirstLine, AfterLine, PrintFields, ShortLine;
    ReadBackIff(OutFields(target, headers, body), body + next);
  }

  /** A client field that fills one line read exactly: it grows when it is forwarded, and is cut. */
  lemma {:induction false} GrownFieldLost(verb: string, target: Target, version: string, value: string, next: string)
    requires PlainTarget(verb, target, version)
    requires |value| == LINE_LIMIT - 3 && Trimmed(value) && '\n' !in value
    ensures ParseFields("a:" + value + "\n" + "\r\n") == ([Field("a", value)], "")
    ensures var headers := [Field("a", value)];
            var wire := Request(verb, target, version, headers, "") + next;
            ParseFields(AfterLine(wire, LINE_LIMIT)).0 != OutFields(target, headers, "")
  {
    GrownFieldRead(value);
    var f := Field("a", value);
    GrownFieldForwarded(target, f);
    assert AllPrintable([f]) by { assert Printable(f); }
    ReadBackFields(verb, target, version, [f], "", next);
    hide OutFields, ParseFields, Request, AfterLine, Survives;
    var out := OutFields(target, [f], "");
    assert out[1] == f && !Survives(f);
  }

  lemma {:induction false} GrownFieldRead(value: string)
    requires |value| == LINE_LIMIT - 3 && Trimmed(value) && '\n' !in value
    ensures ParseFields("a:" + value + "\n" + "\r\n") == ([Field("a", value)], "")
    ensures Printable(Field("a", value))
  {
    var line := "a" + ":" + (value + "\n");
    assert line == ("a:" + value) + "\n";
    assert ("a:" + value)[1] == ':' && !EndsHeaders(line);
    FirstLineOf("a:" + value, "\r\n", LINE_LIMIT);
    ParseColon("a", value + "\n");
    StripCrLfNewline(value);
    StripTrimmed(value);
    StripTrimmed("a");
    ParseBlank("");
    hide ParseFields, ParseField, FirstLine, Strip, StripCrLf;
    assert "\r\n" + "" == "\r\n";
    ParseStep(line, "\r\n");
    assert [Field("a", value)] + [] == [Field("a", value)];
  }

  lemma {:induction false} StripCrLfNewline(value: string)
    requires value != "" && value[|value| - 1] != '\r' && value[|value| - 1] != '\n'
    ensures StripCrLf(value + "\n") == value
  {
    StripCrLfAfter(value, "\n");
    assert "\n"[..0] == "";
    assert StripCrLf("\n") == "";
  }

  lemma {:induction false} KeptAlone(f: Field, names: set<string>)
    requires Lower(f.name) !in names
    ensures Without([f], names) == [f]
  {
    assert [f][1..] == [] && Without([], names) == [];
  }

  lemma {:induction false} GrownFieldForwarded(target: Target, f: Field)
    requires f.name == "a" && |f.value| == LINE_LIMIT - 3
    ensures var out := OutFields(target, [f], ""); |out| > 1 && out[1] == f
    ensures !Survives(f)
  {
    assert Lower("a") == "a";
    assert "a" != "connection" && "a" !in HOP_BY_HOP && "a" != "host" by {
      assert |"a"| == 1;
      assert forall h <- HOP_BY_HOP :: |h| > 1;
    }
    hide Lower, HOP_BY_HOP;
    assert [f][1..] == [];
    assert ConnectionNamed([f]) == {};
    KeptAlone(f, HOP_BY_HOP + ConnectionNamed([f]));
    KeptAlone(f, {"host"});
  }

  /** The fields that pass through: not hop-by-hop, not named by Connection, and not one of the
      three the proxy writes itself. */
  function PassedThrough(fields: seq<Field>, clientHeaders: seq<Field>): seq<Field> {
    Without(fields, HOP_BY_HOP + ConnectionNamed(clientHeaders) + {"host", "via", "content-length"})
  }

  lemma {:induction false} WithoutHead(f: Field, rest: seq<Field>, names: set<string>)
    ensures Without([f] + rest, names) == (if Lower(f.name) in names then [] else [f]) + Without(rest, names)
  {
    hide Lower;
    assert ([f] + rest)[1..] == rest;
  }

  lemma {:induction false} WithoutConcat(a: seq<Field>, b: seq<Field>, names: set<string>)
    ensures Without(a + b, names) == Without(a, names) + Without(b, names)
  {
    if a == [] {
      assert a + b == b;
    } else {
      var f, rest := a[0], a[1..];
      assert a == [f] + rest && a + b == [f] + (rest + b);
      WithoutConcat(rest, b, names);
      hide Without, Lower;
      WithoutHead(f, rest, names);
      WithoutHead(f, rest + b, names);
      Regroup(if Lower(f.name) in names then [] else [f], Without(rest, names), Without(b, names));
    }
  }

  lemma {:induction false} WithoutTwice(headers: seq<Field>, fewer: set<string>, more: set<string>)
    requires fewer <= more
    ensures Without(Without(headers, fewer), more) == Without(headers, more)
  {
    if headers != [] {
      WithoutTwice(headers[1..], fewer, more);
      var f, rest := headers[0], Without(headers[1..], fewer);
      if Lower(f.name) !in fewer {
        assert ([f] + rest)[1..] == rest;
      }
    }
  }

  lemma {:induction false} OwnNames()
    ensures Lower("Host") == "host" && Lower("Via") == "via"
    ensures Lower("Content-Length") == "content-length" && Lower("Connection") == "connection"
  {
    assert Lower("Content-Length") == "content-length";
  }

  /** End-to-end fields keep their order and multiplicity. */
  lemma {:induction false} EndToEndPreserved(target: Target, headers: seq<Field>, body: string)
    ensures PassedThrough(OutFields(target, headers, body), headers) == PassedThrough(headers, headers)
  {
    var hop := HOP_BY_HOP + ConnectionNamed(headers);
    var names := hop + {"host", "via", "content-length"};
    var host, tail := [Field("Host", target.netloc)], OwnTail(headers, body);
    OwnNames();
    WithoutConcat(host + Forwarded(headers), tail, names);
    WithoutConcat(host, Forwarded(headers), names);
    OwnDropped(host, tail, headers, body, names);
    WithoutTwice(Stripped(headers), {"host"}, names);
    WithoutTwice(headers, hop, names);
  }

  lemma {:induction false} OwnDropped(host: seq<Field>, tail: seq<Field>, headers: seq<Field>, body: string,
                                      names: set<string>)
    requires |host| == 1 && host[0].name == "Host" && tail == OwnTail(headers, body)
    requires {"host", "via", "content-length", "connection"} <= names
    ensures Without(host, names) == [] && Without(tail, names) == []
  {
    OwnNames();
    hide Lower, ViaValue, Digits;
    var via, close := [Field("Via", ViaValue(headers))], [Field("Connection", "close")];
    WithoutConcat(via + LengthField(body), close, names);
    WithoutConcat(via, LengthField(body), names);
  }

  // ---- The body, read back ----------------------------------------------------------------------

  lemma {:induction false} LookupWithout(headers: seq<Field>, names: set<string>, name: string)
    ensures Lookup(Without(headers, names), name) == if name in names then "" else Lookup(headers, name)
  {
    if headers != [] {
      LookupWithout(headers[1..], names, name);
      var rest := Without(headers[1..], names);
      assert ([headers[0]] + rest)[1..] == rest;
    }
  }

  lemma {:induction false} LookupConcat(a: seq<Field>, b: seq<Field>, name: string)
    ensures Lookup(a + b, name) == if Has(a, name) then Lookup(a, name) else Lookup(b, name)
  {
    if a == [] {
      assert a + b == b;
    } else {
      LookupConcat(a[1..], b, name);
      assert (a + b)[1..] == a[1..] + b;
    }
  }

  predicate Has(fields: seq<Field>, name: string) {
    exists i | 0 <= i < |fields| :: Lower(fields[i].name) == name
  }

  lemma {:induction false} HasWithout(headers: seq<Field>, names: set<string>, name: string)
    ensures Has(Without(headers, names), name) <==> name !in names && Has(headers, name)
  {
    if headers != [] {
      HasWithout(headers[1..], names, name);
      var rest := Without(headers[1..], names);
      HasCons(headers[0], headers[1..], name);
      HasCons(headers[0], rest, name);
      assert headers == [headers[0]] + headers[1..];
    }
  }

  lemma {:induction false} HasCons(f: Field, rest: seq<Field>, name: string)
    ensures Has([f] + rest, name) <==> Lower(f.name) == name || Has(rest, name)
  {
    var all := [f] + rest;
    if Has(rest, name) {
      var i :| 0 <= i < |rest| && Lower(rest[i].name) == name;
      assert all[i + 1] == rest[i];
    }
    if Lower(f.name) == name { assert all[0] == f; }
  }

  /** The Content-Length the client sent, if the proxy passes it on. */
  function ClientLength(headers: seq<Field>): Option<string> {
    if !Has(headers, CONTENT_LENGTH) || CONTENT_LENGTH in ConnectionNamed(headers) then None
    else Some(Lookup(headers, CONTENT_LENGTH))
  }

  lemma {:induction false} OutLookup(target: Target, headers: seq<Field>, body: string)
    ensures var out := OutFields(target, headers, body);
            && Lookup(out, TRANSFER_ENCODING) == ""
            && Lookup(out, CONTENT_LENGTH) ==
                 (match ClientLength(headers)
                  case Some(v) => v
                  case None => if body == "" then "" else Digits(|body|))
  {
    var hop := HOP_BY_HOP + ConnectionNamed(headers);
    var host, kept, tail := [Field("Host", target.netloc)], Forwarded(headers), OwnTail(headers, body);
    OwnNames();
    forall name | name == TRANSFER_ENCODING || name == CONTENT_LENGTH
      ensures Lookup(host + kept + tail, name) == (if Has(kept, name) then Lookup(kept, name) else Lookup(tail, name))
      ensures Has(kept, name) <==> name !in hop && Has(headers, name)
      ensures Lookup(kept, name) == if name in hop then "" else Lookup(headers, name)
    {
      hide OwnTail, ConnectionNamed;
      HasCons(host[0], [], name);
      assert [host[0]] + [] == host && !Has([], name);
      LookupConcat(host, kept + tail, name);
      LookupConcat(kept, tail, name);
      assert host + kept + tail == host + (kept + tail);
      LookupWithout(Stripped(headers), {"host"}, name);
      LookupWithout(headers, hop, name);
      HasWithout(Stripped(headers), {"host"}, name);
      HasWithout(headers, hop, name);
    }
    TailLookup(headers, body);
  }

  lemma {:induction false} TailLookup(headers: seq<Field>, body: string)
    ensures Lookup(OwnTail(headers, body), TRANSFER_ENCODING) == ""
    ensures Lookup(OwnTail(headers, body), CONTENT_LENGTH) == if body == "" then "" else Digits(|body|)
  {
    OwnNames();
    hide Lower, ViaValue, Digits;
    var tail, close := OwnTail(headers, body), [Field("Connection", "close")];
    assert tail[1..] == LengthField(body) + close;
    assert Lookup(close, TRANSFER_ENCODING) == Lookup(close, CONTENT_LENGTH) == "";
    if body != "" {
      assert (LengthField(body) + close)[1..] == close;
    } else {
      assert [] + close == close;
    }
  }

  lemma {:induction false} NothingContains()
    ensures !Contains("", "chunked")
  {
  }

  /** The body's length is a number that can be read back: any length below ten to the power 4300. */
  predicate LengthReads(body: string) {
    body == "" || |Digits(|body|)| <= INT_DIGITS
  }

  /** When the body is read back whole: always if no Content-Length of the client's is passed on,
      and otherwise exactly when that field agrees with the body that was read. */
  predicate LengthAgrees(headers: seq<Field>, body: string, next: string) {
    match ClientLength(headers)
    case None => LengthReads(body)
    case Some(v) =>
      if !IsDigits(v) then body == ""
      else IntReads(v) && (DecimalValue(v) == |body| || (DecimalValue(v) > |body| && next == ""))
  }

  lemma {:induction false} TakenWhole(body: string, next: string, n: nat)
    ensures Take(body + next, n) == body && Drop(body + next, n) == next
       <==> n == |body| || (n > |body| && next == "")
  {
    if n == |body| {
      TakeDrop(body, next);
    } else if n > |body| && next == "" {
      assert body + next == body;
    } else {
      assert |Take(body + next, n)| != |body|;
    }
  }

  lemma {:induction false} BodyReadBack(target: Target, headers: seq<Field>, body: string, next: string)
    ensures BodyOf(OutFields(target, headers, body), body + next) == Some((body, next))
       <==> LengthAgrees(headers, body, next)
  {
    OutLookup(target, headers, body);
    var out := OutFields(target, headers, body);
    hide OutFields, ClientLength;
    NothingContains();
    assert Lower("") == "";
    assert !Chunked(out);
    DigitsDecimal(|body|);
    var length := Lookup(out, CONTENT_LENGTH);
    if IsDecimal(length) {
      TakenWhole(body, next, DecimalValue(length));
    }
    if body == "" { assert "" + next == next; }
  }

  const BOTH_FRAMINGS := [Field("Transfer-Encoding", "chunked"), Field("Content-Length", "0")]

  lemma {:induction false} BothFramingsRead()
    ensures Lower("Transfer-Encoding") == "transfer-encoding" && Lower("chunked") == "chunked"
    ensures Lookup(BOTH_FRAMINGS, TRANSFER_ENCODING) == "chunked"
    ensures Lookup(BOTH_FRAMINGS, CONTENT_LENGTH) == "0" && Has(BOTH_FRAMINGS, CONTENT_LENGTH)
    ensures ConnectionNamed(BOTH_FRAMINGS) == {}
  {
    var a, b := BOTH_FRAMINGS[0], BOTH_FRAMINGS[1];
    OwnNames();
    assert Lower("Transfer-Encoding") == "transfer-encoding" && Lower("chunked") == "chunked";
    assert BOTH_FRAMINGS[1..] == [b] && [b][1..] == [];
    assert a.name == "Transfer-Encoding" && b.name == "Content-Length";
    hide Lower;
    assert Lookup([b], CONTENT_LENGTH) == "0";
    assert TRANSFER_ENCODING != CONTENT_LENGTH by { assert |TRANSFER_ENCODING| == 17 && |CONTENT_LENGTH| == 14; }
    assert Lookup([b], TRANSFER_ENCODING) == "";
  }

  const ONE_CHUNK := Message([Chunk("1", "", "A")], "0", "", [])

  lemma {:induction false} OneChunkValid()
    ensures ValidMessage(ONE_CHUNK)
  {
    assert "1"[..0] == "" && "0"[..0] == "";
    assert HexValue("") == 0;
    assert HexValue("1") == 1 && HexValue("0") == 0;
    hide HexValue;
    assert ValidSize("1", "", 1) && ValidSize("0", "", 0);
    hide ValidSize;
  }

  lemma {:induction false} OneChunkText()
    ensures Encode(ONE_CHUNK) + "" == "1\r\nA\r\n0\r\n\r\n"
    ensures Payload(ONE_CHUNK.chunks) == "A"
  {
    var c := Chunk("1", "", "A");
    assert ONE_CHUNK.chunks == [c] && [c][1..] == [];
    assert EncodeChunks([]) == "" && EncodeTrailers([]) == "\r\n" && Payload([]) == "";
    assert EncodeChunks([c]) == "1\r\nA\r\n";
  }

  lemma {:induction false} OneChunk()
    ensures DecodeChunked("1\r\nA\r\n0\r\n\r\n") == ("A", "")
  {
    hide DecodeChunked, Encode, ValidMessage, Payload;
    OneChunkValid();
    OneChunkText();
    DecodeEncode(ONE_CHUNK, "");
    assert Unread(ONE_CHUNK.trailers) + "" == "";
  }

  /** It happens: a chunked request that also says it is empty is forwarded as an empty one. */
  lemma {:induction false} BothFramingsLost(target: Target)
    ensures BodyOf(BOTH_FRAMINGS, "1\r\nA\r\n0\r\n\r\n") == Some(("A", ""))
    ensures forall next :: BodyOf(OutFields(target, BOTH_FRAMINGS, "A"), "A" + next) != Some(("A", next))
  {
    OneChunk();
    BothFramingsRead();
    hide Lower, Lookup, DecodeChunked;
    assert "chunked" <= "chunked"[0..];
    assert DecimalValue("0") == 0 by { assert "0"[..0] == ""; }
    forall next ensures BodyOf(OutFields(target, BOTH_FRAMINGS, "A"), "A" + next) != Some(("A", next)) {
      BodyReadBack(target, BOTH_FRAMINGS, "A", next);
      hide OutFields, BodyOf;
    }
  }

  /** A complete request that does not carry both framings is read back whole. */
  lemma {:induction false} SingleFramingAgrees(headers: seq<Field>, s: string)
    requires BodyOf(headers, s).Some?
    requires !(Chunked(headers) && Has(headers, CONTENT_LENGTH))
    requires IsDecimal(Lookup(headers, CONTENT_LENGTH)) ==> DecimalValue(Lookup(headers, CONTENT_LENGTH)) <= |s|
    ensures LengthReads(BodyOf(headers, s).value.0) ==>
              forall next :: LengthAgrees(headers, BodyOf(headers, s).value.0, next)
  {
    hide DecodeChunked, ConnectionNamed;
  }

  /** The re-framing theorem, from client stream to upstream stream: the fields sent are the fields
      read back if and only if their lines survive the limit of a line read; and then the end-to-end
      ones are the client's, the body is the client's, and exactly the forwarded octets are consumed. */
  lemma {:induction false} ReframingPreserves(verb: string, target: Target, version: string, s: string, next: string)
    requires var (headers, s') := ParseFields(s);
             && PlainTarget(verb, target, version)
             && BodyOf(headers, s').Some?
             && !(Chunked(headers) && Has(headers, CONTENT_LENGTH))
             && (IsDecimal(Lookup(headers, CONTENT_LENGTH)) ==> DecimalValue(Lookup(headers, CONTENT_LENGTH)) <= |s'|)
    ensures var (headers, s') := ParseFields(s);
            var body := BodyOf(headers, s').value.0;
            var wire := Request(verb, target, version, headers, body) + next;
            var (sent, after) := ParseFields(AfterLine(wire, LINE_LIMIT));
            && (sent == OutFields(target, headers, body) <==> AllSurvive(OutFields(target, headers, body)))
            && (sent == OutFields(target, headers, body) ==>
                  && PassedThrough(sent, headers) == PassedThrough(headers, headers)
                  && (LengthReads(body) ==> BodyOf(sent, after) == Some((body, next))))
  {
    var (headers, s') := ParseFields(s);
    ParsedPrintable(s);
    var body := BodyOf(headers, s').value.0;
    SingleFramingAgrees(headers, s');
    hide BodyOf, ParseFields, OutFields, Request, AfterLine, Chunked, LengthAgrees, PassedThrough;
    ReadBackFields(verb, target, version, headers, body, next);
    EndToEndPreserved(target, headers, body);
    BodyReadBack(target, headers, body, next);
  }
}
