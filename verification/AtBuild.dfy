/** The request lines the Azure client sends, and what the tokeniser makes of them. */
module AtBuild {
  import opened Text
  import opened AtLine

  const WORD32: nat := 0x1_0000_0000
  const SPARE: nat := 64

  datatype Request = PropReq | CmdReq | C2dMsg

  function Name(q: Request): (s: string)
    ensures |s| <= 12 && (forall i :: 0 <= i < |s| ==> !EndsCommand(s[i]) && s[i] != NUL)
  {
    match q
    case PropReq => "AT+AZPROPREQ"
    case CmdReq => "AT+AZCMDREQ"
    case C2dMsg => "AT+AZC2DMSGS"
  }

  function Head(q: Request, topic: string): string { Name(q) + "=" + Dec(|topic|) + ",'" }

  function Middle(payload: string): string { "'," + Dec(|payload|) + ",'" }

  function Line(q: Request, topic: string, payload: string): string {
    Head(q, topic) + topic + Middle(payload) + payload + "'"
  }

  /** The five arguments a request stands for. */
  function Fields(q: Request, topic: string, payload: string): seq<string> {
    [Name(q), Dec(|topic|), topic, Dec(|payload|), payload]
  }

  // ---------------------------------------------------------------- the buffer

  /** atcmd_len, a 32-bit sum. */
  function Allocated(topic: string, payload: string): nat { (|topic| + |payload| + SPARE) % WORD32 }

  lemma {:induction false} PartLengths(q: Request, topic: string, payload: string)
    requires |topic| < WORD32 && |payload| < WORD32
    ensures |Head(q, topic)| <= 25 && |Middle(payload)| <= 14
    ensures |Line(q, topic, payload)| == |Head(q, topic)| + |topic| + |Middle(payload)| + |payload| + 1
    ensures |topic| + |payload| + SPARE < WORD32 ==> Allocated(topic, payload) == |topic| + |payload| + SPARE
    ensures |topic| + |payload| + SPARE >= WORD32 ==> Allocated(topic, payload) < |topic| + |payload|
  {
    DecLength32(|topic|);
    DecLength32(|payload|);
    hide Dec, Name;
  }

  /** The three requests, each with both texts in quotes after their lengths. */
  lemma {:induction false} LineIs(q: Request, topic: string, payload: string)
    ensures var rest := "=" + Dec(|topic|) + ",'" + topic + "'," + Dec(|payload|) + ",'" + payload + "'";
            && Line(PropReq, topic, payload) == "AT+AZPROPREQ" + rest
            && Line(CmdReq, topic, payload) == "AT+AZCMDREQ" + rest
            && Line(C2dMsg, topic, payload) == "AT+AZC2DMSGS" + rest
  {
    hide Dec;
    LineJoins("AT+AZPROPREQ", topic, payload);
    LineJoins("AT+AZCMDREQ", topic, payload);
    LineJoins("AT+AZC2DMSGS", topic, payload);
  }

  lemma {:induction false} LineJoins(name: string, topic: string, payload: string)
    ensures (name + "=" + Dec(|topic|) + ",'") + topic + Middle(payload) + payload + "'" ==
            name + ("=" + Dec(|topic|) + ",'" + topic + "'," + Dec(|payload|) + ",'" + payload + "'")
  {
    hide Dec;
  }

  /** The line and its NUL fit exactly when the size does not wrap. */
  lemma {:induction false} LineFits(q: Request, topic: string, payload: string)
    requires |topic| < WORD32 && |payload| < WORD32
    ensures |Line(q, topic, payload)| < Allocated(topic, payload) <==> |topic| + |payload| + 64 < 0x1_0000_0000
  {
    PartLengths(q, topic, payload);
    hide Allocated, Line, Head, Middle;
  }

  /** The buffer holds t and zeros after it. */
  ghost predicate Holds(b: string, t: string) {
    |t| <= |b| && b[..|t|] == t && forall i :: |t| <= i < |b| ==> b[i] == NUL
  }

  lemma {:induction false} HoldsRead(b: string, t: string)
    requires Holds(b, t) && |t| < |b|
    ensures NUL in b && CStr(b, 0) == Until(t, NUL)
  {
    assert b[|b| - 1] == NUL;
    var k := |Until(t, NUL)|;
    assert b[0..] == b && Until(t, NUL) == t[..k];
    assert forall i :: 0 <= i < k ==> b[i] == t[i] && Until(t, NUL)[i] == t[i];
    UntilIs(b, NUL, k);
    assert b[..k] == t[..k];
  }

  lemma {:induction false} HoldsMore(b: string, t: string, s: string, w: string)
    requires Holds(b, t) && |t| + |w| <= |b|
    requires w == s || w == s + [NUL]
    ensures Holds(b[..|t|] + w + b[|t| + |w|..], t + s)
  {
    var c := b[..|t|] + w + b[|t| + |w|..];
    assert c[..|t| + |s|] == t + s;
    forall i | |t| + |s| <= i < |c| ensures c[i] == NUL {
      if i >= |t| + |w| {
        assert c[i] == b[i];
      }
    }
  }

  /** What snprintf stores when told that it has `room` bytes. */
  function Printed(s: string, room: nat): string {
    if room == 0 then "" else (if |s| < room then s else s[..room - 1]) + [NUL]
  }

  /** One write of a builder; ok is false when it would leave the buffer. */
  method Write(buf: array<char>, p: nat, s: string, format: bool, ghost t: string) returns (ok: bool)
    requires |t| == p
    modifies buf
    ensures ok == (p + |if format then Printed(s, buf.Length) else s| <= buf.Length)
    ensures ok && old(Holds(buf[..], t)) && (format ==> |s| < buf.Length) ==> Holds(buf[..], t + s)
  {
    var w := if format then Printed(s, buf.Length) else s;
    ok := p + |w| <= buf.Length;
    if ok {
      ghost var b := buf[..];
      CopyTo(buf, p, w);
      if Holds(b, t) && (format ==> |s| < buf.Length) {
        HoldsMore(b, t, s, w);
      }
    }
  }

  lemma {:induction false} LineOfParts(q: Request, topic: string, payload: string, t: string)
    requires t == "" + Head(q, topic) + topic + Middle(payload) + payload + "'"
    ensures t == Line(q, topic, payload)
  {
    hide Head, Middle;
  }

  /** atcmd_azure_prop_req, atcmd_azure_cmd_req and atcmd_azure_c2dmsg_send up to the transmission.
      Each print is told the whole buffer's size, not what is left of it; ok says that no write
      left the buffer. */
  method Build(q: Request, topic: string, payload: string) returns (ok: bool, buf: array<char>)
    requires |topic| < WORD32 && |payload| < WORD32
    ensures ok <==> |topic| + |payload| + 64 < 0x1_0000_0000
    ensures fresh(buf)
    ensures ok ==> NUL in buf[..] && CStr(buf[..], 0) == Until(Line(q, topic, payload), NUL)
  {
    PartLengths(q, topic, payload);
    hide Allocated, Line, Head, Middle, CStr, Until;
    var size := Allocated(topic, payload);
    ghost var fits := |topic| + |payload| + SPARE < WORD32;
    buf := new char[size](_ => NUL);
    var head, middle := Head(q, topic), Middle(payload);
    var p, t := 0, "";
    assert Holds(buf[..], t);
    hide Holds;
    ok := Write(buf, p, head, true, t);
    if !ok { return; }
    p, t := p + |head|, t + head;
    ok := Write(buf, p, topic, false, t);
    if !ok { return; }
    p, t := p + |topic|, t + topic;
    ok := Write(buf, p, middle, true, t);
    if !ok { return; }
    p, t := p + |middle|, t + middle;
    ok := Write(buf, p, payload, false, t);
    if !ok { return; }
    p, t := p + |payload|, t + payload;
    ok := Write(buf, p, "'", true, t);
    if ok {
      t := t + "'";
      LineOfParts(q, topic, payload, t);
      HoldsRead(buf[..], t);
    }
  }

  // ---------------------------------------------------------------- round trip

  predicate Clean(s: string) { NUL !in s && QUOTE !in s }

  lemma {:induction false} DecPlain(n: nat, c: char)
    requires !IsDigit(c)
    ensures c !in Dec(n)
  {
    hide Dec;
  }

  /** An unquoted parameter followed by a quoted one. */
  lemma {:induction false} PlainParam(a: string, tail: string)
    requires a != "" && a[0] != QUOTE && ',' !in a
    requires tail != "" && tail[0] != ' ' && tail[0] != ','
    ensures NextParam(a + "," + tail) == Param(a, true, tail)
  {
    var s := a + "," + tail;
    assert s[0] == a[0];
    UntilSplit(a, ',', tail);
    assert s[|a| + 1..] == tail;
    SkipIs(tail, 0);
    hide Until, SkipSeparators;
  }

  /** A quoted parameter, whose text ends at the first quote. */
  lemma {:induction false} QuotedParam(a: string, tail: string)
    requires QUOTE !in a
    requires tail == "" || (|tail| > 1 && tail[0] == ',' && tail[1] != ' ' && tail[1] != ',')
    ensures NextParam("'" + a + "'" + tail) == Param(a, tail != "", if tail == "" then "" else tail[1..])
  {
    hide Until, SkipSeparators, Body;
    QuotedBody(a, tail);
    SkipIs(tail, if tail == "" then 0 else 1);
  }

  lemma {:induction false} QuotedParamClean(s: string)
    requires s != "" && s[0] == QUOTE
    ensures QUOTE !in NextParam(s).arg
  {
  }

  lemma {:induction false} CommandOf(q: Request, rest: string)
    ensures Args(Name(q) + "=" + rest) == [Name(q)] + Params(rest, MAX_ARGC - 1)
  {
    hide Name, Params;
    var s := Name(q) + "=" + rest;
    assert forall i :: 0 <= i < |Name(q)| ==> s[i] == Name(q)[i];
    CommandIs(s, |Name(q)|);
    assert s[..|Name(q)|] == Name(q);
    assert s[|Name(q)| + 1..] == rest;
  }

  /** Parameters of a text without NULs have no NULs. */
  lemma {:induction false} ParamsNoNul(s: string, room: nat)
    requires NUL !in s
    ensures forall j :: 0 <= j < |Params(s, room)| ==> NUL !in Params(s, room)[j]
    decreases |s|
  {
    hide NextParam;
    if room > 0 {
      NextParamNoNul(s);
      var p := NextParam(s);
      if p.more {
        ParamsNoNul(p.rest, room - 1);
      }
    }
  }

  lemma {:induction false} NextParamNoNul(s: string)
    requires NUL !in s
    ensures NUL !in NextParam(s).arg && NUL !in NextParam(s).rest
  {
    hide Until, SkipSeparators;
    var body := Body(s);
    assert NUL !in body;
    var p := NextParam(s);
    assert p.arg <= body;
    if p.more {
      assert p.rest == body[|body| - |p.rest|..];
    }
  }

  // The tails of a line, from each of its parameters on.
  function FromPayload(payload: string): string { "'" + payload + "'" + "" }
  function FromPayloadLen(payload: string): string { Dec(|payload|) + "," + FromPayload(payload) }
  function FromTopic(topic: string, payload: string): string { "'" + topic + "'" + ("," + FromPayloadLen(payload)) }
  function FromTopicLen(topic: string, payload: string): string { Dec(|topic|) + "," + FromTopic(topic, payload) }

  lemma {:induction false} LineTails(q: Request, topic: string, payload: string)
    ensures Line(q, topic, payload) == Name(q) + "=" + FromTopicLen(topic, payload)
  {
    hide Dec, Name;
    var a, b, c := Name(q), Dec(|topic|), Dec(|payload|);
    assert (a + "=" + b + ",'") + topic + ("'," + c + ",'") + payload + "'"
        == a + "=" + (b + "," + ("'" + topic + "'" + ("," + (c + "," + ("'" + payload + "'" + "")))));
  }

  lemma {:induction false} TopicLenParams(topic: string, payload: string)
    ensures Params(FromTopicLen(topic, payload), 14) == [Dec(|topic|)] + Params(FromTopic(topic, payload), 13)
  {
    DecPlain(|topic|, ',');
    DecPlain(|topic|, QUOTE);
    PlainParam(Dec(|topic|), FromTopic(topic, payload));
    hide Dec, NextParam;
  }

  lemma {:induction false} PayloadLenParams(payload: string)
    ensures Params(FromPayloadLen(payload), 12) == [Dec(|payload|)] + Params(FromPayload(payload), 11)
  {
    DecPlain(|payload|, ',');
    DecPlain(|payload|, QUOTE);
    PlainParam(Dec(|payload|), FromPayload(payload));
    hide Dec, NextParam;
  }

  lemma {:induction false} TopicParams(topic: string, payload: string)
    ensures |Params(FromTopic(topic, payload), 13)| > 0
    ensures QUOTE !in Params(FromTopic(topic, payload), 13)[0]
    ensures QUOTE !in topic ==>
              Params(FromTopic(topic, payload), 13) == [topic] + Params(FromPayloadLen(payload), 12)
  {
    var s := FromTopic(topic, payload);
    QuotedParamClean(s);
    var tail := FromPayloadLen(payload);
    if QUOTE !in topic {
      DecFirst(|payload|, tail);
      QuotedParam(topic, "," + tail);
      assert ("," + tail)[1..] == tail;
    }
    hide NextParam, FromPayloadLen;
  }

  lemma {:induction false} DecFirst(n: nat, tail: string)
    requires Dec(n) <= tail
    ensures tail != "" && IsDigit(tail[0])
  {
    assert tail[0] == Dec(n)[0];
    hide Dec;
  }

  lemma {:induction false} PayloadParams(payload: string)
    ensures |Params(FromPayload(payload), 11)| > 0
    ensures QUOTE !in Params(FromPayload(payload), 11)[0]
    ensures QUOTE !in payload ==> Params(FromPayload(payload), 11) == [payload]
  {
    QuotedParamClean(FromPayload(payload));
    if QUOTE !in payload {
      QuotedParam(payload, "");
    }
    hide NextParam;
  }

  lemma {:induction false} RoundTripNoNul(q: Request, topic: string, payload: string)
    ensures Args(Line(q, topic, payload)) == Fields(q, topic, payload) <==> QUOTE !in topic && QUOTE !in payload
  {
    LineTails(q, topic, payload);
    CommandOf(q, FromTopicLen(topic, payload));
    TopicLenParams(topic, payload);
    TopicParams(topic, payload);
    PayloadLenParams(payload);
    PayloadParams(payload);
    hide Dec, Name, Params, Args, Line, FromTopicLen, FromTopic, FromPayloadLen, FromPayload;
    var r, f := Args(Line(q, topic, payload)), Fields(q, topic, payload);
    if r == f {
      assert f[2] == topic && f[4] == payload;
    }
  }

  /** The tokeniser returns exactly the original fields, if and only if topic and payload are free of
      quotes and NULs. */
  lemma {:induction false} RoundTrip(q: Request, topic: string, payload: string)
    ensures Args(Until(Line(q, topic, payload), NUL)) == Fields(q, topic, payload)
            <==> Clean(topic) && Clean(payload)
  {
    var line, f := Line(q, topic, payload), Fields(q, topic, payload);
    var s := Until(line, NUL);
    ArgsNoNul(s);
    if NUL !in topic && NUL !in payload {
      LineNoNul(q, topic, payload);
    }
    RoundTripNoNul(q, topic, payload);
    assert f[2] == topic && f[4] == payload;
    hide Until, Args, Line;
  }

  lemma {:induction false} ArgsNoNul(line: string)
    requires NUL !in line
    ensures forall j :: 0 <= j < |Args(line)| ==> NUL !in Args(line)[j]
  {
    var k := CommandLen(line);
    if k < |line| {
      ParamsNoNul(line[k + 1..], MAX_ARGC - 1);
    }
    hide Params, CommandLen;
  }

  lemma {:induction false} LineNoNul(q: Request, topic: string, payload: string)
    requires NUL !in topic && NUL !in payload
    ensures NUL !in Line(q, topic, payload)
  {
    DecPlain(|topic|, NUL);
    DecPlain(|payload|, NUL);
    hide Dec, Name;
  }

  /** argv points into buf at exactly the five fields. */
  ghost predicate Shows(buf: string, argc: nat, argv: seq<nat>, fields: seq<string>) {
    && argc == |fields| <= |argv|
    && forall j :: 0 <= j < argc ==> argv[j] <= |buf| && CStr(buf, argv[j]) == fields[j]
  }

  /** A request built on one side and taken apart on the other, both in place: the receiver finds the
      five original fields if and only if topic and payload are free of quotes and NULs. */
  method Exchange(q: Request, topic: string, payload: string, argv: array<nat>)
      returns (ok: bool, buf: array<char>, argc: nat)
    requires |topic| < WORD32 && |payload| < WORD32 && argv.Length == MAX_ARGC
    modifies argv
    ensures ok <==> |topic| + |payload| + 64 < 0x1_0000_0000
    ensures ok ==> (Shows(buf[..], argc, argv[..], Fields(q, topic, payload)) <==> Clean(topic) && Clean(payload))
  {
    hide Line, Fields, Args, CStr, Until, Clean;
    argc := 0;
    ok, buf := Build(q, topic, payload);
    if ok {
      ghost var args := Args(CStr(buf[..], 0));
      argc := AtcmdParse(buf, argv);
      RoundTrip(q, topic, payload);
      ShowsExact(buf[..], argc, argv[..], args, Fields(q, topic, payload));
    }
  }

  lemma {:induction false} ShowsExact(buf: string, argc: nat, argv: seq<nat>, args: seq<string>, fields: seq<string>)
    requires Shows(buf, argc, argv, args)
    ensures Shows(buf, argc, argv, fields) <==> args == fields
  {
    hide CStr;
    if Shows(buf, argc, argv, fields) {
      assert forall j :: 0 <= j < argc ==> args[j] == fields[j];
    }
  }
}
