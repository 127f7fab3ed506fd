/** AT command lines: the in-place tokeniser. */
module AtLine {
  import opened Text

  const MAX_ARGC: nat := 15
  const QUOTE: char := '\''

  // ---------------------------------------------------------------- what a line means

  function SkipSeparators(s: string): (r: string)
    ensures |r| <= |s| && r == s[|s| - |r|..]
    ensures r != "" ==> r[0] != ' ' && r[0] != ','
    ensures forall i :: 0 <= i < |s| - |r| ==> s[i] == ' ' || s[i] == ','
  {
    if s != "" && (s[0] == ' ' || s[0] == ',') then SkipSeparators(s[1..]) else s
  }

  /** get_next_param on a remaining text: the argument, and what follows it if anything does. */
  datatype Param = Param(arg: string, more: bool, rest: string)

  /** A parameter's text, without its opening quote. */
  function Body(s: string): string {
    if s != "" && s[0] == QUOTE then s[1..] else s
  }

  function NextParam(s: string): (p: Param)
    ensures p.more ==> p.rest != "" && |p.rest| < |s|
    ensures !p.more ==> p.rest == ""
  {
    var body := Body(s);
    var arg := Until(body, if s != "" && s[0] == QUOTE then QUOTE else ',');
    if |arg| == |body| then Param(arg, false, "")
    else
      var rest := SkipSeparators(body[|arg| + 1..]);
      Param(arg, rest != "", rest)
  }

  /** The parameters of a text, at most `room` of them. */
  function Params(s: string, room: nat): (r: seq<string>)
    ensures |r| <= room
    decreases |s|
  {
    if room == 0 then []
    else
      var p := NextParam(s);
      [p.arg] + (if p.more then Params(p.rest, room - 1) else [])
  }

  predicate EndsCommand(c: char) { c == '=' || c == '\r' || c == '\n' }

  function CommandLen(s: string): (k: nat)
    ensures k <= |s| && (forall i :: 0 <= i < k ==> !EndsCommand(s[i]))
    ensures k < |s| ==> EndsCommand(s[k])
  {
    if s == "" || EndsCommand(s[0]) then 0 else 1 + CommandLen(s[1..])
  }

  /** atcmd_parse: the command, then its parameters. */
  function Args(line: string): (r: seq<string>)
    ensures 1 <= |r| <= MAX_ARGC
  {
    var k := CommandLen(line);
    if k == |line| || line[k] != '=' then [line[..k]]
    else [line[..k]] + Params(line[k + 1..], MAX_ARGC - 1)
  }

  // ---------------------------------------------------------------- the tokeniser

  lemma {:induction false} SkipIs(s: string, k: nat)
    requires k <= |s| && (forall i :: 0 <= i < k ==> s[i] == ' ' || s[i] == ',')
    requires k < |s| ==> s[k] != ' ' && s[k] != ','
    ensures SkipSeparators(s) == s[k..]
  {
    if k > 0 {
      SkipIs(s[1..], k - 1);
      assert s[k..] == s[1..][k - 1..];
    }
  }

  /** What get_next_param finds in b[p..n], by positions in the buffer. */
  ghost predicate ParamAt(b: string, p: nat, n: nat, arg: nat, end: nat, more: bool, next: nat) {
    && p <= arg <= end <= n <= |b|
    && NextParam(b[p..n]).arg == b[arg..end]
    && NextParam(b[p..n]).more == more
    && (more ==> end < next < n && NextParam(b[p..n]).rest == b[next..n])
  }

  /** b[arg..end] is the text before the separator that ends it. */
  ghost predicate ArgAt(b: string, p: nat, n: nat, arg: nat, end: nat) {
    && p <= arg <= end <= n <= |b|
    && (var quoted := p < n && b[p] == QUOTE;
        var sep := if quoted then QUOTE else ',';
        && arg == (if quoted then p + 1 else p)
        && (forall i :: arg <= i < end ==> b[i] != sep)
        && (end < n ==> b[end] == sep))
  }

  ghost predicate GapAt(b: string, n: nat, end: nat, next: nat) {
    && end < next <= n <= |b|
    && (forall i :: end < i < next ==> b[i] == ' ' || b[i] == ',')
    && (next < n ==> b[next] != ' ' && b[next] != ',')
  }

  lemma {:induction false} ArgFound(b: string, p: nat, n: nat, arg: nat, end: nat)
    requires ArgAt(b, p, n, arg, end)
    ensures p <= arg <= end <= n <= |b| && Body(b[p..n]) == b[arg..n]
    ensures NextParam(b[p..n]).arg == b[arg..end]
  {
    hide SkipSeparators;
    var s := b[p..n];
    var quoted := p < n && b[p] == QUOTE;
    assert Body(s) == b[arg..n];
    UntilIs(b[arg..n], if quoted then QUOTE else ',', end - arg);
    assert b[arg..n][..end - arg] == b[arg..end];
  }

  lemma {:induction false} GapFound(b: string, n: nat, end: nat, next: nat)
    requires GapAt(b, n, end, next)
    ensures end < next <= n && SkipSeparators(b[end + 1..n]) == b[next..n]
  {
    SkipIs(b[end + 1..n], next - end - 1);
    assert b[end + 1..n][next - end - 1..] == b[next..n];
  }

  lemma {:induction false} ParamFound(b: string, p: nat, n: nat, arg: nat, end: nat, next: nat)
    requires ArgAt(b, p, n, arg, end)
    requires end < n ==> GapAt(b, n, end, next)
    ensures ParamAt(b, p, n, arg, end, end < n && next < n, next)
  {
    hide Until, SkipSeparators, ArgAt, GapAt, Body;
    ArgFound(b, p, n, arg, end);
    if end < n {
      GapFound(b, n, end, next);
      assert b[arg..n][end - arg + 1..] == b[end + 1..n];
    }
  }

  /** get_next_param: p, arg and next are positions in the buffer and n is where its
      terminating NUL is; `more` is false when *params becomes NULL. */
  method GetNextParam(buf: array<char>, p: nat, n: nat) returns (arg: nat, end: nat, more: bool, next: nat)
    requires p <= n < buf.Length && buf[n] == NUL
    modifies buf
    ensures ParamAt(old(buf[..]), p, n, arg, end, more, next)
    ensures buf[..] == old(buf[..])[end := NUL]
  {
    hide ParamAt;
    ghost var b := buf[..];
    var sep := ',';
    arg := p;
    if buf[p] == QUOTE {
      sep := QUOTE;
      arg := p + 1;
    }
    end := arg;
    while end < n && buf[end] != sep
      invariant arg <= end <= n && buf[..] == b
      invariant forall i :: arg <= i < end ==> b[i] != sep
    {
      end := end + 1;
    }
    assert ArgAt(b, p, n, arg, end);
    next, more := n, false;
    if end < n {
      buf[end] := NUL;
      next := end + 1;
      while next < n && (buf[next] == ' ' || buf[next] == ',')
        invariant end < next <= n && buf[..] == b[end := NUL]
        invariant forall i :: end < i < next ==> b[i] == ' ' || b[i] == ','
      {
        next := next + 1;
      }
      assert GapAt(b, n, end, next);
      more := next < n;
    }
    ParamFound(b, p, n, arg, end, next);
  }

  /** buf[a..e] is a C string holding arg. */
  ghost predicate Token(b: string, a: nat, e: nat, arg: string) {
    a <= e < |b| && b[a..e] == arg && NUL !in arg && b[e] == NUL
  }

  lemma {:induction false} TokenRead(b: string, a: nat, e: nat, arg: string)
    requires Token(b, a, e, arg)
    ensures CStr(b, a) == arg
  {
    assert b[a..] == arg + [NUL] + b[e + 1..];
    UntilSplit(arg, NUL, b[e + 1..]);
  }

  /** Every finished argument is a C string that ends before w. */
  ghost predicate Tokens(b: string, argv: seq<nat>, ends: seq<nat>, args: seq<string>, w: nat) {
    && |args| == |ends| <= |argv|
    && forall j :: 0 <= j < |args| ==> Token(b, argv[j], ends[j], args[j]) && ends[j] < w
  }

  lemma {:induction false} TokensKept(b: string, argv: seq<nat>, ends: seq<nat>, args: seq<string>,
                                      w: nat, w': nat, end: nat)
    requires Tokens(b, argv, ends, args, w) && w <= w' && w <= end < |b|
    ensures Tokens(b[end := NUL], argv, ends, args, w')
  {
    forall j | 0 <= j < |args| ensures Token(b[end := NUL], argv[j], ends[j], args[j]) {
      assert b[end := NUL][argv[j]..ends[j]] == b[argv[j]..ends[j]];
    }
  }

  lemma {:induction false} TokensGrow(b: string, argv: seq<nat>, ends: seq<nat>, args: seq<string>,
                                      w: nat, a: nat, e: nat, arg: string)
    requires Tokens(b, argv, ends, args, w) && |args| < |argv|
    requires Token(b, a, e, arg) && w <= e + 1
    ensures Tokens(b, argv[|args| := a], ends + [e], args + [arg], e + 1)
  {
  }

  lemma {:induction false} CommandIs(s: string, k: nat)
    requires k <= |s| && (forall i :: 0 <= i < k ==> !EndsCommand(s[i]))
    requires k < |s| ==> EndsCommand(s[k])
    ensures CommandLen(s) == k
  {
    if k > 0 {
      CommandIs(s[1..], k - 1);
    }
  }

  /** Between two calls of get_next_param: `args` are stored, NextParam(s) is found and terminated,
      and what follows it is still as it was. */
  ghost predicate Pending(b: string, s: string, argv: seq<nat>, ends: seq<nat>, args: seq<string>,
                          n: nat, arg: nat, end: nat, more: bool, next: nat)
  {
    && n < |b| && b[n] == NUL
    && Tokens(b, argv, ends, args, arg)
    && Token(b, arg, end, NextParam(s).arg)
    && more == NextParam(s).more
    && (more ==> end < next < n && NextParam(s).rest == b[next..n] && NUL !in b[next..n])
  }

  lemma {:induction false} ParamPending(b: string, argv: seq<nat>, ends: seq<nat>, args: seq<string>,
                                        p: nat, n: nat, arg: nat, end: nat, more: bool, next: nat)
    requires p <= n < |b| && b[n] == NUL && NUL !in b[p..n]
    requires Tokens(b, argv, ends, args, p)
    requires ParamAt(b, p, n, arg, end, more, next)
    ensures Pending(b[end := NUL], b[p..n], argv, ends, args, n, arg, end, more, next)
  {
    hide NextParam;
    var s, b' := b[p..n], b[end := NUL];
    TokensKept(b, argv, ends, args, p, arg, end);
    assert forall i :: p <= i < n ==> b[i] != NUL by {
      assert forall i :: p <= i < n ==> b[i] == s[i - p];
    }
    assert b'[arg..end] == b[arg..end];
    if more {
      assert b'[next..n] == b[next..n];
    }
  }

  lemma {:induction false} PendingStored(b: string, s: string, argv: seq<nat>, ends: seq<nat>, args: seq<string>,
                                         n: nat, arg: nat, end: nat, more: bool, next: nat)
    requires Pending(b, s, argv, ends, args, n, arg, end, more, next) && |args| < |argv|
    ensures Tokens(b, argv[|args| := arg], ends + [end], args + [NextParam(s).arg], end + 1)
  {
    hide NextParam;
    TokensGrow(b, argv, ends, args, arg, arg, end, NextParam(s).arg);
  }

  lemma {:induction false} PendingNext(b: string, s: string, argv: seq<nat>, ends: seq<nat>, args: seq<string>,
                                       n: nat, arg: nat, end: nat, more: bool, next: nat)
    requires Pending(b, s, argv, ends, args, n, arg, end, more, next)
    ensures n < |b| && b[n] == NUL && end < |b| && more == NextParam(s).more
    ensures more ==> end < next < n && NextParam(s).rest == b[next..n] && NUL !in b[next..n]
  {
    hide NextParam;
  }

  lemma {:induction false} TokensWiden(b: string, argv: seq<nat>, ends: seq<nat>, args: seq<string>, w: nat, w': nat)
    requires Tokens(b, argv, ends, args, w) && w <= w'
    ensures Tokens(b, argv, ends, args, w')
  {
  }

  lemma {:induction false} ParamsStep(args: seq<string>, s: string, room: nat)
    requires room > 0
    ensures args + Params(s, room) ==
            args + [NextParam(s).arg] + (if NextParam(s).more then Params(NextParam(s).rest, room - 1) else [])
  {
    hide NextParam;
  }

  /** The loop of atcmd_parse that fills argv from position p0 on. */
  method TakeParams(buf: array<char>, p0: nat, n: nat, argv: array<nat>, ghost command: string)
      returns (argc: nat, ghost ends: seq<nat>)
    requires 0 < p0 <= n < buf.Length && buf[n] == NUL && NUL !in buf[p0..n]
    requires argv.Length == MAX_ARGC && argv[0] == 0
    requires Token(buf[..], 0, p0 - 1, command)
    modifies buf, argv
    ensures Tokens(buf[..], argv[..], ends, [command] + Params(old(buf[p0..n]), MAX_ARGC - 1), buf.Length)
    ensures argc == 1 + |Params(old(buf[p0..n]), MAX_ARGC - 1)|
  {
    hide NextParam, Params, Token, ParamAt, Pending;
    ghost var s, args, b := buf[p0..n], [command], buf[..];
    ghost var all := args + Params(s, MAX_ARGC - 1);
    ends := [p0 - 1];
    assert Tokens(b, argv[..], ends, args, p0);
    hide Tokens;
    argc := 1;
    var arg, end, more, next := GetNextParam(buf, p0, n);
    ParamPending(b, argv[..], ends, args, p0, n, arg, end, more, next);
    assert b[p0..n] == s;
    var param := true;
    while param && argc < MAX_ARGC
      invariant argc == |args| <= MAX_ARGC
      invariant param ==> Pending(buf[..], s, argv[..], ends, args, n, arg, end, more, next)
      invariant param ==> all == args + Params(s, MAX_ARGC - argc)
      invariant !param ==> all == args && Tokens(buf[..], argv[..], ends, args, buf.Length)
      decreases param, |s|
    {
      b := buf[..];
      PendingStored(b, s, argv[..], ends, args, n, arg, end, more, next);
      PendingNext(b, s, argv[..], ends, args, n, arg, end, more, next);
      ParamsStep(args, s, MAX_ARGC - argc);
      argv[argc] := arg;
      argc := argc + 1;
      ends, args := ends + [end], args + [NextParam(s).arg];
      assert Tokens(b, argv[..], ends, args, end + 1);
      if more {
        ghost var p := next;
        TokensWiden(b, argv[..], ends, args, end + 1, p);
        arg, end, more, next := GetNextParam(buf, next, n);
        ParamPending(b, argv[..], ends, args, p, n, arg, end, more, next);
        s := b[p..n];
      } else {
        param := false;
        TokensWiden(b, argv[..], ends, args, end + 1, buf.Length);
      }
    }
    if param {
      PendingTokens(buf[..], s, argv[..], ends, args, n, arg, end, more, next);
      assert all == args;
    }
  }

  lemma {:induction false} PendingTokens(b: string, s: string, argv: seq<nat>, ends: seq<nat>, args: seq<string>,
                                         n: nat, arg: nat, end: nat, more: bool, next: nat)
    requires Pending(b, s, argv, ends, args, n, arg, end, more, next)
    ensures Tokens(b, argv, ends, args, |b|)
  {
    hide NextParam;
    TokensWiden(b, argv, ends, args, arg, |b|);
  }

  lemma {:induction false} TokensRead(b: string, argv: seq<nat>, ends: seq<nat>, args: seq<string>, w: nat)
    requires Tokens(b, argv, ends, args, w)
    ensures forall j :: 0 <= j < |args| ==> argv[j] <= |b| && CStr(b, argv[j]) == args[j]
  {
    hide CStr;
    forall j | 0 <= j < |args| ensures argv[j] <= |b| && CStr(b, argv[j]) == args[j] {
      TokenRead(b, argv[j], ends[j], args[j]);
    }
  }

  /** atcmd_parse: argv points at C strings inside the buffer, which are the line's arguments. */
  method AtcmdParse(buf: array<char>, argv: array<nat>) returns (argc: nat)
    requires NUL in buf[..] && argv.Length == MAX_ARGC
    modifies buf, argv
    ensures argc == |Args(CStr(old(buf[..]), 0))|
    ensures forall j :: 0 <= j < argc ==>
              argv[j] <= buf.Length && CStr(buf[..], argv[j]) == Args(CStr(old(buf[..]), 0))[j]
  {
    hide Params, CStr;
    ghost var b0 := buf[..];
    var size := StrLen(buf);
    ghost var line := buf[..size];
    argv[0] := 0;
    var i := 0;
    while i < size && !EndsCommand(buf[i])
      invariant i <= size && buf[..] == b0 && argv[0] == 0
      invariant forall j :: 0 <= j < i ==> !EndsCommand(line[j])
    {
      i := i + 1;
    }
    CommandIs(line, i);
    var equals := i < size && buf[i] == '=';
    buf[i] := NUL;
    ghost var command := line[..i];
    assert Token(buf[..], 0, i, command) by {
      assert buf[..][0..i] == command;
    }
    ghost var ends, args := [i], [command];
    if equals {
      assert buf[i + 1..size] == line[i + 1..];
      assert NUL !in buf[i + 1..size];
      argc, ends := TakeParams(buf, i + 1, size, argv, command);
      args := args + Params(line[i + 1..], MAX_ARGC - 1);
    } else {
      argc := 1;
      assert Tokens(buf[..], argv[..], ends, args, buf.Length);
    }
    assert args == Args(line);
    TokensRead(buf[..], argv[..], ends, args, buf.Length);
  }

  // ---------------------------------------------------------------- lists of arguments

  /** An argument as it is typed, plain or in quotes, with the blanks and commas that follow it. */
  datatype Typed = Typed(arg: string, quoted: bool, gap: string)

  predicate Separator(c: char) { c == ' ' || c == ',' }

  /** A plain argument starts with neither a quote nor a separator and ends at the first comma, a quoted
      one at the next quote; only after a quoted one, or at the end, may the comma be left out. */
  predicate Typable(t: Typed, last: bool) {
    && (forall i :: 0 <= i < |t.gap| ==> Separator(t.gap[i]))
    && (if t.quoted then '\'' !in t.arg
        else
          && t.arg != "" && t.arg[0] != '\'' && !Separator(t.arg[0]) && ',' !in t.arg
          && (if t.gap == "" then last else t.gap[0] == ','))
  }

  function TypedText(ts: seq<Typed>): string {
    if ts == [] then ""
    else (if ts[0].quoted then "'" + ts[0].arg + "'" else ts[0].arg) + ts[0].gap + TypedText(ts[1..])
  }

  lemma {:induction false} PlainBody(arg: string, tail: string)
    requires arg != "" && arg[0] != '\'' && ',' !in arg
    ensures Body(arg + "," + tail) == arg + "," + tail && Body(arg) == arg
    ensures Until(arg + "," + tail, ',') == arg && (arg + "," + tail)[|arg| + 1..] == tail
    ensures (arg + "," + tail)[0] == arg[0]
  {
    hide Until;
    assert arg + "," + tail == arg + [','] + tail;
    UntilSplit(arg, ',', tail);
  }

  lemma {:induction false} PlainTyped(arg: string, gap: string, rest: string)
    requires Typable(Typed(arg, false, gap), rest == "") && (rest != "" ==> !Separator(rest[0]))
    ensures NextParam(arg + gap + rest) == Param(arg, rest != "", rest)
  {
    hide Until, SkipSeparators, Body;
    if gap == "" {
      assert arg + gap + rest == arg;
      AllPlain(arg);
      PlainBody(arg, "");
    } else {
      var tail := gap[1..] + rest;
      assert gap == "," + gap[1..];
      assert arg + gap + rest == arg + "," + tail;
      PlainBody(arg, tail);
      SkipIs(tail, |gap| - 1);
      assert tail[|gap| - 1..] == rest;
    }
  }

  lemma {:induction false} AllPlain(arg: string)
    requires ',' !in arg
    ensures Until(arg, ',') == arg
  {
  }

  lemma {:induction false} QuotedBody(arg: string, tail: string)
    requires QUOTE !in arg
    ensures Body("'" + arg + "'" + tail) == arg + [QUOTE] + tail
    ensures Until(arg + [QUOTE] + tail, QUOTE) == arg && (arg + [QUOTE] + tail)[|arg| + 1..] == tail
    ensures ("'" + arg + "'" + tail)[0] == QUOTE
  {
    hide Until;
    assert ("'" + arg + "'" + tail)[1..] == arg + [QUOTE] + tail;
    UntilSplit(arg, QUOTE, tail);
  }

  lemma {:induction false} QuotedTyped(arg: string, gap: string, rest: string)
    requires Typable(Typed(arg, true, gap), rest == "") && (rest != "" ==> !Separator(rest[0]))
    ensures NextParam("'" + arg + "'" + gap + rest) == Param(arg, rest != "", rest)
  {
    hide Until, SkipSeparators, Body;
    var tail := gap + rest;
    assert "'" + arg + "'" + gap + rest == "'" + arg + "'" + tail;
    QuotedBody(arg, tail);
    SkipIs(tail, |gap|);
    assert tail[|gap|..] == rest;
  }

  predicate AllTypable(ts: seq<Typed>) { forall i :: 0 <= i < |ts| ==> Typable(ts[i], i == |ts| - 1) }

  lemma {:induction false} TypedStart(ts: seq<Typed>)
    requires AllTypable(ts)
    ensures TypedText(ts) == "" <==> ts == []
    ensures ts != [] ==> !Separator(TypedText(ts)[0])
  {
    if ts != [] {
      assert Typable(ts[0], 0 == |ts| - 1);
      assert TypedText(ts)[0] == if ts[0].quoted then '\'' else ts[0].arg[0];
    }
  }

  lemma {:induction false} TypedFirst(ts: seq<Typed>)
    requires AllTypable(ts) && ts != []
    ensures NextParam(TypedText(ts)) == Param(ts[0].arg, |ts| > 1, TypedText(ts[1..]))
    ensures AllTypable(ts[1..])
  {
    hide NextParam, Typable;
    var t, rest := ts[0], TypedText(ts[1..]);
    assert Typable(ts[0], 0 == |ts| - 1);
    assert forall i :: 0 <= i < |ts| - 1 ==> ts[1..][i] == ts[i + 1];
    TypedStart(ts[1..]);
    assert t == Typed(t.arg, t.quoted, t.gap);
    if t.quoted {
      QuotedTyped(t.arg, t.gap, rest);
    } else {
      PlainTyped(t.arg, t.gap, rest);
    }
  }

  /** Whatever is typed, the parameters are the arguments in order, as many as there is room for. */
  lemma {:induction false} TypedRead(ts: seq<Typed>, room: nat)
    requires AllTypable(ts) && ts != []
    ensures var n := if |ts| <= room then |ts| else room;
            && |Params(TypedText(ts), room)| == n
            && forall i :: 0 <= i < n ==> Params(TypedText(ts), room)[i] == ts[i].arg
    decreases |ts|
  {
    hide NextParam, AllTypable, TypedText;
    if room > 0 {
      TypedFirst(ts);
      if |ts| > 1 {
        TypedRead(ts[1..], room - 1);
      }
    }
  }

  /** A command and what is typed after '=': the name, then at most fourteen arguments. */
  lemma {:induction false} CommandRead(name: string, ts: seq<Typed>)
    requires (forall i :: 0 <= i < |name| ==> !EndsCommand(name[i])) && AllTypable(ts) && ts != []
    ensures var r := Args(name + "=" + TypedText(ts));
            && |r| == 1 + (if |ts| <= 14 then |ts| else 14) && r[0] == name
            && forall i :: 1 <= i < |r| ==> r[i] == ts[i - 1].arg
  {
    hide Params, TypedText, AllTypable;
    var s := name + "=" + TypedText(ts);
    CommandIs(s, |name|);
    assert s[..|name|] == name && s[|name| + 1..] == TypedText(ts);
    TypedRead(ts, 14);
  }

  /** A command without '=' stands alone; what follows the line end is not looked at. */
  lemma {:induction false} CommandAlone(name: string, rest: string)
    requires forall i :: 0 <= i < |name| ==> name[i] != '=' && name[i] != '\r' && name[i] != '\n'
    requires rest == "" || rest[0] == '\r' || rest[0] == '\n'
    ensures Args(name + rest) == [name]
  {
    CommandIs(name + rest, |name|);
    assert (name + rest)[..|name|] == name;
  }
}
