/** Pass-through mode: serial input is gathered in a buffer and forwarded to one socket. */
module PassThrough {
  import opened Text

  const TX_BUF_LEN: nat := 8192
  const START_TRANSFER_LEN: nat := 2920
  const PLUS: byte := 43

  /** One call of send or sendto: the bytes offered and the value returned. */
  datatype Call = Call(data: seq<byte>, ret: int) {
    predicate Full() { ret >= |data| }
    function Taken(): seq<byte> { if ret <= 0 then [] else if ret < |data| then data[..ret] else data }
  }

  /** What the network took, over all calls. */
  function Delivered(cs: seq<Call>): seq<byte> {
    if cs == [] then [] else cs[0].Taken() + Delivered(cs[1..])
  }

  /** What the calls that did not fail were given. */
  function Offered(cs: seq<Call>): seq<byte> {
    if cs == [] then [] else (if cs[0].ret > 0 then cs[0].data else []) + Offered(cs[1..])
  }

  /** Every call that did not fail was taken in full. */
  predicate AllFull(cs: seq<Call>) { forall i :: 0 <= i < |cs| && cs[i].ret > 0 ==> cs[i].Full() }

  predicate Broken(cs: seq<Call>) { cs != [] && cs[|cs| - 1].ret <= 0 }

  lemma {:induction false} OfferedAppend(a: seq<Call>, b: seq<Call>)
    ensures Offered(a + b) == Offered(a) + Offered(b)
  {
    if a == [] {
      assert a + b == b;
    } else {
      assert (a + b)[1..] == a[1..] + b;
      OfferedAppend(a[1..], b);
    }
  }

  lemma {:induction false} AllFullFirst(cs: seq<Call>)
    requires cs != []
    ensures AllFull(cs) <==> (cs[0].ret > 0 ==> cs[0].Full()) && AllFull(cs[1..])
  {
    assert forall i :: 1 <= i < |cs| ==> cs[i] == cs[1..][i - 1];
  }

  /** The network has the offered bytes, unchanged and in order, exactly when every accepted call was full. */
  lemma {:induction false} DeliveredExact(cs: seq<Call>)
    ensures |Delivered(cs)| <= |Offered(cs)|
    ensures Delivered(cs) == Offered(cs) <==> AllFull(cs)
    ensures |Delivered(cs)| == |Offered(cs)| <==> Delivered(cs) == Offered(cs)
  {
    if cs != [] {
      DeliveredExact(cs[1..]);
      var a, b := cs[0].Taken(), if cs[0].ret > 0 then cs[0].data else [];
      assert |a| <= |b| && (|a| == |b| ==> a == b);
      AllFullFirst(cs);
    }
  }

  // ---------------------------------------------------------------- one pass

  /** How many bytes the next call offers, 0 when the pass stops. */
  function ChunkLen(pending: nat, flush: bool): (n: nat)
    ensures n <= pending
  {
    if pending >= START_TRANSFER_LEN then START_TRANSFER_LEN else if flush then pending else 0
  }

  /** The calls of a pass over the unsent bytes; rets(k) is what the k-th call of the session returns. */
  function Calls(data: seq<byte>, flush: bool, rets: nat -> int, k: nat): (cs: seq<Call>)
    decreases |data|
  {
    var n := ChunkLen(|data|, flush);
    if n == 0 then []
    else
      var c := Call(data[..n], rets(k));
      if c.ret <= 0 then [c] else [c] + Calls(data[n..], flush, rets, k + 1)
  }

  /** In the sending loop: `made` calls of the pass are done and `data` is left. */
  ghost predicate Midway(pass: seq<Call>, made: seq<Call>, data: seq<byte>, flush: bool, rets: nat -> int, k: nat) {
    pass == made + Calls(data, flush, rets, k) && !Broken(made)
  }

  lemma {:induction false} PassStops(pass: seq<Call>, made: seq<Call>, data: seq<byte>,
                                     flush: bool, rets: nat -> int, k: nat)
    requires Midway(pass, made, data, flush, rets, k) && ChunkLen(|data|, flush) == 0
    ensures pass == made && !Broken(pass)
  {
  }

  /** A turn that makes call c and leaves `left`. */
  lemma {:induction false} PassSteps(pass: seq<Call>, made: seq<Call>, data: seq<byte>,
                                     flush: bool, rets: nat -> int, k: nat,
                                     c: Call, left: seq<byte>)
    requires Midway(pass, made, data, flush, rets, k) && data == c.data + left
    requires |c.data| == ChunkLen(|data|, flush) > 0 && c.ret == rets(k)
    ensures c.ret <= 0 ==> pass == made + [c] && Broken(pass)
    ensures c.ret > 0 ==> Midway(pass, made + [c], left, flush, rets, k + 1)
    ensures |Offered(made + [c])| == |Offered(made)| + (if c.ret > 0 then |c.data| else 0)
  {
    OfferedOne(made, c);
    hide Offered;
    var n := |c.data|;
    assert data[..n] == c.data && data[n..] == left;
    var rest := if c.ret <= 0 then [] else Calls(left, flush, rets, k + 1);
    assert Calls(data, flush, rets, k) == [c] + rest;
    hide Calls;
    assert made + ([c] + rest) == made + [c] + rest;
  }

  lemma {:induction false} OfferedOne(cs: seq<Call>, c: Call)
    ensures |Offered(cs + [c])| == |Offered(cs)| + (if c.ret > 0 then |c.data| else 0)
  {
    OfferedAppend(cs, [c]);
    assert [c][1..] == [];
  }

  /** The calls offer data from the front, and leave nothing to send unless one fails. */
  ghost predicate Offers(cs: seq<Call>, data: seq<byte>, flush: bool) {
    Offered(cs) <= data && (!Broken(cs) ==> ChunkLen(|data| - |Offered(cs)|, flush) == 0)
  }

  lemma {:induction false} OffersFirst(c: Call, rest: seq<Call>, left: seq<byte>, flush: bool)
    requires if c.ret > 0 then Offers(rest, left, flush) else rest == []
    ensures Offers([c] + rest, c.data + left, flush)
  {
    OfferedFirst(c, rest);
    hide Offered, ChunkLen;
    if c.ret > 0 {
      assert c.data + Offered(rest) <= c.data + left;
    }
  }

  /** A pass offers the unsent bytes from the front, in order and each once; unless a call fails it
      leaves fewer than START_TRANSFER_LEN of them, and none when flushing. */
  lemma {:induction false} CallsOffer(data: seq<byte>, flush: bool, rets: nat -> int, k: nat)
    ensures Offers(Calls(data, flush, rets, k), data, flush)
    decreases |data|
  {
    var n := ChunkLen(|data|, flush);
    assert n == 0 ==> Offers([], data, flush);
    hide Offers;
    if n > 0 {
      var left, c := data[n..], Call(data[..n], rets(k));
      var rest := if c.ret <= 0 then [] else Calls(left, flush, rets, k + 1);
      if c.ret > 0 {
        CallsOffer(left, flush, rets, k + 1);
      }
      OffersFirst(c, rest, left, flush);
      assert data == c.data + left;
      assert Calls(data, flush, rets, k) == [c] + rest;
    }
  }

  lemma {:induction false} OfferedFirst(c: Call, rest: seq<Call>)
    ensures Offered([c] + rest) == (if c.ret > 0 then c.data else []) + Offered(rest)
    ensures rest == [] ==> Offered(rest) == []
    ensures Broken([c] + rest) <==> (if rest == [] then c.ret <= 0 else Broken(rest))
  {
    assert ([c] + rest)[1..] == rest;
  }

  /** Only the last call of a pass can fail, and each offers 2920 bytes, except that the last one of a
      flush may offer fewer, though not none. */
  predicate Shaped(cs: seq<Call>, flush: bool) {
    forall i :: 0 <= i < |cs| ==>
      && 0 < |cs[i].data| <= 2920
      && (i < |cs| - 1 ==> cs[i].ret > 0)
      && (!flush || i < |cs| - 1 ==> |cs[i].data| == 2920)
  }

  lemma {:induction false} CallsShape(data: seq<byte>, flush: bool, rets: nat -> int, k: nat)
    ensures Shaped(Calls(data, flush, rets, k), flush)
    decreases |data|
  {
    var n := ChunkLen(|data|, flush);
    if n > 0 && rets(k) > 0 {
      CallsShape(data[n..], flush, rets, k + 1);
    }
  }

  /** The test for the terminating "+++" looks at the start of the buffer, wherever the unsent bytes are. */
  predicate Escape(b: seq<byte>, pending: nat) {
    pending == 3 && |b| >= 3 && b[..3] == [PLUS, PLUS, PLUS]
  }

  lemma {:induction false} EscapeTest(b: seq<byte>, pending: nat)
    requires |b| >= 3
    ensures Escape(b, pending) <==> pending == 3 && b[0] == PLUS && b[1] == PLUS && b[2] == PLUS
  {
    assert b[..3] == [b[0], b[1], b[2]];
  }

  // ---------------------------------------------------------------- a session

  /** One turn of the receive loop: `bytes` arrived since the last one, and `found` says that the
      destination of a UDP client is still in the client table. */
  datatype Tick = Tick(wake: Wake, bytes: seq<byte>, found: bool)
  /** The buffer is full; the wait timed out, before or after the interval timer; the wait failed. */
  datatype Wake = Full | Waiting | Expired | Failed

  function Received(ts: seq<Tick>): seq<byte> {
    if ts == [] then [] else ts[0].bytes + Received(ts[1..])
  }

  /** The destination was known in the first n turns. */
  predicate AllFound(ts: seq<Tick>, n: nat)
    requires n <= |ts|
  {
    forall i :: 0 <= i < n ==> ts[i].found
  }

  /** The receiver never overruns the buffer, and reports it full when it is. */
  predicate Legal(ts: seq<Tick>, cur: nat) {
    ts == [] ||
    var cur' := cur + |ts[0].bytes|;
    && cur' <= TX_BUF_LEN
    && (ts[0].wake == Full ==> cur' == TX_BUF_LEN)
    && Legal(ts[1..], if ts[0].wake == Full || ts[0].wake == Expired then 0 else cur')
  }

  /** The turns from p up to i belong to one round: a round ends when the buffer is full, or when the
      interval timer has expired. */
  predicate OneRound(ts: seq<Tick>, p: nat, i: nat) {
    && p <= i <= |ts|
    && (p > 0 ==> ts[p - 1].wake == Full || ts[p - 1].wake == Expired)
    && forall k :: p <= k < i ==> ts[k].wake == Waiting || ts[k].wake == Failed
  }

  /** The round that turn j ends by expiry consists of "+++" alone. */
  predicate EscapeTurn(ts: seq<Tick>, p: nat, j: nat) {
    j < |ts| && OneRound(ts, p, j) && ts[j].wake == Expired && Received(ts[p..j + 1]) == [43, 43, 43]
  }

  /** The calls so far offered the first `done` received bytes, except `dropped` of them. */
  ghost predicate Tracks(cs: seq<Call>, got: seq<byte>, done: nat, dropped: nat) {
    && done <= |got| && |Offered(cs)| + dropped == done
    && (dropped == 0 ==> Offered(cs) == got[..done])
  }

  lemma {:induction false} TracksMore(cs: seq<Call>, got: seq<byte>, done: nat, dropped: nat,
                                      more: seq<Call>, data: seq<byte>)
    requires Tracks(cs, got, done, dropped) && Offered(more) <= data
    requires done + |data| <= |got| && data == got[done..done + |data|]
    ensures Tracks(cs + more, got, done + |Offered(more)|, dropped)
  {
    OfferedAppend(cs, more);
    hide Offered, Delivered;
    var k := |Offered(more)|;
    assert got[..done + k] == got[..done] + data[..k];
  }

  /** Everything the calls offered was delivered, byte for byte, exactly when nothing was dropped and
      every accepted call was full. */
  lemma {:induction false} TracksExact(cs: seq<Call>, got: seq<byte>, done: nat, dropped: nat)
    requires Tracks(cs, got, done, dropped)
    ensures Delivered(cs) == got[..done] <==>
            dropped == 0 && AllFull(cs)
  {
    DeliveredExact(cs);
    hide Offered, Delivered, AllFull;
    assert |got[..done]| == done;
  }

  lemma {:induction false} ReceivedSplit(a: seq<Tick>, b: seq<Tick>)
    ensures Received(a + b) == Received(a) + Received(b)
  {
    if a == [] {
      assert a + b == b;
    } else {
      assert (a + b)[0] == a[0] && (a + b)[1..] == a[1..] + b;
      ReceivedSplit(a[1..], b);
    }
  }

  lemma {:induction false} ReceivedMore(ts: seq<Tick>, p: nat, i: nat)
    requires p <= i < |ts|
    ensures Received(ts[p..i + 1]) == Received(ts[p..i]) + ts[i].bytes
  {
    assert ts[p..i + 1] == ts[p..i] + [ts[i]];
    ReceivedSplit(ts[p..i], [ts[i]]);
    assert [ts[i]][1..] == [];
  }

  /** After i turns: everything received, and the part of it that came since turn p, in this round. */
  ghost predicate Place(ts: seq<Tick>, i: nat, p: nat, got: seq<byte>, round: seq<byte>) {
    && OneRound(ts, p, i) && Legal(ts[i..], |round|)
    && got == Received(ts[..i]) && round == Received(ts[p..i]) && got == Received(ts[..p]) + round
  }

  lemma {:induction false} TurnFits(ts: seq<Tick>, i: nat, p: nat, got: seq<byte>, round: seq<byte>)
    requires i < |ts| && Place(ts, i, p, got, round)
    ensures |round| + |ts[i].bytes| <= TX_BUF_LEN
    ensures ts[i].wake == Full ==> |round| + |ts[i].bytes| == TX_BUF_LEN
    ensures AllFound(ts, i + 1) <==> AllFound(ts, i) && ts[i].found
  {
    assert ts[i..][0] == ts[i];
  }

  lemma {:induction false} SameRound(ts: seq<Tick>, p: nat, q: nat, i: nat)
    requires OneRound(ts, p, i) && OneRound(ts, q, i)
    ensures p == q <= i
  {
    assert p < q ==> p <= q - 1 < i;
    assert q < p ==> q <= p - 1 < i;
  }

  lemma {:induction false} LastThree(before: seq<byte>, last: seq<byte>)
    requires last == [43, 43, 43]
    ensures Typed(before + last, 3, 0)
  {
    assert (before + last)[|before + last| - 3..] == last;
    assert last[..3] == last;
  }

  lemma {:induction false} EscapeTyped(ts: seq<Tick>, i: nat, p: nat, got: seq<byte>, round: seq<byte>, q: nat)
    requires i < |ts| && Place(ts, i, p, got, round) && EscapeTurn(ts, q, i)
    ensures Typed(got + ts[i].bytes, |round| + |ts[i].bytes|, 0) && |round| < 2920 && ts[i].wake == Expired
  {
    hide Received, Legal, OneRound, Typed;
    SameRound(ts, p, q, i);
    ReceivedMore(ts, p, i);
    var before, now := Received(ts[..p]), round + ts[i].bytes;
    assert now == [43, 43, 43];
    assert |now| == |round| + |ts[i].bytes| == 3;
    assert got + ts[i].bytes == before + now;
    LastThree(before, now);
  }

  /** What had arrived by the end of each round so far is among the first `done` bytes. */
  ghost predicate Flushed(ts: seq<Tick>, i: nat, done: nat) {
    forall j :: 0 <= j < i && j < |ts| && (ts[j].wake == Full || ts[j].wake == Expired) ==>
      |Received(ts[..j + 1])| <= done
  }

  lemma {:induction false} FlushedMore(ts: seq<Tick>, i: nat, done: nat, done': nat)
    requires i < |ts| && Flushed(ts, i, done) && done <= done'
    requires ts[i].wake == Full || ts[i].wake == Expired ==> |Received(ts[..i + 1])| <= done'
    ensures Flushed(ts, i + 1, done')
  {
    hide Received;
  }

  ghost predicate Unescaped(ts: seq<Tick>, i: nat) { forall q: nat, j: nat :: j < i ==> !EscapeTurn(ts, q, j) }

  lemma {:induction false} UnescapedMore(ts: seq<Tick>, i: nat)
    requires Unescaped(ts, i) && forall q: nat :: !EscapeTurn(ts, q, i)
    ensures Unescaped(ts, i + 1)
  {
    hide EscapeTurn;
  }

  lemma {:induction false} PlaceStart(ts: seq<Tick>)
    requires Legal(ts, 0)
    ensures Place(ts, 0, 0, [], []) && Flushed(ts, 0, 0) && Unescaped(ts, 0) && ts[..0] == [] && Received([]) == []
  {
    assert ts[0..] == ts && Received([]) + [] == [];
  }

  lemma {:induction false} TurnsStep(ts: seq<Tick>, i: nat, p: nat, got: seq<byte>, round: seq<byte>)
    requires i < |ts| && Place(ts, i, p, got, round)
    ensures ts[i].wake == Full || ts[i].wake == Expired ==> Place(ts, i + 1, i + 1, got + ts[i].bytes, [])
    ensures ts[i].wake == Waiting || ts[i].wake == Failed ==>
              Place(ts, i + 1, p, got + ts[i].bytes, round + ts[i].bytes)
    ensures got + ts[i].bytes == Received(ts[..i + 1])
  {
    hide Received;
    assert ts[i..][0] == ts[i] && ts[i..][1..] == ts[i + 1..];
    ReceivedMore(ts, 0, i);
    assert ts[0..i] == ts[..i] && ts[0..i + 1] == ts[..i + 1];
    if ts[i].wake == Full || ts[i].wake == Expired {
      NothingReceived();
      assert ts[i + 1..i + 1] == [] && got + ts[i].bytes + [] == got + ts[i].bytes;
    } else {
      ReceivedMore(ts, p, i);
      assert Received(ts[..p]) + (round + ts[i].bytes) == got + ts[i].bytes;
    }
  }

  lemma {:induction false} NothingReceived()
    ensures Received([]) == []
  {
  }

  lemma {:induction false} TurnsEnd(ts: seq<Tick>, i: nat, got: seq<byte>)
    requires i <= |ts| && got == Received(ts[..i])
    ensures got <= Received(ts)
    ensures i == |ts| ==> got == Received(ts)
  {
    ReceivedSplit(ts[..i], ts[i..]);
    assert ts[..i] + ts[i..] == ts;
    assert i == |ts| ==> ts[..i] == ts;
  }

  lemma {:induction false} RoundData(b: seq<byte>, got: seq<byte>, cur: nat, r: nat)
    requires r <= cur <= |b| && cur <= |got| && b[..cur] == got[|got| - cur..]
    ensures b[r..cur] == got[|got| - cur + r..|got|]
  {
    assert b[r..cur] == b[..cur][r..];
  }

  lemma {:induction false} OffersMeans(cs: seq<Call>, data: seq<byte>, flush: bool)
    requires Offers(cs, data, flush)
    ensures Offered(cs) <= data && |Offered(cs)| <= |data|
    ensures !Broken(cs) ==> ChunkLen(|data| - |Offered(cs)|, flush) == 0
  {
  }

  lemma {:induction false} NothingOffered(data: seq<byte>)
    ensures Offered([]) <= data
  {
  }

  /** The calls made in between are those of at most one pass. */
  ghost predicate Sent(before: seq<Call>, after: seq<Call>, flush: bool) {
    before <= after && Shaped(after[|before|..], flush)
  }

  lemma {:induction false} SentPass(before: seq<Call>, pass: seq<Call>, flush: bool)
    ensures Shaped(pass, flush) ==> Sent(before, before + pass, flush)
    ensures (before + pass)[|before|..] == pass
    ensures !Broken([]) && Shaped([], flush)
  {
    assert (before + pass)[|before|..] == pass;
  }

  class Session {
    const buf: array<byte>
    var readptr: nat
    var writeptr: nat
    var terminate: bool
    var fdIdx: int
    /** The network side: every socket call made. */
    var calls: seq<Call>

    predicate Valid() reads this { buf.Length == TX_BUF_LEN && readptr <= writeptr <= buf.Length }

    constructor (idx: int)
      ensures Valid() && fresh(buf)
      ensures readptr == writeptr == 0 && !terminate && fdIdx == idx && calls == []
    {
      buf := new byte[TX_BUF_LEN](_ => 0);
      readptr, writeptr, terminate, fdIdx := 0, 0, false, idx;
      calls := [];
    }

    /** The calls at_passth_send_data is about to make. */
    ghost function Pass(socket: bool, found: bool, flush: bool, rets: nat -> int): seq<Call>
      requires Valid()
      reads this, buf
    {
      if socket && found && !Escape(buf[..], writeptr - readptr)
      then Calls(buf[readptr..writeptr], flush, rets, |calls|)
      else []
    }

    /** One call, for the next `sent` bytes. */
    method SendOne(sent: nat, rets: nat -> int) returns (c: Call, ghost left: seq<byte>)
      requires Valid() && readptr + sent <= writeptr
      modifies this`readptr, this`calls
      ensures Valid() && calls == old(calls) + [c]
      ensures c.ret == rets(|old(calls)|) && |c.data| == sent
      ensures old(buf[readptr..writeptr]) == c.data + left && (c.ret > 0 ==> left == buf[readptr..writeptr])
      ensures readptr == old(readptr) + (if c.ret > 0 then sent else 0)
    {
      c := Call(buf[readptr..readptr + sent], rets(|calls|));
      left := buf[readptr + sent..writeptr];
      calls := calls + [c];
      if c.ret > 0 {
        readptr := readptr + sent;
      }
    }

    /** The sending loop of at_passth_send_data; ok is false when a call failed. */
    method SendChunks(flush: bool, rets: nat -> int) returns (ok: bool)
      requires Valid()
      modifies this`readptr, this`calls
      ensures Valid()
      ensures calls == old(calls) + old(Calls(buf[readptr..writeptr], flush, rets, |calls|))
      ensures readptr == old(readptr) + |Offered(old(Calls(buf[readptr..writeptr], flush, rets, |calls|)))|
      ensures ok == !Broken(old(Calls(buf[readptr..writeptr], flush, rets, |calls|)))
    {
      assert Offered([]) == [] && ChunkLen(0, flush) == 0;
      hide Calls, Offered, Delivered;
      ghost var start, r0, data := calls, readptr, buf[readptr..writeptr];
      ghost var pass, made := Calls(data, flush, rets, |calls|), [];
      assert Midway(pass, made, data, flush, rets, |calls|);
      hide Midway, Broken, ChunkLen;
      var remaining := writeptr - readptr;
      while remaining > 0
        invariant Valid() && remaining == writeptr - readptr && data == buf[readptr..writeptr]
        invariant calls == start + made
        invariant Midway(pass, made, data, flush, rets, |calls|)
        invariant readptr == r0 + |Offered(made)|
      {
        var sent := ChunkLen(remaining, flush);
        if sent == 0 {
          break;
        }
        ghost var k := |calls|;
        var call, left := SendOne(sent, rets);
        PassSteps(pass, made, data, flush, rets, k, call, left);
        data, made := left, made + [call];
        if call.ret <= 0 {
          return false;
        }
        remaining := remaining - sent;
      }
      PassStops(pass, made, data, flush, rets, |calls|);
      return true;
    }

    /** at_passth_send_data; `socket` says that the descriptor and the type are good. */
    method SendData(socket: bool, found: bool, flush: bool, rets: nat -> int) returns (ret: int)
      requires Valid()
      modifies this`readptr, this`terminate, this`fdIdx, this`calls
      ensures Valid()
      ensures calls == old(calls) + old(Pass(socket, found, flush, rets))
      ensures readptr == old(readptr) + |Offered(old(Pass(socket, found, flush, rets)))|
      ensures terminate == (old(terminate)
                            || (socket && found && Escape(buf[..], writeptr - old(readptr)))
                            || Broken(old(Pass(socket, found, flush, rets))))
      ensures fdIdx == if Broken(old(Pass(socket, found, flush, rets))) then -1 else old(fdIdx)
      ensures ret == if !socket || (writeptr > old(readptr) && !found)
                        || Broken(old(Pass(socket, found, flush, rets))) then -1 else 0
    {
      assert writeptr == readptr ==> Calls(buf[readptr..writeptr], flush, rets, |calls|) == [];
      hide Calls;
      EscapeTest(buf[..], writeptr - readptr);
      hide Escape;
      if !socket {
        return -1;
      }
      if writeptr == readptr {
        return 0;
      }
      if !found {
        return -1;
      }
      if writeptr - readptr == 3 && buf[0] == PLUS && buf[1] == PLUS && buf[2] == PLUS {
        terminate := true;
        return 0;
      }
      var ok := SendChunks(flush, rets);
      if !ok {
        terminate := true;
        fdIdx := -1;
        return -1;
      }
      return 0;
    }

    /** The receiver stores bytes after the first cur of the round. */
    method Receive(cur: nat, bytes: seq<byte>)
      requires cur + |bytes| <= buf.Length
      modifies buf
      ensures buf[..cur + |bytes|] == old(buf[..cur]) + bytes
    {
      ghost var b := buf[..cur];
      for i := 0 to |bytes|
        invariant buf[..cur + i] == b + bytes[..i]
      {
        buf[cur + i] := bytes[i];
        assert buf[..cur + i + 1] == buf[..cur + i] + [bytes[i]];
      }
    }

    /** Where a session is: cur bytes of this round have arrived, all of them the latest of `got`, and
        the calls have offered everything up to readptr except `dropped` bytes. */
    ghost predicate At(cur: nat, got: seq<byte>, dropped: nat)
      reads this, buf
    {
      && Valid() && writeptr <= cur <= |got| && cur <= buf.Length
      && buf[..cur] == got[|got| - cur..]
      && Tracks(calls, got, |got| - cur + readptr, dropped)
    }

    lemma {:induction false} PassOffers(socket: bool, found: bool, flush: bool, rets: nat -> int)
      requires Valid()
      ensures Offered(Pass(socket, found, flush, rets)) <= buf[readptr..writeptr]
      ensures socket && found && !Escape(buf[..], writeptr - readptr) && !Broken(Pass(socket, found, flush, rets)) ==>
                ChunkLen(writeptr - readptr - |Offered(Pass(socket, found, flush, rets))|, flush) == 0
      ensures Sent(calls, calls + Pass(socket, found, flush, rets), flush)
      ensures (calls + Pass(socket, found, flush, rets))[|calls|..] == Pass(socket, found, flush, rets)
      ensures !socket || !found || Escape(buf[..], writeptr - readptr) ==>
                calls + Pass(socket, found, flush, rets) == calls && !Broken(Pass(socket, found, flush, rets))
    {
      SentPass(calls, Pass(socket, found, flush, rets), flush);
      CallsShape(buf[readptr..writeptr], flush, rets, |calls|);
      hide Offered, Calls, Escape, ChunkLen, Broken, Offers, Sent, Shaped;
      var data := buf[readptr..writeptr];
      if socket && found && !Escape(buf[..], writeptr - readptr) {
        CallsOffer(data, flush, rets, |calls|);
        OffersMeans(Calls(data, flush, rets, |calls|), data, flush);
      } else {
        NothingOffered(data);
      }
    }

    /** A pass over what the round has received so far. */
    method Forward(socket: bool, found: bool, flush: bool, rets: nat -> int, cur: nat,
                   ghost got: seq<byte>, ghost dropped: nat)
      requires At(cur, got, dropped) && !terminate
      modifies this`readptr, this`writeptr, this`terminate, this`fdIdx, this`calls
      ensures At(cur, got, dropped) && writeptr == cur
      ensures socket && found && !terminate ==> ChunkLen(writeptr - readptr, flush) == 0
      ensures Sent(old(calls), calls, flush) && (!socket || !found ==> calls == old(calls))
      ensures terminate <==> Broken(calls[|old(calls)|..])
                             || (socket && found && Escape(buf[..], cur - old(readptr)))
    {
      hide Offered, Delivered, Pass, Sent;
      ghost var r, base := readptr, |got| - cur;
      RoundData(buf[..], got, cur, r);
      writeptr := cur;
      PassOffers(socket, found, flush, rets);
      TracksMore(calls, got, base + r, dropped, Pass(socket, found, flush, rets), buf[r..cur]);
      hide Tracks, Escape, ChunkLen, Broken;
      var _ := SendData(socket, found, flush, rets);
    }

    /** The start of a round: what the last one left unsent is overwritten. */
    method Restart(ghost cur: nat, ghost got: seq<byte>, ghost dropped: nat)
      returns (ghost dropped': nat, ghost done: nat)
      requires At(cur, got, dropped)
      modifies this`readptr, this`writeptr
      ensures Valid() && readptr == writeptr == 0
      ensures Tracks(calls, got, done, dropped')
      ensures !terminate ==> At(0, got, dropped') && done == |got|
      ensures old(readptr) == cur ==> dropped' == dropped
    {
      hide Offered;
      dropped', done := dropped, |got| - cur + readptr;
      if !terminate {
        dropped', done := dropped + (cur - readptr), |got|;
      }
      readptr, writeptr := 0, 0;
    }

    /** Flush what the round has received, and start the next one. */
    method EndRound(socket: bool, found: bool, send: bool, rets: nat -> int, cur: nat,
                    ghost got: seq<byte>, ghost dropped: nat)
        returns (ghost dropped': nat, ghost done: nat)
      requires At(cur, got, dropped) && !terminate && (send || cur == readptr)
      modifies this`readptr, this`writeptr, this`terminate, this`fdIdx, this`calls
      ensures Valid() && readptr == writeptr == 0 && Tracks(calls, got, done, dropped')
      ensures !terminate ==> At(0, got, dropped') && done == |got|
      ensures !terminate && socket && found ==> dropped' == dropped
      ensures Sent(old(calls), calls, true) && (!socket || !found ==> calls == old(calls))
      ensures terminate <==> Broken(calls[|old(calls)|..])
                             || (socket && found && Escape(buf[..], cur - old(readptr)))
    {
      SentPass(calls, [], true);
      assert calls + [] == calls;
      hide Tracks, Sent, Broken;
      if send {
        Forward(socket, found, true, rets, cur, got, dropped);
      }
      dropped', done := Restart(cur, got, dropped);
    }

    method Arrive(cur: nat, bytes: seq<byte>, ghost got: seq<byte>, ghost dropped: nat)
      requires At(cur, got, dropped) && cur + |bytes| <= buf.Length
      modifies buf
      ensures At(cur + |bytes|, got + bytes, dropped)
    {
      hide Offered;
      Receive(cur, bytes);
      ghost var all, done := got + bytes, |got| - cur + readptr;
      assert all[|got| - cur..] == got[|got| - cur..] + bytes;
      assert all[..done] == got[..done];
    }

    lemma {:induction false} AtFacts(cur: nat, got: seq<byte>, dropped: nat)
      requires At(cur, got, dropped)
      ensures Valid() && writeptr <= cur <= |got| && cur <= buf.Length
      ensures Tracks(calls, got, |got| - cur + readptr, dropped)
      ensures readptr <= cur && (Escape(buf[..], cur - readptr) <==> Typed(got, cur, readptr))
    {
      EscapeRound(buf[..], got, cur, readptr);
      hide Tracks, Escape;
    }

    method Gather(cur: nat, ghost got: seq<byte>, ghost dropped: nat)
      requires At(cur, got, dropped)
      modifies this`writeptr
      ensures At(cur, got, dropped)
    {
      writeptr := cur;
    }

    /** One turn of the loop of at_hw_passth_send.  When the buffer is full, or the interval timer has
        expired, nothing is left unsent, unless the session ends; it ends when a call fails, or when the
        three bytes left at such a turn are "+++" and stand at the start of the round. */
    method OneTick(socket: bool, t: Tick, rets: nat -> int, cur: nat, ghost got: seq<byte>, ghost dropped: nat)
        returns (cur': nat, ghost dropped': nat, ghost done: nat)
      requires At(cur, got, dropped) && !terminate
      requires cur + |t.bytes| <= TX_BUF_LEN && (t.wake == Full ==> cur + |t.bytes| == TX_BUF_LEN)
      requires cur < 2920 ==> readptr == 0
      modifies this`readptr, this`writeptr, this`terminate, this`fdIdx, this`calls, buf
      ensures Tracks(calls, got + t.bytes, done, dropped')
      ensures cur' == if t.wake == Full || t.wake == Expired then 0 else cur + |t.bytes|
      ensures !terminate ==> At(cur', got + t.bytes, dropped') && (cur' < 2920 ==> readptr == 0)
      ensures !terminate ==> done == |got| + |t.bytes| - cur' + readptr >= |got| - cur + old(readptr)
      ensures !terminate && (t.wake == Full || t.wake == Expired) ==> done == |got + t.bytes|
      ensures !terminate && socket && t.found ==>
                dropped' == dropped && (t.wake != Failed ==> |got + t.bytes| - done < 2920)
      ensures t.wake == Failed || !socket || !t.found ==> calls == old(calls)
      ensures Sent(old(calls), calls, t.wake != Waiting)
      ensures terminate <==>
                || Broken(calls[|old(calls)|..])
                || (socket && t.found && (t.wake == Full || t.wake == Expired)
                    && Typed(got + t.bytes, cur + |t.bytes|, old(readptr)))
    {
      ghost var all := got + t.bytes;
      SentPass(calls, [], t.wake != Waiting);
      assert calls + [] == calls;
      AtFacts(cur, got, dropped);
      hide At, Tracks, Sent, Broken, Escape, Shaped, Typed, Offered;
      Arrive(cur, t.bytes, got, dropped);
      cur', dropped' := cur + |t.bytes|, dropped;
      AtFacts(cur', all, dropped);
      done := |all| - cur' + readptr;
      if t.wake == Full {
        dropped', done := EndRound(socket, t.found, true, rets, cur', all, dropped);
        cur' := 0;
      } else if t.wake == Waiting {
        if cur' - readptr >= START_TRANSFER_LEN {
          Forward(socket, t.found, false, rets, cur', all, dropped);
        } else {
          Gather(cur', all, dropped);
        }
        AtFacts(cur', all, dropped);
        done := |all| - cur' + readptr;
      } else if t.wake == Expired && cur' > 0 {
        dropped', done := EndRound(socket, t.found, cur' > readptr, rets, cur', all, dropped);
        cur' := 0;
      }
    }

    /** at_hw_passth_send, over any sequence of turns.  Nothing is offered that was not received, in
        order and once.  While the terminate flag is down: whatever had been received when the buffer was
        last full or the interval timer last expired has been offered; with a good socket and its
        destination known, all but the last `unsent` bytes, fewer than 2920, have reached the network
        exactly when every accepted call was full.  A round of "+++" alone ends the session when the
        timer expires. */
    method PassthSend(socket: bool, ts: seq<Tick>, rets: nat -> int)
        returns (ghost got: seq<byte>, ghost unsent: nat, ghost dropped: nat)
      requires Valid() && readptr == writeptr == 0 && !terminate && calls == []
      requires Legal(ts, 0)
      modifies this`readptr, this`writeptr, this`terminate, this`fdIdx, this`calls, buf
      ensures unsent <= |got| && got <= Received(ts) && (!terminate ==> got == Received(ts))
      ensures Tracks(calls, got, |got| - unsent, dropped)
      ensures !terminate ==> forall j :: 0 <= j < |ts| && (ts[j].wake == Full || ts[j].wake == Expired) ==>
                |Received(ts[..j + 1])| <= |got| - unsent
      ensures !terminate && socket && AllFound(ts, |ts|) ==>
                && dropped == 0
                && (ts != [] && ts[|ts| - 1].wake != Failed ==> unsent < 2920)
                && (Delivered(calls) == got[..|got| - unsent] <==> AllFull(calls))
      ensures !terminate && socket && AllFound(ts, |ts|) && AllFull(calls)
              && ts != [] && (ts[|ts| - 1].wake == Full || ts[|ts| - 1].wake == Expired) ==>
                Delivered(calls) == Received(ts)
      ensures socket && AllFound(ts, |ts|) && (exists p: nat, j: nat :: EscapeTurn(ts, p, j)) ==> terminate
    {
      got, unsent, dropped := [], 0, 0;
      ghost var done: nat, p: nat, round: seq<byte> := 0, 0, [];
      var cur: nat, i: nat := 0, 0;
      hide Sofar, Tracks, Offered, Delivered, AllFull, AllFound, EscapeTurn, Received, Legal;
      SofarStart(socket, ts);
      while !terminate && i < |ts|
        invariant i <= |ts| && got == Received(ts[..i]) && cur == |round|
        invariant done <= |got| && Tracks(calls, got, done, dropped)
        invariant !terminate ==> Sofar(socket, ts, i, p, got, round, done, dropped)
      {
        cur, p, got, round, done, dropped := NextTurn(socket, ts, i, rets, cur, p, got, round, done, dropped);
        i := i + 1;
      }
      TurnsEnd(ts, i, got);
      unsent := |got| - done;
      TracksExact(calls, got, done, dropped);
      if !terminate {
        SofarMeans(socket, ts, p, got, round, done, dropped);
        assert unsent == 0 ==> got[..done] == got;
      }
    }

    /** After i turns the session goes on, and this is where it is. */
    ghost predicate Sofar(socket: bool, ts: seq<Tick>, i: nat, p: nat, got: seq<byte>, round: seq<byte>,
                          done: nat, dropped: nat)
      reads this, buf
    {
      && Place(ts, i, p, got, round) && At(|round|, got, dropped)
      && done == |got| - |round| + readptr && (|round| < 2920 ==> readptr == 0)
      && Flushed(ts, i, done)
      && (socket && AllFound(ts, i) ==>
            && Unescaped(ts, i) && dropped == 0
            && (i > 0 && ts[i - 1].wake != Failed ==> |got| - done < 2920))
    }

    lemma {:induction false} SofarStart(socket: bool, ts: seq<Tick>)
      requires Valid() && readptr == writeptr == 0 && calls == [] && Legal(ts, 0)
      ensures Sofar(socket, ts, 0, 0, [], [], 0, 0) && Tracks(calls, [], 0, 0)
      ensures [] == Received(ts[..0])
    {
      PlaceStart(ts);
    }

    lemma {:induction false} SofarMeans(socket: bool, ts: seq<Tick>, p: nat, got: seq<byte>, round: seq<byte>,
                                        done: nat, dropped: nat)
      requires Sofar(socket, ts, |ts|, p, got, round, done, dropped)
      ensures forall j :: 0 <= j < |ts| && (ts[j].wake == Full || ts[j].wake == Expired) ==>
                |Received(ts[..j + 1])| <= done
      ensures ts != [] && (ts[|ts| - 1].wake == Full || ts[|ts| - 1].wake == Expired) ==> |Received(ts)| <= done
      ensures socket && AllFound(ts, |ts|) ==>
                && dropped == 0 && (forall q: nat, j: nat :: !EscapeTurn(ts, q, j))
                && (ts != [] && ts[|ts| - 1].wake != Failed ==> |got| - done < 2920)
    {
      hide Place, At, Received;
      FlushedUnescaped(ts, done);
    }

    /** A turn of the loop, with what it adds to the history. */
    method NextTurn(socket: bool, ts: seq<Tick>, i: nat, rets: nat -> int, cur: nat,
                    ghost p: nat, ghost got: seq<byte>, ghost round: seq<byte>, ghost done: nat, ghost dropped: nat)
        returns (cur': nat, ghost p': nat, ghost got': seq<byte>, ghost round': seq<byte>, ghost done': nat,
                 ghost dropped': nat)
      requires i < |ts| && cur == |round| && Sofar(socket, ts, i, p, got, round, done, dropped) && !terminate
      modifies this`readptr, this`writeptr, this`terminate, this`fdIdx, this`calls, buf
      ensures got' == Received(ts[..i + 1]) && cur' == |round'|
      ensures Tracks(calls, got', done', dropped')
      ensures !terminate ==> Sofar(socket, ts, i + 1, p', got', round', done', dropped')
    {
      hide At, Tracks, Offered, Place, AllFound, EscapeTurn, Received, Sent, Broken, Flushed, Unescaped, Typed;
      TurnFits(ts, i, p, got, round);
      TurnsStep(ts, i, p, got, round);
      forall q: nat | EscapeTurn(ts, q, i) {
        EscapeTyped(ts, i, p, got, round, q);
      }
      var t := ts[i];
      got' := got + t.bytes;
      cur', dropped', done' := OneTick(socket, t, rets, cur, got, dropped);
      if t.wake == Full || t.wake == Expired {
        p', round' := i + 1, [];
      } else {
        p', round' := p, round + t.bytes;
      }
      if !terminate {
        FlushedMore(ts, i, done, done');
        if socket && AllFound(ts, i + 1) {
          UnescapedMore(ts, i);
        }
      }
    }
  }

  lemma {:induction false} FlushedUnescaped(ts: seq<Tick>, done: nat)
    requires Flushed(ts, |ts|, done)
    ensures forall j :: 0 <= j < |ts| && (ts[j].wake == Full || ts[j].wake == Expired) ==>
              |Received(ts[..j + 1])| <= done
    ensures ts != [] && (ts[|ts| - 1].wake == Full || ts[|ts| - 1].wake == Expired) ==> |Received(ts)| <= done
    ensures Unescaped(ts, |ts|) ==> forall q: nat, j: nat :: !EscapeTurn(ts, q, j)
  {
    if ts != [] {
      assert ts[..|ts| - 1 + 1] == ts;
    }
    hide Received;
  }

  /** Of the last cur bytes received, which make up the round, all but three have been sent, and the
      round starts with "+++". */
  predicate Typed(got: seq<byte>, cur: nat, r: nat) {
    cur <= |got| && cur - r == 3 && got[|got| - cur..][..3] == [43, 43, 43]
  }

  /** The test for "+++" in terms of what the round has received. */
  lemma {:induction false} EscapeRound(b: seq<byte>, got: seq<byte>, cur: nat, r: nat)
    requires r <= cur <= |b| && cur <= |got| && b[..cur] == got[|got| - cur..]
    ensures Escape(b, cur - r) <==> Typed(got, cur, r)
  {
    if cur - r == 3 {
      assert b[..3] == b[..cur][..3];
    }
  }
}
