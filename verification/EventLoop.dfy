/** The manager's event loop: a list of one-shot timers kept sorted by deadline.

    Times are 32-bit millisecond counters.  Insertion compares raw values while
    firing compares modulo the wrap; `AfterEqNoWrap` says when the two agree. */
module EventLoop {

  const WORD32: nat := 0x1_0000_0000
  const HALF32: nat := 0x8000_0000

  /** ELOOP_ALL_CTX: the wildcard accepted by `Cancel`. */
  const ALL_CTX: nat := 0xFFFF_FFFF

  datatype Handler = ConnectRetry | DhcpPolling | LinkPolling | WpsScanTimer | OtherHandler(id: nat)

  datatype Timeout = Timeout(time: nat, handler: Handler, data: nat, user: nat)

  // ---------------------------------------------------------------- clock

  /** The value of an unsigned word read as a two's complement int32_t. */
  function Signed(x: int): int {
    var w := x % WORD32;
    if w < HALF32 then w else w - WORD32
  }

  /** SYS_TIME_AFTER_EQ: the sign of the 32-bit difference. */
  predicate AfterEq(a: nat, b: nat) {
    Signed(a - b) >= 0
  }

  /** Within half the range and without a wrap between them, the wrap-aware
      comparison is the ordinary one. */
  lemma AfterEqNoWrap(a: nat, b: nat)
    requires a < WORD32 && b < WORD32
    ensures AfterEq(a, b) <==> (b <= a < b + HALF32 || a + HALF32 < b)
  {
    if a < b {
      assert (a - b) % WORD32 == a - b + WORD32;
    } else {
      assert (a - b) % WORD32 == a - b;
    }
  }

  lemma MirrorDifference(d: int)
    ensures d % WORD32 == 0 ==> Signed(-d) == 0
  {
    if d % WORD32 == 0 {
      assert (-d) % WORD32 == 0;
    }
  }

  // ---------------------------------------------------------------- the timer list

  ghost predicate Sorted(ts: seq<Timeout>) {
    forall i, j :: 0 <= i < j < |ts| ==> ts[i].time <= ts[j].time
  }

  function CountOf(ts: seq<Timeout>, h: Handler): nat {
    if ts == [] then 0 else (if ts[0].handler == h then 1 else 0) + CountOf(ts[1..], h)
  }

  /** Where a new deadline goes: before the first strictly later entry. */
  function Insert(ts: seq<Timeout>, t: Timeout): seq<Timeout> {
    if ts == [] then [t]
    else if t.time < ts[0].time then [t] + ts
    else [ts[0]] + Insert(ts[1..], t)
  }

  predicate Matches(t: Timeout, h: Handler, data: nat, user: nat) {
    t.handler == h && (t.data == data || data == ALL_CTX) && (t.user == user || user == ALL_CTX)
  }

  /** The entries a cancellation leaves, in their order. */
  function Without(ts: seq<Timeout>, h: Handler, data: nat, user: nat): seq<Timeout> {
    if ts == [] then []
    else if Matches(ts[0], h, data, user) then Without(ts[1..], h, data, user)
    else [ts[0]] + Without(ts[1..], h, data, user)
  }

  /** Registration adds one entry of its handler and none of any other. */
  lemma {:induction false} CountInsert(ts: seq<Timeout>, t: Timeout, h: Handler)
    ensures CountOf(Insert(ts, t), h) == CountOf(ts, h) + (if t.handler == h then 1 else 0)
  {
    if ts == [] {
    } else if t.time < ts[0].time {
      assert ([t] + ts)[1..] == ts;
    } else {
      CountInsert(ts[1..], t, h);
      assert ([ts[0]] + Insert(ts[1..], t))[1..] == Insert(ts[1..], t);
    }
  }

  /** A wildcard cancellation removes every entry of its handler and no other. */
  lemma {:induction false} CountWithout(ts: seq<Timeout>, h: Handler, g: Handler)
    ensures CountOf(Without(ts, h, ALL_CTX, ALL_CTX), g) == if g == h then 0 else CountOf(ts, g)
  {
    if ts != [] {
      CountWithout(ts[1..], h, g);
      var rest := Without(ts[1..], h, ALL_CTX, ALL_CTX);
      assert ([ts[0]] + rest)[1..] == rest;
    }
  }

  lemma {:induction false} InsertMembers(ts: seq<Timeout>, t: Timeout, x: Timeout)
    ensures x in Insert(ts, t) <==> x == t || x in ts
  {
    if ts != [] && ts[0].time <= t.time {
      InsertMembers(ts[1..], t, x);
      assert x in ts <==> x == ts[0] || x in ts[1..];
    }
  }

  lemma {:induction false} CountZero(ts: seq<Timeout>, h: Handler)
    ensures CountOf(ts, h) == 0 <==> forall t :: t in ts ==> t.handler != h
  {
    if ts != [] {
      CountZero(ts[1..], h);
      assert forall t :: t in ts <==> t == ts[0] || t in ts[1..];
    }
  }

  /** Whatever the contexts, a cancellation leaves other handlers alone. */
  lemma {:induction false} CountWithoutOther(ts: seq<Timeout>, h: Handler, data: nat, user: nat, g: Handler)
    requires g != h
    ensures CountOf(Without(ts, h, data, user), g) == CountOf(ts, g)
  {
    if ts != [] {
      CountWithoutOther(ts[1..], h, data, user, g);
      var rest := Without(ts[1..], h, data, user);
      assert ([ts[0]] + rest)[1..] == rest;
    }
  }

  /** Cancellation keeps exactly the entries that do not match. */
  lemma {:induction false} WithoutExact(ts: seq<Timeout>, h: Handler, data: nat, user: nat, t: Timeout)
    ensures t in Without(ts, h, data, user) <==>
              t in ts && !(t.handler == h && (t.data == data || data == 0xFFFF_FFFF)
                           && (t.user == user || user == 0xFFFF_FFFF))
  {
    if ts != [] {
      WithoutExact(ts[1..], h, data, user, t);
      assert t in ts <==> t == ts[0] || t in ts[1..];
    }
  }

  predicate Registered(ts: seq<Timeout>, h: Handler, data: nat, user: nat) {
    exists i :: 0 <= i < |ts| && ts[i].handler == h && ts[i].data == data && ts[i].user == user
  }

  // ---------------------------------------------------------------- refinement of a stable priority queue

  /** The earliest registered among the entries with the least deadline. */
  ghost predicate IsFirstMin(a: seq<Timeout>, i: nat) {
    && i < |a|
    && (forall j :: 0 <= j < i ==> a[i].time < a[j].time)
    && (forall j :: i <= j < |a| ==> a[i].time <= a[j].time)
  }

  function FirstMin(a: seq<Timeout>): (i: nat)
    requires a != []
    ensures IsFirstMin(a, i)
  {
    var n := |a| - 1;
    if n == 0 then 0
    else
      var i := FirstMin(a[..n]);
      assert forall j :: 0 <= j < n ==> a[j] == a[..n][j];
      if a[n].time < a[i].time then n else i
  }

  /** The pending entries other than the i-th. */
  function Others(a: seq<Timeout>, i: nat): seq<Timeout>
    requires i < |a|
  {
    a[..i] + a[i + 1..]
  }

  /** Reference model: the order in which entries registered in the order of `a` must be served,
      always the first of the least deadlines next. */
  function Queue(a: seq<Timeout>): seq<Timeout>
    decreases |a|
  {
    if a == [] then [] else [a[FirstMin(a)]] + Queue(Others(a, FirstMin(a)))
  }

  lemma {:induction false} OthersEntries(a: seq<Timeout>, i: nat)
    requires i < |a|
    ensures multiset(a) == multiset{a[i]} + multiset(Others(a, i))
  {
    assert a == a[..i] + [a[i]] + a[i + 1..];
  }

  lemma {:induction false} QueueKeepsEntries(a: seq<Timeout>)
    ensures multiset(Queue(a)) == multiset(a)
    decreases |a|
  {
    if a != [] {
      var i := FirstMin(a);
      OthersEntries(a, i);
      QueueKeepsEntries(Others(a, i));
    }
  }

  lemma {:induction false} SortedFirst(t: Timeout, ts: seq<Timeout>)
    requires Sorted(ts) && forall k :: 0 <= k < |ts| ==> t.time <= ts[k].time
    ensures Sorted([t] + ts)
  {
    forall i, j | 0 <= i < j < |ts| + 1 ensures ([t] + ts)[i].time <= ([t] + ts)[j].time {
      assert ([t] + ts)[j] == ts[j - 1];
    }
  }

  lemma {:induction false} QueueSorts(a: seq<Timeout>)
    ensures Sorted(Queue(a))
    ensures multiset(Queue(a)) == multiset(a)
    decreases |a|
  {
    QueueKeepsEntries(a);
    if a != [] {
      var i := FirstMin(a);
      var q := Queue(Others(a, i));
      QueueSorts(Others(a, i));
      forall k | 0 <= k < |q| ensures a[i].time <= q[k].time {
        assert q[k] in multiset(Others(a, i));
      }
      SortedFirst(a[i], q);
    }
    hide Sorted;
  }

  /** Insertion splits a sorted list at the last entry that is not later, so
      equal deadlines keep their registration order. */
  lemma {:induction false} InsertSplits(ts: seq<Timeout>, t: Timeout) returns (k: nat)
    requires Sorted(ts)
    ensures k <= |ts|
    ensures Insert(ts, t) == ts[..k] + [t] + ts[k..]
    ensures forall i :: 0 <= i < k ==> ts[i].time <= t.time
    ensures forall i :: k <= i < |ts| ==> t.time < ts[i].time
  {
    if ts == [] || t.time < ts[0].time {
      k := 0;
    } else {
      var j := InsertSplits(ts[1..], t);
      k := j + 1;
      forall i | k <= i < |ts| ensures t.time < ts[i].time {
        assert ts[i] == ts[1..][i - 1];
      }
      assert Insert(ts, t) == [ts[0]] + (ts[1..][..j] + [t] + ts[1..][j..]);
      assert ts[..k] == [ts[0]] + ts[1..][..j];
    }
  }

  /** Where the insertion loop stops is where the entry belongs. */
  lemma {:induction false} InsertAt(ts: seq<Timeout>, t: Timeout, i: nat)
    requires i <= |ts|
    requires forall k :: 0 <= k < i ==> ts[k].time <= t.time
    requires i < |ts| ==> t.time < ts[i].time
    ensures Insert(ts, t) == ts[..i] + [t] + ts[i..]
  {
    if i > 0 {
      InsertAt(ts[1..], t, i - 1);
      assert ts[..i] == [ts[0]] + ts[1..][..i - 1];
      assert ts[i..] == ts[1..][i - 1..];
    }
  }

  lemma {:induction false} InsertSorted(ts: seq<Timeout>, t: Timeout)
    requires Sorted(ts)
    ensures Sorted(Insert(ts, t))
  {
    var k := InsertSplits(ts, t);
    var r := ts[..k] + [t] + ts[k..];
    forall i, j | 0 <= i < j < |r| ensures r[i].time <= r[j].time {
      assert r[i] == if i < k then ts[i] else if i == k then t else ts[i - 1];
      assert r[j] == if j < k then ts[j] else if j == k then t else ts[j - 1];
    }
  }

  lemma {:induction false} InsertKeepsEntries(ts: seq<Timeout>, t: Timeout)
    ensures multiset(Insert(ts, t)) == multiset(ts) + multiset{t}
  {
    if ts != [] && ts[0].time <= t.time {
      InsertKeepsEntries(ts[1..], t);
      assert ts == [ts[0]] + ts[1..];
    }
  }

  /** Cancelling commutes with inserting an entry that does not match ... */
  lemma {:induction false} WithoutInsert(ts: seq<Timeout>, t: Timeout, h: Handler, data: nat, user: nat)
    requires Sorted(ts)
    ensures Without(Insert(ts, t), h, data, user)
            == if Matches(t, h, data, user) then Without(ts, h, data, user)
               else Insert(Without(ts, h, data, user), t)
  {
    if ts == [] {
    } else if t.time < ts[0].time {
      assert ([t] + ts)[1..] == ts;
      var w := Without(ts, h, data, user);
      if w != [] {
        WithoutExact(ts, h, data, user, w[0]);
      }
    } else {
      WithoutInsert(ts[1..], t, h, data, user);
      var rest := Insert(ts[1..], t);
      assert ([ts[0]] + rest)[1..] == rest;
      var w := Without(ts[1..], h, data, user);
      assert ([ts[0]] + w)[1..] == w;
    }
  }

  /** ... so the sorted list stays the queue of what is still pending. */
  lemma {:induction false} CancelRefines(a: seq<Timeout>, h: Handler, data: nat, user: nat)
    ensures Without(Queue(a), h, data, user) == Queue(Without(a, h, data, user))
  {
    hide Queue, Insert, Without, Sorted;
    if a == [] {
      NothingQueued(h, data, user);
    } else {
      var n := |a| - 1;
      var front, last := a[..n], a[n];
      CancelRefines(front, h, data, user);
      QueueSorts(front);
      WithoutInsert(Queue(front), last, h, data, user);
      RegisterRefines(front, last);
      assert a == front + [last];
      WithoutAppend(front, last, h, data, user);
      RegisterRefines(Without(front, h, data, user), last);
      assert Without(front, h, data, user) + [] == Without(front, h, data, user);
    }
  }

  lemma {:induction false} NothingQueued(h: Handler, data: nat, user: nat)
    ensures Queue([]) == [] && Without([], h, data, user) == []
  {
  }

  lemma {:induction false} WithoutAppend(a: seq<Timeout>, t: Timeout, h: Handler, data: nat, user: nat)
    ensures Without(a + [t], h, data, user)
            == Without(a, h, data, user) + (if Matches(t, h, data, user) then [] else [t])
  {
    if a == [] {
      assert a + [t] == [t];
    } else {
      WithoutAppend(a[1..], t, h, data, user);
      assert (a + [t])[0] == a[0] && (a + [t])[1..] == a[1..] + [t];
      var w, x := Without(a[1..], h, data, user), if Matches(t, h, data, user) then [] else [t];
      assert [a[0]] + (w + x) == [a[0]] + w + x;
    }
  }

  /** Registration appends to the reference queue. */
  lemma {:induction false} RegisterRefines(a: seq<Timeout>, t: Timeout)
    ensures Insert(Queue(a), t) == Queue(a + [t])
    decreases |a|
  {
    var b := a + [t];
    assert b[..|a|] == a;
    if a == [] {
      assert Others(b, 0) == [];
    } else {
      var i := FirstMin(a);
      var rest := Others(a, i);
      if t.time < a[i].time {
        assert FirstMin(b) == |a| && Others(b, |a|) == a;
      } else {
        assert FirstMin(b) == i && Others(b, i) == rest + [t];
        RegisterRefines(rest, t);
        assert ([a[i]] + Queue(rest))[1..] == Queue(rest);
      }
    }
  }

  lemma {:induction false} HeadIsLeast(ts: seq<Timeout>)
    requires Sorted(ts) && ts != []
    ensures forall t :: t in ts ==> ts[0].time <= t.time
  {
    forall t | t in ts ensures ts[0].time <= t.time {
      var i :| 0 <= i < |ts| && ts[i] == t;
    }
  }

  /** The cancellation loop: walk the list once, dropping and counting matches. */
  method Unlink(ts: seq<Timeout>, h: Handler, data: nat, user: nat)
    returns (kept: seq<Timeout>, removed: nat)
    ensures kept == Without(ts, h, data, user) && removed == |ts| - |kept|
  {
    kept, removed := [], 0;
    var i := 0;
    while i < |ts|
      invariant 0 <= i <= |ts|
      invariant kept == Without(ts[..i], h, data, user)
      invariant removed == i - |kept|
    {
      WithoutAppend(ts[..i], ts[i], h, data, user);
      assert ts[..i + 1] == ts[..i] + [ts[i]];
      if Matches(ts[i], h, data, user) {
        removed := removed + 1;
      } else {
        kept := kept + [ts[i]];
      }
      i := i + 1;
    }
    assert ts[..|ts|] == ts;
  }

  // ---------------------------------------------------------------- the loop object

  class Loop {
    var timeouts: seq<Timeout>
    var now: nat
    var terminate: bool
    /** Pending timers in registration order: the reference queue. */
    ghost var arrivals: seq<Timeout>

    ghost predicate Valid()
      reads this
    {
      && now < WORD32
      && timeouts == Queue(arrivals)
    }

    constructor ()
      ensures Valid() && timeouts == [] && !terminate && arrivals == []
    {
      timeouts, now, terminate, arrivals := [], 0, false, [];
    }

    /** Time passes. */
    method Advance(time: nat)
      requires Valid() && time < WORD32
      modifies this`now
      ensures Valid() && now == time
    {
      now := time;
    }

    /** eloop_timeout_register: walk to the first strictly later entry. */
    method Register(msecs: nat, h: Handler, data: nat, user: nat) returns (ok: bool)
      requires Valid()
      modifies this`timeouts, this`arrivals
      ensures Valid()
      ensures ok == !terminate
      ensures var t := Timeout((now + msecs) % WORD32, h, data, user);
              if terminate then timeouts == old(timeouts) && arrivals == old(arrivals)
              else timeouts == Insert(old(timeouts), t) && arrivals == old(arrivals) + [t]
    {
      if terminate {
        return false;
      }
      hide Queue, Insert;
      var t := Timeout((now + msecs) % WORD32, h, data, user);
      var ts, i := timeouts, 0;
      while i < |ts| && ts[i].time <= t.time
        invariant 0 <= i <= |ts|
        invariant forall k :: 0 <= k < i ==> ts[k].time <= t.time
      {
        i := i + 1;
      }
      InsertAt(ts, t, i);
      RegisterRefines(arrivals, t);
      timeouts := ts[..i] + [t] + ts[i..];
      arrivals := arrivals + [t];
      ok := true;
    }

    /** eloop_timeout_cancel: unlink every match; -1 once terminated. */
    method Cancel(h: Handler, data: nat, user: nat) returns (removed: int)
      requires Valid()
      modifies this`timeouts, this`arrivals
      ensures Valid()
      ensures terminate ==> removed == -1 && timeouts == old(timeouts) && arrivals == old(arrivals)
      ensures !terminate ==>
                && timeouts == Without(old(timeouts), h, data, user)
                && arrivals == Without(old(arrivals), h, data, user)
                && removed == |old(timeouts)| - |timeouts|
    {
      if terminate {
        return -1;
      }
      CancelRefines(arrivals, h, data, user);
      var kept;
      kept, removed := Unlink(timeouts, h, data, user);
      timeouts := kept;
      arrivals := Without(arrivals, h, data, user);
    }

    /** eloop_timeout_is_registered. */
    method IsRegistered(h: Handler, data: nat, user: nat) returns (found: bool)
      ensures found == Registered(timeouts, h, data, user)
      ensures found <==> exists i :: 0 <= i < |timeouts| && timeouts[i].handler == h
                                     && timeouts[i].data == data && timeouts[i].user == user
    {
      var i := 0;
      while i < |timeouts|
        invariant 0 <= i <= |timeouts|
        invariant forall k :: 0 <= k < i ==>
                    !(timeouts[k].handler == h && timeouts[k].data == data && timeouts[k].user == user)
      {
        if timeouts[i].handler == h && timeouts[i].data == data && timeouts[i].user == user {
          return true;
        }
        i := i + 1;
      }
      return false;
    }

    /** The part of eloop_timeout_handle before the callback: take the head if
        it is due.  With no wrap in between, what fires is due, is the
        first-registered entry of minimal deadline, and a due head always fires. */
    method TakeDue() returns (fired: seq<Timeout>)
      requires Valid()
      modifies this`timeouts, this`arrivals
      ensures Valid()
      ensures |fired| <= 1 && fired + timeouts == old(timeouts)
      ensures fired == [] ==> arrivals == old(arrivals)
      ensures fired == [] <==> old(timeouts) == [] || !AfterEq(now, old(timeouts)[0].time)
      ensures fired != [] ==>
                exists i: nat :: IsFirstMin(old(arrivals), i) && fired[0] == old(arrivals)[i]
                            && arrivals == Others(old(arrivals), i)
      ensures old(timeouts) != [] && NoWrap(now, old(timeouts)[0].time) ==>
                (fired != [] <==> old(timeouts)[0].time <= now)
    {
      fired := [];
      if timeouts != [] && NoWrap(now, timeouts[0].time) {
        AfterEqNoWrap(now, timeouts[0].time);
      }
      if timeouts != [] && AfterEq(now, timeouts[0].time) {
        ghost var i := FirstMin(arrivals);
        fired := [timeouts[0]];
        timeouts := timeouts[1..];
        arrivals := Others(arrivals, i);
      }
    }

    /** The sleep computed by wifi_eloop_run: None means wait for a message
        without limit, Some(0) means yield and do not wait at all. */
    method SleepTime() returns (limited: bool, remain: nat)
      requires Valid()
      ensures limited <==> timeouts != []
      ensures timeouts != [] ==> (remain == 0 <==> AfterEq(now, timeouts[0].time))
      ensures timeouts != [] && NoWrap(now, timeouts[0].time) ==>
                && now + remain == Max(now, timeouts[0].time)
                && (remain == 0 <==> timeouts[0].time <= now)
                && forall t :: t in timeouts ==> now + remain <= Max(now, t.time)
    {
      limited, remain := timeouts != [], 0;
      if timeouts != [] {
        QueueSorts(arrivals);
        HeadIsLeast(timeouts);
        hide Queue, Sorted;
        if NoWrap(now, timeouts[0].time) {
          AfterEqNoWrap(now, timeouts[0].time);
          AfterEqNoWrap(timeouts[0].time, now);
        }
        if !AfterEq(now, timeouts[0].time) {
          remain := (timeouts[0].time - now) % WORD32;
          MirrorDifference(timeouts[0].time - now);
        }
      }
    }
  }

  function Max(a: nat, b: nat): nat { if a < b then b else a }

  /** No counter wrap lies between the clock and a deadline. */
  predicate NoWrap(now: nat, time: nat) {
    now < WORD32 && time < WORD32 && now < time + HALF32 && time <= now + HALF32
  }
}
