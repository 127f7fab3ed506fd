/** The run-level theorems of the trail, stated on positions in the log. */
module WifiRuns {
  import opened EventLoop
  import opened WifiTypes
  import opened WifiSpec
  import opened WifiCoherence
  import opened WifiEntries
  import opened WifiTrail
  import opened WifiScan
  import opened WifiStray
  import opened WifiKept
  import opened WifiMoves

  // ---------------------------------------------------------------- timers and state

  /** Timer and state coherence in every world of every run. */
  lemma RunTimers(ws: seq<World>, ss: seq<Step>, i: nat)
    requires Run(ws, ss) && i < |ws|
    ensures var w := ws[i];
            var pending := h => CountOf(w.timers, h);
            && pending(ConnectRetry) <= 1 && pending(DhcpPolling) <= 1
            && (pending(ConnectRetry) > 0 ==>
                  w.vif == VifSta && w.sm.retry.count > 0
                  && w.sm.state in {ST_SCAN, ST_CONNECT, ST_HANDSHAKE, ST_DHCP})
            && (pending(DhcpPolling) > 0 ==> w.vif == VifSta && w.sm.state in {ST_DHCP, ST_CONNECTED})
            && (pending(LinkPolling) > 0 ==> w.vif == VifSta && w.sm.state == ST_CONNECTED)
            && (w.vif != VifSta || w.sm.state == ST_IDLE ==>
                  pending(ConnectRetry) == pending(DhcpPolling) == pending(LinkPolling) == 0)
  {
    RunCoherent(ws, ss, i);
  }

  /** The shared state word is always a state of the selected machine. */
  lemma RunUnionSafe(ws: seq<World>, ss: seq<Step>, i: nat)
    requires Run(ws, ss) && i < |ws|
    ensures LegalWord(ws[i])
  {
    RunCoherent(ws, ss, i);
  }

  // ---------------------------------------------------------------- phase order

  /** Positions of the first `|ps|` phase events, in order, with no SCAN entry since the first. */
  ghost predicate PhasesAt(log: seq<Effect>, ps: seq<nat>) {
    && (forall j :: 0 <= j < |ps| ==> ps[j] < |log| && log[ps[j]] == PhaseEvent(j))
    && (forall j, k :: 0 <= j < k < |ps| ==> ps[j] < ps[k])
    && (|ps| > 0 ==> forall k :: ps[0] <= k < |log| ==> log[k] != Entered(ST_SCAN))
  }

  lemma {:induction false} PhasesFound(log: seq<Effect>) returns (ps: seq<nat>)
    ensures |ps| == Observe(log).phase.done && PhasesAt(log, ps)
  {
    hide RetryStep, BlockStep, DhcpStep;
    if log == [] {
      ps := [];
    } else {
      var n := |log| - 1;
      var front, e := log[..n], log[n];
      ps := PhasesFound(front);
      var v := Observe(front).phase;
      assert log == front + [e];
      if e == Entered(ST_SCAN) {
        ps := [];
      } else if e != Entered(ST_CONNECTED) && v.done < 4 && e == PhaseEvent(v.done) {
        ps := ps + [n];
      }
    }
  }

  lemma {:induction false} OrderedPrefix(log: seq<Effect>, k: nat)
    requires k < |log| && Observe(log).phase.ordered && log[k] == Entered(ST_CONNECTED)
    ensures Observe(log[..k]).phase.done == 4
  {
    var n := |log| - 1;
    if k < n {
      assert log[..n][..k] == log[..k];
      OrderedPrefix(log[..n], k);
    }
  }

  /** Every entry to CONNECTED comes after SCAN_DONE in SCAN, ASSOC_SUCCESS in
      CONNECT, DHCP_START in HANDSHAKE and DHCP_SUCCESS in DHCP, in that order
      and with no SCAN entry in between. */
  lemma RunPhases(ws: seq<World>, ss: seq<Step>, i: nat, k: nat) returns (ps: seq<nat>)
    requires Run(ws, ss) && i < |ws|
    requires k < |ws[i].log| && ws[i].log[k] == Entered(ST_CONNECTED)
    ensures |ps| == 4 && PhasesAt(ws[i].log[..k], ps)
  {
    RunTrail(ws, ss, i);
    OrderedPrefix(ws[i].log, k);
    ps := PhasesFound(ws[i].log[..k]);
  }

  // ---------------------------------------------------------------- blocked callers

  datatype Kind = KConnArm | KConnPost | KScanArm | KScanPost

  predicate IsKind(e: Effect, k: Kind) {
    match k
    case KConnArm => e.ConnArmed?
    case KConnPost => e.ConnDonePost?
    case KScanArm => e.ScanArmed?
    case KScanPost => e.ScanDonePost?
  }

  /** The positions at which an effect of a kind occurs. */
  function Positions(log: seq<Effect>, k: Kind): set<nat> {
    set i: nat | i < |log| && IsKind(log[i], k)
  }

  lemma PositionsGrow(log: seq<Effect>, e: Effect, k: Kind)
    ensures |Positions(log + [e], k)| == |Positions(log, k)| + (if IsKind(e, k) then 1 else 0)
  {
    var here: set<nat> := if IsKind(e, k) then {|log|} else {};
    assert Positions(log + [e], k) == Positions(log, k) + here;
  }

  lemma {:induction false} CountsArePositions(log: seq<Effect>)
    ensures var b := Observe(log).block;
            && b.connArms == |Positions(log, KConnArm)| && b.connPosts == |Positions(log, KConnPost)|
            && b.scanArms == |Positions(log, KScanArm)| && b.scanPosts == |Positions(log, KScanPost)|
  {
    if log == [] {
      forall k ensures Positions(log, k) == {} {}
    } else {
      var n := |log| - 1;
      CountsArePositions(log[..n]);
      assert log == log[..n] + [log[n]];
      forall k { PositionsGrow(log[..n], log[n], k); }
    }
  }

  /** Over any run, completions never outnumber armings. */
  lemma RunCompletions(ws: seq<World>, ss: seq<Step>, i: nat)
    requires Run(ws, ss) && i < |ws|
    ensures |Positions(ws[i].log, KConnPost)| <= |Positions(ws[i].log, KConnArm)|
    ensures |Positions(ws[i].log, KScanPost)| <= |Positions(ws[i].log, KScanArm)|
  {
    RunTrail(ws, ss, i);
    CountsArePositions(ws[i].log);
  }

  // ---------------------------------------------------------------- DHCP polling

  /** A session in the log: from its beginning at a to the next beginning, or to the end, at b. */
  ghost predicate DhcpSession(log: seq<Effect>, a: nat, b: nat) {
    && a < b <= |log| && log[a].DhcpBegin?
    && (forall k :: a < k < b ==> !log[k].DhcpBegin?)
    && (b < |log| ==> log[b].DhcpBegin?)
  }

  function Polls(log: seq<Effect>, a: nat, b: nat): set<nat>
    requires b <= |log|
  {
    set k: nat | a < k < b && log[k] == DhcpPoll
  }

  function Reports(log: seq<Effect>, a: nat, b: nat): set<nat>
    requires b <= |log|
  {
    set k: nat | a < k < b && log[k].DhcpReport?
  }

  predicate Cancelled(log: seq<Effect>, a: nat, b: nat)
    requires b <= |log|
  {
    exists k :: a < k < b && log[k] == DhcpCancelled
  }

  lemma {:induction false} SessionSeen(log: seq<Effect>, a: nat, b: nat)
    requires a < b <= |log| && log[a].DhcpBegin? && forall k :: a < k < b ==> !log[k].DhcpBegin?
    ensures var v := Observe(log[..b]).dhcp;
            && v.begun && v.dynamic == log[a].dynamic
            && v.polls == |Polls(log, a, b)| && v.reports == |Reports(log, a, b)|
            && (v.cancelled <==> Cancelled(log, a, b))
  {
    hide Observe, RetryStep, PhaseStep, BlockStep, Polls, Reports, Cancelled;
    var last := b - 1;
    assert log[..b] == log[..last] + [log[last]];
    Observed(log[..last], log[last]);
    PollsGrow(log, a, last);
    ReportsGrow(log, a, last);
    CancelledGrows(log, a, last);
    if last > a {
      SessionSeen(log, a, last);
    }
  }

  lemma {:induction false} PollsGrow(log: seq<Effect>, a: nat, n: nat)
    requires a <= n < |log|
    ensures |Polls(log, a, n + 1)| == if n == a then 0 else |Polls(log, a, n)| + (if log[n] == DhcpPoll then 1 else 0)
  {
    var here: set<nat> := if n > a && log[n] == DhcpPoll then {n} else {};
    assert Polls(log, a, a) == {} && Polls(log, a, n + 1) == Polls(log, a, n) + here;
  }

  lemma {:induction false} ReportsGrow(log: seq<Effect>, a: nat, n: nat)
    requires a <= n < |log|
    ensures |Reports(log, a, n + 1)| ==
            if n == a then 0 else |Reports(log, a, n)| + (if log[n].DhcpReport? then 1 else 0)
  {
    var here: set<nat> := if n > a && log[n].DhcpReport? then {n} else {};
    assert Reports(log, a, a) == {} && Reports(log, a, n + 1) == Reports(log, a, n) + here;
  }

  lemma {:induction false} CancelledGrows(log: seq<Effect>, a: nat, n: nat)
    requires a <= n < |log|
    ensures Cancelled(log, a, n + 1) <==> n > a && (Cancelled(log, a, n) || log[n] == DhcpCancelled)
  {
  }

  lemma {:induction false} OrderlyKept(log: seq<Effect>, b: nat)
    requires b <= |log| && Observe(log).dhcp.orderly
    ensures Observe(log[..b]).dhcp.orderly
  {
    hide RetryStep, PhaseStep, BlockStep;
    if b == |log| {
      assert log[..b] == log;
    } else {
      var n := |log| - 1;
      assert log[..n][..b] == log[..b];
      OrderlyKept(log[..n], b);
    }
  }

  lemma {:induction false} OrderlyMeans(log: seq<Effect>)
    requires Observe(log).dhcp.orderly
    ensures var v := Observe(log).dhcp;
            && v.reports <= 1 && (v.dynamic ==> v.polls <= DHCP_POLLING_LIMIT)
            && (v.cancelled ==> v.reports == 0)
  {
    hide RetryStep, PhaseStep, BlockStep;
    if log != [] {
      OrderlyKept(log, |log| - 1);
      OrderlyMeans(log[..|log| - 1]);
    }
  }

  /** Every session in the log of every run: with a dynamic address it polls at most
      DHCP_POLLING_LIMIT times; it reports at most once, and not at all if it was cancelled; before
      the next session, or once its timer is gone, it has reported exactly once unless cancelled;
      while its timer is pending it has done neither and polls are left. */
  lemma {:induction false} RunDhcp(ws: seq<World>, ss: seq<Step>, i: nat, a: nat, b: nat)
    requires Run(ws, ss) && i < |ws| && DhcpSession(ws[i].log, a, b)
    ensures var log, pending := ws[i].log, CountOf(ws[i].timers, DhcpPolling);
            var polls, reports := |Polls(log, a, b)|, |Reports(log, a, b)|;
            && (log[a].dynamic ==> polls <= DHCP_POLLING_LIMIT)
            && reports <= 1 && (Cancelled(log, a, b) ==> reports == 0)
            && (b < |log| || pending == 0 ==> reports == 1 || Cancelled(log, a, b))
            && (b == |log| && pending > 0 ==>
                  reports == 0 && !Cancelled(log, a, b) && (log[a].dynamic ==> polls < DHCP_POLLING_LIMIT))
  {
    hide Observe, Run, CountOf;
    var log := ws[i].log;
    RunTrail(ws, ss, i);
    SessionSeen(log, a, b);
    OrderlyKept(log, b);
    OrderlyMeans(log[..b]);
    if b < |log| {
      OrderlyKept(log, b + 1);
      assert log[..b + 1] == log[..b] + [log[b]];
      Observed(log[..b], log[b]);
    } else {
      assert log[..b] == log;
    }
  }

  // ---------------------------------------------------------------- no stranding

  /** While one scan at a time is outstanding and no WPS session is abandoned, a delayed retry is
      always waiting for its timer, and SCAN always has something that will move it on. */
  lemma RunNoStranding(ws: seq<World>, ss: seq<Step>, i: nat)
    requires DisciplinedRun(ws, ss) && NoneAbandoned(ws, ss) && i < |ws|
    ensures var w := ws[i];
            var armed := CountOf(w.timers, ConnectRetry) == 1;
            && (w.sm.retry.delayed ==> w.vif == VifSta && w.sm.state == ST_SCAN && armed)
            && (w.vif == VifSta && w.sm.state == ST_SCAN ==> w.scanOut || FailQueued(w.queue) || armed)
  {
    RunSound(ws, ss, i);
  }

  // ---------------------------------------------------------------- retry budget

  /** No reset of the budget strictly between two positions. */
  ghost predicate OneBudget(log: seq<Effect>, a: nat, b: nat) {
    && a < b <= |log| && log[a].RetryParams?
    && forall k :: a < k < b ==> !log[k].RetryParams?
  }

  function Requests(log: seq<Effect>, a: nat, b: nat): set<nat>
    requires b <= |log|
  {
    set k: nat | a < k < b && log[k] == ConnectRequest
  }

  lemma {:induction false} RetryFlagsKept(log: seq<Effect>, b: nat)
    requires b <= |log|
    ensures Observe(log).retry.bounded ==> Observe(log[..b]).retry.bounded
    ensures Observe(log).retry.ordered ==> Observe(log[..b]).retry.ordered
  {
    if b == |log| {
      assert log[..b] == log;
    } else {
      var n := |log| - 1;
      assert log[..n][..b] == log[..b];
      RetryFlagsKept(log[..n], b);
    }
  }

  lemma {:induction false} BoundedMeans(log: seq<Effect>)
    requires Observe(log).retry.bounded
    ensures Observe(log).retry.attempts <= Observe(log).retry.limit
  {
    if log != [] {
      var n := |log| - 1;
      RetryFlagsKept(log, n);
      BoundedMeans(log[..n]);
    }
  }

  lemma {:induction false} SegmentCounts(log: seq<Effect>, a: nat, b: nat)
    requires OneBudget(log, a, b)
    ensures var v := Observe(log[..b]).retry;
            && v.limit == log[a].limit && v.interval == log[a].interval
            && v.attempts == |Requests(log, a, b)|
  {
    var v := Observe(log[..b]).retry;
    var last := b - 1;
    assert log[..b][..last] == log[..last];
    if last == a {
      assert Requests(log, a, b) == {};
    } else {
      SegmentCounts(log, a, last);
      var here: set<nat> := if log[last] == ConnectRequest then {last} else {};
      assert Requests(log, a, b) == Requests(log, a, last) + here;
    }
  }

  lemma {:induction false} SegmentDelays(log: seq<Effect>, a: nat, b: nat, j: nat)
    requires OneBudget(log, a, b) && Observe(log[..b]).retry.ordered
    requires a < j < b && log[j].RetryArmed?
    ensures log[a].interval <= log[j].delay <= Observe(log[..b]).retry.lastDelay
    ensures Observe(log[..b]).retry.lastDelay <= MAX_RETRY_INTERVAL
  {
    var last := b - 1;
    assert log[..b][..last] == log[..last];
    SegmentCounts(log, a, last);
    if j < last {
      SegmentDelays(log, a, last, j);
    }
  }

  /** Between two resets of the retry budget, at most `limit` connect requests are
      issued, and the delays armed lie between the interval and the maximum and
      never decrease. */
  lemma RunRetryBudget(ws: seq<World>, ss: seq<Step>, i: nat, a: nat, b: nat)
    requires DisciplinedRun(ws, ss) && NoneAbandoned(ws, ss) && i < |ws| && OneBudget(ws[i].log, a, b)
    ensures |Requests(ws[i].log, a, b)| <= ws[i].log[a].limit
    ensures DelaysOrdered(ws[i].log, a, b)
  {
    hide Observe, Run, Coherent, ScanOk, DelaysOrdered, Requests;
    RunSound(ws, ss, i);
    SegmentBudget(ws[i].log, a, b);
  }

  ghost predicate DelaysOrdered(log: seq<Effect>, a: nat, b: nat)
    requires OneBudget(log, a, b)
  {
    forall j, k :: a < j <= k < b && log[j].RetryArmed? && log[k].RetryArmed? ==>
      log[a].interval <= log[j].delay <= log[k].delay <= MAX_RETRY_INTERVAL
  }

  lemma {:induction false} SegmentBudget(log: seq<Effect>, a: nat, b: nat)
    requires OneBudget(log, a, b) && Observe(log).retry.bounded && Observe(log).retry.ordered
    ensures |Requests(log, a, b)| <= log[a].limit
    ensures DelaysOrdered(log, a, b)
  {
    RetryFlagsKept(log, b);
    BoundedMeans(log[..b]);
    SegmentCounts(log, a, b);
    forall j, k | a < j <= k < b && log[j].RetryArmed? && log[k].RetryArmed?
      ensures log[a].interval <= log[j].delay <= log[k].delay <= MAX_RETRY_INTERVAL
    {
      RetryFlagsKept(log, k + 1);
      SegmentDelays(log, a, k + 1, j);
      assert log[..k + 1][k] == log[k];
    }
  }

  // Within an attempt -- from leaving IDLE until the next IDLE or CONNECTED -- the
  // budget is never reset.

  /** The reset count together with the budget in force. */
  ghost function Budget(w: World): (nat, nat, nat) {
    (Seen(w).retry.resets, Seen(w).retry.limit, Seen(w).retry.interval)
  }

  lemma {:induction false} AttemptFailedKeepsBudget(w: World, e: Env)
    requires RetryCtx(w.timers)
    ensures Budget(AttemptFailed(w, e)) == Budget(w)
  {
    hide EnterIdle, PostConnDone, PreroamRollback, EnterScan, RegisterRetry, Observe, CountOf, RetryDelay;
    var w1 := w.(lastReason := w.sm.msg.reason);
    var w2 := w1.(sm := w1.sm.(retry := w1.sm.retry.(delayed := true)));
    EnterScanFacts(w2, e);
    RegisterRetryFacts(EnterScan(w2, e));
    GiveUpKeepsBudget(w1, w1.sm.msg.reason);
  }

  lemma {:induction false} GiveUpKeepsBudget(w: World, reason: nat)
    ensures Seen(EnterIdle(PostConnDone(PreroamRollback(w), reason))).retry == Seen(w).retry
  {
    hide EnterIdle, PostConnDone, PreroamRollback, Observe, CountOf;
    PreroamRollbackFacts(w);
    PostConnDoneFacts(PreroamRollback(w), reason);
    EnterIdleFacts(PostConnDone(PreroamRollback(w), reason));
  }

  lemma {:induction false} StepScanKeepsBudget(w: World, e: Env)
    requires RetryCtx(w.timers)
    ensures Budget(StepScan(w, e)) == Budget(w)
  {
    hide EnterIdle, EnterConnect, RegisterRetry, LinkIsOngoing, PostConnDone, PreroamRollback, Observe, CountOf,
         RetryDelay;
    LinkIsOngoingFacts(w);
    EnterIdleFacts(w);
    EnterConnectFacts(w, e);
    RegisterRetryFacts(w);
    GiveUpKeepsBudget(w, w.sm.msg.reason);
  }

  lemma {:induction false} StepsKeepBudget(w: World, e: Env)
    requires RetryCtx(w.timers)
    ensures Budget(StepConnect(w, e)) == Budget(w)
    ensures Budget(StepHandshake(w, e)) == Budget(w)
    ensures Budget(StepDhcp(w, e)) == Budget(w)
  {
    hide EnterIdle, EnterHandshake, EnterDhcp, EnterConnected, LinkIsOngoing, AttemptFailed, Observe, CountOf;
    LinkIsOngoingFacts(w);
    EnterIdleFacts(w);
    EnterHandshakeFacts(w);
    EnterDhcpFacts(w, e);
    EnterConnectedFacts(w);
    AttemptFailedKeepsBudget(w, e);
  }

  lemma {:induction false} StaStepKeepsBudget(w: World, e: Env)
    requires Coherent(w) && Attempting(w) && Attempting(StaStep(w, e))
    ensures Budget(StaStep(w, e)) == Budget(w)
  {
    hide StaReset, EnterIdle, StepScan, StepConnect, StepHandshake, StepDhcp, StepConnected, StepIdle, StepWps,
         Observe, CountOf;
    StaResetLeaves(w);
    var h := Emit(w, Handled(w.sm.msg.event, w.sm.state));
    Observed(w.log, Handled(w.sm.msg.event, w.sm.state));
    StepScanKeepsBudget(h, e);
    StepsKeepBudget(h, e);
  }

  lemma {:induction false} StaResetLeaves(w: World)
    ensures !Attempting(StaReset(w))
  {
    hide EnterIdle, RetryParamSet, Observe, CountOf;
    EnterIdleFacts(RetryParamSet(ClearRecord(w, true), false));
  }

  lemma {:induction false} MachineStepKeepsBudget(w: World, e: Env)
    requires Coherent(w) && Attempting(w) && Attempting(MachineStep(w, e))
    ensures Budget(MachineStep(w, e)) == Budget(w)
  {
    hide StaStep, SwitchMode, ApStep, MonitorStep, Observe, CountOf;
    if w.sm.msg.event == SwitchModeCmd {
      SwitchModeStays(w, e);
    } else {
      StaStepKeepsBudget(w, e);
    }
  }

  /** A mode switch that ends in an attempt did nothing. */
  lemma {:induction false} SwitchModeStays(w: World, e: Env)
    requires Coherent(w) && Attempting(SwitchMode(w, e))
    ensures SwitchMode(w, e) == w
  {
    SwitchModeCoherent(w, e);
    if w.vif != VifTypeOf(w.sm.msg.reason) {
      assert false;
    }
  }

  lemma {:induction false} FireKeepsBudget(w: World, e: Env)
    ensures Budget(FireHead(w, e)) == Budget(w)
  {
    hide EnterScan, FireDhcp, FireLink, Observe, CountOf;
    if HeadDue(w) {
      var w1 := TakeTimer(w);
      EnterScanFacts(w1.(sm := w1.sm.(retry := w1.sm.retry.(count := (w1.sm.retry.count - 1) % WORD32,
                                                            delayed := false))), e);
      FireDhcpFacts(w1, e);
      FireDhcpSeen(w1, e);
      FireLinkKeepsBudget(w1, e);
    }
  }

  lemma {:induction false} FireLinkKeepsBudget(w: World, e: Env)
    ensures Budget(FireLink(w, e)) == Budget(w)
  {
    hide Observe, CountOf, Insert;
    Observed(w.log, ScanRequest(ANY_CHANNEL));
  }

  lemma {:induction false} NextKeepsBudget(w: World, s: Step)
    requires Coherent(w) && Enabled(w, s) && Attempting(w) && Attempting(Next(w, s))
    ensures Budget(Next(w, s)) == Budget(w)
  {
    hide MachineStep, FireHead, Observe, CountOf;
    match s
    case Handle(e) =>
      var m, w1 := w.queue[0], TakeMessage(w);
      if !(m.vif != 0 || m.event == Foreign) {
        MachineStepKeepsBudget(LoadMessage(w1, m), e);
      }
    case Fire(e) => FireKeepsBudget(w, e);
    case ArmScan(_) => Observed(w.log, ScanArmed);
    case _ =>
  }

  lemma {:induction false} AttemptKeepsBudget(ws: seq<World>, ss: seq<Step>, i: nat, j: nat)
    requires Run(ws, ss) && i <= j < |ws|
    requires forall k :: i <= k <= j ==> Attempting(ws[k])
    ensures Budget(ws[j]) == Budget(ws[i])
  {
    hide Observe, CountOf, Next, Coherent, Attempting, Budget;
    if i < j {
      AttemptKeepsBudget(ws, ss, i, j - 1);
      RunCoherent(ws, ss, j - 1);
      assert ws[j - 1 + 1] == Next(ws[j - 1], ss[j - 1]);
      NextKeepsBudget(ws[j - 1], ss[j - 1]);
    }
  }

  /** A CONNECT_CMD accepted in IDLE resets the budget to the connect limit. */
  lemma {:induction false} ConnectAccepted(w: World, e: Env)
    requires w.queue != [] && w.queue[0].vif == 0 && w.queue[0].event == ConnectCmd
    requires w.vif == VifSta && w.sm.init && w.sm.state == ST_IDLE
    ensures var v := Seen(Dispatch(w, e)).retry;
            v.resets == Seen(w).retry.resets + 1 && v.attempts == 0 && v.limit == CONNECT_RETRY_LIMIT
  {
    hide EnterScan, RetryParamSet, CopyCfg, Observe, CountOf;
    var h := Emit(LoadMessage(TakeMessage(w), w.queue[0]), Handled(ConnectCmd, ST_IDLE));
    Observed(w.log, Handled(ConnectCmd, ST_IDLE));
    CopyCfgFacts(h, e);
    ConnectBudget(CopyCfg(h, e));
    EnterScanFacts(RetryParamSet(CopyCfg(h, e), false), e);
  }

  lemma {:induction false} ConnectBudget(w: World)
    ensures var v := Seen(RetryParamSet(w, false)).retry;
            v.resets == Seen(w).retry.resets + 1 && v.attempts == 0 && v.limit == CONNECT_RETRY_LIMIT
  {
    hide Observe;
    Observed(w.log, RetryParams(CONNECT_RETRY_LIMIT, CONNECT_RETRY_INTERVAL));
  }

  /** Connect requests from position n of the log on. */
  function RequestsFrom(log: seq<Effect>, n: nat): set<nat> {
    set k: nat | n <= k < |log| && log[k] == ConnectRequest
  }

  lemma {:induction false} ResetsGrow(log: seq<Effect>, n: nat)
    requires n <= |log|
    ensures Observe(log[..n]).retry.resets <= Observe(log).retry.resets
  {
    hide PhaseStep, BlockStep, DhcpStep;
    if n == |log| {
      assert log[..n] == log;
    } else {
      var front := log[..|log| - 1];
      assert front[..n] == log[..n];
      ResetsGrow(front, n);
    }
  }

  /** While the budget is not reset, the observer counts the requests. */
  lemma {:induction false} RequestsSeen(log: seq<Effect>, n: nat)
    requires n <= |log| && Observe(log[..n]).retry.resets == Observe(log).retry.resets
    ensures Observe(log).retry.attempts == Observe(log[..n]).retry.attempts + |RequestsFrom(log, n)|
  {
    hide Observe, PhaseStep, BlockStep, DhcpStep, RequestsFrom;
    if n == |log| {
      assert log[..n] == log;
      NoneFromEnd(log);
    } else {
      var last := |log| - 1;
      var front := log[..last];
      assert front[..n] == log[..n] && log == front + [log[last]];
      Observed(front, log[last]);
      ResetsGrow(front, n);
      RequestsSeen(front, n);
      RequestsStep(front, log[last], n);
    }
  }

  lemma {:induction false} NoneFromEnd(log: seq<Effect>)
    ensures RequestsFrom(log, |log|) == {}
  {
  }

  lemma {:induction false} RequestsStep(front: seq<Effect>, e: Effect, n: nat)
    requires n <= |front|
    ensures |RequestsFrom(front + [e], n)| == |RequestsFrom(front, n)| + (if e == ConnectRequest then 1 else 0)
  {
    var here: set<nat> := if e == ConnectRequest then {|front|} else {};
    assert RequestsFrom(front + [e], n) == RequestsFrom(front, n) + here;
  }

  /** Accepting a CONNECT_CMD issues no connect request yet. */
  lemma {:induction false} AcceptedLog(w: World, e: Env)
    requires w.queue != [] && w.queue[0].vif == 0 && w.queue[0].event == ConnectCmd
    requires w.vif == VifSta && w.sm.init && w.sm.state == ST_IDLE
    ensures w.log <= Dispatch(w, e).log && RequestsFrom(Dispatch(w, e).log, |w.log|) == {}
  {
    hide EnterScan, CopyCfg, RetryParamSet;
    var h := Emit(LoadMessage(TakeMessage(w), w.queue[0]), Handled(ConnectCmd, ST_IDLE));
    BudgetLog(h, e);
    ScanLog(RetryParamSet(CopyCfg(h, e), false), e);
  }

  predicate NoRequest(a: seq<Effect>, b: seq<Effect>) {
    a <= b && forall k :: |a| <= k < |b| ==> b[k] != ConnectRequest
  }

  lemma {:induction false} BudgetLog(w: World, e: Env)
    ensures NoRequest(w.log, RetryParamSet(CopyCfg(w, e), false).log)
  {
  }

  lemma {:induction false} ScanLog(w: World, e: Env)
    ensures NoRequest(w.log, EnterScan(w, e).log)
  {
    hide CountOf, Without;
  }

  /** From a CONNECT_CMD accepted in IDLE until the next IDLE or CONNECTED the budget is reset once,
      at the start, and the log grows by at most as many connect requests as its limit, three. */
  lemma {:induction false} RunAttemptBudget(ws: seq<World>, ss: seq<Step>, i: nat, j: nat)
    requires DisciplinedRun(ws, ss) && NoneAbandoned(ws, ss) && i < j < |ws|
    requires ws[i].vif == VifSta && ws[i].sm.init && ws[i].sm.state == ST_IDLE
    requires ss[i].Handle? && ws[i].queue != [] && ws[i].queue[0].vif == 0 && ws[i].queue[0].event == ConnectCmd
    requires forall k :: i < k <= j ==> Attempting(ws[k])
    ensures Seen(ws[j]).retry.resets == Seen(ws[i]).retry.resets + 1
    ensures ws[i].log <= ws[j].log && |RequestsFrom(ws[j].log, |ws[i].log|)| <= CONNECT_RETRY_LIMIT
  {
    hide Observe, CountOf, Dispatch, Start, Enabled, Coherent, ScanOk, RequestsFrom, Attempting;
    ConnectAccepted(ws[i], ss[i].env);
    AcceptedLog(ws[i], ss[i].env);
    assert ws[i + 1] == Next(ws[i], ss[i]);
    AttemptKeepsBudget(ws, ss, i + 1, j);
    RunSound(ws, ss, j);
    RunGrows(ws, ss, i + 1, j);
    var mid, log := ws[i + 1].log, ws[j].log;
    assert log[..|mid|] == mid;
    RequestsSeen(log, |mid|);
    RequestsMeet(ws[i].log, mid, log);
  }

  lemma {:induction false} RequestsMeet(a: seq<Effect>, b: seq<Effect>, c: seq<Effect>)
    requires a <= b <= c && RequestsFrom(b, |a|) == {}
    ensures RequestsFrom(c, |a|) == RequestsFrom(c, |b|)
  {
    forall k: nat | |a| <= k < |b| ensures c[k] != ConnectRequest {
      assert k in RequestsFrom(b, |a|) <==> b[k] == ConnectRequest;
    }
  }

  // ---------------------------------------------------------------- the counter and its limit

  /** INIT is posted once, before the loop starts. */
  predicate InitOnce(ss: seq<Step>) {
    forall k :: 0 <= k < |ss| ==> !(ss[k].Arrive? && ss[k].msg.event == Init)
  }

  predicate HasHandled(ss: seq<Step>, i: nat)
    requires i <= |ss|
  {
    exists k :: 0 <= k < i && ss[k].Handle?
  }

  /** Before the first message: a station whose record is still zero and whose first message is INIT. */
  predicate Untouched(w: World) {
    && w.vif == VifSta && w.sm.retry == ZERO_SM.retry && w.timers == []
    && w.queue != [] && w.queue[0] == Msg(0, Init, 0, 0, 0, false) && NoInit(w.queue[1..])
  }

  predicate Budgeted(w: World) { w.sm.init && w.sm.retry.limit != 0 && NoInit(w.queue) }

  lemma {:induction false} FirstDispatch(w: World, e: Env)
    requires Untouched(w)
    ensures Budgeted(Dispatch(w, e))
  {
    hide StaReset;
    ClearGrows(LoadMessage(TakeMessage(w), w.queue[0]));
  }

  lemma {:induction false} UntouchedKept(w: World, s: Step)
    requires Untouched(w) && Enabled(w, s) && !s.Handle? && !(s.Arrive? && s.msg.event == Init)
    ensures Untouched(Next(w, s))
  {
    hide Dispatch;
    if s.Arrive? {
      assert (w.queue + [s.msg])[1..] == w.queue[1..] + [s.msg];
    }
  }

  lemma {:induction false} BudgetedKept(w: World, s: Step)
    requires Budgeted(w) && Enabled(w, s) && !(s.Arrive? && s.msg.event == Init)
    ensures Budgeted(Next(w, s))
  {
    hide MachineStep, FireHead;
    if s.Handle? {
      var m, w1 := w.queue[0], TakeMessage(w);
      assert NoInit(w1.queue);
      if !(m.vif != 0 || m.event == Foreign) {
        MachineStepKept(LoadMessage(w1, m), s.env);
      }
    } else if s.Fire? {
      FireHeadKept(w, s.env);
    }
  }

  lemma {:induction false} RunBudgeted(ws: seq<World>, ss: seq<Step>, i: nat)
    requires Run(ws, ss) && i < |ws| && ws[0].vif == VifSta && InitOnce(ss)
    ensures if HasHandled(ss, i) then Budgeted(ws[i]) else Untouched(ws[i])
  {
    hide Next, Enabled, Untouched, Budgeted;
    if i == 0 {
      StartUntouched(ws[0]);
    } else {
      RunBudgeted(ws, ss, i - 1);
      var w, s := ws[i - 1], ss[i - 1];
      assert ws[i - 1 + 1] == Next(w, s);
      assert HasHandled(ss, i) <==> HasHandled(ss, i - 1) || s.Handle?;
      if HasHandled(ss, i - 1) {
        BudgetedKept(w, s);
      } else if s.Handle? {
        NextHandles(w, s);
        FirstDispatch(w, s.env);
      } else {
        UntouchedKept(w, s);
      }
    }
  }

  lemma {:induction false} NextHandles(w: World, s: Step)
    requires s.Handle? && Enabled(w, s)
    ensures w.queue != [] && Next(w, s) == Dispatch(w, s.env)
  {
    hide Dispatch;
  }

  lemma {:induction false} StartUntouched(w: World)
    requires Start(w) && w.vif == VifSta
    ensures Untouched(w)
  {
    assert w.queue[1..] == [];
  }

  /** The interface starts as a station, and INIT comes once: then retry_count is below retry_limit
      from the first message handled on, and never before it. */
  lemma {:induction false} RunRetryBelowLimit(ws: seq<World>, ss: seq<Step>, i: nat)
    requires Run(ws, ss) && i < |ws| && ws[0].vif == VifSta && InitOnce(ss)
    ensures ws[i].sm.retry.count < ws[i].sm.retry.limit <==> HasHandled(ss, i)
  {
    hide Run, TimersOk, NoInit;
    RunBudgeted(ws, ss, i);
    RunCoherent(ws, ss, i);
  }

  /** The retry record holds a budget: one was set and the record has not been cleared since. */
  ghost predicate BudgetSet(log: seq<Effect>) {
    exists k: nat :: k < |log| && log[k].RetryParams? && forall j :: k < j < |log| ==> log[j] != RecordCleared
  }

  lemma {:induction false} BudgetedMeans(log: seq<Effect>)
    ensures Observe(log).retry.budgeted <==> BudgetSet(log)
  {
    hide PhaseStep, BlockStep, DhcpStep;
    if log != [] {
      var n := |log| - 1;
      var front := log[..n];
      BudgetedMeans(front);
      assert forall j :: 0 <= j < n ==> log[j] == front[j];
      if BudgetSet(front) && log[n] != RecordCleared {
        var k: nat :| k < n && front[k].RetryParams? && forall j :: k < j < n ==> front[j] != RecordCleared;
        assert log[k].RetryParams?;
      }
    }
  }

  /** The count is below the limit if and only if a budget was set since the record was last
      cleared; from SCAN onwards one always has been. */
  lemma RunCounterBelowLimit(ws: seq<World>, ss: seq<Step>, i: nat)
    requires Run(ws, ss) && i < |ws|
    ensures ws[i].sm.retry.count < ws[i].sm.retry.limit <==> BudgetSet(ws[i].log)
    ensures ws[i].vif == VifSta && ST_SCAN <= ws[i].sm.state ==> BudgetSet(ws[i].log)
  {
    hide Observe, Run;
    RunTrail(ws, ss, i);
    BudgetedMeans(ws[i].log);
  }

  /** In the builds for radio tests the interface starts as a monitor, and there the claim fails:
      INIT clears the record without setting a budget, and a switch to station mode that fails
      half-way leaves a station in IDLE without one. */
  lemma {:induction false} TestBuildExceedsLimit(w: World, e: Env) returns (ws: seq<World>, ss: seq<Step>)
    requires Start(w) && w.vif == VifMonitor && !e.typeSetOk
    ensures Run(ws, ss) && ws[0] == w && InitOnce(ss)
    ensures var r := ws[|ss|];
            r.vif == VifSta && r.sm.init && r.sm.state == ST_IDLE && r.sm.retry.count == r.sm.retry.limit == 0
  {
    hide CountOf, EnterIdle, Observe;
    var toSta := Msg(0, SwitchModeCmd, 1, 0, 0, false);
    var w1 := Dispatch(w, e);
    assert w1.queue == [] && w1.vif == VifMonitor && w1.sm == ZERO_SM.(init := true, msg := w1.sm.msg);
    assert 0 !in w1.mem.live;
    var w2 := Next(w1, Arrive(toSta));
    assert w2.queue == [toSta];
    ws := [w, w1, w2, Dispatch(w2, e)];
    ss := [Handle(e), Arrive(toSta), Handle(e)];
  }
}
