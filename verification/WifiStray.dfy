/** Which steps let a WPS scan timer outlive its session, and what happens when one does. */
module WifiStray {
  import opened EventLoop
  import opened WifiTypes
  import opened WifiSpec
  import opened WifiCoherence
  import opened WifiEntries
  import opened WifiScan

  // ---------------------------------------------------------------- the WPS context and its timers

  /** The context and the number of its timers are untouched. */
  predicate CtxKept(w: World, r: World) {
    r.wpsCtx == w.wpsCtx && WpsTimers(r) == WpsTimers(w)
  }

  lemma {:induction false} EntriesKeepCtx(w: World, e: Env)
    ensures CtxKept(w, EnterIdle(w)) && CtxKept(w, EnterScan(w, e)) && CtxKept(w, RegisterRetry(w))
  {
    hide CountOf, Insert, Without;
  }

  lemma {:induction false} PhasesKeepCtx(w: World, e: Env)
    ensures CtxKept(w, EnterDhcp(w, e)) && CtxKept(w, EnterConnected(w)) && CtxKept(w, EnterConnect(w, e))
  {
    hide CountOf, Insert;
  }

  lemma {:induction false} PostsKeepCtx(w: World, e: Env, reason: nat)
    ensures CtxKept(w, PostConnDone(w, reason)) && CtxKept(w, PreroamRollback(w)) && CtxKept(w, CopyCfg(w, e))
    ensures CtxKept(w, PostScanDone(w, reason))
  {
    hide CountOf;
  }

  lemma {:induction false} CallersKeepCtx(w: World, e: Env)
    ensures CtxKept(w, UserScan(w, e)) && CtxKept(w, LinkIsOngoing(w))
  {
    hide CountOf;
  }

  lemma {:induction false} GiveUpKeepsCtx(w: World, e: Env, reason: nat)
    ensures CtxKept(w, EnterIdle(PostConnDone(PreroamRollback(w), reason)))
  {
    hide CountOf, EnterIdle, PostConnDone, PreroamRollback;
    PostsKeepCtx(w, e, reason);
    PostsKeepCtx(PreroamRollback(w), e, reason);
    EntriesKeepCtx(PostConnDone(PreroamRollback(w), reason), e);
  }

  lemma {:induction false} AttemptFailedKeepsCtx(w: World, e: Env)
    ensures CtxKept(w, AttemptFailed(w, e))
  {
    hide CountOf, EnterIdle, PostConnDone, PreroamRollback, EnterScan, RegisterRetry;
    var w1 := w.(lastReason := w.sm.msg.reason);
    var w2 := w1.(sm := w1.sm.(retry := w1.sm.retry.(delayed := true)));
    EntriesKeepCtx(w2, e);
    EntriesKeepCtx(EnterScan(w2, e), e);
    GiveUpKeepsCtx(w1, e, w1.sm.msg.reason);
  }

  /** Attempts in progress do not touch them. */
  lemma {:induction false} AttemptKeepsCtx(w: World, e: Env)
    ensures CtxKept(w, StepScan(w, e)) && CtxKept(w, StepConnect(w, e)) && CtxKept(w, StepHandshake(w, e))
    ensures CtxKept(w, StepDhcp(w, e))
  {
    hide CountOf, EnterIdle, PostConnDone, PreroamRollback, EnterScan, RegisterRetry, EnterDhcp, EnterConnected,
         EnterConnect, LinkIsOngoing, AttemptFailed, Without;
    EntriesKeepCtx(w, e);
    PhasesKeepCtx(w, e);
    CallersKeepCtx(w, e);
    GiveUpKeepsCtx(w, e, w.sm.msg.reason);
    AttemptFailedKeepsCtx(w, e);
  }

  lemma {:induction false} StepIdleCtx(w: World, e: Env)
    requires w.vif == VifSta
    ensures CtxKept(w, StepIdle(w, e)) || InWps(StepIdle(w, e))
  {
    hide CountOf, EnterIdle, EnterScan, UserScan, PostScanDone, CopyCfg;
    var ev := w.sm.msg.event;
    if ev == ScanCmd {
      CallersKeepCtx(w, e);
    } else if ev == ConnectCmd {
      PostsKeepCtx(w, e, 0);
      EntriesKeepCtx(RetryParamSet(CopyCfg(w, e), false), e);
    } else if ev == AutoConnectCmd {
      EntriesKeepCtx(w, e);
      EntriesKeepCtx(RetryParamSet(w.(cfg := w.cfg.(channel := e.apChannel)), true), e);
    } else if ev == ScanDone {
      PostsKeepCtx(w, e, SCAN_SUCCESS);
    }
  }

  lemma {:induction false} ReconnectKeepsCtx(w: World, e: Env)
    ensures CtxKept(w, Reconnect(w, e))
  {
    hide CountOf, EnterIdle, EnterScan, CopyCfg;
    PostsKeepCtx(w, e, 0);
    EntriesKeepCtx(CopyCfg(w, e), e);
    EntriesKeepCtx(RetryParamSet(EnterIdle(CopyCfg(w, e)), false), e);
  }

  lemma {:induction false} DisconnectKeepsCtx(w: World, e: Env)
    ensures CtxKept(w, ConnectedDisconnect(w, e))
  {
    hide CountOf, EnterIdle, EnterScan;
    var w1 := w.(lastReason := w.sm.msg.reason);
    EntriesKeepCtx(w1, e);
    EntriesKeepCtx(RetryParamSet(w1, true), e);
  }

  lemma {:induction false} ConnectedScanKeepsCtx(w: World, e: Env)
    ensures CtxKept(w, ConnectedScanDone(w, e)) && CtxKept(w, StartRoaming(w))
  {
    hide CountOf, Insert;
  }

  lemma {:induction false} StepConnectedCtx(w: World, e: Env)
    requires w.vif == VifSta
    ensures CtxKept(w, StepConnected(w, e)) || InWps(StepConnected(w, e))
  {
    hide CountOf, EnterIdle, EnterScan, UserScan, PostScanDone, ConnectedScanDone, StartRoaming, CopyCfg, Reconnect,
         ConnectedDisconnect;
    var ev := w.sm.msg.event;
    if ev == ScanCmd {
      CallersKeepCtx(w, e);
    } else if ev == ConnectCmd {
      ReconnectKeepsCtx(w, e);
    } else if ev == WpsCmd {
      EnterIdleFacts(w);
    } else if ev == DisconnectCmd {
      EntriesKeepCtx(w, e);
    } else if ev == ScanDone || ev == RoamingStart {
      ConnectedScanKeepsCtx(w, e);
    } else if ev == ScanFail {
      PostsKeepCtx(w, e, SCAN_FAILED);
    } else if ev == Disconnect {
      DisconnectKeepsCtx(w, e);
    }
  }

  lemma {:induction false} WpsFailedCtx(w: World, e: Env)
    ensures !WpsFailed(w).wpsCtx && !EnterIdle(WpsStop(w)).wpsCtx
    ensures WpsDisconnect(w, e) == w || !WpsDisconnect(w, e).wpsCtx
  {
    hide CountOf, EnterIdle, EnterScan, PostConnDone, Without;
    EntriesKeepCtx(WpsStop(w), e);
    PostsKeepCtx(WpsStop(w), e, CONN_WPS_FAIL);
    EntriesKeepCtx(PostConnDone(WpsStop(w), CONN_WPS_FAIL), e);
    EntriesKeepCtx(RetryParamSet(UseCredential(WpsStop(w)), false), e);
  }

  /** The WPS handlers leave WPS only together with the context. */
  lemma {:induction false} StepWpsCtx(w: World, e: Env)
    requires InWps(w)
    ensures InWps(StepWps(w, e)) || !StepWps(w, e).wpsCtx
  {
    hide CountOf, EnterIdle, WpsScanResult, WpsScanDone, WpsDisconnect, WpsFailed, WpsStop;
    if LeavesWps(w.sm.msg.event) {
      WpsFailedCtx(w, e);
    } else {
      WpsStays(w, e);
    }
  }

  lemma {:induction false} StaResetCtx(w: World, e: Env)
    ensures CtxKept(w, StaReset(w)) && !InWps(StaReset(w))
  {
    hide CountOf, EnterIdle;
    var w1 := RetryParamSet(ClearRecord(w, true), false);
    EntriesKeepCtx(w1, e);
    EnterIdleFacts(w1);
  }

  lemma {:induction false} StaStepCtx(w: World, e: Env)
    requires w.vif == VifSta
    ensures var r := StaStep(w, e);
            if !w.sm.init || w.sm.msg.event == Init then CtxKept(w, r) && !InWps(r)
            else InWps(r) || (if InWps(w) then !r.wpsCtx else CtxKept(w, r))
  {
    hide StaReset, StepIdle, StepWps, StepScan, StepConnect, StepHandshake, StepDhcp, StepConnected, CountOf;
    StaResetCtx(w, e);
    var h := Emit(w, Handled(w.sm.msg.event, w.sm.state));
    if w.sm.state == ST_IDLE {
      StepIdleCtx(h, e);
    } else if w.sm.state == ST_WPS {
      StepWpsCtx(h, e);
    } else if w.sm.state == ST_CONNECTED {
      StepConnectedCtx(h, e);
    } else {
      AttemptKeepsCtx(h, e);
    }
  }

  lemma {:induction false} ApStepCtx(w: World, e: Env)
    ensures CtxKept(w, ApStep(w, e)) && ApStep(w, e).vif == w.vif
  {
    hide UserScan, PostScanDone, CountOf;
    var ev := w.sm.msg.event;
    if ev == ScanCmd {
      CallersKeepCtx(w, e);
      UserScanFacts(w, e);
    } else if ev == ScanDone {
      PostsKeepCtx(w, e, SCAN_SUCCESS);
      PostScanDoneFacts(w, SCAN_SUCCESS);
    } else if ev == ScanFail {
      PostsKeepCtx(w, e, SCAN_FAILED);
      PostScanDoneFacts(w, SCAN_FAILED);
    }
  }

  lemma {:induction false} MonitorStepCtx(w: World, e: Env)
    ensures CtxKept(w, MonitorStep(w, e)) && MonitorStep(w, e).vif == w.vif
  {
    hide UserScan, PostScanDone, CountOf;
    var ev := w.sm.msg.event;
    if ev == ScanCmd {
      CallersKeepCtx(w, e);
      UserScanFacts(w, e);
    } else if ev == ScanDone {
      PostsKeepCtx(w, e, SCAN_SUCCESS);
      PostScanDoneFacts(w, SCAN_SUCCESS);
    } else if ev == ScanFail {
      PostsKeepCtx(w, e, SCAN_FAILED);
      PostScanDoneFacts(w, SCAN_FAILED);
    }
  }

  lemma {:induction false} LeaveModeCtx(w: World, e: Env)
    ensures CtxKept(w, LeaveMode(w))
    ensures LeaveMode(w).sm.state == ST_WPS ==> w.sm.state == ST_WPS && w.vif != VifSta
  {
    hide CountOf, EnterIdle;
    if w.vif == VifSta {
      EntriesKeepCtx(w, e);
      EnterIdleFacts(w);
    }
  }

  lemma {:induction false} EnterModeCtx(w: World, target: VifType)
    ensures CtxKept(w, EnterMode(w, target)) && EnterMode(w, target).vif == w.vif
    ensures EnterMode(w, target).sm.state == ST_WPS ==> w.sm.state == ST_WPS
  {
    hide CountOf;
  }

  lemma {:induction false} SwitchModeCtx(w: World, e: Env)
    ensures CtxKept(w, SwitchMode(w, e))
    ensures w.vif != VifTypeOf(w.sm.msg.reason) ==>
              SwitchMode(w, e).vif == VifTypeOf(w.sm.msg.reason)
              && (SwitchMode(w, e).sm.state == ST_WPS ==> w.sm.state == ST_WPS && w.vif != VifSta)
    ensures w.vif == VifTypeOf(w.sm.msg.reason) ==> SwitchMode(w, e) == w
  {
    hide CountOf, LeaveMode, EnterMode;
    var target := VifTypeOf(w.sm.msg.reason);
    LeaveModeCtx(w, e);
    EnterModeCtx(LeaveMode(w).(vif := target), target);
  }

  // ---------------------------------------------------------------- exactly the abandoning steps

  lemma {:induction false} DispatchStray(w: World, e: Env)
    requires Coherent(w) && NoStray(w) && w.queue != []
    ensures NoStray(Dispatch(w, e)) <==> !Abandons(w, Handle(e))
  {
    hide StaStep, ApStep, MonitorStep, SwitchMode, CountOf, TimersOk;
    var m := w.queue[0];
    var l := LoadMessage(TakeMessage(w), m);
    if m.vif == 0 && m.event != Foreign {
      if m.event == SwitchModeCmd {
        SwitchModeCtx(l, e);
      } else if w.vif == VifSta {
        StaStepCtx(l, e);
      } else {
        ApStepCtx(l, e);
        MonitorStepCtx(l, e);
      }
    }
  }

  lemma {:induction false} PollsKeepCtx(w: World, e: Env)
    ensures CtxKept(w, FireDhcp(w, e)) && InWps(FireDhcp(w, e)) == InWps(w)
    ensures CtxKept(w, FireLink(w, e)) && InWps(FireLink(w, e)) == InWps(w)
    ensures CtxKept(w, FireWps(w, e)) && InWps(FireWps(w, e)) == InWps(w)
  {
    hide CountOf, Insert;
  }

  lemma {:induction false} FireRetryCtx(w: World, e: Env)
    ensures CtxKept(w, FireRetry(w, e))
  {
    hide EnterScan, CountOf;
    EntriesKeepCtx(w.(sm := w.sm.(retry := w.sm.retry.(count := (w.sm.retry.count - 1) % WORD32,
                                                       delayed := false))), e);
  }

  lemma {:induction false} FireStray(w: World, e: Env)
    requires Coherent(w) && NoStray(w)
    ensures NoStray(FireHead(w, e))
  {
    hide FireRetry, FireDhcp, FireLink, FireWps, CountOf;
    if HeadDue(w) {
      FireRetryCtx(TakeTimer(w), e);
      PollsKeepCtx(TakeTimer(w), e);
    }
  }

  /** A step leaves no WPS timer stray, if and only if it does not abandon a WPS session. */
  lemma {:induction false} NextStray(w: World, s: Step)
    requires Coherent(w) && NoStray(w) && Enabled(w, s)
    ensures NoStray(Next(w, s)) <==> !Abandons(w, s)
  {
    hide Dispatch, FireHead, Coherent;
    if s.Handle? {
      DispatchStray(w, s.env);
    } else if s.Fire? {
      FireStray(w, s.env);
    }
  }

  predicate NoStrayUpTo(ws: seq<World>, n: nat)
    requires n < |ws|
  {
    forall k :: 0 <= k <= n ==> NoStray(ws[k])
  }

  predicate NoneAbandonedBefore(ws: seq<World>, ss: seq<Step>, n: nat)
    requires n <= |ss| && n < |ws|
  {
    forall k :: 0 <= k < n ==> !Abandons(ws[k], ss[k])
  }

  /** Up to any point of a run no WPS timer has been stray, if and only if no step abandoned a
      WPS session. */
  lemma {:induction false} RunStray(ws: seq<World>, ss: seq<Step>, n: nat)
    requires Run(ws, ss) && n < |ws|
    ensures NoStrayUpTo(ws, n) <==> NoneAbandonedBefore(ws, ss, n)
  {
    hide NoStray, Abandons, Next, Enabled, Coherent;
    if n == 0 {
      StartNoStray(ws[0]);
    } else {
      RunStray(ws, ss, n - 1);
      RunCoherent(ws, ss, n - 1);
      var s := ss[n - 1];
      assert ws[n - 1 + 1] == Next(ws[n - 1], s);
      if NoStray(ws[n - 1]) {
        NextStray(ws[n - 1], s);
      }
    }
  }

  lemma {:induction false} StartNoStray(w: World)
    requires Start(w)
    ensures NoStray(w)
  {
  }

  // ---------------------------------------------------------------- disciplined runs

  lemma {:induction false} RunSound(ws: seq<World>, ss: seq<Step>, i: nat)
    requires DisciplinedRun(ws, ss) && NoneAbandoned(ws, ss) && i < |ws|
    ensures Sound(ws[i])
  {
    hide Next, Enabled, Sound, NoStray, Abandons, Disciplined, Coherent, StrayScan;
    if i > 0 {
      RunSound(ws, ss, i - 1);
      RunStray(ws, ss, i - 1);
      RunCoherent(ws, ss, i - 1);
      assert NoStrayUpTo(ws, i - 1);
      NotStrayScan(ws[i - 1], ss[i - 1]);
      NextSound(ws[i - 1], ss[i - 1]);
    } else {
      StartSound(ws[0]);
    }
  }

  ghost predicate SoundUpTo(ws: seq<World>, n: nat)
    requires n < |ws|
  {
    forall k :: 0 <= k <= n ==> Sound(ws[k])
  }

  predicate NoStrayScanBefore(ws: seq<World>, ss: seq<Step>, n: nat)
    requires n <= |ss| && n < |ws|
  {
    forall k :: 0 <= k < n ==> !StrayScan(ws[k], ss[k])
  }

  /** In a disciplined run the invariants have held up to any point if and only if no step was a
      stray scan. */
  lemma {:induction false} RunSoundExact(ws: seq<World>, ss: seq<Step>, n: nat)
    requires DisciplinedRun(ws, ss) && n < |ws|
    ensures SoundUpTo(ws, n) <==> NoStrayScanBefore(ws, ss, n)
  {
    hide Next, Enabled, Sound, Disciplined, StrayScan;
    if n == 0 {
      StartSound(ws[0]);
    } else {
      RunSoundExact(ws, ss, n - 1);
      assert ws[n - 1 + 1] == Next(ws[n - 1], ss[n - 1]);
      if Sound(ws[n - 1]) {
        NextSound(ws[n - 1], ss[n - 1]);
      }
    }
  }

  lemma {:induction false} StartSound(w: World)
    requires Start(w)
    ensures Sound(w)
  {
  }

  lemma {:induction false} NotStrayScan(w: World, s: Step)
    requires Sound(w) && NoStray(w)
    ensures !StrayScan(w, s)
  {
    if w.timers != [] && w.timers[0].handler == WpsScanTimer {
      assert WpsTimers(w) > 0;
    }
  }

  // ---------------------------------------------------------------- what a stray scan does

  /** From every sound delayed SCAN with nothing queued, a WPS timer that can still scan, followed
      by the completion of its scan, ends in CONNECT with the retry still marked delayed. */
  lemma {:induction false} StrayScanStrands(w: World, e1: Env, e2: Env)
    requires Sound(w) && w.vif == VifSta && w.sm.init && w.sm.retry.delayed && w.queue == []
    requires HeadDue(w) && w.timers[0].handler == WpsScanTimer && w.wpsCtx && e1.wpsScanned
    requires e2.connectReason == 0 && 0 !in w.mem.live
    ensures var w1 := FireHead(w, e1);
            var w2 := Next(w1, Arrive(ScanEnd()));
            && w2.queue != []
            && var r := Dispatch(w2, e2);
               r.vif == VifSta && r.sm.state == ST_CONNECT && r.sm.retry.delayed
  {
    hide CountOf;
  }

  /** The radio's completion message. */
  function ScanEnd(): Msg { Msg(0, ScanDone, 0, 0, 0, true) }

  /** A WPS command carries its parameters in a block. */
  function WpsRequest(): Msg { Msg(0, WpsCmd, 0, 1, 1, false) }

  function Plain(event: Event, reason: nat): Msg { Msg(0, event, reason, 0, 0, false) }

  // A concrete run under the one-scan discipline that ends so.

  ghost predicate Quiescent(w: World) {
    w.queue == [] && w.now == 0 && w.mem.live == {} && w.sm.wps.bcn == 0 && !w.sm.roam.started
  }

  /** Interface type, state, retry record, timers, and the two scan flags. */
  ghost predicate At(w: World, vif: VifType, state: nat, retry: Retry, ts: seq<Timeout>, scanOut: bool, ctx: bool) {
    && Quiescent(w) && w.sm.init && w.vif == vif && w.sm.state == state && w.sm.retry == retry
    && w.timers == ts && w.scanOut == scanOut && w.wpsCtx == ctx
  }

  const FRESH: Retry := Retry(2, 3, 2000, false)
  const WAITING: Retry := Retry(2, 3, 2000, true)
  const WPS_TIMER: Timeout := Timeout(2000, WpsScanTimer, NULL_CTX, NULL_CTX)
  const RETRY_TIMER: Timeout := Timeout(2000, ConnectRetry, SM_CTX, NULL_CTX)

  ghost function Deliver(w: World, m: Msg, e: Env): World
    requires Enabled(w, Arrive(m))
  {
    Dispatch(Next(w, Arrive(m)), e)
  }

  lemma {:induction false} ReturnToStation(w: World, e: Env)
    requires At(w, VifMonitor, ST_INIT, FRESH, [WPS_TIMER], false, true) && e.typeSetOk
    ensures At(Deliver(w, Plain(SwitchModeCmd, 1), e), VifSta, ST_IDLE, FRESH, [WPS_TIMER], false, true)
  {
    hide CountOf;
  }

  lemma {:induction false} StartWps(w: World, e: Env)
    requires At(w, VifSta, ST_IDLE, FRESH, [], false, false) && e.wpsScanned && e.startRet == 0
    ensures At(Deliver(w, WpsRequest(), e), VifSta, ST_WPS, FRESH, [], true, true)
    ensures Deliver(w, WpsRequest(), e).sm.wps.stage == WpsScan
  {
    hide CountOf;
  }

  lemma {:induction false} ArmWpsTimer(w: World, e: Env)
    requires At(w, VifSta, ST_WPS, FRESH, [], true, true) && w.sm.wps.stage == WpsScan
    ensures At(Deliver(w, ScanEnd(), e), VifSta, ST_WPS, FRESH, [WPS_TIMER], false, true)
  {
    hide CountOf;
  }

  lemma {:induction false} OnlyWpsTimer(h: Handler)
    requires h != WpsScanTimer
    ensures Without([WPS_TIMER], h, ALL_CTX, ALL_CTX) == [WPS_TIMER]
    ensures Insert([WPS_TIMER], RETRY_TIMER) == [WPS_TIMER, RETRY_TIMER]
    ensures CountOf([WPS_TIMER], h) == 0
  {
    assert [WPS_TIMER][1..] == [];
  }

  lemma {:induction false} AbandonWps(w: World, e: Env)
    requires At(w, VifSta, ST_WPS, FRESH, [WPS_TIMER], false, true) && e.typeSetOk
    ensures At(Deliver(w, Plain(SwitchModeCmd, 3), e), VifMonitor, ST_INIT, FRESH, [WPS_TIMER], false, true)
  {
    OnlyWpsTimer(DhcpPolling);
    OnlyWpsTimer(LinkPolling);
    OnlyWpsTimer(ConnectRetry);
    hide CountOf, Without;
  }

  lemma {:induction false} StartConnecting(w: World, e: Env)
    requires At(w, VifSta, ST_IDLE, FRESH, [WPS_TIMER], false, true) && e.scanOk
    ensures At(Deliver(w, Plain(ConnectCmd, 0), e), VifSta, ST_SCAN, FRESH, [WPS_TIMER], true, true)
  {
    OnlyWpsTimer(DhcpPolling);
    OnlyWpsTimer(LinkPolling);
    hide CountOf, Without;
  }

  lemma {:induction false} FindPeer(w: World, e: Env)
    requires At(w, VifSta, ST_SCAN, FRESH, [WPS_TIMER], true, true) && e.connectReason == 0
    ensures At(Deliver(w, ScanEnd(), e), VifSta, ST_CONNECT, FRESH, [WPS_TIMER], false, true)
  {
    hide CountOf;
  }

  lemma {:induction false} DelayScan(w: World, e: Env)
    requires w.timers == [WPS_TIMER] && w.sm.retry.delayed
    ensures var r := EnterScan(w, e);
            r == w.(sm := w.sm.(state := ST_SCAN), log := r.log)
  {
    OnlyWpsTimer(DhcpPolling);
    OnlyWpsTimer(LinkPolling);
    hide CountOf, Without;
  }

  lemma {:induction false} ArmRetry(w: World)
    requires w.timers == [WPS_TIMER] && w.now == 0 && w.sm.retry == WAITING
    ensures var r := RegisterRetry(w);
            r == w.(timers := [WPS_TIMER, RETRY_TIMER], log := r.log)
  {
    OnlyWpsTimer(ConnectRetry);
    hide CountOf, Without, Insert;
  }

  lemma {:induction false} FailToConnect(w: World, e: Env)
    requires At(w, VifSta, ST_CONNECT, FRESH, [WPS_TIMER], false, true)
    ensures At(Deliver(w, Plain(ConnectFail, 0), e), VifSta, ST_SCAN, WAITING, [WPS_TIMER, RETRY_TIMER], false, true)
  {
    hide EnterScan, RegisterRetry, CountOf;
    var m := Plain(ConnectFail, 0);
    var h := Emit(LoadMessage(TakeMessage(Next(w, Arrive(m))), m), Handled(ConnectFail, ST_CONNECT));
    var w1 := h.(lastReason := 0, sm := h.sm.(retry := WAITING));
    DelayScan(w1, e);
    ArmRetry(EnterScan(w1, e));
  }

  /** One more step of a disciplined run. */
  lemma {:induction false} Extend(ws: seq<World>, ss: seq<Step>, s: Step) returns (ws': seq<World>, ss': seq<Step>)
    requires DisciplinedRun(ws, ss) && Enabled(ws[|ss|], s) && Disciplined(ws[|ss|], s)
    ensures DisciplinedRun(ws', ss') && ws'[0] == ws[0] && ws'[|ss'|] == Next(ws[|ss|], s)
  {
    hide Next, Enabled, Disciplined, Start;
    ws', ss' := ws + [Next(ws[|ss|], s)], ss + [s];
  }

  /** A message arrives and is handled. */
  lemma {:induction false} ExtendDeliver(ws: seq<World>, ss: seq<Step>, m: Msg, e: Env)
      returns (ws': seq<World>, ss': seq<Step>)
    requires DisciplinedRun(ws, ss) && ws[|ss|].queue == [] && m.param !in ws[|ss|].mem.live && m.vif == 0
    requires if m.scanEnd then m.event == ScanDone && ws[|ss|].scanOut
             else m.event != ScanDone && m.event != ScanFail
    requires e.scanOk || e.wpsScanned ==> !ws[|ss|].scanOut
    ensures DisciplinedRun(ws', ss') && ws'[0] == ws[0] && ws'[|ss'|] == Deliver(ws[|ss|], m, e)
  {
    hide Dispatch, Start;
    var w := ws[|ss|];
    ws', ss' := Extend(ws, ss, Arrive(m));
    ws', ss' := Extend(ws', ss', Handle(e));
  }

  lemma {:induction false} ScanAstray(w: World, e: Env)
    requires At(w, VifSta, ST_SCAN, WAITING, [WPS_TIMER, RETRY_TIMER], false, true) && e.wpsScanned
    ensures FireHead(w.(now := 2000), e) == w.(now := 2000, timers := [RETRY_TIMER], scanOut := true)
  {
    assert AfterEq(2000, 2000);
    assert [WPS_TIMER, RETRY_TIMER][1..] == [RETRY_TIMER];
    hide CountOf;
  }

  lemma {:induction false} ConnectAstray(w: World, e: Env)
    requires w.vif == VifSta && w.sm.init && w.sm.state == ST_SCAN && w.sm.retry.delayed
    requires w.queue == [] && 0 !in w.mem.live && e.connectReason == 0
    ensures var r := Deliver(w, ScanEnd(), e);
            r.vif == VifSta && r.sm.state == ST_CONNECT && r.sm.retry.delayed
  {
    hide CountOf;
  }

  lemma {:induction false} StrayEnd(ws: seq<World>, ss: seq<Step>, e: Env, wps: Env)
      returns (ws': seq<World>, ss': seq<Step>)
    requires DisciplinedRun(ws, ss) && wps.wpsScanned && e.connectReason == 0 && !e.scanOk && !e.wpsScanned
    requires At(ws[|ss|], VifSta, ST_SCAN, WAITING, [WPS_TIMER, RETRY_TIMER], false, true)
    ensures DisciplinedRun(ws', ss') && ws'[0] == ws[0]
    ensures var r := ws'[|ss'|];
            r.vif == VifSta && r.sm.state == ST_CONNECT && r.sm.retry.delayed
  {
    hide Dispatch, Start, FireHead, CountOf;
    var w := ws[|ss|];
    ScanAstray(w, wps);
    ws', ss' := Extend(ws, ss, Tick(2000));
    ws', ss' := Extend(ws', ss', Fire(wps));
    ConnectAstray(ws'[|ss'|], e);
    ws', ss' := ExtendDeliver(ws', ss', ScanEnd(), e);
  }

  /** The one-scan discipline alone is not enough: this run keeps it and strands a delayed retry.
      A WPS session is abandoned for monitor mode, and its timer scans into the next attempt. */
  lemma {:induction false} StrandedRun(w: World, e: Env) returns (ws: seq<World>, ss: seq<Step>)
    requires Start(w) && w.vif == VifSta && w.now == 0
    requires e.typeSetOk && e.startRet == 0 && e.connectReason == 0 && !e.scanOk && !e.wpsScanned
    ensures DisciplinedRun(ws, ss) && ws[0] == w
    ensures var r := ws[|ss|];
            r.vif == VifSta && r.sm.state == ST_CONNECT && r.sm.retry.delayed
  {
    hide Dispatch, Next, Enabled, Disciplined, Start, CountOf;
    var scan, wps := e.(scanOk := true), e.(wpsScanned := true);
    ws, ss := StartRun(w, e);
    StartWps(ws[|ss|], wps);
    ws, ss := ExtendDeliver(ws, ss, WpsRequest(), wps);
    ArmWpsTimer(ws[|ss|], e);
    ws, ss := ExtendDeliver(ws, ss, ScanEnd(), e);
    AbandonWps(ws[|ss|], e);
    ws, ss := ExtendDeliver(ws, ss, Plain(SwitchModeCmd, 3), e);
    ReturnToStation(ws[|ss|], e);
    ws, ss := ExtendDeliver(ws, ss, Plain(SwitchModeCmd, 1), e);
    StartConnecting(ws[|ss|], scan);
    ws, ss := ExtendDeliver(ws, ss, Plain(ConnectCmd, 0), scan);
    FindPeer(ws[|ss|], e);
    ws, ss := ExtendDeliver(ws, ss, ScanEnd(), e);
    FailToConnect(ws[|ss|], e);
    ws, ss := ExtendDeliver(ws, ss, Plain(ConnectFail, 0), e);
    ws, ss := StrayEnd(ws, ss, e, wps);
  }

  lemma {:induction false} StartRun(w: World, e: Env) returns (ws: seq<World>, ss: seq<Step>)
    requires Start(w) && w.vif == VifSta && w.now == 0 && !e.scanOk && !e.wpsScanned
    ensures DisciplinedRun(ws, ss) && ws[0] == w
    ensures At(ws[|ss|], VifSta, ST_IDLE, FRESH, [], false, false)
  {
    hide CountOf;
    ws, ss := [w, Dispatch(w, e)], [Handle(e)];
  }
}
