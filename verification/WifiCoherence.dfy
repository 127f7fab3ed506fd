/** Timers, retry counters and the shared state word agree in every reachable world. */
module WifiCoherence {
  import opened EventLoop
  import opened WifiTypes
  import opened WifiSpec

  function Retries(w: World): nat { CountOf(w.timers, ConnectRetry) }
  function DhcpPolls(w: World): nat { CountOf(w.timers, DhcpPolling) }
  function LinkPolls(w: World): nat { CountOf(w.timers, LinkPolling) }

  /** The shared word is a state of the machine selected by the interface type. */
  predicate LegalWord(w: World) {
    match w.vif
    case VifSta => w.sm.state <= ST_CONNECTED
    case VifAp => w.sm.state <= ST_STARTED
    case VifMonitor => w.sm.state <= ST_STARTED
    case _ => w.sm.state == 0
  }

  predicate BudgetOk(sm: Sm) {
    && sm.retry.count < sm.retry.limit
    && ((sm.retry.limit == CONNECT_RETRY_LIMIT && sm.retry.interval == CONNECT_RETRY_INTERVAL)
        || (sm.retry.limit == ROAMING_RETRY_LIMIT && sm.retry.interval == ROAMING_RETRY_INTERVAL))
  }

  ghost predicate TimersOk(w: World) {
    && RetryCtx(w.timers)
    && Retries(w) <= 1
    && (Retries(w) == 1 ==>
          w.vif == VifSta && ST_SCAN <= w.sm.state <= ST_DHCP && w.sm.retry.count > 0)
    && DhcpPolls(w) <= 1
    && (DhcpPolls(w) == 1 ==> w.vif == VifSta && ST_DHCP <= w.sm.state <= ST_CONNECTED)
    && (LinkPolls(w) > 0 ==> w.vif == VifSta && w.sm.state == ST_CONNECTED)
  }

  ghost predicate Coherent(w: World) {
    && LegalWord(w)
    && TimersOk(w)
    && (w.vif == VifSta && ST_SCAN <= w.sm.state ==> BudgetOk(w.sm))
    && CounterOk(w.sm)
  }

  /** Either no budget was set since the record was cleared, or part of it is used. */
  predicate CounterOk(sm: Sm) {
    sm.retry.count < sm.retry.limit || sm.retry.count == sm.retry.limit == 0
  }

  /** What each entry needs from the world it starts in. */
  ghost predicate Quiet(w: World) {
    RetryCtx(w.timers) && w.vif == VifSta && CounterOk(w.sm)
  }

  lemma {:induction false} RetryRegistered(ts: seq<Timeout>)
    requires RetryCtx(ts)
    ensures Registered(ts, ConnectRetry, SM_CTX, NULL_CTX) <==> CountOf(ts, ConnectRetry) > 0
  {
    CountZero(ts, ConnectRetry);
  }

  lemma {:induction false} EnterIdleCoherent(w: World)
    requires Quiet(w)
    ensures Coherent(EnterIdle(w))
    ensures EnterIdle(w).vif == VifSta && EnterIdle(w).sm.state == ST_IDLE
    ensures Retries(EnterIdle(w)) == DhcpPolls(EnterIdle(w)) == LinkPolls(EnterIdle(w)) == 0
  {
    hide CountOf, Insert, Without;
  }

  lemma {:induction false} EnterScanCoherent(w: World, e: Env)
    requires Quiet(w) && BudgetOk(w.sm)
    requires Retries(w) <= 1 && (Retries(w) == 1 ==> w.sm.retry.count > 0)
    ensures Coherent(EnterScan(w, e))
    ensures EnterScan(w, e).vif == VifSta && EnterScan(w, e).sm == w.sm.(state := ST_SCAN)
    ensures Retries(EnterScan(w, e)) == Retries(w)
  {
    hide CountOf, Insert, Without;
  }

  lemma {:induction false} RegisterRetryCoherent(w: World)
    requires Coherent(w) && w.vif == VifSta && w.sm.state == ST_SCAN && w.sm.retry.count > 0
    ensures Coherent(RegisterRetry(w)) && Retries(RegisterRetry(w)) == 1
    ensures RegisterRetry(w).vif == VifSta && RegisterRetry(w).sm == w.sm
  {
    hide CountOf, Insert, Without;
    RetryRegistered(w.timers);
  }

  lemma {:induction false} GiveUpCoherent(w: World, reason: nat)
    requires Quiet(w)
    ensures Coherent(EnterIdle(PostConnDone(PreroamRollback(w), reason)))
  {
    hide CountOf, Insert, Without;
    EnterIdleCoherent(PostConnDone(PreroamRollback(w), reason));
  }

  lemma {:induction false} AttemptFailedCoherent(w: World, e: Env)
    requires Coherent(w) && w.vif == VifSta && ST_CONNECT <= w.sm.state <= ST_DHCP
    ensures Coherent(AttemptFailed(w, e))
  {
    hide CountOf, Insert, Without;
    var w1 := w.(lastReason := w.sm.msg.reason);
    if w1.sm.retry.count > 0 {
      var w2 := w1.(sm := w1.sm.(retry := w1.sm.retry.(delayed := true)));
      EnterScanCoherent(w2, e);
      RegisterRetryCoherent(EnterScan(w2, e));
    } else {
      GiveUpCoherent(w1, w1.sm.msg.reason);
    }
  }

  /** Nothing but heap, log, configuration and requests changes. */
  ghost predicate SameControl(w: World, r: World) {
    && r.vif == w.vif && r.timers == w.timers
    && r.sm.state == w.sm.state && r.sm.retry.count == w.sm.retry.count
    && r.sm.retry.limit == w.sm.retry.limit && r.sm.retry.interval == w.sm.retry.interval
  }

  lemma {:induction false} UserScanControl(w: World, e: Env)
    ensures SameControl(w, UserScan(w, e))
  {
    hide CountOf, Insert, Without;
  }

  lemma {:induction false} StepIdleCoherent(w: World, e: Env)
    requires Coherent(w) && w.vif == VifSta && w.sm.state == ST_IDLE
    ensures Coherent(StepIdle(w, e))
  {
    hide CountOf, Insert, Without;
    var ev := w.sm.msg.event;
    if ev == ScanCmd {
      UserScanControl(w, e);
    } else if ev == ConnectCmd {
      EnterScanCoherent(RetryParamSet(CopyCfg(w, e), false), e);
    } else if ev == AutoConnectCmd {
      if e.apLoaded {
        EnterScanCoherent(RetryParamSet(w.(cfg := w.cfg.(channel := e.apChannel)), true), e);
      } else {
        EnterIdleCoherent(w);
      }
    }
  }

  lemma {:induction false} WpsDisconnectCoherent(w: World, e: Env)
    requires Coherent(w) && w.vif == VifSta && w.sm.state == ST_WPS
    ensures Coherent(WpsDisconnect(w, e))
    ensures Coherent(WpsFailed(w))
  {
    hide CountOf, Insert, Without;
    EnterIdleCoherent(PostConnDone(WpsStop(w), CONN_WPS_FAIL));
    EnterScanCoherent(RetryParamSet(UseCredential(WpsStop(w)), false), e);
  }

  /** Events that can take the machine out of WPS. */
  predicate LeavesWps(ev: Event) {
    ev == DisconnectCmd || ev == Disconnect || ev == ScanFail || ev == ConnectFail || ev == WpsFail
  }

  /** What the steps that stay in WPS keep. */
  ghost predicate WpsKeeps(w: World, r: World) {
    && r.vif == w.vif && r.sm.state == w.sm.state && r.sm.retry == w.sm.retry
    && Retries(r) == Retries(w) && DhcpPolls(r) == DhcpPolls(w) && LinkPolls(r) == LinkPolls(w)
    && (RetryCtx(w.timers) ==> RetryCtx(r.timers))
  }

  lemma {:induction false} WpsScanResultKeeps(w: World, e: Env)
    ensures WpsKeeps(w, WpsScanResult(w, e))
  {
    hide CountOf, Insert, Without;
  }

  lemma {:induction false} WpsScanDoneKeeps(w: World, e: Env)
    ensures WpsKeeps(w, WpsScanDone(w, e))
  {
    hide CountOf, Insert, Without;
  }

  lemma {:induction false} WpsStays(w: World, e: Env)
    requires !LeavesWps(w.sm.msg.event)
    ensures WpsKeeps(w, StepWps(w, e))
  {
    hide CountOf, EnterIdle, WpsDisconnect, WpsFailed, WpsScanResult, WpsScanDone, WpsStop;
    if w.sm.msg.event == ScanResult {
      WpsScanResultKeeps(w, e);
    } else if w.sm.msg.event == ScanDone {
      WpsScanDoneKeeps(w, e);
    }
  }

  lemma {:induction false} WpsLeavesCoherent(w: World, e: Env)
    requires Coherent(w) && w.vif == VifSta && w.sm.state == ST_WPS && LeavesWps(w.sm.msg.event)
    ensures Coherent(StepWps(w, e))
  {
    hide CountOf, Insert, Without, EnterIdle, WpsDisconnect, WpsFailed, WpsScanResult, WpsScanDone;
    WpsDisconnectCoherent(w, e);
    EnterIdleCoherent(WpsStop(w));
  }

  lemma {:induction false} StepWpsCoherent(w: World, e: Env)
    requires Coherent(w) && w.vif == VifSta && w.sm.state == ST_WPS
    ensures Coherent(StepWps(w, e))
  {
    hide CountOf, StepWps;
    if LeavesWps(w.sm.msg.event) {
      WpsLeavesCoherent(w, e);
    } else {
      WpsStays(w, e);
    }
  }

  lemma {:induction false} StepScanCoherent(w: World, e: Env)
    requires Coherent(w) && w.vif == VifSta && w.sm.state == ST_SCAN
    ensures Coherent(StepScan(w, e))
  {
    hide CountOf, Insert, Without;
    var ev := w.sm.msg.event;
    if ev == DisconnectCmd || ev == ConnectFail {
      EnterIdleCoherent(w);
    } else if ev == ScanFail {
      if w.sm.retry.count > 0 {
        RegisterRetryCoherent(w);
      } else {
        GiveUpCoherent(w, w.sm.msg.reason);
      }
    }
  }

  lemma {:induction false} StepConnectCoherent(w: World, e: Env)
    requires Coherent(w) && w.vif == VifSta && w.sm.state == ST_CONNECT
    ensures Coherent(StepConnect(w, e))
  {
    hide CountOf, Insert, Without, EnterIdle, AttemptFailed;
    var ev := w.sm.msg.event;
    if ev == DisconnectCmd {
      EnterIdleCoherent(w);
    } else if ev == ConnectFail || ev == Disconnect {
      AttemptFailedCoherent(w, e);
    }
  }

  lemma {:induction false} StepHandshakeCoherent(w: World, e: Env)
    requires Coherent(w) && w.vif == VifSta && w.sm.state == ST_HANDSHAKE
    ensures Coherent(StepHandshake(w, e))
  {
    hide CountOf, Insert, Without, EnterIdle, AttemptFailed;
    var ev := w.sm.msg.event;
    if ev == DisconnectCmd {
      EnterIdleCoherent(w);
    } else if ev == ConnectFail || ev == Disconnect {
      AttemptFailedCoherent(w, e);
    }
  }

  lemma {:induction false} StepDhcpCoherent(w: World, e: Env)
    requires Coherent(w) && w.vif == VifSta && w.sm.state == ST_DHCP
    ensures Coherent(StepDhcp(w, e))
  {
    hide CountOf, Insert, Without;
    var ev := w.sm.msg.event;
    if ev == DisconnectCmd {
      EnterIdleCoherent(w);
    } else if ev == DhcpFail || ev == ConnectFail || ev == Disconnect {
      AttemptFailedCoherent(w, e);
    }
  }

  lemma {:induction false} CopyCfgControl(w: World, e: Env)
    ensures SameControl(w, CopyCfg(w, e)) && CopyCfg(w, e).sm == w.sm
  {
  }

  lemma {:induction false} ReconnectCoherent(w: World, e: Env)
    requires Coherent(w) && w.vif == VifSta
    ensures Coherent(Reconnect(w, e))
  {
    hide CountOf, Insert, Without, EnterIdle, EnterScan, CopyCfg;
    CopyCfgControl(w, e);
    EnterIdleCoherent(CopyCfg(w, e));
    EnterScanCoherent(RetryParamSet(EnterIdle(CopyCfg(w, e)), false), e);
  }

  lemma {:induction false} RestartWpsCoherent(w: World, e: Env)
    requires Coherent(w) && w.vif == VifSta
    ensures Coherent(EnterWps(RetryParamSet(EnterIdle(w), false), e))
  {
    hide CountOf, Insert, Without, EnterIdle;
    EnterIdleCoherent(w);
  }

  lemma {:induction false} ConnectedDisconnectCoherent(w: World, e: Env)
    requires Coherent(w) && w.vif == VifSta && w.sm.state == ST_CONNECTED
    ensures Coherent(ConnectedDisconnect(w, e))
  {
    hide CountOf, Insert, Without, EnterIdle, EnterScan;
    var w1 := w.(lastReason := w.sm.msg.reason);
    EnterIdleCoherent(w1);
    EnterScanCoherent(RetryParamSet(w1, true), e);
  }

  lemma {:induction false} ConnectedScanDoneControl(w: World, e: Env)
    ensures SameControl(w, ConnectedScanDone(w, e))
  {
  }

  lemma {:induction false} StartRoamingCoherent(w: World)
    requires Coherent(w) && w.vif == VifSta && w.sm.state == ST_CONNECTED
    ensures Coherent(StartRoaming(w))
  {
    hide CountOf, Insert, Without;
  }

  lemma {:induction false} PostScanDoneControl(w: World, result: nat)
    ensures SameControl(w, PostScanDone(w, result))
  {
  }

  lemma {:induction false} StepConnectedCoherent(w: World, e: Env)
    requires Coherent(w) && w.vif == VifSta && w.sm.state == ST_CONNECTED
    ensures Coherent(StepConnected(w, e))
  {
    hide CountOf, Insert, Without;
    hide EnterIdle, EnterScan, EnterWps, Reconnect, ConnectedDisconnect, UserScan, ConnectedScanDone,
         StartRoaming, PostScanDone;
    ConnectedScanDoneControl(w, e);
    StartRoamingCoherent(w);
    PostScanDoneControl(w, SCAN_FAILED);
    ReconnectCoherent(w, e);
    RestartWpsCoherent(w, e);
    ConnectedDisconnectCoherent(w, e);
    EnterIdleCoherent(w);
    UserScanControl(w, e);
  }

  lemma {:induction false} StaStepCoherent(w: World, e: Env)
    requires Coherent(w) && w.vif == VifSta
    ensures Coherent(StaStep(w, e))
  {
    hide CountOf, Insert, Without, StepIdle, StepWps, StepScan, StepConnect, StepHandshake, StepDhcp,
         StepConnected, EnterIdle;
    if !w.sm.init || w.sm.msg.event == Init {
      EnterIdleCoherent(RetryParamSet(ClearRecord(w, true), false));
    } else {
      var h := Emit(w, Handled(w.sm.msg.event, w.sm.state));
      if w.sm.state == ST_IDLE { StepIdleCoherent(h, e); }
      else if w.sm.state == ST_WPS { StepWpsCoherent(h, e); }
      else if w.sm.state == ST_SCAN { StepScanCoherent(h, e); }
      else if w.sm.state == ST_CONNECT { StepConnectCoherent(h, e); }
      else if w.sm.state == ST_HANDSHAKE { StepHandshakeCoherent(h, e); }
      else if w.sm.state == ST_DHCP { StepDhcpCoherent(h, e); }
      else { StepConnectedCoherent(h, e); }
    }
  }

  /** No machine is running: no timer of the station is pending and the state word is 0. */
  ghost predicate AtRest(w: World) {
    && RetryCtx(w.timers) && CounterOk(w.sm) && w.sm.state == 0
    && Retries(w) == DhcpPolls(w) == LinkPolls(w) == 0
  }

  lemma {:induction false} LeaveModeCoherent(w: World)
    requires Coherent(w)
    ensures AtRest(LeaveMode(w)) && LeaveMode(w).vif == w.vif
  {
    hide CountOf, EnterIdle;
    if w.vif == VifSta {
      EnterIdleCoherent(w);
    }
  }

  lemma {:induction false} EnterModeCoherent(w: World, target: VifType)
    requires AtRest(w) && w.vif == target
    ensures Coherent(EnterMode(w, target)) && EnterMode(w, target).vif == target && EnterMode(w, target).sm.state == 0
  {
    hide CountOf;
  }

  /** Even when changing the interface type fails half-way. */
  lemma {:induction false} SwitchModeCoherent(w: World, e: Env)
    requires Coherent(w)
    ensures Coherent(SwitchMode(w, e))
    ensures SwitchMode(w, e).vif == VifTypeOf(w.sm.msg.reason)
    ensures w.vif != VifTypeOf(w.sm.msg.reason) ==> SwitchMode(w, e).sm.state == 0
  {
    hide CountOf, LeaveMode, EnterMode;
    var target := VifTypeOf(w.sm.msg.reason);
    LeaveModeCoherent(w);
    EnterModeCoherent(LeaveMode(w).(vif := target), target);
  }

  lemma {:induction false} CounterKept(a: Sm, b: Sm)
    requires (b.retry.count == a.retry.count && b.retry.limit == a.retry.limit) || b.retry == ZERO_SM.retry
    ensures CounterOk(a) ==> CounterOk(b)
  {
  }

  lemma {:induction false} ApStepControl(w: World, e: Env)
    ensures ApStep(w, e).timers == w.timers && ApStep(w, e).vif == w.vif
    ensures CounterOk(w.sm) ==> CounterOk(ApStep(w, e).sm)
    ensures w.sm.state <= ST_STARTED ==> ApStep(w, e).sm.state <= ST_STARTED
  {
    hide UserScan, CounterOk, Read, PostScanDone;
    UserScanControl(w, e);
    CallerControl(w);
    CounterKept(w.sm, ApStep(w, e).sm);
  }

  lemma {:induction false} CallerControl(w: World)
    ensures var r := Read(w, w.sm.msg.param); r == w.(mem := r.mem)
    ensures forall reason ::
              var r := PostScanDone(w, reason);
              r == w.(sm := r.sm, log := r.log) && r.sm == w.sm.(scanBlocked := r.sm.scanBlocked)
  {
  }

  lemma {:induction false} MonitorStepControl(w: World, e: Env)
    ensures MonitorStep(w, e).timers == w.timers && MonitorStep(w, e).vif == w.vif
    ensures CounterOk(w.sm) ==> CounterOk(MonitorStep(w, e).sm)
    ensures w.sm.state <= ST_STARTED ==> MonitorStep(w, e).sm.state <= ST_STARTED
  {
    hide UserScan, CounterOk;
    UserScanControl(w, e);
    CounterKept(w.sm, MonitorStep(w, e).sm);
  }

  lemma {:induction false} MachineStepCoherent(w: World, e: Env)
    requires Coherent(w)
    ensures Coherent(MachineStep(w, e))
  {
    hide CountOf, Insert, Without, StaStep, ApStep, MonitorStep, SwitchMode;
    if w.sm.msg.event == SwitchModeCmd {
      SwitchModeCoherent(w, e);
    } else if w.vif == VifSta {
      StaStepCoherent(w, e);
    } else {
      ApStepControl(w, e);
      MonitorStepControl(w, e);
    }
  }

  lemma {:induction false} FireRetryCoherent(w: World, e: Env)
    requires Coherent(w) && w.timers != [] && w.timers[0].handler == ConnectRetry
    ensures Coherent(FireRetry(TakeTimer(w), e))
  {
    hide CountOf, Insert, Without, EnterScan;
    var w1 := TakeTimer(w);
    EnterScanCoherent(w1.(sm := w1.sm.(retry := w1.sm.retry.(count := (w1.sm.retry.count - 1) % WORD32,
                                                             delayed := false))), e);
  }

  lemma {:induction false} FireDhcpCoherent(w: World, e: Env)
    requires Coherent(w) && w.timers != [] && w.timers[0].handler == DhcpPolling
    ensures Coherent(FireDhcp(TakeTimer(w), e))
  {
    hide CountOf, Insert, Without;
  }

  lemma {:induction false} FireLinkCoherent(w: World, e: Env)
    requires Coherent(w) && w.timers != [] && w.timers[0].handler == LinkPolling
    ensures Coherent(FireLink(TakeTimer(w), e))
  {
    hide CountOf, Insert, Without;
  }

  lemma {:induction false} TakeTimerCoherent(w: World)
    requires Coherent(w) && w.timers != []
    ensures Coherent(TakeTimer(w))
  {
    hide CountOf;
  }

  lemma {:induction false} FireWpsControl(w: World, e: Env)
    ensures SameControl(w, FireWps(w, e))
  {
  }

  lemma {:induction false} CallbackCoherent(w: World, e: Env)
    requires Coherent(w) && w.timers != []
    ensures Coherent(Callback(TakeTimer(w), w.timers[0].handler, e))
  {
    hide CountOf, Insert, Without, FireRetry, FireDhcp, FireLink, FireWps, TakeTimer;
    TakeTimerCoherent(w);
    FireWpsControl(TakeTimer(w), e);
    if w.timers[0].handler == ConnectRetry {
      FireRetryCoherent(w, e);
    } else if w.timers[0].handler == DhcpPolling {
      FireDhcpCoherent(w, e);
    } else if w.timers[0].handler == LinkPolling {
      FireLinkCoherent(w, e);
    }
  }

  /** Every step keeps the world coherent. */
  lemma {:induction false} NextCoherent(w: World, s: Step)
    requires Coherent(w) && Enabled(w, s)
    ensures Coherent(Next(w, s))
  {
    hide CountOf, Insert, Without, MachineStep, Callback;
    match s
    case Handle(e) =>
      var m, w1 := w.queue[0], TakeMessage(w);
      if !(m.vif != 0 || m.event == Foreign) {
        MachineStepCoherent(LoadMessage(w1, m), e);
      }
    case Fire(e) =>
      if HeadDue(w) {
        CallbackCoherent(w, e);
      }
    case _ =>
  }

  /** Main result: coherence in every world of every run. */
  lemma {:induction false} RunCoherent(ws: seq<World>, ss: seq<Step>, i: nat)
    requires Run(ws, ss) && i < |ws|
    ensures Coherent(ws[i])
  {
    if i > 0 {
      RunCoherent(ws, ss, i - 1);
      NextCoherent(ws[i - 1], ss[i - 1]);
    }
  }
}
