/** Safety over whole runs, read off the trail of effects: phase order, one
    completion per blocked caller, and termination of DHCP polling. */
module WifiTrail {
  import opened EventLoop
  import opened WifiTypes
  import opened WifiSpec
  import opened WifiCoherence
  import opened WifiEntries

  ghost predicate PhaseOk(w: World) {
    var p := Seen(w).phase;
    && p.ordered
    && (w.vif == VifSta && ST_SCAN <= w.sm.state <= ST_DHCP ==> p.done == w.sm.state - ST_SCAN)
  }

  /** Posts never exceed armings; an armed flag is one arming not yet answered. */
  ghost predicate BlockOk(w: World) {
    var b := Seen(w).block;
    && b.connPosts + (if w.cfg.connBlocked then 1 else 0) <= b.connArms
    && b.scanPosts + (if w.sm.scanBlocked then 1 else 0) <= b.scanArms
  }

  /** A pending poll belongs to a session that has not reported or been cut. */
  ghost predicate DhcpOpen(w: World) {
    var d := Seen(w).dhcp;
    && d.orderly && (DhcpPolls(w) > 0 ==> Open(d))
    && (DhcpPolls(w) == 0 && d.begun ==> d.reports == (if d.cancelled then 0 else 1))
    && (!d.begun ==> d.reports == 0 && !d.cancelled)
    && (d.dynamic ==> d.polls <= DHCP_POLLING_LIMIT)
  }

  ghost predicate DhcpOk(w: World) {
    var d := Seen(w).dhcp;
    && DhcpOpen(w)
    && (DhcpPolls(w) > 0 && d.dynamic ==>
          1 <= w.sm.dhcpCount && d.polls + w.sm.dhcpCount == DHCP_POLLING_LIMIT)
  }

  /** The limit is set exactly when a budget was set since the record was last cleared. */
  ghost predicate BudgetSeen(w: World) {
    Seen(w).retry.budgeted <==> w.sm.retry.limit != 0
  }

  ghost predicate TrailOk(w: World) {
    PhaseOk(w) && BlockOk(w) && DhcpOk(w) && BudgetSeen(w)
  }

  /** What holds at every state entry. */
  ghost predicate Steady(w: World) {
    BlockOk(w) && DhcpOpen(w) && Seen(w).phase.ordered && BudgetSeen(w)
  }

  /** The event that ends the phase belonging to a state. */
  function Ends(state: nat, ev: Event): nat {
    if (state == ST_SCAN && ev == ScanDone) || (state == ST_CONNECT && ev == AssocSuccess)
       || (state == ST_HANDSHAKE && ev == DhcpStart) || (state == ST_DHCP && ev == DhcpSuccess)
    then 1 else 0
  }

  /** While a station event is being handled, its phase already counts as done. */
  ghost predicate Handling(w: World) {
    && Coherent(w) && w.vif == VifSta
    && BlockOk(w) && DhcpOk(w) && BudgetSeen(w)
    && Seen(w).phase.ordered
    && (ST_SCAN <= w.sm.state <= ST_DHCP ==>
          Seen(w).phase.done == w.sm.state - ST_SCAN + Ends(w.sm.state, w.sm.msg.event))
  }

  // ---------------------------------------------------------------- composite entries

  lemma {:induction false} EnterIdleTrail(w: World)
    requires Steady(w)
    ensures TrailOk(EnterIdle(w))
    ensures EnterIdle(w).vif == w.vif && EnterIdle(w).cfg == w.cfg && DhcpPolls(EnterIdle(w)) == 0
  {
    hide EnterIdle, Observe, CountOf;
    EnterIdleFacts(w);
  }

  lemma {:induction false} EnterScanTrail(w: World, e: Env)
    requires Steady(w)
    ensures TrailOk(EnterScan(w, e))
  {
    hide EnterScan, Observe, CountOf;
    EnterScanFacts(w, e);
  }

  lemma {:induction false} FreshScanTrail(w: World, roaming: bool, e: Env)
    requires Steady(w)
    ensures TrailOk(EnterScan(RetryParamSet(w, roaming), e))
  {
    hide EnterScan, RetryParamSet, Observe, CountOf;
    RetryParamSetFacts(w, roaming);
    EnterScanTrail(RetryParamSet(w, roaming), e);
  }

  lemma {:induction false} GiveUpTrail(w: World, reason: nat)
    requires Steady(w)
    ensures TrailOk(EnterIdle(PostConnDone(PreroamRollback(w), reason)))
  {
    hide EnterIdle, PostConnDone, PreroamRollback, Observe, CountOf;
    PreroamRollbackFacts(w);
    PostConnDoneFacts(PreroamRollback(w), reason);
    EnterIdleTrail(PostConnDone(PreroamRollback(w), reason));
  }

  lemma {:induction false} AttemptFailedTrail(w: World, e: Env)
    requires Handling(w)
    ensures TrailOk(AttemptFailed(w, e))
  {
    hide EnterIdle, PostConnDone, PreroamRollback, EnterScan, RegisterRetry, Observe, CountOf, RetryDelay;
    var w1 := w.(lastReason := w.sm.msg.reason);
    if w1.sm.retry.count > 0 {
      var w2 := w1.(sm := w1.sm.(retry := w1.sm.retry.(delayed := true)));
      EnterScanTrail(w2, e);
      EnterScanFacts(w2, e);
      RegisterRetryFacts(EnterScan(w2, e));
    } else {
      GiveUpTrail(w1, w1.sm.msg.reason);
    }
  }

  // ---------------------------------------------------------------- one lemma per state

  lemma {:induction false} StepIdleTrail(w: World, e: Env)
    requires Handling(w) && w.sm.state == ST_IDLE
    ensures TrailOk(StepIdle(w, e))
  {
    hide EnterIdle, EnterScan, EnterWps, UserScan, CopyCfg, RetryParamSet, PostScanDone, Observe, CountOf;
    var ev := w.sm.msg.event;
    if ev == ScanCmd {
      UserScanFacts(w, e);
    } else if ev == ConnectCmd {
      CopyCfgFacts(w, e);
      FreshScanTrail(CopyCfg(w, e), false, e);
    } else if ev == AutoConnectCmd {
      FreshScanTrail(w.(cfg := w.cfg.(channel := e.apChannel)), true, e);
      EnterIdleTrail(w);
    } else if ev == ScanDone {
      PostScanDoneFacts(w, SCAN_SUCCESS);
    } else if ev == WpsCmd {
      EnterWpsFacts(w, e);
    }
  }

  lemma {:induction false} WpsFailedTrail(w: World)
    requires Handling(w) && w.sm.state == ST_WPS
    ensures TrailOk(WpsFailed(w))
  {
    hide EnterIdle, PostConnDone, Observe, CountOf;
    PostConnDoneFacts(WpsStop(w), CONN_WPS_FAIL);
    EnterIdleTrail(PostConnDone(WpsStop(w), CONN_WPS_FAIL));
  }

  lemma {:induction false} WpsDisconnectTrail(w: World, e: Env)
    requires Handling(w) && w.sm.state == ST_WPS
    ensures TrailOk(WpsDisconnect(w, e))
  {
    hide EnterScan, RetryParamSet, WpsFailed, Observe, CountOf;
    WpsFailedTrail(w);
    FreshScanTrail(UseCredential(WpsStop(w)), false, e);
  }

  /** Nothing the observers look at changes. */
  ghost predicate SameTrail(w: World, r: World) {
    && r.vif == w.vif && r.cfg.connBlocked == w.cfg.connBlocked && r.log == w.log
    && r.sm.state == w.sm.state && r.sm.dhcpCount == w.sm.dhcpCount && r.sm.scanBlocked == w.sm.scanBlocked
    && DhcpPolls(r) == DhcpPolls(w) && r.sm.retry.limit == w.sm.retry.limit
  }

  lemma {:induction false} WpsStaysTrail(w: World, e: Env)
    requires !LeavesWps(w.sm.msg.event)
    ensures SameTrail(w, StepWps(w, e))
  {
    hide CountOf, StepWps, Observe;
    WpsStays(w, e);
    WpsStaysRest(w, e);
  }

  lemma {:induction false} WpsLeavesTrail(w: World, e: Env)
    requires Handling(w) && w.sm.state == ST_WPS && LeavesWps(w.sm.msg.event)
    ensures TrailOk(StepWps(w, e))
  {
    hide EnterIdle, WpsDisconnect, WpsFailed, WpsScanResult, WpsScanDone, Observe, CountOf, Without;
    WpsFailedTrail(w);
    WpsDisconnectTrail(w, e);
    EnterIdleTrail(WpsStop(w));
  }

  lemma {:induction false} StepWpsTrail(w: World, e: Env)
    requires Handling(w) && w.sm.state == ST_WPS
    ensures TrailOk(StepWps(w, e))
  {
    hide CountOf, StepWps, Observe;
    if LeavesWps(w.sm.msg.event) {
      WpsLeavesTrail(w, e);
    } else {
      WpsStaysTrail(w, e);
    }
  }

  lemma {:induction false} StepScanTrail(w: World, e: Env)
    requires Handling(w) && w.sm.state == ST_SCAN
    ensures TrailOk(StepScan(w, e))
  {
    hide EnterIdle, EnterConnect, RegisterRetry, LinkIsOngoing, PostConnDone, PreroamRollback, Observe, CountOf,
         RetryDelay;
    LinkIsOngoingFacts(w);
    EnterIdleTrail(w);
    EnterConnectFacts(w, e);
    RegisterRetryFacts(w);
    GiveUpTrail(w, w.sm.msg.reason);
  }

  lemma {:induction false} StepConnectTrail(w: World, e: Env)
    requires Handling(w) && w.sm.state == ST_CONNECT
    ensures TrailOk(StepConnect(w, e))
  {
    hide EnterIdle, EnterHandshake, LinkIsOngoing, AttemptFailed, Observe, CountOf;
    var ev := w.sm.msg.event;
    if ev == ScanCmd || ev == ConnectCmd {
      LinkIsOngoingFacts(w);
    } else if ev == DisconnectCmd {
      EnterIdleTrail(w);
    } else if ev == AssocSuccess {
      EnterHandshakeFacts(w);
    } else if ev == ConnectFail || ev == Disconnect {
      AttemptFailedTrail(w, e);
    }
  }

  lemma {:induction false} StepHandshakeTrail(w: World, e: Env)
    requires Handling(w) && w.sm.state == ST_HANDSHAKE
    ensures TrailOk(StepHandshake(w, e))
  {
    hide EnterIdle, EnterDhcp, LinkIsOngoing, AttemptFailed, Observe, CountOf;
    var ev := w.sm.msg.event;
    if ev == ScanCmd || ev == ConnectCmd {
      LinkIsOngoingFacts(w);
    } else if ev == DisconnectCmd {
      EnterIdleTrail(w);
    } else if ev == DhcpStart {
      EnterDhcpFacts(w, e);
    } else if ev == ConnectFail || ev == Disconnect {
      AttemptFailedTrail(w, e);
    }
  }

  lemma {:induction false} StepDhcpTrail(w: World, e: Env)
    requires Handling(w) && w.sm.state == ST_DHCP
    ensures TrailOk(StepDhcp(w, e))
  {
    hide EnterIdle, EnterConnected, LinkIsOngoing, AttemptFailed, Observe, CountOf, Without;
    var ev := w.sm.msg.event;
    if ev == ScanCmd || ev == ConnectCmd {
      LinkIsOngoingFacts(w);
    } else if ev == DisconnectCmd {
      EnterIdleTrail(w);
    } else if ev == DhcpSuccess {
      EnterConnectedFacts(w);
    } else if ev == DhcpFail || ev == ConnectFail || ev == Disconnect {
      AttemptFailedTrail(w, e);
    }
  }

  /** A blocked scan that finishes in CONNECTED is answered once, with SUCCESS:
      the fall-through into SCAN_FAIL finds the flag already clear. */
  lemma {:induction false} ConnectedScanAnsweredOnce(w: World, e: Env)
    ensures var r := ConnectedScanDone(w, e);
            && r.log == w.log + (if w.sm.scanBlocked then [ScanDonePost(SCAN_SUCCESS)] else [])
            && !r.sm.scanBlocked
  {
    assert w.log + [] == w.log;
  }

  lemma {:induction false} ConnectedScanDoneFacts(w: World, e: Env)
    ensures var r := ConnectedScanDone(w, e);
            && r.vif == w.vif && r.timers == w.timers && r.sm.state == w.sm.state
            && r.sm.dhcpCount == w.sm.dhcpCount && r.sm.retry == w.sm.retry
            && r.cfg.connBlocked == w.cfg.connBlocked && !r.sm.scanBlocked
            && Seen(r) == Seen(w).(block := Seen(w).block.(scanPosts :=
                 Seen(w).block.scanPosts + (if w.sm.scanBlocked then 1 else 0)))
  {
    hide Observe;
    ConnectedScanAnsweredOnce(w, e);
    Observed(w.log, ScanDonePost(SCAN_SUCCESS));
    assert w.log + [] == w.log;
  }

  lemma {:induction false} ReconnectTrail(w: World, e: Env)
    requires Handling(w)
    ensures TrailOk(Reconnect(w, e))
    ensures TrailOk(EnterWps(RetryParamSet(EnterIdle(w), false), e))
  {
    hide EnterIdle, EnterScan, RetryParamSet, EnterWps, CopyCfg, Observe, CountOf;
    CopyCfgFacts(w, e);
    EnterIdleTrail(CopyCfg(w, e));
    FreshScanTrail(EnterIdle(CopyCfg(w, e)), false, e);
    EnterIdleTrail(w);
    RetryParamSetFacts(EnterIdle(w), false);
    EnterWpsFacts(RetryParamSet(EnterIdle(w), false), e);
  }

  lemma {:induction false} StepConnectedTrail(w: World, e: Env)
    requires Handling(w) && w.sm.state == ST_CONNECTED
    ensures TrailOk(StepConnected(w, e))
  {
    hide EnterIdle, EnterScan, UserScan, RetryParamSet, PostScanDone, Reconnect, EnterWps, ConnectedScanDone,
         Observe, CountOf, Insert;
    var ev := w.sm.msg.event;
    if ev == ScanCmd {
      UserScanFacts(w, e);
    } else if ev == ConnectCmd || ev == WpsCmd {
      ReconnectTrail(w, e);
    } else if ev == DisconnectCmd {
      EnterIdleTrail(w);
    } else if ev == ScanDone {
      ConnectedScanDoneFacts(w, e);
    } else if ev == ScanFail {
      PostScanDoneFacts(w, SCAN_FAILED);
    } else if ev == Disconnect {
      FreshScanTrail(w.(lastReason := w.sm.msg.reason), true, e);
      EnterIdleTrail(w.(lastReason := w.sm.msg.reason));
    }
  }

  lemma {:induction false} StaResetTrail(w: World)
    requires Steady(w)
    ensures TrailOk(StaReset(w))
  {
    hide EnterIdle, RetryParamSet, ClearRecord, Observe, CountOf;
    var w1 := ClearRecord(w, true);
    ClearRecordFacts(w, true);
    RetryParamSetFacts(w1, false);
    EnterIdleTrail(RetryParamSet(w1, false));
  }

  lemma {:induction false} StaStepTrail(w: World, e: Env)
    requires Coherent(w) && TrailOk(w) && w.vif == VifSta
    ensures TrailOk(StaStep(w, e))
  {
    hide StaReset, StepIdle, StepWps, StepScan, StepConnect, StepHandshake, StepDhcp, StepConnected, Observe,
         CountOf;
    StaResetTrail(w);
    var h := Emit(w, Handled(w.sm.msg.event, w.sm.state));
    Observed(w.log, Handled(w.sm.msg.event, w.sm.state));
    assert Handling(h);
    if w.sm.state == ST_IDLE { StepIdleTrail(h, e); }
    else if w.sm.state == ST_WPS { StepWpsTrail(h, e); }
    else if w.sm.state == ST_SCAN { StepScanTrail(h, e); }
    else if w.sm.state == ST_CONNECT { StepConnectTrail(h, e); }
    else if w.sm.state == ST_HANDSHAKE { StepHandshakeTrail(h, e); }
    else if w.sm.state == ST_DHCP { StepDhcpTrail(h, e); }
    else { StepConnectedTrail(h, e); }
  }

  lemma {:induction false} OtherModeTrail(w: World, r: World)
    requires TrailOk(w) && r.vif == w.vif && w.vif != VifSta && r.log == w.log && r.timers == w.timers
    requires r.cfg == w.cfg && r.sm.dhcpCount == w.sm.dhcpCount && r.sm.scanBlocked == w.sm.scanBlocked
    requires r.sm.retry == w.sm.retry
    ensures TrailOk(r)
  {
    hide Observe, CountOf;
  }

  lemma {:induction false} ClearRecordTrail(w: World)
    requires Coherent(w) && TrailOk(w) && w.vif != VifSta
    ensures TrailOk(ClearRecord(w, false))
  {
    hide ClearRecord, Observe, CountOf;
    ClearRecordFacts(w, false);
  }

  lemma {:induction false} UserScanTrail(w: World, e: Env)
    requires TrailOk(w) && w.vif != VifSta
    ensures TrailOk(UserScan(w, e))
  {
    hide UserScan, Observe, CountOf;
    UserScanFacts(w, e);
  }

  lemma {:induction false} PostScanDoneTrail(w: World, reason: nat)
    requires TrailOk(w) && w.vif != VifSta
    ensures TrailOk(PostScanDone(w, reason))
  {
    hide PostScanDone, Observe, CountOf;
    PostScanDoneFacts(w, reason);
  }

  lemma {:induction false} ApStepTrail(w: World, e: Env)
    requires Coherent(w) && TrailOk(w) && w.vif == VifAp
    ensures TrailOk(ApStep(w, e))
  {
    hide UserScan, PostScanDone, ClearRecord, Coherent, TrailOk;
    var ev := w.sm.msg.event;
    if !w.sm.init || ev == Init {
      ClearRecordTrail(w);
    } else if w.sm.state == ST_STARTED && ev == ScanCmd {
      UserScanTrail(w, e);
    } else if w.sm.state == ST_STARTED && (ev == ScanDone || ev == ScanFail) {
      PostScanDoneTrail(w, SCAN_SUCCESS);
      PostScanDoneTrail(w, SCAN_FAILED);
    } else {
      OtherModeTrail(w, ApStep(w, e));
    }
  }

  lemma {:induction false} MonitorStepTrail(w: World, e: Env)
    requires Coherent(w) && TrailOk(w) && w.vif == VifMonitor
    ensures TrailOk(MonitorStep(w, e))
  {
    hide UserScan, PostScanDone, ClearRecord, Coherent, TrailOk;
    var ev := w.sm.msg.event;
    if !w.sm.init || ev == Init {
      ClearRecordTrail(w);
    } else if w.sm.state == ST_STARTED && ev == ScanCmd {
      UserScanTrail(w, e);
    } else if w.sm.state == ST_STARTED && (ev == ScanDone || ev == ScanFail) {
      PostScanDoneTrail(w, SCAN_SUCCESS);
      PostScanDoneTrail(w, SCAN_FAILED);
    } else {
      OtherModeTrail(w, MonitorStep(w, e));
    }
  }

  lemma {:induction false} LeaveModeTrail(w: World)
    requires Coherent(w) && TrailOk(w)
    ensures var r := LeaveMode(w);
            && Steady(r) && DhcpPolls(r) == 0 && DhcpOk(r)
            && r.vif == w.vif && r.sm.state == 0
  {
    hide EnterIdle, Observe, CountOf;
    if w.vif == VifSta {
      EnterIdleFacts(w);
      EnterIdleTrail(w);
    }
  }

  lemma {:induction false} EnterModeTrail(w: World, target: VifType)
    requires Steady(w) && DhcpPolls(w) == 0 && DhcpOk(w) && w.vif == target
    ensures TrailOk(EnterMode(w, target))
  {
    hide RetryParamSet, Observe, CountOf;
    var w1 := StartMode(w);
    RetryParamSetFacts(w1.(sm := w1.sm.(roam := w1.sm.roam.(polling := false))), false);
  }

  lemma {:induction false} SwitchModeTrail(w: World, e: Env)
    requires Coherent(w) && TrailOk(w)
    ensures TrailOk(SwitchMode(w, e))
  {
    hide LeaveMode, EnterMode, Observe, CountOf;
    LeaveModeTrail(w);
    var target := VifTypeOf(w.sm.msg.reason);
    EnterModeTrail(LeaveMode(w).(vif := target), target);
  }

  lemma {:induction false} MachineStepTrail(w: World, e: Env)
    requires Coherent(w) && TrailOk(w)
    ensures TrailOk(MachineStep(w, e))
  {
    hide SwitchMode, StaStep, ApStep, MonitorStep, Coherent, TrailOk;
    if w.sm.msg.event == SwitchModeCmd { SwitchModeTrail(w, e); }
    else if w.vif == VifSta { StaStepTrail(w, e); }
    else if w.vif == VifAp { ApStepTrail(w, e); }
    else if w.vif == VifMonitor { MonitorStepTrail(w, e); }
  }

  lemma {:induction false} FireRetryTrail(w: World, e: Env)
    requires Coherent(w) && TrailOk(w) && w.timers != [] && w.timers[0].handler == ConnectRetry
    ensures TrailOk(FireRetry(TakeTimer(w), e))
  {
    hide EnterScan, Observe, CountOf;
    var w1 := TakeTimer(w);
    EnterScanTrail(w1.(sm := w1.sm.(retry := w1.sm.retry.(count := (w1.sm.retry.count - 1) % WORD32,
                                                          delayed := false))), e);
  }

  /** One poll either reports, or leaves one poll less to go. */
  lemma {:induction false} FireDhcpTrail(w: World, e: Env)
    requires Coherent(w) && TrailOk(w) && w.timers != [] && w.timers[0].handler == DhcpPolling
    ensures TrailOk(FireDhcp(TakeTimer(w), e))
  {
    hide Observe, CountOf, FireDhcp;
    FireDhcpFacts(TakeTimer(w), e);
    FireDhcpSeen(TakeTimer(w), e);
  }

  lemma {:induction false} FireLinkTrail(w: World, e: Env)
    requires TrailOk(w)
    ensures TrailOk(FireLink(w, e))
  {
    hide Observe, CountOf, FireLink;
    FireLinkFacts(w, e);
  }

  lemma {:induction false} FireHeadTrail(w: World, e: Env)
    requires Coherent(w) && TrailOk(w) && w.timers != []
    ensures TrailOk(Callback(TakeTimer(w), w.timers[0].handler, e))
  {
    hide FireRetry, FireDhcp, FireLink, Observe, CountOf;
    if w.timers[0].handler == ConnectRetry {
      FireRetryTrail(w, e);
    } else if w.timers[0].handler == DhcpPolling {
      FireDhcpTrail(w, e);
    } else if w.timers[0].handler == LinkPolling {
      FireLinkTrail(TakeTimer(w), e);
    }
  }

  lemma {:induction false} NextTrail(w: World, s: Step)
    requires Coherent(w) && TrailOk(w) && Enabled(w, s)
    ensures TrailOk(Next(w, s))
  {
    hide MachineStep, Callback, Observe, CountOf;
    match s
    case Handle(e) =>
      var m, w1 := w.queue[0], TakeMessage(w);
      if !(m.vif != 0 || m.event == Foreign) {
        MachineStepTrail(LoadMessage(w1, m), e);
      }
    case Fire(e) =>
      if HeadDue(w) {
        FireHeadTrail(w, e);
      }
    case ArmScan(_) => Observed(w.log, ScanArmed);
    case _ =>
  }

  lemma {:induction false} RunTrail(ws: seq<World>, ss: seq<Step>, i: nat)
    requires Run(ws, ss) && i < |ws|
    ensures Coherent(ws[i]) && TrailOk(ws[i])
  {
    RunCoherent(ws, ss, i);
    if i > 0 {
      RunTrail(ws, ss, i - 1);
      NextTrail(ws[i - 1], ss[i - 1]);
    }
  }
}
