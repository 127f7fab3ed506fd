/** No stranding and the retry budget, for runs in which the radio accepts a scan
    only while none is outstanding and answers each accepted scan once. */
module WifiScan {
  import opened EventLoop
  import opened WifiTypes
  import opened WifiSpec
  import opened WifiCoherence
  import opened WifiEntries

  // ---------------------------------------------------------------- the radio's discipline

  predicate ScanEndQueued(q: seq<Msg>) {
    exists i :: 0 <= i < |q| && q[i].scanEnd
  }

  /** A scan request succeeds only when no earlier scan is outstanding, and scan completions come
      from the radio, one per accepted scan. */
  predicate Disciplined(w: World, s: Step) {
    match s
    case Handle(e) =>
      w.queue != [] ==> (e.scanOk || e.wpsScanned ==> !TakeMessage(w).scanOut)
    case Fire(e) => e.scanOk || e.wpsScanned ==> !w.scanOut
    case Arrive(m) =>
      && (m.event == ScanDone || m.event == ScanFail ==> m.scanEnd)
      && (m.scanEnd ==> m.vif == 0 && w.scanOut && !ScanEndQueued(w.queue))
    case _ => true
  }

  ghost predicate DisciplinedRun(ws: seq<World>, ss: seq<Step>) {
    Run(ws, ss) && forall i :: 0 <= i < |ss| ==> Disciplined(ws[i], ss[i])
  }

  // ---------------------------------------------------------------- stray WPS scans

  function WpsTimers(w: World): nat { CountOf(w.timers, WpsScanTimer) }

  predicate InWps(w: World) { w.vif == VifSta && w.sm.state == ST_WPS }

  /** States in which the completion of somebody else's scan would be taken for the station's own. */
  predicate Vulnerable(w: World) {
    w.vif == VifSta && (w.sm.retry.delayed || ST_CONNECT <= w.sm.state <= ST_DHCP)
  }

  /** The WPS timer starts a scan in such a state. */
  predicate StrayScan(w: World, s: Step) {
    && s.Fire? && HeadDue(w) && w.timers[0].handler == WpsScanTimer
    && w.wpsCtx && s.env.wpsScanned && Vulnerable(w)
  }

  /** A WPS timer that can still scan belongs to a WPS session in progress. */
  predicate NoStray(w: World) { w.wpsCtx && WpsTimers(w) > 0 ==> InWps(w) }

  /** A message takes the machine out of WPS, with its scan timer pending, by another way than the
      WPS handlers: a switch to another mode, or the (re)initialisation of the record. */
  predicate Abandons(w: World, s: Step) {
    && s.Handle? && w.queue != [] && InWps(w) && w.wpsCtx && WpsTimers(w) > 0
    && w.queue[0].vif == 0 && w.queue[0].event != Foreign
    && if w.queue[0].event == SwitchModeCmd then VifTypeOf(w.queue[0].reason) != VifSta
       else w.queue[0].event == Init || !w.sm.init
  }

  ghost predicate NoneAbandoned(ws: seq<World>, ss: seq<Step>)
    requires |ws| == |ss| + 1
  {
    forall i :: 0 <= i < |ss| ==> !Abandons(ws[i], ss[i])
  }

  // ---------------------------------------------------------------- invariants

  /** Queued completions are unique and belong to the outstanding scan. */
  ghost predicate QueueOk(q: seq<Msg>, scanOut: bool) {
    && (forall i :: 0 <= i < |q| && q[i].event == ScanDone ==> q[i].scanEnd)
    && (forall i :: 0 <= i < |q| && q[i].scanEnd ==>
          scanOut && q[i].vif == 0 && (q[i].event == ScanDone || q[i].event == ScanFail))
    && (forall i, j :: 0 <= i < j < |q| && q[i].scanEnd ==> !q[j].scanEnd)
  }

  predicate FailQueued(q: seq<Msg>) {
    exists i :: 0 <= i < |q| && q[i].event == ScanFail && q[i].vif == 0
  }

  /** Something will move the machine out of SCAN. */
  ghost predicate WillLeaveScan(w: World) {
    w.scanOut || FailQueued(w.queue) || Retries(w) == 1
  }

  ghost predicate ScanOk(w: World) {
    && QueueOk(w.queue, w.scanOut)
    && (w.sm.retry.delayed ==> w.vif == VifSta && w.sm.state == ST_SCAN && Retries(w) == 1 && !w.scanOut)
    && (w.vif == VifSta && ST_CONNECT <= w.sm.state <= ST_DHCP ==> !w.scanOut)
    && (w.vif == VifSta && w.sm.state == ST_SCAN ==> WillLeaveScan(w))
  }

  /** Connect requests so far, plus those still allowed, stay within the limit. */
  ghost predicate AttemptsOk(w: World) {
    var v := Seen(w).retry;
    && v.ordered && v.bounded && v.attempts <= v.limit
    && (w.vif == VifSta && ST_SCAN <= w.sm.state ==>
          v.limit == w.sm.retry.limit && v.interval == w.sm.retry.interval)
    && (w.vif == VifSta && ST_SCAN <= w.sm.state <= ST_DHCP ==>
          && v.lastDelay <= DelayNow(w.sm)
          && v.attempts + w.sm.retry.count
             + (if w.sm.state == ST_SCAN && !w.sm.retry.delayed then 1 else 0) <= v.limit)
  }

  ghost predicate Sound(w: World) {
    Coherent(w) && ScanOk(w) && AttemptsOk(w)
  }

  // ---------------------------------------------------------------- retry delays

  /** For both configured budgets the 32-bit product never wraps, so the delay is
      the interval times the number of attempts past the thirtieth. */
  lemma RetryDelayExact(sm: Sm)
    requires BudgetOk(sm)
    ensures var used := sm.retry.limit - sm.retry.count;
            && sm.retry.interval * used < WORD32
            && DelayNow(sm) == (if used > 30 then sm.retry.interval * (used - 30) else sm.retry.interval)
            && sm.retry.interval <= DelayNow(sm) <= MAX_RETRY_INTERVAL
  {
    var used := sm.retry.limit - sm.retry.count;
    assert 1 <= used <= 100;
    if sm.retry.interval == CONNECT_RETRY_INTERVAL {
      assert used <= 3;
    } else {
      assert 2500 * (used - 30) <= 2500 * 70;
    }
  }

  /** Successive delays never decrease. */
  lemma RetryDelayMonotone(a: Sm, b: Sm)
    requires BudgetOk(a) && BudgetOk(b)
    requires a.retry.limit == b.retry.limit && b.retry.count <= a.retry.count
    ensures DelayNow(a) <= DelayNow(b)
  {
    RetryDelayExact(a);
    RetryDelayExact(b);
  }

  // ---------------------------------------------------------------- queues

  lemma QueueAppend(q: seq<Msg>, m: Msg, scanOut: bool)
    requires QueueOk(q, scanOut) && !m.scanEnd && m.event != ScanDone
    ensures QueueOk(q + [m], scanOut)
    ensures FailQueued(q) || (m.event == ScanFail && m.vif == 0) ==> FailQueued(q + [m])
  {
    var r := q + [m];
    assert forall i :: 0 <= i < |q| ==> r[i] == q[i];
    if FailQueued(q) {
      var i :| 0 <= i < |q| && q[i].event == ScanFail && q[i].vif == 0;
      assert r[i].event == ScanFail;
    }
    if m.event == ScanFail && m.vif == 0 {
      assert r[|q|] == m;
    }
  }

  lemma QueueAppendNone(q: seq<Msg>)
    ensures q + [] == q
  {
  }

  lemma QueueOkLouder(q: seq<Msg>, scanOut: bool)
    requires QueueOk(q, scanOut)
    ensures QueueOk(q, true)
  {
  }

  // ---------------------------------------------------------------- entries

  lemma {:induction false} EnterIdleSound(w: World)
    requires Quiet(w) && QueueOk(w.queue, w.scanOut) && Seen(w).retry.ordered && Seen(w).retry.bounded
    requires Seen(w).retry.attempts <= Seen(w).retry.limit
    ensures Sound(EnterIdle(w))
  {
    hide EnterIdle, Observe, CountOf, RetryDelay;
    EnterIdleCoherent(w);
    EnterIdleFacts(w);
  }

  /** Entering SCAN for a new attempt. */
  lemma {:induction false} EnterScanSound(w: World, e: Env)
    requires Quiet(w) && BudgetOk(w.sm) && !w.sm.retry.delayed
    requires Retries(w) <= 1 && (Retries(w) == 1 ==> w.sm.retry.count > 0)
    requires QueueOk(w.queue, w.scanOut)
    requires var v := Seen(w).retry;
             && v.ordered && v.bounded && v.limit == w.sm.retry.limit && v.interval == w.sm.retry.interval
             && v.attempts + w.sm.retry.count + 1 <= v.limit && v.lastDelay <= DelayNow(w.sm)
    ensures Sound(EnterScan(w, e))
  {
    hide EnterScan, Observe, CountOf, RetryDelay;
    EnterScanCoherent(w, e);
    EnterScanFacts(w, e);
    if e.scanOk {
      QueueAppendNone(w.queue);
      QueueOkLouder(w.queue, w.scanOut);
    } else {
      QueueAppend(w.queue, Msg(0, ScanFail, 0, 0, 0, false), w.scanOut);
    }
  }

  lemma {:induction false} FreshScanSound(w: World, roaming: bool, e: Env)
    requires Quiet(w) && !w.sm.retry.delayed && Retries(w) == 0
    requires QueueOk(w.queue, w.scanOut) && Seen(w).retry.ordered && Seen(w).retry.bounded
    ensures Sound(EnterScan(RetryParamSet(w, roaming), e))
  {
    hide EnterScan, RetryParamSet, Observe, CountOf, RetryDelay;
    RetryParamSetFacts(w, roaming);
    EnterScanSound(RetryParamSet(w, roaming), e);
  }

  lemma {:induction false} GiveUpSound(w: World, reason: nat)
    requires Quiet(w) && QueueOk(w.queue, w.scanOut) && Seen(w).retry.ordered && Seen(w).retry.bounded
    requires Seen(w).retry.attempts <= Seen(w).retry.limit
    ensures Sound(EnterIdle(PostConnDone(PreroamRollback(w), reason)))
  {
    hide EnterIdle, PostConnDone, PreroamRollback, Observe, CountOf, RetryDelay;
    PreroamRollbackFacts(w);
    QueueAppend(w.queue, Msg(0, ConnectCmd, 0, 0, 0, false), w.scanOut);
    PostConnDoneFacts(PreroamRollback(w), reason);
    EnterIdleSound(PostConnDone(PreroamRollback(w), reason));
  }

  /** A retry is armed with a delay no shorter than the one before. */
  lemma {:induction false} ArmRetrySound(w: World)
    requires Coherent(w) && w.vif == VifSta && w.sm.state == ST_SCAN && w.sm.retry.count > 0
    requires AttemptsOk(w) && QueueOk(w.queue, w.scanOut) && (w.sm.retry.delayed ==> !w.scanOut)
    ensures Sound(RegisterRetry(w))
  {
    hide RegisterRetry, Observe, CountOf, RetryDelay;
    RegisterRetryCoherent(w);
    RegisterRetryFacts(w);
    RetryDelayExact(w.sm);
  }

  lemma {:induction false} AttemptFailedSound(w: World, e: Env)
    requires Sound(w) && w.vif == VifSta && ST_CONNECT <= w.sm.state <= ST_DHCP
    ensures Sound(AttemptFailed(w, e))
  {
    hide EnterIdle, PostConnDone, PreroamRollback, EnterScan, RegisterRetry, Observe, CountOf, RetryDelay;
    var w1 := w.(lastReason := w.sm.msg.reason);
    if w1.sm.retry.count > 0 {
      var w2 := w1.(sm := w1.sm.(retry := w1.sm.retry.(delayed := true)));
      EnterScanCoherent(w2, e);
      EnterScanFacts(w2, e);
      QueueAppendNone(w2.queue);
      ArmRetrySound(EnterScan(w2, e));
    } else {
      GiveUpSound(w1, w1.sm.msg.reason);
    }
  }

  // ---------------------------------------------------------------- handling one message

  /** While a station message is handled: a SCAN whose failure has just been taken
      off the queue may be without another way out, and SCAN_DONE frees the radio. */
  ghost predicate Handling(w: World) {
    var ev := w.sm.msg.event;
    && Coherent(w) && w.vif == VifSta && AttemptsOk(w)
    && QueueOk(w.queue, w.scanOut)
    && (w.sm.retry.delayed ==> w.sm.state == ST_SCAN && Retries(w) == 1 && !w.scanOut)
    && (ST_CONNECT <= w.sm.state <= ST_DHCP ==> !w.scanOut)
    && (w.sm.state == ST_SCAN ==> WillLeaveScan(w) || ev == ScanFail || ev == ScanDone)
    && (ev == ScanDone ==> !w.scanOut && !w.sm.retry.delayed)
  }

  lemma {:induction false} StepIdleSound(w: World, e: Env)
    requires Handling(w) && w.sm.state == ST_IDLE
    ensures Sound(StepIdle(w, e))
  {
    hide EnterIdle, EnterScan, EnterWps, UserScan, CopyCfg, RetryParamSet, PostScanDone, Observe, CountOf,
         RetryDelay;
    StepIdleCoherent(w, e);
    var ev := w.sm.msg.event;
    if ev == ScanCmd {
      UserScanFacts(w, e);
      QueueOkLouder(w.queue, w.scanOut);
    } else if ev == ConnectCmd {
      CopyCfgFacts(w, e);
      FreshScanSound(CopyCfg(w, e), false, e);
    } else if ev == AutoConnectCmd {
      FreshScanSound(w.(cfg := w.cfg.(channel := e.apChannel)), true, e);
      EnterIdleSound(w);
    } else if ev == ScanDone {
      PostScanDoneFacts(w, SCAN_SUCCESS);
    } else if ev == WpsCmd {
      EnterWpsSound(w, e);
    }
  }

  lemma {:induction false} EnterWpsSound(w: World, e: Env)
    requires Quiet(w) && QueueOk(w.queue, w.scanOut) && !w.sm.retry.delayed
    requires Retries(w) == DhcpPolls(w) == LinkPolls(w) == 0
    requires Seen(w).retry.ordered && Seen(w).retry.bounded && Seen(w).retry.attempts <= Seen(w).retry.limit
    ensures Sound(EnterWps(w, e))
  {
    hide EnterWps, Observe, CountOf, RetryDelay;
    EnterWpsFacts(w, e);
    QueueOkLouder(w.queue, w.scanOut);
    QueueAppendNone(w.queue);
    QueueAppend(w.queue, Msg(0, WpsFail, e.startRet, 0, 0, false), w.scanOut || e.wpsScanned);
  }

  lemma {:induction false} WpsDisconnectSound(w: World, e: Env)
    requires Handling(w) && w.sm.state == ST_WPS
    ensures Sound(WpsFailed(w))
    ensures Sound(WpsDisconnect(w, e))
  {
    hide EnterIdle, EnterScan, RetryParamSet, PostConnDone, Observe, CountOf, RetryDelay;
    PostConnDoneFacts(WpsStop(w), CONN_WPS_FAIL);
    EnterIdleSound(PostConnDone(WpsStop(w), CONN_WPS_FAIL));
    FreshScanSound(UseCredential(WpsStop(w)), false, e);
  }

  lemma {:induction false} WpsLeavesSound(w: World, e: Env)
    requires Handling(w) && w.sm.state == ST_WPS && LeavesWps(w.sm.msg.event)
    ensures Sound(StepWps(w, e))
  {
    hide EnterIdle, WpsDisconnect, WpsFailed, WpsScanResult, WpsScanDone, Observe, CountOf, Without, RetryDelay;
    WpsDisconnectSound(w, e);
    EnterIdleSound(WpsStop(w));
  }

  lemma {:induction false} StepWpsSound(w: World, e: Env)
    requires Handling(w) && w.sm.state == ST_WPS
    ensures Sound(StepWps(w, e))
  {
    hide StepWps, Observe, CountOf, RetryDelay;
    if LeavesWps(w.sm.msg.event) {
      WpsLeavesSound(w, e);
    } else {
      StepWpsCoherent(w, e);
      WpsStays(w, e);
      WpsStaysRest(w, e);
      QueueAppend(w.queue, Msg(0, ConnectFail, e.wpsAssocReason, 0, 0, false), w.scanOut);
    }
  }

  lemma {:induction false} StepScanSound(w: World, e: Env)
    requires Handling(w) && w.sm.state == ST_SCAN
    ensures Sound(StepScan(w, e))
  {
    hide EnterIdle, EnterConnect, RegisterRetry, LinkIsOngoing, PostConnDone, PreroamRollback, Observe, CountOf,
         RetryDelay;
    var ev := w.sm.msg.event;
    if ev == ScanCmd || ev == ConnectCmd {
      LinkIsOngoingFacts(w);
    } else if ev == DisconnectCmd || ev == ConnectFail {
      EnterIdleSound(w);
    } else if ev == ScanDone {
      EnterConnectFacts(w, e);
      QueueAppendNone(w.queue);
      QueueAppend(w.queue, Msg(0, ConnectFail, e.connectReason, 0, 0, false), w.scanOut);
    } else if ev == ScanFail {
      if w.sm.retry.count > 0 {
        ArmRetrySound(w);
      } else {
        GiveUpSound(w, w.sm.msg.reason);
      }
    }
  }

  lemma {:induction false} StepConnectSound(w: World, e: Env)
    requires Handling(w) && w.sm.state == ST_CONNECT
    ensures Sound(StepConnect(w, e))
  {
    hide EnterIdle, EnterHandshake, LinkIsOngoing, AttemptFailed, Observe, CountOf, RetryDelay;
    var ev := w.sm.msg.event;
    if ev == ScanCmd || ev == ConnectCmd {
      LinkIsOngoingFacts(w);
    } else if ev == DisconnectCmd {
      EnterIdleSound(w);
    } else if ev == AssocSuccess {
      EnterHandshakeFacts(w);
    } else {
      AttemptFailedSound(w, e);
    }
  }

  lemma {:induction false} StepHandshakeSound(w: World, e: Env)
    requires Handling(w) && w.sm.state == ST_HANDSHAKE
    ensures Sound(StepHandshake(w, e))
  {
    hide EnterIdle, EnterDhcp, LinkIsOngoing, AttemptFailed, Observe, CountOf, RetryDelay;
    var ev := w.sm.msg.event;
    if ev == ScanCmd || ev == ConnectCmd {
      LinkIsOngoingFacts(w);
    } else if ev == DisconnectCmd {
      EnterIdleSound(w);
    } else if ev == DhcpStart {
      EnterDhcpFacts(w, e);
    } else {
      AttemptFailedSound(w, e);
    }
  }

  lemma {:induction false} StepDhcpSound(w: World, e: Env)
    requires Handling(w) && w.sm.state == ST_DHCP
    ensures Sound(StepDhcp(w, e))
  {
    hide EnterIdle, EnterConnected, LinkIsOngoing, AttemptFailed, Observe, CountOf, Without, RetryDelay;
    var ev := w.sm.msg.event;
    if ev == ScanCmd || ev == ConnectCmd {
      LinkIsOngoingFacts(w);
    } else if ev == DisconnectCmd {
      EnterIdleSound(w);
    } else if ev == DhcpSuccess {
      EnterConnectedFacts(w);
      QueueAppendNone(w.queue);
      QueueAppend(w.queue, Msg(0, ConnectSuccess, 0, 0, 0, false), w.scanOut);
    } else {
      AttemptFailedSound(w, e);
    }
  }

  lemma {:induction false} ReconnectSound(w: World, e: Env)
    requires Handling(w)
    ensures Sound(Reconnect(w, e))
    ensures Sound(EnterWps(RetryParamSet(EnterIdle(w), false), e))
  {
    hide EnterIdle, EnterScan, RetryParamSet, EnterWps, CopyCfg, Observe, CountOf, RetryDelay;
    CopyCfgFacts(w, e);
    EnterIdleFacts(CopyCfg(w, e));
    FreshScanSound(EnterIdle(CopyCfg(w, e)), false, e);
    EnterIdleFacts(w);
    RetryParamSetFacts(EnterIdle(w), false);
    EnterWpsSound(RetryParamSet(EnterIdle(w), false), e);
  }

  lemma {:induction false} ConnectedScanDoneSound(w: World, e: Env)
    requires Handling(w) && w.sm.state == ST_CONNECTED
    ensures Sound(ConnectedScanDone(w, e))
  {
    hide PostScanDone, Observe, CountOf, RetryDelay;
    var w1 := if w.sm.roam.polling then RoamingScanDone(w, e) else w;
    QueueAppend(w.queue, Msg(0, ConnectCmd, 0, 0, 0, false), w.scanOut);
    PostScanDoneFacts(w1, SCAN_SUCCESS);
    PostScanDoneFacts(PostScanDone(w1, SCAN_SUCCESS), SCAN_FAILED);
  }

  lemma {:induction false} StepConnectedSound(w: World, e: Env)
    requires Handling(w) && w.sm.state == ST_CONNECTED
    ensures Sound(StepConnected(w, e))
  {
    hide EnterIdle, EnterScan, UserScan, RetryParamSet, PostScanDone, Reconnect, EnterWps, ConnectedScanDone,
         Observe, CountOf, Insert, RetryDelay;
    var ev := w.sm.msg.event;
    if ev == ScanCmd {
      UserScanFacts(w, e);
      QueueOkLouder(w.queue, w.scanOut);
    } else if ev == ConnectCmd || ev == WpsCmd {
      ReconnectSound(w, e);
    } else if ev == DisconnectCmd {
      EnterIdleSound(w);
    } else if ev == ScanDone {
      ConnectedScanDoneSound(w, e);
    } else if ev == ScanFail {
      PostScanDoneFacts(w, SCAN_FAILED);
    } else if ev == Disconnect {
      FreshScanSound(w.(lastReason := w.sm.msg.reason), true, e);
      EnterIdleSound(w.(lastReason := w.sm.msg.reason));
    }
  }

  lemma {:induction false} StaStepSound(w: World, e: Env)
    requires Handling(w)
    ensures Sound(StaStep(w, e))
  {
    hide EnterIdle, RetryParamSet, StepIdle, StepWps, StepScan, StepConnect, StepHandshake, StepDhcp,
         StepConnected, Observe, CountOf, RetryDelay;
    if !w.sm.init || w.sm.msg.event == Init {
      var w1 := ClearRecord(w, true);
      ClearRecordFacts(w, true);
      RetryParamSetFacts(w1, false);
      EnterIdleSound(RetryParamSet(w1, false));
    } else {
      var h := Emit(w, Handled(w.sm.msg.event, w.sm.state));
      Observed(w.log, Handled(w.sm.msg.event, w.sm.state));
      assert Handling(h);
      if w.sm.state == ST_IDLE { StepIdleSound(h, e); }
      else if w.sm.state == ST_WPS { StepWpsSound(h, e); }
      else if w.sm.state == ST_SCAN { StepScanSound(h, e); }
      else if w.sm.state == ST_CONNECT { StepConnectSound(h, e); }
      else if w.sm.state == ST_HANDSHAKE { StepHandshakeSound(h, e); }
      else if w.sm.state == ST_DHCP { StepDhcpSound(h, e); }
      else { StepConnectedSound(h, e); }
    }
  }

  // ---------------------------------------------------------------- other messages

  /** The message has been taken off the queue; the interface is in any mode. */
  ghost predicate Loaded(w: World) {
    && Coherent(w) && AttemptsOk(w) && QueueOk(w.queue, w.scanOut)
    && (w.vif == VifSta ==> Handling(w))
    && (w.vif != VifSta ==> !w.sm.retry.delayed)
  }

  lemma {:induction false} ApStepSound(w: World, e: Env)
    requires Loaded(w) && w.vif == VifAp
    ensures Sound(ApStep(w, e))
  {
    hide UserScan, PostScanDone, ClearRecord, Observe, CountOf, RetryDelay;
    var ev := w.sm.msg.event;
    if !w.sm.init || ev == Init {
      ClearRecordFacts(w, false);
    } else if ev == ScanCmd {
      UserScanFacts(w, e);
      QueueOkLouder(w.queue, w.scanOut);
    } else if ev == ScanDone {
      PostScanDoneFacts(w, SCAN_SUCCESS);
    } else if ev == ScanFail {
      PostScanDoneFacts(w, SCAN_FAILED);
    }
  }

  lemma {:induction false} MonitorStepSound(w: World, e: Env)
    requires Loaded(w) && w.vif == VifMonitor
    ensures Sound(MonitorStep(w, e))
  {
    hide UserScan, PostScanDone, ClearRecord, Observe, CountOf, RetryDelay;
    var ev := w.sm.msg.event;
    if !w.sm.init || ev == Init {
      ClearRecordFacts(w, false);
    } else if ev == ScanCmd {
      UserScanFacts(w, e);
      QueueOkLouder(w.queue, w.scanOut);
    } else if ev == ScanDone {
      PostScanDoneFacts(w, SCAN_SUCCESS);
    } else if ev == ScanFail {
      PostScanDoneFacts(w, SCAN_FAILED);
    }
  }

  lemma {:induction false} LeaveModeFacts(w: World)
    ensures var r := LeaveMode(w);
            && r.queue == w.queue && r.scanOut == w.scanOut && Seen(r).retry == Seen(w).retry
            && r.sm.retry == w.sm.retry.(delayed := w.vif != VifSta && w.sm.retry.delayed)
  {
    hide EnterIdle, Observe;
    EnterIdleFacts(w);
  }

  lemma {:induction false} EnterModeFacts(w: World, target: VifType)
    ensures var r := EnterMode(w, target);
            && r.queue == w.queue && r.scanOut == w.scanOut && r.sm.retry.delayed == w.sm.retry.delayed
            && (Seen(r).retry == Seen(w).retry
                || (Seen(r).retry.attempts == 0 && Seen(r).retry.ordered == Seen(w).retry.ordered
                    && Seen(r).retry.bounded == Seen(w).retry.bounded))
  {
    hide RetryParamSet, Observe;
    var w1 := StartMode(w);
    RetryParamSetFacts(w1.(sm := w1.sm.(roam := w1.sm.roam.(polling := false))), false);
  }

  lemma {:induction false} SwitchModeSound(w: World, e: Env)
    requires Loaded(w) && w.sm.msg.event == SwitchModeCmd
    ensures Sound(SwitchMode(w, e))
  {
    hide LeaveMode, EnterMode, Observe, CountOf, RetryDelay, QueueOk, Coherent;
    SwitchModeCoherent(w, e);
    LeaveModeFacts(w);
    EnterModeFacts(LeaveMode(w).(vif := VifTypeOf(w.sm.msg.reason)), VifTypeOf(w.sm.msg.reason));
  }

  lemma {:induction false} MachineStepSound(w: World, e: Env)
    requires Loaded(w)
    ensures Sound(MachineStep(w, e))
  {
    hide SwitchMode, StaStep, ApStep, MonitorStep, Observe, CountOf, RetryDelay;
    if w.sm.msg.event == SwitchModeCmd { SwitchModeSound(w, e); }
    else if w.vif == VifSta { StaStepSound(w, e); }
    else if w.vif == VifAp { ApStepSound(w, e); }
    else if w.vif == VifMonitor { MonitorStepSound(w, e); }
  }

  lemma {:induction false} TakeSound(w: World)
    requires Sound(w) && w.queue != []
    ensures var m, w1 := w.queue[0], TakeMessage(w);
            && QueueOk(w1.queue, w1.scanOut)
            && (m.vif == 0 && m.event != Foreign ==> Loaded(LoadMessage(w1, m)))
            && (m.vif != 0 || m.event == Foreign ==> Sound(w1))
  {
    hide Observe, CountOf, RetryDelay;
    var m, q := w.queue[0], w.queue[1..];
    assert forall i :: 0 <= i < |q| ==> q[i] == w.queue[i + 1];
    if FailQueued(w.queue) && !(m.event == ScanFail && m.vif == 0) {
      var i :| 0 <= i < |w.queue| && w.queue[i].event == ScanFail && w.queue[i].vif == 0;
      assert q[i - 1].event == ScanFail;
    }
  }

  lemma {:induction false} FireRetrySound(w: World, e: Env)
    requires Sound(w) && w.timers != [] && w.timers[0].handler == ConnectRetry
    ensures Sound(FireRetry(TakeTimer(w), e))
  {
    hide EnterScan, Observe, CountOf, RetryDelay;
    var w1 := TakeTimer(w);
    var w2 := w1.(sm := w1.sm.(retry := w1.sm.retry.(count := (w1.sm.retry.count - 1) % WORD32,
                                                     delayed := false)));
    RetryDelayMonotone(w1.sm, w2.sm);
    EnterScanSound(w2, e);
  }

  lemma {:induction false} FireDhcpSound(w: World, e: Env)
    requires Sound(w) && w.timers != [] && w.timers[0].handler == DhcpPolling
    ensures Sound(FireDhcp(TakeTimer(w), e))
  {
    hide Observe, CountOf, FireDhcp, RetryDelay;
    FireDhcpCoherent(w, e);
    FireDhcpFacts(TakeTimer(w), e);
    FireDhcpSeen(TakeTimer(w), e);
    QueueAppend(w.queue, Msg(0, DhcpSuccess, 0, 0, 0, false), w.scanOut);
    QueueAppend(w.queue, Msg(0, DhcpFail, 0, 0, 0, false), w.scanOut);
    QueueAppendNone(w.queue);
  }

  lemma {:induction false} FireLinkSound(w: World, e: Env)
    requires Sound(w) && w.timers != [] && w.timers[0].handler == LinkPolling
    ensures Sound(FireLink(TakeTimer(w), e))
  {
    hide Observe, CountOf, FireLink, RetryDelay;
    FireLinkCoherent(w, e);
    FireLinkFacts(TakeTimer(w), e);
    QueueOkLouder(w.queue, w.scanOut);
  }

  lemma {:induction false} FireWpsSound(w: World, e: Env)
    requires Sound(w) && w.timers != [] && w.timers[0].handler == WpsScanTimer
    ensures Sound(FireWps(TakeTimer(w), e)) <==> !(w.wpsCtx && e.wpsScanned && Vulnerable(w))
  {
    hide Observe, CountOf, RetryDelay;
    QueueOkLouder(w.queue, w.scanOut);
    QueueAppend(w.queue, Msg(0, ScanFail, 0, 0, 0, false), w.scanOut);
  }

  lemma {:induction false} FireHeadSound(w: World, e: Env)
    requires Sound(w) && Disciplined(w, Fire(e))
    ensures Sound(FireHead(w, e)) <==> !StrayScan(w, Fire(e))
  {
    hide FireRetry, FireDhcp, FireLink, FireWps, Sound, Vulnerable, TakeTimer;
    if HeadDue(w) {
      if w.timers[0].handler == ConnectRetry {
        FireRetrySound(w, e);
      } else if w.timers[0].handler == DhcpPolling {
        FireDhcpSound(w, e);
      } else if w.timers[0].handler == LinkPolling {
        FireLinkSound(w, e);
      } else if w.timers[0].handler == WpsScanTimer {
        FireWpsSound(w, e);
      } else {
        TakeOtherSound(w);
      }
    }
  }

  lemma {:induction false} TakeOtherSound(w: World)
    requires Sound(w) && w.timers != [] && w.timers[0].handler.OtherHandler?
    ensures Sound(TakeTimer(w))
  {
    hide Observe, CountOf, RetryDelay;
  }

  lemma {:induction false} ArriveSound(w: World, m: Msg)
    requires Sound(w) && Enabled(w, Arrive(m)) && Disciplined(w, Arrive(m))
    ensures Sound(Next(w, Arrive(m)))
  {
    hide Observe, CountOf, RetryDelay;
    var r := w.queue + [m];
    assert forall i :: 0 <= i < |w.queue| ==> r[i] == w.queue[i];
    if FailQueued(w.queue) {
      var i :| 0 <= i < |w.queue| && w.queue[i].event == ScanFail && w.queue[i].vif == 0;
      assert r[i].event == ScanFail;
    }
  }

  lemma {:induction false} ArmScanSound(w: World, b: bool)
    requires Sound(w)
    ensures Sound(Next(w, ArmScan(b)))
  {
    hide Observe, CountOf, RetryDelay, QueueOk, FailQueued;
    Observed(w.log, ScanArmed);
  }

  lemma {:induction false} TickSound(w: World, s: Step)
    requires Sound(w) && Enabled(w, s) && (s.Tick? || s.SetRoaming?)
    ensures Sound(Next(w, s))
  {
    hide Observe, CountOf, RetryDelay, QueueOk, FailQueued;
  }

  lemma {:induction false} DispatchSound(w: World, e: Env)
    requires Sound(w) && Enabled(w, Handle(e)) && Disciplined(w, Handle(e))
    ensures Sound(Dispatch(w, e))
  {
    hide MachineStep, Observe, CountOf, RetryDelay;
    TakeSound(w);
    var m, w1 := w.queue[0], TakeMessage(w);
    if !(m.vif != 0 || m.event == Foreign) {
      MachineStepSound(LoadMessage(w1, m), e);
    }
  }

  /** Under the one-scan discipline a step keeps the invariants if and only if it is no stray scan. */
  lemma {:induction false} NextSound(w: World, s: Step)
    requires Sound(w) && Enabled(w, s) && Disciplined(w, s)
    ensures Sound(Next(w, s)) <==> !StrayScan(w, s)
  {
    hide Dispatch, FireHead, Sound;
    match s
    case Handle(e) => DispatchSound(w, e);
    case Fire(e) => FireHeadSound(w, e);
    case Arrive(m) => ArriveSound(w, m);
    case ArmScan(b) => ArmScanSound(w, b);
    case _ => TickSound(w, s);
  }
}
