/** Payload ownership: every live payload has at most one owner, nothing is freed
    twice or read after being freed, and payloads are freed when handled. */
module WifiOwnership {
  import opened EventLoop
  import opened WifiTypes
  import opened WifiSpec
  import opened WifiCoherence
  import opened WifiEntries

  function Ptr(p: nat): multiset<nat> {
    if p == 0 then multiset{} else multiset{p}
  }

  function QueuePtrs(q: seq<Msg>): multiset<nat> {
    if q == [] then multiset{} else Ptr(q[0].param) + QueuePtrs(q[1..])
  }

  /** The payloads held by the queue, sm->param, wps_bcn and wps_cred. */
  function Owners(w: World): multiset<nat> {
    QueuePtrs(w.queue) + Ptr(w.sm.msg.param) + Ptr(w.sm.wps.bcn) + Ptr(w.sm.wps.cred)
  }

  /** Owned payloads are live and owned once; no dead block was touched. */
  predicate OwnOk(w: World) {
    && !w.mem.fault
    && 0 !in w.mem.live
    && Owners(w) <= multiset(w.mem.live)
  }

  /** `OwnOk` says what it should: one owner per payload, and a live one. */
  lemma OwnedOnceAndLive(w: World, p: nat)
    requires OwnOk(w) && p in Owners(w)
    ensures Owners(w)[p] == 1 && p in w.mem.live && p != 0
  {
    assert Owners(w)[p] <= multiset(w.mem.live)[p];
  }

  lemma {:induction false} QueuePtrsAppend(q: seq<Msg>, m: Msg)
    ensures QueuePtrs(q + [m]) == QueuePtrs(q) + Ptr(m.param)
  {
    if q == [] {
      assert q + [m] == [m];
      assert [m][1..] == [];
    } else {
      QueuePtrsAppend(q[1..], m);
      assert (q + [m])[1..] == q[1..] + [m];
    }
  }

  /** The owners and the heap are as before. */
  predicate SameOwn(w: World, r: World) {
    && r.mem == w.mem && QueuePtrs(r.queue) == QueuePtrs(w.queue)
    && r.sm.msg.param == w.sm.msg.param && r.sm.wps.bcn == w.sm.wps.bcn && r.sm.wps.cred == w.sm.wps.cred
  }

  /** A message without payload may be appended freely. */
  predicate Queued(q: seq<Msg>, r: seq<Msg>) {
    r == q || (|r| == |q| + 1 && r[..|q|] == q && r[|q|].param == 0)
  }

  lemma QueuedPtrs(q: seq<Msg>, r: seq<Msg>)
    requires Queued(q, r)
    ensures QueuePtrs(r) == QueuePtrs(q)
  {
    if r != q {
      assert r == q + [r[|q|]];
      QueuePtrsAppend(q, r[|q|]);
    }
  }

  lemma SameOwnOk(w: World, r: World)
    requires OwnOk(w) && SameOwn(w, r)
    ensures OwnOk(r)
  {
  }

  lemma ReadOwned(w: World)
    requires OwnOk(w)
    ensures Read(w, w.sm.msg.param) == w && Read(w, w.sm.wps.bcn) == w && Read(w, w.sm.wps.cred) == w
  {
    forall p | p in {w.sm.msg.param, w.sm.wps.bcn, w.sm.wps.cred} && p != 0 ensures p in w.mem.live {
      assert p in Owners(w);
      OwnedOnceAndLive(w, p);
    }
  }

  // ---------------------------------------------------------------- entries

  lemma {:induction false} EnterIdleOwn(w: World)
    ensures SameOwn(w, EnterIdle(w))
  {
    hide OwnOk, Owners, QueuePtrs;
    hide EnterIdle, Observe, CountOf;
    EnterIdleFacts(w);
  }

  lemma {:induction false} FreshScanOwn(w: World, roaming: bool, e: Env)
    ensures SameOwn(w, EnterScan(RetryParamSet(w, roaming), e))
  {
    hide OwnOk, Owners, QueuePtrs;
    hide EnterScan, RetryParamSet, Observe, CountOf;
    RetryParamSetFacts(w, roaming);
    EnterScanOwn(RetryParamSet(w, roaming), e);
  }

  lemma {:induction false} EnterScanOwn(w: World, e: Env)
    ensures SameOwn(w, EnterScan(w, e))
  {
    hide OwnOk, Owners, QueuePtrs;
    hide EnterScan, Observe, CountOf;
    EnterScanFacts(w, e);
    QueuedPtrs(w.queue, EnterScan(w, e).queue);
  }

  lemma {:induction false} GiveUpOwn(w: World, reason: nat)
    ensures SameOwn(w, EnterIdle(PostConnDone(PreroamRollback(w), reason)))
  {
    hide OwnOk, Owners, QueuePtrs;
    hide EnterIdle, PostConnDone, PreroamRollback, Observe, CountOf;
    PreroamRollbackFacts(w);
    QueuedPtrs(w.queue, PreroamRollback(w).queue);
    PostConnDoneFacts(PreroamRollback(w), reason);
    EnterIdleOwn(PostConnDone(PreroamRollback(w), reason));
  }

  lemma {:induction false} RegisterRetryOwn(w: World)
    ensures SameOwn(w, RegisterRetry(w))
  {
    hide OwnOk, Owners, QueuePtrs;
    hide Observe, CountOf, Insert, RetryDelay;
  }

  lemma {:induction false} AttemptFailedOwn(w: World, e: Env)
    ensures SameOwn(w, AttemptFailed(w, e))
  {
    hide OwnOk, Owners, QueuePtrs;
    hide EnterIdle, PostConnDone, PreroamRollback, EnterScan, RegisterRetry, Observe, CountOf, RetryDelay;
    var w1 := w.(lastReason := w.sm.msg.reason);
    var w2 := w1.(sm := w1.sm.(retry := w1.sm.retry.(delayed := true)));
    EnterScanOwn(w2, e);
    RegisterRetryOwn(EnterScan(w2, e));
    GiveUpOwn(w1, w1.sm.msg.reason);
  }

  lemma {:induction false} EnterWpsOwn(w: World, e: Env)
    requires OwnOk(w)
    ensures SameOwn(w, EnterWps(w, e))
  {
    hide OwnOk, Owners, QueuePtrs;
    hide EnterWps, Observe, CountOf;
    ReadOwned(w);
    EnterWpsFacts(w, e);
    QueuedPtrs(w.queue, EnterWps(w, e).queue);
  }

  // ---------------------------------------------------------------- states other than WPS

  lemma {:induction false} StepIdleOwn(w: World, e: Env)
    requires OwnOk(w)
    ensures SameOwn(w, StepIdle(w, e))
  {
    hide OwnOk, Owners, QueuePtrs;
    hide EnterIdle, EnterScan, EnterWps, UserScan, CopyCfg, RetryParamSet, PostScanDone, Observe, CountOf;
    ReadOwned(w);
    UserScanFacts(w, e);
    CopyCfgFacts(w, e);
    FreshScanOwn(CopyCfg(w, e), false, e);
    FreshScanOwn(w.(cfg := w.cfg.(channel := e.apChannel)), true, e);
    EnterIdleOwn(w);
    PostScanDoneFacts(w, SCAN_SUCCESS);
    EnterWpsOwn(w, e);
  }

  lemma {:induction false} StepScanOwn(w: World, e: Env)
    requires OwnOk(w)
    ensures SameOwn(w, StepScan(w, e))
  {
    hide OwnOk, Owners, QueuePtrs;
    hide EnterIdle, EnterConnect, RegisterRetry, LinkIsOngoing, PostConnDone, PreroamRollback, Observe, CountOf;
    LinkIsOngoingFacts(w);
    EnterIdleOwn(w);
    EnterConnectFacts(w, e);
    QueuedPtrs(w.queue, EnterConnect(w, e).queue);
    RegisterRetryOwn(w);
    GiveUpOwn(w, w.sm.msg.reason);
  }

  lemma {:induction false} StepConnectOwn(w: World, e: Env)
    requires OwnOk(w)
    ensures SameOwn(w, StepConnect(w, e))
  {
    hide OwnOk, Owners, QueuePtrs;
    hide EnterIdle, EnterHandshake, LinkIsOngoing, AttemptFailed, Observe, CountOf;
    ReadOwned(w);
    LinkIsOngoingFacts(w);
    EnterIdleOwn(w);
    EnterHandshakeFacts(w);
    AttemptFailedOwn(w, e);
  }

  lemma {:induction false} StepHandshakeOwn(w: World, e: Env)
    requires OwnOk(w)
    ensures SameOwn(w, StepHandshake(w, e))
  {
    hide OwnOk, Owners, QueuePtrs;
    hide EnterIdle, EnterDhcp, LinkIsOngoing, AttemptFailed, Observe, CountOf;
    ReadOwned(w);
    LinkIsOngoingFacts(w);
    EnterIdleOwn(w);
    EnterDhcpFacts(w, e);
    AttemptFailedOwn(w, e);
  }

  lemma {:induction false} StepDhcpOwn(w: World, e: Env)
    requires OwnOk(w)
    ensures SameOwn(w, StepDhcp(w, e))
  {
    hide OwnOk, Owners, QueuePtrs;
    hide EnterIdle, EnterConnected, LinkIsOngoing, AttemptFailed, Observe, CountOf, Without;
    ReadOwned(w);
    LinkIsOngoingFacts(w);
    EnterIdleOwn(w);
    EnterConnectedFacts(w);
    QueuedPtrs(w.queue, EnterConnected(w).queue);
    AttemptFailedOwn(w, e);
  }

  lemma {:induction false} ConnectedScanDoneOwn(w: World, e: Env)
    ensures SameOwn(w, ConnectedScanDone(w, e))
  {
    hide OwnOk, Owners, QueuePtrs;
    hide Observe, CountOf;
    QueuePtrsAppend(w.queue, Msg(0, ConnectCmd, 0, 0, 0, false));
  }

  lemma {:induction false} StepConnectedOwn(w: World, e: Env)
    requires OwnOk(w)
    ensures SameOwn(w, StepConnected(w, e))
  {
    hide OwnOk, Owners, QueuePtrs;
    hide EnterIdle, EnterScan, UserScan, RetryParamSet, PostScanDone, EnterWps, ConnectedScanDone, CopyCfg,
         Observe, CountOf, Insert;
    var ev := w.sm.msg.event;
    ReadOwned(w);
    if ev == ScanCmd {
      UserScanFacts(w, e);
    } else if ev == ConnectCmd {
      CopyCfgFacts(w, e);
      EnterIdleOwn(CopyCfg(w, e));
      FreshScanOwn(EnterIdle(CopyCfg(w, e)), false, e);
    } else if ev == WpsCmd {
      EnterIdleOwn(w);
      RetryParamSetFacts(EnterIdle(w), false);
      SameOwnOk(w, RetryParamSet(EnterIdle(w), false));
      EnterWpsOwn(RetryParamSet(EnterIdle(w), false), e);
    } else if ev == DisconnectCmd {
      EnterIdleOwn(w);
    } else if ev == ScanDone {
      ConnectedScanDoneOwn(w, e);
    } else if ev == ScanFail {
      PostScanDoneFacts(w, SCAN_FAILED);
    } else if ev == Disconnect {
      FreshScanOwn(w.(lastReason := w.sm.msg.reason), true, e);
      EnterIdleOwn(w.(lastReason := w.sm.msg.reason));
    }
  }

  // ---------------------------------------------------------------- WPS: two hand-overs and two frees

  lemma WpsScanResultOwn(w: World, e: Env)
    requires OwnOk(w)
    ensures var r := WpsScanResult(w, e);
            && OwnOk(r)
            && (r.sm.msg.param == w.sm.msg.param || (r.sm.msg.param == 0 && r.sm.wps.bcn == w.sm.msg.param))
            && r.mem == w.mem
  {
    hide Without, CountOf;
    ReadOwned(w);
  }

  lemma WpsCredOwn(w: World)
    requires OwnOk(w) && w.sm.msg.param != 0
    ensures OwnOk(w.(sm := w.sm.(wps := w.sm.wps.(cred := w.sm.msg.param), msg := w.sm.msg.(param := 0))))
  {
    var r := w.(sm := w.sm.(wps := w.sm.wps.(cred := w.sm.msg.param), msg := w.sm.msg.(param := 0)));
    assert Owners(r) + Ptr(w.sm.wps.cred) == Owners(w);
  }

  /** Freeing an owned payload and forgetting the owner keeps the books. */
  lemma FreeOwned(live: set<nat>, owners: multiset<nat>, p: nat)
    requires p != 0 && owners + multiset{p} <= multiset(live)
    ensures p in live && owners <= multiset(live - {p})
  {
    assert (owners + multiset{p})[p] <= multiset(live)[p];
    forall q ensures owners[q] <= multiset(live - {p})[q] {
      assert (owners + multiset{p})[q] <= multiset(live)[q];
    }
  }

  lemma {:induction false} FreeBeaconOwn(w: World)
    requires OwnOk(w) && w.sm.wps.bcn != 0
    ensures var w1 := Free(w, w.sm.wps.bcn);
            OwnOk(w1.(sm := w1.sm.(wps := w1.sm.wps.(bcn := 0, bcnLen := 0)))) && w1.mem.live <= w.mem.live
  {
    var rest := QueuePtrs(w.queue) + Ptr(w.sm.msg.param) + Ptr(w.sm.wps.cred);
    assert Owners(w) == rest + multiset{w.sm.wps.bcn};
    FreeOwned(w.mem.live, rest, w.sm.wps.bcn);
  }

  lemma {:induction false} WpsScanDoneOwn(w: World, e: Env)
    requires OwnOk(w)
    ensures var r := WpsScanDone(w, e);
            OwnOk(r) && r.sm.msg.param == w.sm.msg.param && r.mem.live <= w.mem.live
  {
    hide Insert, CountOf, OwnOk, Owners, QueuePtrs, Free;
    var w0 := w.(sm := w.sm.(wps := w.sm.wps.(stage := WpsConnect)));
    SameOwnOk(w, w0);
    ReadOwned(w0);
    var w2 := if e.wpsAssocReason != 0 then Post(w0, ConnectFail, e.wpsAssocReason) else w0;
    QueuedPtrs(w.queue, w2.queue);
    SameOwnOk(w0, w2);
    if w.sm.wps.bcn != 0 {
      FreeBeaconOwn(w2);
    }
    SameOwnOk(w, AddTimer(w, WPS_SCAN_INTERVAL, WpsScanTimer, NULL_CTX, NULL_CTX));
    assert Free(w2, w2.sm.wps.bcn).sm == w2.sm by { FreeKeepsRecord(w2, w2.sm.wps.bcn); }
  }

  lemma FreeKeepsRecord(w: World, p: nat)
    ensures Free(w, p).sm == w.sm
  {
  }

  lemma {:induction false} UseCredentialOwn(w: World)
    requires OwnOk(w) && w.sm.wps.cred != 0
    ensures var r := UseCredential(w);
            OwnOk(r) && r.sm.msg.param == w.sm.msg.param && r.mem.live <= w.mem.live
  {
    ReadOwned(w);
    var rest := QueuePtrs(w.queue) + Ptr(w.sm.msg.param) + Ptr(w.sm.wps.bcn);
    assert Owners(w) == rest + multiset{w.sm.wps.cred};
    FreeOwned(w.mem.live, rest, w.sm.wps.cred);
  }

  lemma {:induction false} WpsLeavesOwn(w: World, e: Env)
    requires OwnOk(w)
    ensures SameOwn(w, WpsFailed(w)) && SameOwn(w, EnterIdle(WpsStop(w)))
    ensures var r := WpsDisconnect(w, e);
            OwnOk(r) && r.sm.msg.param == w.sm.msg.param && r.mem.live <= w.mem.live
  {
    hide EnterIdle, EnterScan, RetryParamSet, PostConnDone, UseCredential, Observe, CountOf, Without;
    EnterIdleOwn(WpsStop(w));
    PostConnDoneFacts(WpsStop(w), CONN_WPS_FAIL);
    EnterIdleOwn(PostConnDone(WpsStop(w), CONN_WPS_FAIL));
    if w.sm.wps.cred != 0 {
      UseCredentialOwn(WpsStop(w));
    }
    FreshScanOwn(UseCredential(WpsStop(w)), false, e);
  }

  /** The payload is still in sm->param, or one of the two hand-overs took it. */
  predicate HandedOver(w: World, r: World) {
    && w.sm.state == ST_WPS && r.sm.msg.param == 0
    && ((w.sm.msg.event == ScanResult && r.sm.wps.bcn == w.sm.msg.param)
        || (w.sm.msg.event == WpsCred && r.sm.wps.cred == w.sm.msg.param))
  }

  predicate Kept(w: World, r: World) {
    && OwnOk(r)
    && r.mem.live <= w.mem.live
    && (r.sm.msg.param == w.sm.msg.param || HandedOver(w, r))
  }

  lemma {:induction false} WpsLeavesKept(w: World, e: Env)
    requires OwnOk(w) && w.sm.state == ST_WPS && LeavesWps(w.sm.msg.event)
    ensures Kept(w, StepWps(w, e))
  {
    hide OwnOk, Owners, QueuePtrs;
    hide EnterIdle, WpsDisconnect, WpsFailed, WpsScanResult, WpsScanDone, Observe, CountOf, Without;
    WpsLeavesOwn(w, e);
    SameOwnKept(w, WpsFailed(w));
    SameOwnKept(w, EnterIdle(WpsStop(w)));
  }

  lemma SameOwnKept(w: World, r: World)
    requires OwnOk(w) && SameOwn(w, r)
    ensures Kept(w, r)
  {
    SameOwnOk(w, r);
  }

  lemma {:induction false} WpsStageOwn(w: World, stage: WpsStage)
    requires OwnOk(w)
    ensures OwnOk(w.(sm := w.sm.(wps := w.sm.wps.(stage := stage))))
  {
    SameOwnOk(w, w.(sm := w.sm.(wps := w.sm.wps.(stage := stage))));
  }

  lemma {:induction false} StepWpsOwn(w: World, e: Env)
    requires OwnOk(w) && w.sm.state == ST_WPS
    ensures Kept(w, StepWps(w, e))
  {
    hide OwnOk, Owners, QueuePtrs;
    hide EnterIdle, WpsDisconnect, WpsFailed, WpsScanResult, WpsScanDone, Observe, CountOf, Without;
    var ev := w.sm.msg.event;
    if LeavesWps(ev) {
      WpsLeavesKept(w, e);
    } else if ev == ScanResult {
      WpsScanResultOwn(w, e);
    } else if ev == ScanDone {
      WpsScanDoneOwn(w, e);
    } else if ev == AssocSuccess {
      WpsStageOwn(w, WpsEapHandshake);
      ReadOwned(w);
      ReadOwned(w.(sm := w.sm.(wps := w.sm.wps.(stage := WpsEapHandshake))));
    } else if ev == WpsSuccess {
      WpsStageOwn(w, WpsDone);
    } else {
      ReadOwned(w);
      if w.sm.msg.param != 0 {
        WpsCredOwn(w);
      }
    }
  }

  // ---------------------------------------------------------------- machines and dispatch

  lemma {:induction false} StaStepOwn(w: World, e: Env)
    requires OwnOk(w) && w.sm.init && w.sm.msg.event != Init
    ensures Kept(w, StaStep(w, e))
  {
    hide OwnOk, Owners, QueuePtrs;
    hide StaReset, StepIdle, StepWps, StepScan, StepConnect, StepHandshake, StepDhcp, StepConnected, Observe;
    var h := Emit(w, Handled(w.sm.msg.event, w.sm.state));
    SameOwnOk(w, h);
    if w.sm.state == ST_WPS {
      StepWpsOwn(h, e);
    } else {
      if w.sm.state == ST_IDLE { StepIdleOwn(h, e); }
      else if w.sm.state == ST_SCAN { StepScanOwn(h, e); }
      else if w.sm.state == ST_CONNECT { StepConnectOwn(h, e); }
      else if w.sm.state == ST_HANDSHAKE { StepHandshakeOwn(h, e); }
      else if w.sm.state == ST_DHCP { StepDhcpOwn(h, e); }
      else if w.sm.state == ST_CONNECTED { StepConnectedOwn(h, e); }
      SameOwnKept(w, StaStep(w, e));
    }
  }

  /** Clearing the record forgets payloads; it never frees or reads one. */
  lemma {:induction false} ClearedOwn(w: World, r: World)
    requires OwnOk(w) && r.mem == w.mem && QueuePtrs(r.queue) == QueuePtrs(w.queue)
    requires r.sm.msg.param == r.sm.wps.bcn == r.sm.wps.cred == 0
    ensures OwnOk(r)
  {
  }

  lemma {:induction false} StaResetOwn(w: World)
    requires OwnOk(w)
    ensures OwnOk(StaReset(w)) && StaReset(w).sm.msg.param == 0 && StaReset(w).mem == w.mem
  {
    hide EnterIdle, RetryParamSet, Observe, CountOf;
    var w1 := ClearRecord(w, true);
    RetryParamSetFacts(w1, false);
    EnterIdleOwn(RetryParamSet(w1, false));
    ClearedOwn(w, StaReset(w));
  }

  lemma {:induction false} ApOwn(w: World, e: Env)
    requires OwnOk(w)
    ensures w.sm.init && w.sm.msg.event != Init ==> SameOwn(w, ApStep(w, e))
  {
    hide OwnOk, Owners, QueuePtrs;
    hide UserScan, PostScanDone, Observe, CountOf;
    ReadOwned(w);
    UserScanFacts(w, e);
    PostScanDoneFacts(w, SCAN_SUCCESS);
    PostScanDoneFacts(w, SCAN_FAILED);
  }

  lemma {:induction false} MonitorOwn(w: World, e: Env)
    requires OwnOk(w)
    ensures w.sm.init && w.sm.msg.event != Init ==> SameOwn(w, MonitorStep(w, e))
  {
    hide OwnOk, Owners, QueuePtrs;
    hide UserScan, PostScanDone, Observe, CountOf;
    ReadOwned(w);
    UserScanFacts(w, e);
    PostScanDoneFacts(w, SCAN_SUCCESS);
    PostScanDoneFacts(w, SCAN_FAILED);
  }

  lemma {:induction false} OthersOwn(w: World, e: Env)
    requires OwnOk(w)
    ensures w.sm.init && w.sm.msg.event != Init ==> Kept(w, ApStep(w, e)) && Kept(w, MonitorStep(w, e))
    ensures w.sm.init && w.sm.msg.event != Init ==>
              ApStep(w, e).sm.msg.param == MonitorStep(w, e).sm.msg.param == w.sm.msg.param
    ensures !(w.sm.init && w.sm.msg.event != Init) ==> OwnOk(ApStep(w, e)) && OwnOk(MonitorStep(w, e))
  {
    hide OwnOk, Owners, QueuePtrs, Kept;
    if w.sm.init && w.sm.msg.event != Init {
      hide ApStep, MonitorStep;
      ApOwn(w, e);
      MonitorOwn(w, e);
      SameOwnKept(w, ApStep(w, e));
      SameOwnKept(w, MonitorStep(w, e));
    } else {
      ClearedOwn(w, ClearRecord(w, false));
    }
  }

  lemma {:induction false} SwitchModeOwn(w: World, e: Env)
    ensures SameOwn(w, SwitchMode(w, e))
  {
    hide OwnOk, Owners, QueuePtrs;
    hide EnterIdle, RetryParamSet, Observe, CountOf;
    EnterIdleOwn(w);
    var w1 := LeaveMode(w).(vif := VifSta);
    var w2 := w1.(sm := w1.sm.(msg := w1.sm.msg.(event := Foreign, reason := 0), init := true));
    RetryParamSetFacts(w2.(sm := w2.sm.(roam := w2.sm.roam.(polling := false))), false);
  }

  /** The machine addressed by a message is initialised, or none is. */
  predicate Ready(w: World) {
    w.sm.init || w.sm.msg.event == SwitchModeCmd || w.vif == VifUnknown || w.vif == VifOther
  }

  lemma {:induction false} MachineStepOwn(w: World, e: Env)
    requires OwnOk(w)
    ensures OwnOk(MachineStep(w, e))
    ensures Ready(w) && w.sm.msg.event != Init ==> Kept(w, MachineStep(w, e))
  {
    hide OwnOk, Owners, QueuePtrs;
    hide SwitchMode, StaStep, ApStep, MonitorStep, Observe;
    SwitchModeOwn(w, e);
    SameOwnKept(w, SwitchMode(w, e));
    SameOwnKept(w, w);
    OthersOwn(w, e);
    if w.sm.init && w.sm.msg.event != Init {
      StaStepOwn(w, e);
    } else {
      StaStepResets(w, e);
    }
  }

  lemma {:induction false} StaStepResets(w: World, e: Env)
    requires OwnOk(w) && (!w.sm.init || w.sm.msg.event == Init)
    ensures OwnOk(StaStep(w, e))
  {
    hide StaReset;
    StaResetOwn(w);
  }

  lemma {:induction false} ReleaseOwn(w: World)
    requires OwnOk(w)
    ensures OwnOk(ReleaseParam(w)) && ReleaseParam(w).sm.msg.param == 0
    ensures w.sm.msg.param !in ReleaseParam(w).mem.live
    ensures ReleaseParam(w).sm.wps == w.sm.wps && ReleaseParam(w).mem.live <= w.mem.live
  {
    if w.sm.msg.param != 0 {
      var rest := QueuePtrs(w.queue) + Ptr(w.sm.wps.bcn) + Ptr(w.sm.wps.cred);
      assert Owners(w) == rest + multiset{w.sm.msg.param};
      FreeOwned(w.mem.live, rest, w.sm.msg.param);
    }
  }

  /** Between messages the record holds no payload of its own. */
  predicate Settled(w: World) {
    OwnOk(w) && w.sm.msg.param == 0
  }

  lemma {:induction false} LoadOwn(w: World)
    requires Settled(w) && w.queue != []
    ensures OwnOk(LoadMessage(TakeMessage(w), w.queue[0]))
    ensures Settled(TakeMessage(w))
  {
    var m, w1 := w.queue[0], TakeMessage(w);
    assert Owners(w) == Owners(w1) + Ptr(m.param);
    assert Owners(LoadMessage(w1, m)) == Owners(w);
  }

  lemma {:induction false} DispatchOwn(w: World, e: Env)
    requires Settled(w) && w.queue != []
    ensures Settled(Dispatch(w, e))
  {
    hide MachineStep, ReleaseParam, OwnOk, Owners, QueuePtrs;
    LoadOwn(w);
    var l := LoadMessage(TakeMessage(w), w.queue[0]);
    MachineStepOwn(l, e);
    ReleaseOwn(MachineStep(l, e));
  }

  /** A payload whose message reaches an initialised machine is freed by the end
      of its dispatch, unless it is INIT or one of the two WPS hand-overs. */
  lemma {:induction false} DispatchFrees(w: World, e: Env)
    requires Settled(w) && w.queue != []
    requires var m := w.queue[0];
             m.param != 0 && m.vif == 0 && m.event != Foreign && m.event != Init
             && Ready(LoadMessage(TakeMessage(w), m))
    ensures var m, r := w.queue[0], Dispatch(w, e);
            && r.mem.live <= w.mem.live
            && (m.param !in r.mem.live
                || (w.vif == VifSta && w.sm.state == ST_WPS
                    && ((m.event == ScanResult && r.sm.wps.bcn == m.param)
                        || (m.event == WpsCred && r.sm.wps.cred == m.param))))
  {
    hide MachineStep, ReleaseParam, OwnOk, Owners, QueuePtrs;
    LoadOwn(w);
    var l := LoadMessage(TakeMessage(w), w.queue[0]);
    MachineStepOwn(l, e);
    ReleaseOwn(MachineStep(l, e));
    if w.vif != VifSta {
      OnlyStationHandsOver(l, e);
    }
  }

  lemma {:induction false} OnlyStationHandsOver(w: World, e: Env)
    requires OwnOk(w) && Ready(w) && w.sm.msg.event != Init && w.vif != VifSta
    ensures MachineStep(w, e).sm.msg.param == w.sm.msg.param
  {
    hide OwnOk, Owners, QueuePtrs;
    hide SwitchMode, StaStep, ApStep, MonitorStep, Observe;
    SwitchModeOwn(w, e);
    OthersOwn(w, e);
  }

  lemma {:induction false} FireDhcpOwn(w: World, e: Env)
    ensures SameOwn(w, FireDhcp(w, e))
  {
    hide Observe, CountOf, Insert, QueuePtrs;
    QueuedPtrs(w.queue, FireDhcp(w, e).queue);
  }

  lemma {:induction false} FireOtherOwn(w: World, e: Env)
    ensures SameOwn(w, FireLink(w, e)) && SameOwn(w, FireWps(w, e))
  {
    hide Observe, CountOf, Insert, QueuePtrs;
    QueuedPtrs(w.queue, FireWps(w, e).queue);
  }

  lemma {:induction false} FireRetryOwn(w: World, e: Env)
    ensures SameOwn(w, FireRetry(w, e))
  {
    hide EnterScan, QueuePtrs;
    EnterScanOwn(w.(sm := w.sm.(retry := w.sm.retry.(count := (w.sm.retry.count - 1) % WORD32,
                                                     delayed := false))), e);
  }

  lemma {:induction false} CallbackOwn(w: World, h: Handler, e: Env)
    requires Settled(w)
    ensures Settled(Callback(w, h, e))
  {
    hide FireRetry, FireDhcp, FireLink, FireWps, OwnOk, Owners, QueuePtrs;
    FireRetryOwn(w, e);
    FireDhcpOwn(w, e);
    FireOtherOwn(w, e);
    SameOwnOk(w, Callback(w, h, e));
  }

  lemma {:induction false} ArriveOwn(w: World, m: Msg)
    requires Settled(w) && m.param !in w.mem.live
    ensures Settled(w.(queue := w.queue + [m],
                       mem := w.mem.(live := if m.param == 0 then w.mem.live else w.mem.live + {m.param})))
  {
    QueuePtrsAppend(w.queue, m);
    if m.param != 0 {
      assert multiset(w.mem.live + {m.param}) == multiset(w.mem.live) + multiset{m.param};
    }
  }

  lemma {:induction false} NextOwn(w: World, s: Step)
    requires Settled(w) && Enabled(w, s)
    ensures Settled(Next(w, s))
  {
    hide Dispatch, Callback;
    match s
    case Handle(e) => DispatchOwn(w, e);
    case Fire(e) =>
      if HeadDue(w) {
        CallbackOwn(TakeTimer(w), w.timers[0].handler, e);
      }
    case Arrive(m) => ArriveOwn(w, m);
    case _ =>
  }

  /** Over every run: one owner per payload, no double free, no read after free. */
  lemma {:induction false} RunOwnership(ws: seq<World>, ss: seq<Step>, i: nat)
    requires Run(ws, ss) && i < |ws|
    ensures !ws[i].mem.fault
    ensures forall p :: p in Owners(ws[i]) ==> Owners(ws[i])[p] == 1 && p in ws[i].mem.live
    ensures Settled(ws[i])
  {
    if i > 0 {
      RunOwnership(ws, ss, i - 1);
      NextOwn(ws[i - 1], ss[i - 1]);
    } else {
      assert ws[0].queue[1..] == [];
      assert QueuePtrs(ws[0].queue) == multiset{};
    }
    forall p | p in Owners(ws[i]) ensures Owners(ws[i])[p] == 1 && p in ws[i].mem.live {
      OwnedOnceAndLive(ws[i], p);
    }
  }
}
