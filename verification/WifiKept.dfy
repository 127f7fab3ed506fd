/** What no step of the machines undoes: the trail only grows, blocks are only freed, an initialised
    record stays initialised and budgeted, and nobody but the initialisation posts INIT. */
module WifiKept {
  import opened EventLoop
  import opened WifiTypes
  import opened WifiSpec
  import opened WifiCoherence
  import opened WifiEntries

  predicate NoInit(q: seq<Msg>) { forall i :: 0 <= i < |q| ==> q[i].event != Init }

  /** The trail grows, and by no Handled. */
  predicate NoNotes(a: seq<Effect>, b: seq<Effect>) {
    a <= b && forall k :: |a| <= k < |b| ==> !b[k].Handled?
  }

  predicate Kept(w: World, r: World) {
    && NoNotes(w.log, r.log)
    && r.mem.live <= w.mem.live
    && r.sm.init == w.sm.init
    && (w.sm.retry.limit != 0 ==> r.sm.retry.limit != 0)
    && (NoInit(w.queue) ==> NoInit(r.queue))
  }

  lemma {:induction false} KeptTrans(a: World, b: World, c: World)
    requires Kept(a, b) && Kept(b, c)
    ensures Kept(a, c)
  {
  }

  // ---------------------------------------------------------------- the pieces

  lemma {:induction false} CompletionsKept(w: World, reason: nat)
    ensures Kept(w, PostConnDone(w, reason)) && Kept(w, PostScanDone(w, reason))
  {
  }

  lemma {:induction false} PostsKept(w: World, e: Env, reason: nat)
    ensures Kept(w, PostConnDone(w, reason)) && Kept(w, PostScanDone(w, reason)) && Kept(w, CopyCfg(w, e))
  {
    hide PostConnDone, PostScanDone;
    CompletionsKept(w, reason);
  }

  lemma {:induction false} RetriesKept(w: World)
    ensures Kept(w, RetryParamSet(w, false)) && Kept(w, RetryParamSet(w, true)) && Kept(w, PreroamRollback(w))
  {
  }

  lemma {:induction false} TimersKept(w: World)
    ensures Kept(w, WpsStop(w)) && Kept(w, RegisterRetry(w)) && Kept(w, StartRoaming(w))
  {
    hide CountOf, Insert, Without, RetryDelay;
  }

  lemma {:induction false} EnterIdleKept(w: World)
    ensures Kept(w, EnterIdle(w))
  {
    hide CountOf, Without;
  }

  lemma {:induction false} EnterScanKept(w: World, e: Env)
    ensures Kept(w, EnterScan(w, e))
  {
    hide CountOf, Without;
  }

  lemma {:induction false} PhasesKept(w: World, e: Env)
    ensures Kept(w, EnterConnect(w, e)) && Kept(w, EnterHandshake(w)) && Kept(w, EnterDhcp(w, e))
  {
    hide CountOf, Insert;
  }

  lemma {:induction false} CallersKept(w: World, e: Env)
    ensures Kept(w, UserScan(w, e)) && Kept(w, LinkIsOngoing(w))
  {
  }

  lemma {:induction false} EnterWpsKept(w: World, e: Env)
    ensures Kept(w, EnterWps(w, e))
  {
  }

  lemma {:induction false} EnterConnectedKept(w: World)
    ensures Kept(w, EnterConnected(w))
  {
  }

  lemma {:induction false} RoamingScanKept(w: World, e: Env)
    ensures Kept(w, RoamingScanDone(w, e))
  {
  }

  lemma {:induction false} ConnectedScanKept(w: World, e: Env)
    ensures Kept(w, ConnectedScanDone(w, e))
  {
    hide Kept, PostScanDone, RoamingScanDone;
    SameKept(w, w);
    RoamingScanKept(w, e);
    var w1 := if w.sm.roam.polling then RoamingScanDone(w, e) else w;
    var w2 := PostScanDone(w1, SCAN_SUCCESS);
    PostsKept(w1, e, SCAN_SUCCESS);
    PostsKept(w2, e, SCAN_FAILED);
    KeptTrans(w, w1, w2);
    KeptTrans(w, w2, PostScanDone(w2, SCAN_FAILED));
  }

  lemma {:induction false} ReadKept(w: World)
    ensures Kept(w, Read(w, w.sm.msg.param))
  {
  }

  // ---------------------------------------------------------------- the handlers

  /** A budget and a new attempt, from a world reached without undoing anything. */
  lemma {:induction false} FreshScanKept(w: World, w1: World, roaming: bool, e: Env)
    requires Kept(w, w1)
    ensures Kept(w, EnterScan(RetryParamSet(w1, roaming), e))
  {
    hide Kept, EnterScan, RetryParamSet;
    RetriesKept(w1);
    EnterScanKept(RetryParamSet(w1, roaming), e);
    KeptTrans(w, w1, RetryParamSet(w1, roaming));
    KeptTrans(w, RetryParamSet(w1, roaming), EnterScan(RetryParamSet(w1, roaming), e));
  }

  lemma {:induction false} GiveUpKept(w: World, e: Env, reason: nat)
    ensures Kept(w, EnterIdle(PostConnDone(PreroamRollback(w), reason)))
  {
    hide Kept, EnterIdle, PostConnDone, PreroamRollback;
    var w1 := PreroamRollback(w);
    var w2 := PostConnDone(w1, reason);
    RetriesKept(w);
    PostsKept(w1, e, reason);
    EnterIdleKept(w2);
    KeptTrans(w, w1, w2);
    KeptTrans(w, w2, EnterIdle(w2));
  }

  lemma {:induction false} SameKept(w: World, r: World)
    requires r.log == w.log && r.mem == w.mem && r.sm.init == w.sm.init && r.queue == w.queue
    requires r.sm.retry.limit == w.sm.retry.limit
    ensures Kept(w, r)
  {
  }

  lemma {:induction false} AttemptFailedKept(w: World, e: Env)
    ensures Kept(w, AttemptFailed(w, e))
  {
    hide Kept, EnterIdle, PostConnDone, PreroamRollback, EnterScan, RegisterRetry;
    var w1 := w.(lastReason := w.sm.msg.reason);
    var w2 := w1.(sm := w1.sm.(retry := w1.sm.retry.(delayed := true)));
    SameKept(w, w1);
    SameKept(w, w2);
    EnterScanKept(w2, e);
    TimersKept(EnterScan(w2, e));
    KeptTrans(w, w2, EnterScan(w2, e));
    KeptTrans(w, EnterScan(w2, e), RegisterRetry(EnterScan(w2, e)));
    GiveUpKept(w1, e, w1.sm.msg.reason);
    KeptTrans(w, w1, EnterIdle(PostConnDone(PreroamRollback(w1), w1.sm.msg.reason)));
  }

  lemma {:induction false} StepIdleKept(w: World, e: Env)
    ensures Kept(w, StepIdle(w, e))
  {
    hide Kept, EnterIdle, EnterScan, EnterWps, UserScan, CopyCfg, RetryParamSet, PostScanDone;
    var ev := w.sm.msg.event;
    SameKept(w, w);
    if ev == ScanCmd {
      CallersKept(w, e);
    } else if ev == ConnectCmd {
      PostsKept(w, e, 0);
      FreshScanKept(w, CopyCfg(w, e), false, e);
    } else if ev == AutoConnectCmd {
      var w1 := w.(cfg := w.cfg.(channel := e.apChannel));
      SameKept(w, w1);
      FreshScanKept(w, w1, true, e);
      EnterIdleKept(w);
    } else if ev == ScanDone {
      PostsKept(w, e, SCAN_SUCCESS);
    } else if ev == WpsCmd {
      EnterWpsKept(w, e);
    }
  }

  lemma {:induction false} UseCredentialKept(w: World)
    ensures Kept(w, UseCredential(w))
  {
  }

  lemma {:induction false} WpsLeavesKept(w: World, e: Env)
    ensures Kept(w, WpsFailed(w)) && Kept(w, EnterIdle(WpsStop(w)))
    ensures Kept(w, WpsDisconnect(w, e))
  {
    hide Kept, EnterIdle, EnterScan, PostConnDone, RetryParamSet, WpsStop, UseCredential;
    var s := WpsStop(w);
    var p := PostConnDone(s, CONN_WPS_FAIL);
    SameKept(w, w);
    TimersKept(w);
    PostsKept(s, e, CONN_WPS_FAIL);
    EnterIdleKept(p);
    EnterIdleKept(s);
    KeptTrans(w, s, EnterIdle(s));
    KeptTrans(w, s, p);
    KeptTrans(w, p, EnterIdle(p));
    UseCredentialKept(s);
    KeptTrans(w, s, UseCredential(s));
    FreshScanKept(w, UseCredential(s), false, e);
  }

  lemma {:induction false} WpsScanResultKept(w: World, e: Env)
    ensures Kept(w, WpsScanResult(w, e))
  {
    hide CountOf, Without;
  }

  lemma {:induction false} WpsScanDoneKept(w: World, e: Env)
    ensures Kept(w, WpsScanDone(w, e))
  {
    hide CountOf, Insert;
  }

  lemma {:induction false} StepWpsKept(w: World, e: Env)
    ensures Kept(w, StepWps(w, e))
  {
    hide EnterIdle, WpsStop, WpsFailed, WpsDisconnect, WpsScanResult, WpsScanDone;
    if LeavesWps(w.sm.msg.event) {
      WpsLeavesKept(w, e);
    } else if w.sm.msg.event == ScanResult {
      WpsScanResultKept(w, e);
    } else if w.sm.msg.event == ScanDone {
      WpsScanDoneKept(w, e);
    }
  }

  lemma {:induction false} StepScanKept(w: World, e: Env)
    ensures Kept(w, StepScan(w, e))
  {
    hide Kept, EnterIdle, EnterConnect, RegisterRetry, LinkIsOngoing, PostConnDone, PreroamRollback;
    SameKept(w, w);
    CallersKept(w, e);
    EnterIdleKept(w);
    PhasesKept(w, e);
    TimersKept(w);
    GiveUpKept(w, e, w.sm.msg.reason);
  }

  lemma {:induction false} StepConnectKept(w: World, e: Env)
    ensures Kept(w, StepConnect(w, e)) && Kept(w, StepHandshake(w, e))
  {
    hide Kept, EnterIdle, EnterHandshake, EnterDhcp, LinkIsOngoing, AttemptFailed, Read;
    SameKept(w, w);
    CallersKept(w, e);
    EnterIdleKept(w);
    PhasesKept(w, e);
    ReadKept(w);
    AttemptFailedKept(w, e);
  }

  lemma {:induction false} StepDhcpKept(w: World, e: Env)
    ensures Kept(w, StepDhcp(w, e))
  {
    hide Kept, EnterIdle, EnterConnected, LinkIsOngoing, AttemptFailed, Read, CancelTimer;
    SameKept(w, w);
    CallersKept(w, e);
    EnterIdleKept(w);
    EnterConnectedKept(w);
    CancelTimerKept(EnterConnected(w), ConnectRetry);
    KeptTrans(w, EnterConnected(w), CancelTimer(EnterConnected(w), ConnectRetry));
    ReadKept(w);
    AttemptFailedKept(w, e);
  }

  lemma {:induction false} CancelTimerKept(w: World, h: Handler)
    ensures Kept(w, CancelTimer(w, h))
  {
    hide CountOf, Without;
  }

  lemma {:induction false} ConnectedLeavesKept(w: World, e: Env)
    ensures Kept(w, Reconnect(w, e)) && Kept(w, ConnectedDisconnect(w, e))
    ensures Kept(w, EnterWps(RetryParamSet(EnterIdle(w), false), e))
  {
    hide Kept, EnterIdle, EnterScan, EnterWps, CopyCfg, RetryParamSet;
    var c := CopyCfg(w, e);
    PostsKept(w, e, 0);
    EnterIdleKept(c);
    KeptTrans(w, c, EnterIdle(c));
    FreshScanKept(w, EnterIdle(c), false, e);
    var w1 := w.(lastReason := w.sm.msg.reason);
    SameKept(w, w1);
    FreshScanKept(w, w1, true, e);
    EnterIdleKept(w1);
    KeptTrans(w, w1, EnterIdle(w1));
    EnterIdleKept(w);
    var b := RetryParamSet(EnterIdle(w), false);
    RetriesKept(EnterIdle(w));
    KeptTrans(w, EnterIdle(w), b);
    EnterWpsKept(b, e);
    KeptTrans(w, b, EnterWps(b, e));
  }

  lemma {:induction false} StepConnectedKept(w: World, e: Env)
    ensures Kept(w, StepConnected(w, e))
  {
    hide Kept, EnterIdle, UserScan, PostScanDone, Reconnect, EnterWps, RetryParamSet, ConnectedScanDone,
         ConnectedDisconnect, StartRoaming, Read;
    SameKept(w, w);
    CallersKept(w, e);
    ConnectedLeavesKept(w, e);
    EnterIdleKept(w);
    ConnectedScanKept(w, e);
    PostsKept(w, e, SCAN_FAILED);
    ReadKept(w);
    TimersKept(w);
  }

  /** The station machine first notes the event it looks at, and then no other. */
  lemma {:induction false} StaStepKept(w: World, e: Env)
    requires w.sm.init && w.sm.msg.event != Init
    ensures Kept(Emit(w, Handled(w.sm.msg.event, w.sm.state)), StaStep(w, e))
  {
    hide Kept, StepIdle, StepWps, StepScan, StepConnect, StepHandshake, StepDhcp, StepConnected;
    var h := Emit(w, Handled(w.sm.msg.event, w.sm.state));
    SameKept(h, h);
    StepIdleKept(h, e);
    StepWpsKept(h, e);
    StepScanKept(h, e);
    StepConnectKept(h, e);
    StepDhcpKept(h, e);
    StepConnectedKept(h, e);
  }

  lemma {:induction false} StartedKept(w: World, r: World)
    requires r.log == w.log && r.sm == w.sm.(state := r.sm.state) && r.queue == w.queue && r.mem.live == w.mem.live
    ensures Kept(w, r)
  {
  }

  lemma {:induction false} ApStepKept(w: World, e: Env)
    requires w.sm.init && w.sm.msg.event != Init
    ensures Kept(w, ApStep(w, e))
  {
    hide Kept, UserScan, PostScanDone;
    var ev := w.sm.msg.event;
    if w.sm.state == ST_STARTED && ev == ScanCmd {
      CallersKept(w, e);
    } else if w.sm.state == ST_STARTED && (ev == ScanDone || ev == ScanFail) {
      CompletionsKept(w, SCAN_SUCCESS);
      CompletionsKept(w, SCAN_FAILED);
    } else {
      StartedKept(w, ApStep(w, e));
    }
  }

  lemma {:induction false} MonitorStepKept(w: World, e: Env)
    requires w.sm.init && w.sm.msg.event != Init
    ensures Kept(w, MonitorStep(w, e))
  {
    hide Kept, UserScan, PostScanDone;
    var ev := w.sm.msg.event;
    if w.sm.state == ST_STARTED && ev == ScanCmd {
      CallersKept(w, e);
    } else if w.sm.state == ST_STARTED && (ev == ScanDone || ev == ScanFail) {
      CompletionsKept(w, SCAN_SUCCESS);
      CompletionsKept(w, SCAN_FAILED);
    } else {
      StartedKept(w, MonitorStep(w, e));
    }
  }

  lemma {:induction false} LeaveModeKept(w: World)
    ensures Kept(w, LeaveMode(w).(vif := VifSta)) && forall v :: Kept(w, LeaveMode(w).(vif := v))
  {
    hide EnterIdle;
    EnterIdleKept(w);
  }

  /** A switch ends the old machine and initialises the record, if it gets that far. */
  lemma {:induction false} EnterModeKept(w: World, target: VifType)
    ensures var r := EnterMode(w, target);
            && NoNotes(w.log, r.log) && r.mem == w.mem && r.sm.init && r.queue == w.queue
            && (w.sm.retry.limit != 0 ==> r.sm.retry.limit != 0)
  {
    hide RetryParamSet;
    var w1 := StartMode(w);
    RetriesKept(w1.(sm := w1.sm.(roam := w1.sm.roam.(polling := false))));
    RetryParamSetFacts(w1.(sm := w1.sm.(roam := w1.sm.roam.(polling := false))), false);
  }

  lemma {:induction false} SwitchModeKept(w: World, e: Env)
    ensures w.sm.init ==> Kept(w, SwitchMode(w, e))
    ensures Grows(w, SwitchMode(w, e))
  {
    hide LeaveMode, EnterMode;
    var target := VifTypeOf(w.sm.msg.reason);
    LeaveModeKept(w);
    EnterModeKept(LeaveMode(w).(vif := target), target);
  }

  /** The world in which a message is handled: the station machine notes it, unless it starts anew. */
  function Noted(w: World): World {
    if w.vif == VifSta && w.sm.init && w.sm.msg.event != Init && w.sm.msg.event != SwitchModeCmd
    then Emit(w, Handled(w.sm.msg.event, w.sm.state)) else w
  }

  /** Every message but INIT, once the record is initialised. */
  lemma {:induction false} MachineStepKept(w: World, e: Env)
    requires w.sm.init && w.sm.msg.event != Init
    ensures Kept(Noted(w), MachineStep(w, e))
  {
    hide Kept, StaStep, ApStep, MonitorStep, SwitchMode;
    SameKept(w, w);
    if w.sm.msg.event == SwitchModeCmd {
      SwitchModeKept(w, e);
    } else if w.vif == VifSta {
      StaStepKept(w, e);
    } else if w.vif == VifAp {
      ApStepKept(w, e);
    } else if w.vif == VifMonitor {
      MonitorStepKept(w, e);
    }
  }

  lemma {:induction false} PollsKept(w: World, e: Env)
    ensures Kept(w, FireDhcp(w, e)) && Kept(w, FireLink(w, e)) && Kept(w, FireWps(w, e))
  {
    DhcpPollKept(w, e);
    LinkPollKept(w, e);
    hide Kept, FireDhcp, FireLink;
    WpsPollKept(w, e);
  }

  lemma {:induction false} DhcpPollKept(w: World, e: Env)
    ensures Kept(w, FireDhcp(w, e))
  {
    hide CountOf, Insert;
  }

  lemma {:induction false} LinkPollKept(w: World, e: Env)
    ensures Kept(w, FireLink(w, e))
  {
    hide CountOf, Insert;
  }

  lemma {:induction false} WpsPollKept(w: World, e: Env)
    ensures Kept(w, FireWps(w, e))
  {
  }

  lemma {:induction false} FireHeadKept(w: World, e: Env)
    ensures Kept(w, FireHead(w, e))
  {
    hide Kept, FireDhcp, FireLink, FireWps, EnterScan, CountOf;
    SameKept(w, w);
    if HeadDue(w) {
      var w1 := TakeTimer(w);
      var w2 := w1.(sm := w1.sm.(retry := w1.sm.retry.(count := (w1.sm.retry.count - 1) % WORD32, delayed := false)));
      SameKept(w, w1);
      SameKept(w, w2);
      EnterScanKept(w2, e);
      KeptTrans(w, w2, EnterScan(w2, e));
      PollsKept(w1, e);
      KeptTrans(w, w1, FireHead(w, e));
    }
  }

  // ---------------------------------------------------------------- steps

  /** What even the initialisation of the record does not undo. */
  predicate Grows(w: World, r: World) { NoNotes(w.log, r.log) && r.mem.live <= w.mem.live }

  lemma {:induction false} ClearGrows(w: World)
    ensures Grows(w, StaReset(w)) && Grows(w, ClearRecord(w, false))
    ensures StaReset(w).sm.init && StaReset(w).sm.retry.limit != 0 && StaReset(w).queue == w.queue
  {
    hide EnterIdle, RetryParamSet;
    var w1 := ClearRecord(w, true);
    RetriesKept(w1);
    RetryParamSetFacts(w1, false);
    EnterIdleKept(RetryParamSet(w1, false));
    EnterIdleFacts(RetryParamSet(w1, false));
  }

  lemma {:induction false} MachineStepGrows(w: World, e: Env)
    ensures Grows(Noted(w), MachineStep(w, e))
  {
    hide StaStep, ApStep, MonitorStep, SwitchMode, Grows, StaReset, ClearRecord;
    if w.sm.init && w.sm.msg.event != Init {
      MachineStepKept(w, e);
      KeptGrows(Noted(w), MachineStep(w, e));
    } else {
      ResetGrows(w, e);
    }
  }

  lemma {:induction false} KeptGrows(w: World, r: World)
    requires Kept(w, r)
    ensures Grows(w, r)
  {
  }

  lemma {:induction false} ResetGrows(w: World, e: Env)
    requires !(w.sm.init && w.sm.msg.event != Init)
    ensures Grows(w, MachineStep(w, e))
  {
    hide SwitchMode, StaReset, ClearRecord, StepIdle, StepWps, StepScan, StepConnect, StepHandshake, StepDhcp,
         StepConnected, UserScan, PostScanDone;
    ClearGrows(w);
    SwitchModeKept(w, e);
  }

  /** The trail once a step's message, if it has one, is noted. */
  function NotedLog(w: World, s: Step): seq<Effect> {
    if s.Handle? && w.queue != [] && w.queue[0].vif == 0 && w.queue[0].event != Foreign
    then Noted(LoadMessage(TakeMessage(w), w.queue[0])).log else w.log
  }

  /** Over a step the trail grows, with the message it handles first, and no block comes to life except
      the payload of an arrival. */
  lemma {:induction false} NextGrows(w: World, s: Step)
    requires Enabled(w, s)
    ensures w.log <= Next(w, s).log && NoNotes(NotedLog(w, s), Next(w, s).log)
    ensures Next(w, s).mem.live <= w.mem.live + (if s.Arrive? then {s.msg.param} else {})
  {
    hide MachineStep, FireHead;
    SameKept(w, w);
    if s.Handle? {
      MachineStepGrows(LoadMessage(TakeMessage(w), w.queue[0]), s.env);
    } else if s.Fire? {
      FireHeadKept(w, s.env);
    }
  }

  lemma {:induction false} RunGrows(ws: seq<World>, ss: seq<Step>, i: nat, j: nat)
    requires Run(ws, ss) && i <= j < |ws|
    ensures ws[i].log <= ws[j].log
  {
    hide Next, Enabled, Start;
    if i < j {
      RunGrows(ws, ss, i, j - 1);
      NextGrows(ws[j - 1], ss[j - 1]);
      assert ws[j - 1 + 1] == Next(ws[j - 1], ss[j - 1]);
    }
  }
}
