/** Where each event takes the station, and that it gets there: the machine's diagram, its progress
    through the phases of a connection, and the answer a blocked caller receives. */
module WifiMoves {
  import opened EventLoop
  import opened WifiTypes
  import opened WifiSpec
  import opened WifiCoherence
  import opened WifiEntries
  import opened WifiKept

  // ---------------------------------------------------------------- the diagram

  function FromIdle(ev: Event, apLoaded: bool): nat {
    if ev == ConnectCmd || (ev == AutoConnectCmd && apLoaded) then ST_SCAN
    else if ev == WpsCmd then ST_WPS
    else ST_IDLE
  }

  /** WPS ends with a disconnection, as a connection if it has got a credential and is done. */
  function FromWps(ev: Event, wps: Wps): nat {
    if ev == DisconnectCmd || ev == ScanFail || ev == ConnectFail || ev == WpsFail then ST_IDLE
    else if ev == Disconnect && wps.stage != WpsInit && wps.stage != WpsScan then
      (if wps.cred != 0 && wps.stage == WpsDone then ST_SCAN else ST_IDLE)
    else ST_WPS
  }

  function FromScan(ev: Event, retries: nat): nat {
    if ev == ScanDone then ST_CONNECT
    else if ev == DisconnectCmd || ev == ConnectFail || (ev == ScanFail && retries == 0) then ST_IDLE
    else ST_SCAN
  }

  /** An attempt goes on to `next` on the event `done`, and is retried on a failure while it may be. */
  function FromAttempt(from: nat, ev: Event, retries: nat, done: Event, next: nat): nat {
    if ev == done then next
    else if ev == DisconnectCmd then ST_IDLE
    else if ev == ConnectFail || ev == Disconnect || (from == ST_DHCP && ev == DhcpFail) then
      (if retries > 0 then ST_SCAN else ST_IDLE)
    else from
  }

  /** A link that broke off is looked for again, one that was ended is not. */
  function FromConnected(ev: Event, reason: nat): nat {
    if ev == ConnectCmd then ST_SCAN
    else if ev == WpsCmd then ST_WPS
    else if ev == DisconnectCmd then ST_IDLE
    else if ev == Disconnect then
      (if reason == 11 || reason == 12 || reason == 15 || reason == 16 then ST_SCAN else ST_IDLE)
    else ST_CONNECTED
  }

  /** Where a station in a state is after an event; what the record holds matters where shown. */
  function Diagram(from: nat, ev: Event, reason: nat, retries: nat, wps: Wps, apLoaded: bool): nat {
    if from == ST_IDLE then FromIdle(ev, apLoaded)
    else if from == ST_WPS then FromWps(ev, wps)
    else if from == ST_SCAN then FromScan(ev, retries)
    else if from == ST_CONNECT then FromAttempt(from, ev, retries, AssocSuccess, ST_HANDSHAKE)
    else if from == ST_HANDSHAKE then FromAttempt(from, ev, retries, DhcpStart, ST_DHCP)
    else if from == ST_DHCP then FromAttempt(from, ev, retries, DhcpSuccess, ST_CONNECTED)
    else FromConnected(ev, reason)
  }

  lemma {:induction false} EntriesMove(w: World, e: Env)
    ensures EnterIdle(w).sm.state == ST_IDLE && EnterIdle(w).vif == w.vif && EnterIdle(w).sm.init == w.sm.init
    ensures EnterScan(w, e).sm.state == ST_SCAN && EnterScan(w, e).vif == w.vif && EnterScan(w, e).sm.init == w.sm.init
    ensures EnterWps(w, e).sm.state == ST_WPS && EnterWps(w, e).vif == w.vif && EnterWps(w, e).sm.init == w.sm.init
  {
    hide EnterIdle, EnterScan, EnterWps, CountOf, Observe;
    EnterIdleFacts(w);
    EnterScanFacts(w, e);
    EnterWpsFacts(w, e);
  }

  /** The same interface, and the given state. */
  predicate MovedTo(w: World, r: World, state: nat) { r.vif == w.vif && r.sm.state == state && r.sm.init == w.sm.init }

  function Goes(w: World, e: Env): nat {
    Diagram(w.sm.state, w.sm.msg.event, w.sm.msg.reason, w.sm.retry.count, w.sm.wps, e.apLoaded)
  }

  lemma {:induction false} ScanMoves(w: World, e: Env)
    requires w.sm.state == ST_SCAN
    ensures MovedTo(w, StepScan(w, e), FromScan(w.sm.msg.event, w.sm.retry.count))
  {
    hide EnterIdle, RegisterRetry, PostConnDone, PreroamRollback, LinkIsOngoing, EnterConnect;
    var ev := w.sm.msg.event;
    if ev == ScanCmd || ev == ConnectCmd {
      LinkMoves(w);
    } else if ev == DisconnectCmd || ev == ConnectFail {
      EntriesMove(w, e);
    } else if ev == ScanDone {
      ConnectRequestMoves(w, e);
    } else if ev == ScanFail {
      GiveUpMoves(w, e);
      RegisterMoves(w);
    }
  }

  lemma {:induction false} ConnectRequestMoves(w: World, e: Env)
    ensures MovedTo(w, EnterConnect(w, e), ST_CONNECT)
  {
  }

  lemma {:induction false} GiveUpMoves(w: World, e: Env)
    ensures MovedTo(w, EnterIdle(PostConnDone(PreroamRollback(w), w.sm.msg.reason)), ST_IDLE)
  {
    hide EnterIdle;
    EntriesMove(PostConnDone(PreroamRollback(w), w.sm.msg.reason), e);
  }

  lemma {:induction false} LinkMoves(w: World)
    ensures MovedTo(w, LinkIsOngoing(w), w.sm.state) && MovedTo(w, Read(w, w.sm.msg.param), w.sm.state)
  {
  }

  lemma {:induction false} RegisterMoves(w: World)
    ensures RegisterRetry(w).vif == w.vif && RegisterRetry(w).sm == w.sm
  {
    hide CountOf, Insert, RetryDelay;
  }

  lemma {:induction false} AttemptMoves(w: World, e: Env)
    ensures MovedTo(w, AttemptFailed(w, e), if w.sm.retry.count > 0 then ST_SCAN else ST_IDLE)
  {
    hide EnterIdle, EnterScan, RegisterRetry, CountOf;
    var w1 := w.(lastReason := w.sm.msg.reason);
    var w2 := w1.(sm := w1.sm.(retry := w1.sm.retry.(delayed := true)));
    EntriesMove(w2, e);
    RegisterMoves(EnterScan(w2, e));
    EntriesMove(PostConnDone(PreroamRollback(w1), w1.sm.msg.reason), e);
  }

  lemma {:induction false} HandshakeEntryMoves(w: World)
    ensures MovedTo(w, EnterHandshake(w), ST_HANDSHAKE)
  {
  }

  lemma {:induction false} DhcpEntryMoves(w: World, e: Env)
    ensures MovedTo(w, EnterDhcp(w, e), ST_DHCP)
  {
    hide CountOf, Insert;
  }

  lemma {:induction false} ConnectedEntryMoves(w: World)
    ensures MovedTo(w, EnterConnected(w), ST_CONNECTED)
  {
  }

  lemma {:induction false} ConnectMoves(w: World, e: Env)
    requires w.sm.state == ST_CONNECT
    ensures MovedTo(w, StepConnect(w, e),
                    FromAttempt(ST_CONNECT, w.sm.msg.event, w.sm.retry.count, AssocSuccess, ST_HANDSHAKE))
  {
    hide EnterIdle, AttemptFailed, LinkIsOngoing, Read;
    var ev := w.sm.msg.event;
    if ev == DisconnectCmd {
      EntriesMove(w, e);
    } else if ev == ConnectFail || ev == Disconnect || ev == DhcpFail {
      AttemptMoves(w, e);
    } else {
      LinkMoves(w);
      HandshakeEntryMoves(w);
    }
  }

  lemma {:induction false} HandshakeMoves(w: World, e: Env)
    requires w.sm.state == ST_HANDSHAKE
    ensures MovedTo(w, StepHandshake(w, e),
                    FromAttempt(ST_HANDSHAKE, w.sm.msg.event, w.sm.retry.count, DhcpStart, ST_DHCP))
  {
    hide EnterIdle, AttemptFailed, LinkIsOngoing, Read, EnterDhcp;
    var ev := w.sm.msg.event;
    if ev == DisconnectCmd {
      EntriesMove(w, e);
    } else if ev == ConnectFail || ev == Disconnect || ev == DhcpFail {
      AttemptMoves(w, e);
    } else {
      LinkMoves(w);
      DhcpEntryMoves(w, e);
    }
  }

  lemma {:induction false} DhcpMoves(w: World, e: Env)
    requires w.sm.state == ST_DHCP
    ensures MovedTo(w, StepDhcp(w, e),
                    FromAttempt(ST_DHCP, w.sm.msg.event, w.sm.retry.count, DhcpSuccess, ST_CONNECTED))
  {
    hide EnterIdle, AttemptFailed, LinkIsOngoing, Read, EnterConnected, CountOf, Without;
    var ev := w.sm.msg.event;
    if ev == DisconnectCmd {
      EntriesMove(w, e);
    } else if ev == ConnectFail || ev == Disconnect || ev == DhcpFail {
      AttemptMoves(w, e);
    } else {
      LinkMoves(w);
      ConnectedEntryMoves(w);
    }
  }

  /** A fresh attempt from a world that differs in nothing the diagram looks at. */
  lemma {:induction false} FreshScanMoves(w: World, w1: World, roaming: bool, e: Env)
    requires w1.vif == w.vif && w1.sm.init == w.sm.init
    ensures MovedTo(w, EnterScan(RetryParamSet(w1, roaming), e), ST_SCAN)
  {
    hide EnterScan;
    EntriesMove(RetryParamSet(w1, roaming), e);
  }

  lemma {:induction false} CallersMove(w: World, e: Env, reason: nat)
    ensures MovedTo(w, UserScan(w, e), w.sm.state) && MovedTo(w, PostScanDone(w, reason), w.sm.state)
    ensures MovedTo(w, CopyCfg(w, e), w.sm.state)
  {
  }

  lemma {:induction false} ConnectedScanMoves(w: World, e: Env)
    ensures MovedTo(w, ConnectedScanDone(w, e), w.sm.state)
  {
  }

  lemma {:induction false} IdleMoves(w: World, e: Env)
    requires w.sm.state == ST_IDLE
    ensures MovedTo(w, StepIdle(w, e), FromIdle(w.sm.msg.event, e.apLoaded))
  {
    hide EnterIdle, EnterScan, EnterWps, UserScan, PostScanDone, CopyCfg, RetryParamSet;
    EntriesMove(w, e);
    CallersMove(w, e, SCAN_SUCCESS);
    FreshScanMoves(w, CopyCfg(w, e), false, e);
    FreshScanMoves(w, w.(cfg := w.cfg.(channel := e.apChannel)), true, e);
  }

  lemma {:induction false} WpsLeavesMoves(w: World, e: Env)
    ensures MovedTo(w, WpsFailed(w), ST_IDLE) && MovedTo(w, EnterIdle(WpsStop(w)), ST_IDLE)
    ensures MovedTo(w, WpsDisconnect(w, e),
                    if w.sm.wps.stage == WpsInit || w.sm.wps.stage == WpsScan then w.sm.state
                    else if w.sm.wps.cred != 0 && w.sm.wps.stage == WpsDone then ST_SCAN else ST_IDLE)
  {
    hide EnterIdle, EnterScan, RetryParamSet, CountOf, Without;
    var s := WpsStop(w);
    EntriesMove(s, e);
    EntriesMove(PostConnDone(s, CONN_WPS_FAIL), e);
    FreshScanMoves(w, UseCredential(s), false, e);
  }

  lemma {:induction false} WpsScansMove(w: World, e: Env)
    ensures MovedTo(w, WpsScanResult(w, e), w.sm.state) && MovedTo(w, WpsScanDone(w, e), w.sm.state)
  {
    hide CountOf, Insert, Without;
  }

  lemma {:induction false} WpsMoves(w: World, e: Env)
    requires w.sm.state == ST_WPS
    ensures MovedTo(w, StepWps(w, e), FromWps(w.sm.msg.event, w.sm.wps))
  {
    hide EnterIdle, WpsStop, WpsFailed, WpsDisconnect, WpsScanResult, WpsScanDone;
    var ev := w.sm.msg.event;
    if ev == ScanResult || ev == ScanDone {
      WpsScansMove(w, e);
    } else if ev in {DisconnectCmd, Disconnect, ScanFail, ConnectFail, WpsFail} {
      WpsLeavesMoves(w, e);
    }
  }

  lemma {:induction false} ConnectedLeavesMoves(w: World, e: Env)
    ensures MovedTo(w, Reconnect(w, e), ST_SCAN)
    ensures MovedTo(w, EnterWps(RetryParamSet(EnterIdle(w), false), e), ST_WPS)
    ensures MovedTo(w, ConnectedDisconnect(w, e), FromConnected(Disconnect, w.sm.msg.reason))
  {
    hide EnterIdle, EnterScan, EnterWps, CopyCfg;
    CallersMove(w, e, 0);
    EntriesMove(CopyCfg(w, e), e);
    FreshScanMoves(w, EnterIdle(CopyCfg(w, e)), false, e);
    EntriesMove(w, e);
    EntriesMove(RetryParamSet(EnterIdle(w), false), e);
    var w1 := w.(lastReason := w.sm.msg.reason);
    EntriesMove(w1, e);
    FreshScanMoves(w, w1, true, e);
  }

  lemma {:induction false} RoamingMoves(w: World)
    ensures MovedTo(w, StartRoaming(w), w.sm.state)
  {
    hide CountOf, Insert;
  }

  lemma {:induction false} ConnectedMoves(w: World, e: Env)
    requires w.sm.state == ST_CONNECTED
    ensures MovedTo(w, StepConnected(w, e), FromConnected(w.sm.msg.event, w.sm.msg.reason))
  {
    hide EnterIdle, EnterWps, RetryParamSet, UserScan, PostScanDone, ConnectedScanDone, Reconnect,
         ConnectedDisconnect, StartRoaming, Read;
    EntriesMove(w, e);
    CallersMove(w, e, SCAN_FAILED);
    ConnectedScanMoves(w, e);
    LinkMoves(w);
    ConnectedLeavesMoves(w, e);
    RoamingMoves(w);
  }

  /** Every event takes an initialised station exactly where the diagram says. */
  lemma {:induction false} StationMoves(w: World, e: Env)
    requires w.vif == VifSta && w.sm.init && w.sm.state <= ST_CONNECTED && w.sm.msg.event != Init
    ensures MovedTo(w, StaStep(w, e), Goes(w, e))
  {
    hide StepIdle, StepWps, StepScan, StepConnect, StepHandshake, StepDhcp, StepConnected,
         FromIdle, FromWps, FromScan, FromAttempt, FromConnected;
    var h := Emit(w, Handled(w.sm.msg.event, w.sm.state));
    if w.sm.state == ST_IDLE { IdleMoves(h, e); }
    else if w.sm.state == ST_WPS { WpsMoves(h, e); }
    else if w.sm.state == ST_SCAN { ScanMoves(h, e); }
    else if w.sm.state == ST_CONNECT { ConnectMoves(h, e); }
    else if w.sm.state == ST_HANDSHAKE { HandshakeMoves(h, e); }
    else if w.sm.state == ST_DHCP { DhcpMoves(h, e); }
    else { ConnectedMoves(h, e); }
  }

  // ---------------------------------------------------------------- steps of a run

  /** Step s hands the message at the head of the queue to the station machine, initialised and not
      to be initialised again. */
  predicate Handles(w: World, s: Step) {
    && s.Handle? && w.queue != [] && w.vif == VifSta && w.sm.init
    && w.queue[0].vif == 0 && w.queue[0].event != Foreign
    && w.queue[0].event != Init && w.queue[0].event != SwitchModeCmd
  }

  /** Every message it is handed takes the station where the diagram says. */
  lemma {:induction false} NextMoves(w: World, s: Step)
    requires Coherent(w) && Enabled(w, s) && Handles(w, s)
    ensures var m := w.queue[0];
            MovedTo(w, Next(w, s), Diagram(w.sm.state, m.event, m.reason, w.sm.retry.count, w.sm.wps, s.env.apLoaded))
  {
    hide StaStep, Diagram, TimersOk;
    StationMoves(LoadMessage(TakeMessage(w), w.queue[0]), s.env);
  }

  lemma {:induction false} RunMoves(ws: seq<World>, ss: seq<Step>, i: nat)
    requires Run(ws, ss) && i < |ss| && Handles(ws[i], ss[i])
    ensures var w, m := ws[i], ws[i].queue[0];
            MovedTo(w, ws[i + 1],
                    Diagram(w.sm.state, m.event, m.reason, w.sm.retry.count, w.sm.wps, ss[i].env.apLoaded))
  {
    hide Next, Diagram, Coherent, Start;
    RunCoherent(ws, ss, i);
    NextMoves(ws[i], ss[i]);
  }

  /** Timers and other tasks move the station only back into SCAN, for a retry. */
  lemma {:induction false} OthersMove(w: World, s: Step)
    requires Coherent(w) && Enabled(w, s) && !s.Handle? && w.vif == VifSta
    ensures MovedTo(w, Next(w, s), Next(w, s).sm.state)
    ensures Next(w, s).sm.state != w.sm.state ==>
              Next(w, s).sm.state == ST_SCAN && s.Fire? && HeadDue(w) && w.timers[0].handler == ConnectRetry
  {
    hide FireRetry, FireDhcp, FireLink, FireWps, TimersOk;
    if s.Fire? && HeadDue(w) {
      RetryMoves(TakeTimer(w), s.env);
      PollsMove(TakeTimer(w), s.env);
    }
  }

  lemma {:induction false} RetryMoves(w: World, e: Env)
    ensures MovedTo(w, FireRetry(w, e), ST_SCAN)
  {
    hide EnterScan;
    EntriesMove(w.(sm := w.sm.(retry := w.sm.retry.(count := (w.sm.retry.count - 1) % WORD32,
                                                    delayed := false))), e);
  }

  lemma {:induction false} PollsMove(w: World, e: Env)
    ensures MovedTo(w, FireDhcp(w, e), w.sm.state) && MovedTo(w, FireLink(w, e), w.sm.state)
    ensures MovedTo(w, FireWps(w, e), w.sm.state)
  {
    hide CountOf, Insert;
  }

  predicate Attempting(w: World) { w.vif == VifSta && ST_SCAN <= w.sm.state <= ST_DHCP }

  /** A station gives up an attempt for IDLE only when it is told to, when it is initialised again or
      switched, when a scan ends in CONNECT_FAIL, or when something fails and no retry is left. */
  lemma {:induction false} LeavesForIdle(w: World, s: Step)
    requires Coherent(w) && Enabled(w, s) && Attempting(w) && w.sm.init
    requires Next(w, s).vif == VifSta && Next(w, s).sm.state == ST_IDLE
    ensures s.Handle? && w.queue[0].vif == 0
    ensures var ev := w.queue[0].event;
            || ev == DisconnectCmd || ev == Init || ev == SwitchModeCmd
            || (ev == ConnectFail && w.sm.state == ST_SCAN)
            || (w.sm.retry.count == 0
                && ((ev == ScanFail && w.sm.state == ST_SCAN)
                    || (w.sm.state > ST_SCAN && (ev == ConnectFail || ev == Disconnect))
                    || (ev == DhcpFail && w.sm.state == ST_DHCP)))
  {
    hide Dispatch, FireHead, TimersOk;
    if Handles(w, s) {
      NextMoves(w, s);
    } else if s.Handle? {
      NotHandled(w, s);
    } else {
      OthersMove(w, s);
    }
  }

  lemma {:induction false} NotHandled(w: World, s: Step)
    requires Enabled(w, s) && s.Handle? && w.vif == VifSta && w.sm.init && !Handles(w, s)
    ensures w.queue[0].vif != 0 || w.queue[0].event == Foreign ==> MovedTo(w, Next(w, s), w.sm.state)
    ensures w.queue[0].vif == 0 && w.queue[0].event != Foreign ==> w.queue[0].event in {Init, SwitchModeCmd}
  {
    hide MachineStep;
  }
}
