/** The manager as the firmware has it: one record and one event loop, changed in
    place.  Every operation is proved to do what `WifiSpec` says. */
module WifiManager {
  import opened EventLoop
  import opened WifiTypes
  import S = WifiSpec

  class Manager {
    const loop: Loop
    var vif: VifType
    var sm: Sm
    var cfg: StaCfg
    var lastReason: nat
    var queue: seq<Msg>
    var wpsCtx: bool
    // Instruments: the heap, the radio's outstanding scan, and the trail of effects.
    ghost var mem: Memory
    ghost var scanOut: bool
    ghost var log: seq<Effect>

    ghost predicate Ready()
      reads this, loop
    {
      loop.Valid() && !loop.terminate
    }

    ghost function View(): World
      reads this, loop
    {
      World(vif, sm, cfg, lastReason, loop.timeouts, loop.now, queue, mem, scanOut, wpsCtx, log)
    }

    /** wifi_management_init and wifi_netlink_start: a cleared record, an INIT message, a station. */
    constructor ()
      ensures Ready() && fresh(loop)
      ensures S.Start(View()) && vif == VifSta
    {
      loop := new Loop();
      vif, sm, cfg, lastReason, wpsCtx := VifSta, ZERO_SM, ZERO_CFG, 0, false;
      queue := [Msg(0, Init, 0, 0, 0, false)];
      mem, scanOut, log := Memory({}, false), false, [];
    }

    // -------------------------------------------------------------- helpers

    /** eloop_message_send and eloop_event_send from the manager itself. */
    method Send(event: Event, reason: nat)
      requires Ready()
      modifies this`queue
      ensures Ready() && View() == S.Post(old(View()), event, reason)
    {
      queue := queue + [Msg(0, event, reason, 0, 0, false)];
    }

    ghost method Note(e: Effect)
      requires Ready()
      modifies this`log
      ensures Ready() && View() == Emit(old(View()), e)
    {
      log := log + [e];
    }

    ghost method Touch(p: nat)
      requires Ready()
      modifies this`mem
      ensures Ready() && View() == S.Read(old(View()), p)
    {
      if p != 0 && p !in mem.live {
        mem := mem.(fault := true);
      }
    }

    /** sys_mfree. */
    ghost method Release(p: nat)
      requires Ready()
      modifies this`mem
      ensures Ready() && View() == S.Free(old(View()), p)
    {
      if p in mem.live {
        mem := mem.(live := mem.live - {p});
      } else {
        mem := mem.(fault := true);
      }
    }

    method CancelAll(h: Handler)
      requires Ready()
      modifies this, loop
      ensures Ready() && View() == S.CancelTimer(old(View()), h)
    {
      var removed := loop.Cancel(h, ALL_CTX, ALL_CTX);
    }

    method CancelDhcp()
      requires Ready()
      modifies this, loop
      ensures Ready() && View() == S.CancelDhcp(old(View()))
    {
      ghost var pending := CountOf(loop.timeouts, DhcpPolling);
      CancelAll(DhcpPolling);
      if pending > 0 {
        Note(DhcpCancelled);
      }
    }

    method AddTimer(msecs: nat, h: Handler, data: nat, user: nat)
      requires Ready()
      modifies this, loop
      ensures Ready() && View() == S.AddTimer(old(View()), msecs, h, data, user)
    {
      var ok := loop.Register(msecs, h, data, user);
    }

    method CancelWpsTimer()
      requires Ready()
      modifies this, loop
      ensures Ready() && View() == S.CancelWpsTimer(old(View()))
    {
      var removed := loop.Cancel(WpsScanTimer, NULL_CTX, NULL_CTX);
    }

    method WpsStop()
      requires Ready()
      modifies this, loop
      ensures Ready() && View() == S.WpsStop(old(View()))
    {
      CancelWpsTimer();
      wpsCtx := false;
    }

    method PostConnDone(reason: nat)
      requires Ready()
      modifies this, loop
      ensures Ready() && View() == S.PostConnDone(old(View()), reason)
    {
      if !cfg.connBlocked {
        return;
      }
      cfg := cfg.(connBlocked := false);
      Note(ConnDonePost(reason));
    }

    method PostScanDone(reason: nat)
      requires Ready()
      modifies this, loop
      ensures Ready() && View() == S.PostScanDone(old(View()), reason)
    {
      if !sm.scanBlocked {
        return;
      }
      sm := sm.(scanBlocked := false);
      Note(ScanDonePost(reason));
    }

    method SetCfg(c: StaCfg)
      requires Ready()
      modifies this, loop
      ensures Ready() && View() == S.SetCfg(old(View()), c)
    {
      cfg := c;
      if c.connBlocked {
        Note(ConnArmed);
      }
    }

    method RequestScan(channel: nat, ok: bool)
      requires Ready()
      modifies this, loop
      ensures Ready() && View() == S.RequestScan(old(View()), channel, ok)
    {
      Note(ScanRequest(channel));
      if ok {
        scanOut := true;
      }
    }

    // -------------------------------------------------------------- retries

    method RetryParamSet(roaming: bool)
      requires Ready()
      modifies this, loop
      ensures Ready() && View() == S.RetryParamSet(old(View()), roaming)
    {
      if roaming {
        sm := sm.(retry := sm.retry.(count := ROAMING_RETRY_LIMIT - 1, limit := ROAMING_RETRY_LIMIT,
                                     interval := ROAMING_RETRY_INTERVAL));
        Note(RetryParams(ROAMING_RETRY_LIMIT, ROAMING_RETRY_INTERVAL));
      } else {
        sm := sm.(retry := sm.retry.(count := CONNECT_RETRY_LIMIT - 1, limit := CONNECT_RETRY_LIMIT,
                                     interval := CONNECT_RETRY_INTERVAL));
        Note(RetryParams(CONNECT_RETRY_LIMIT, CONNECT_RETRY_INTERVAL));
      }
    }

    method RegisterRetry()
      requires Ready()
      modifies this, loop
      ensures Ready() && View() == S.RegisterRetry(old(View()))
    {
      var used := (sm.retry.limit - sm.retry.count) % WORD32;
      var delay := sm.retry.interval;
      if used > 30 {
        delay := (sm.retry.interval * ((used - 30) % WORD32)) % WORD32;
      }
      if delay > MAX_RETRY_INTERVAL {
        delay := MAX_RETRY_INTERVAL;
      }
      var found := loop.IsRegistered(ConnectRetry, SM_CTX, NULL_CTX);
      if !found {
        AddTimer(delay, ConnectRetry, SM_CTX, NULL_CTX);
        Note(RetryArmed(delay));
      }
    }

    method LinkIsOngoing()
      requires Ready()
      modifies this, loop
      ensures Ready() && View() == S.LinkIsOngoing(old(View()))
    {
      SetCfg(cfg.(connBlocked := true));
      PostConnDone(1);
    }

    method PreroamRollback()
      requires Ready()
      modifies this, loop
      ensures Ready() && View() == S.PreroamRollback(old(View()))
    {
      if sm.roam.started && sm.roam.bssidBk != 0 {
        cfg := cfg.(channel := ANY_CHANNEL, bssid := sm.roam.bssidBk, withBssid := true);
        sm := sm.(roam := sm.roam.(started := false, scans := 0, bssidBk := 0));
        Send(ConnectCmd, 0);
      }
    }

    // -------------------------------------------------------------- state entries

    method EnterIdle()
      requires Ready()
      modifies this, loop
      ensures Ready() && View() == S.EnterIdle(old(View()))
    {
      hide S.CancelTimer, S.CancelDhcp;
      sm := sm.(state := ST_IDLE, wps := sm.wps.(stage := WpsInit), retry := sm.retry.(delayed := false));
      Note(Entered(ST_IDLE));
      CancelDhcp();
      CancelAll(LinkPolling);
      CancelAll(ConnectRetry);
    }

    method EnterWps(e: Env)
      requires Ready()
      modifies this, loop
      ensures Ready() && View() == S.EnterWps(old(View()), e)
    {
      sm := sm.(state := ST_WPS, wps := sm.wps.(stage := WpsScan));
      Note(Entered(ST_WPS));
      SetCfg(cfg.(connBlocked := true));
      Touch(sm.msg.param);
      wpsCtx := e.wpsCtx || e.wpsScanned;
      scanOut := scanOut || e.wpsScanned;
      if e.startRet != 0 {
        Send(WpsFail, e.startRet);
      }
    }

    method EnterScan(e: Env)
      requires Ready()
      modifies this, loop
      ensures Ready() && View() == S.EnterScan(old(View()), e)
    {
      hide CountOf, Without;
      sm := sm.(state := ST_SCAN);
      Note(Entered(ST_SCAN));
      CancelDhcp();
      CancelAll(LinkPolling);
      if sm.retry.delayed {
        return;
      }
      var channel := cfg.channel;
      if lastReason == CONN_NO_AP || lastReason == DISCON_NO_BEACON
         || lastReason == DISCON_RECV_DEAUTH || lastReason == DISCON_UNSPECIFIED {
        channel := ANY_CHANNEL;
      }
      RequestScan(channel, e.scanOk);
      if !e.scanOk {
        Send(ScanFail, 0);
      }
    }

    method EnterConnect(e: Env)
      requires Ready()
      modifies this, loop
      ensures Ready() && View() == S.EnterConnect(old(View()), e)
    {
      sm := sm.(state := ST_CONNECT);
      Note(Entered(ST_CONNECT));
      Note(ConnectRequest);
      if e.connectReason != 0 {
        Send(ConnectFail, e.connectReason);
      }
    }

    method EnterHandshake()
      requires Ready()
      modifies this, loop
      ensures Ready() && View() == S.EnterHandshake(old(View()))
    {
      sm := sm.(state := ST_HANDSHAKE);
      Note(Entered(ST_HANDSHAKE));
      Touch(sm.msg.param);
    }

    method EnterDhcp(e: Env)
      requires Ready()
      modifies this, loop
      ensures Ready() && View() == S.EnterDhcp(old(View()), e)
    {
      hide S.AddTimer;
      sm := sm.(state := ST_DHCP);
      Note(Entered(ST_DHCP));
      if !e.staticIp {
        sm := sm.(dhcpCount := DHCP_POLLING_LIMIT);
      }
      Note(DhcpBegin(!e.staticIp));
      AddTimer(DHCP_POLLING_INTERVAL, DhcpPolling, SM_CTX, NULL_CTX);
    }

    method EnterConnected()
      requires Ready()
      modifies this, loop
      ensures Ready() && View() == S.EnterConnected(old(View()))
    {
      sm := sm.(state := ST_CONNECTED);
      lastReason := 0;
      Note(Entered(ST_CONNECTED));
      if !cfg.connBlocked {
        Send(ConnectSuccess, 0);
      } else {
        PostConnDone(0);
      }
      sm := sm.(roam := sm.roam.(started := false, scans := 0, bssidBk := 0));
      cfg := cfg.(withBssid := false);
    }

    // -------------------------------------------------------------- the station machine

    method AttemptFailed(e: Env)
      requires Ready()
      modifies this, loop
      ensures Ready() && View() == S.AttemptFailed(old(View()), e)
    {
      hide S.EnterScan, S.RegisterRetry, S.PreroamRollback, S.PostConnDone, S.EnterIdle;
      lastReason := sm.msg.reason;
      if sm.retry.count > 0 {
        sm := sm.(retry := sm.retry.(delayed := true));
        EnterScan(e);
        RegisterRetry();
      } else {
        var reason := sm.msg.reason;
        PreroamRollback();
        PostConnDone(reason);
        EnterIdle();
      }
    }

    method UserScan(e: Env)
      requires Ready()
      modifies this, loop
      ensures Ready() && View() == S.UserScan(old(View()), e)
    {
      hide S.PostScanDone, S.RequestScan;
      Touch(sm.msg.param);
      RequestScan(ANY_CHANNEL, e.scanOk);
      if !e.scanOk {
        PostScanDone(SCAN_START_FAIL);
      }
    }

    method CopyCfg(e: Env)
      requires Ready()
      modifies this, loop
      ensures Ready() && View() == S.CopyCfg(old(View()), e)
    {
      if sm.msg.param != 0 {
        Touch(sm.msg.param);
        SetCfg(e.newCfg);
      }
    }

    method StepIdle(e: Env)
      requires Ready()
      modifies this, loop
      ensures Ready() && View() == S.StepIdle(old(View()), e)
    {
      hide S.UserScan, S.CopyCfg, S.RetryParamSet, S.EnterScan, S.EnterIdle, S.EnterWps, S.PostScanDone;
      var ev := sm.msg.event;
      if ev == ScanCmd {
        UserScan(e);
      } else if ev == ConnectCmd {
        CopyCfg(e);
        RetryParamSet(false);
        EnterScan(e);
      } else if ev == AutoConnectCmd {
        if !e.apLoaded {
          EnterIdle();
        } else {
          cfg := cfg.(channel := e.apChannel);
          RetryParamSet(true);
          EnterScan(e);
        }
      } else if ev == ScanDone {
        PostScanDone(SCAN_SUCCESS);
      } else if ev == WpsCmd {
        EnterWps(e);
      }
    }

    method WpsFailed()
      requires Ready()
      modifies this, loop
      ensures Ready() && View() == S.WpsFailed(old(View()))
    {
      hide S.WpsStop, S.PostConnDone, S.EnterIdle;
      WpsStop();
      PostConnDone(CONN_WPS_FAIL);
      EnterIdle();
    }

    method WpsScanResult(e: Env)
      requires Ready()
      modifies this, loop
      ensures Ready() && View() == S.WpsScanResult(old(View()), e)
    {
      hide S.CancelWpsTimer;
      if sm.wps.stage == WpsScan {
        Touch(sm.msg.param);
        if e.wpsMatch && sm.wps.bcn == 0 {
          CancelWpsTimer();
          sm := sm.(wps := sm.wps.(bcn := sm.msg.param, bcnLen := sm.msg.len), msg := sm.msg.(param := 0));
        }
      }
    }

    method WpsScanDone(e: Env)
      requires Ready()
      modifies this, loop
      ensures Ready() && View() == S.WpsScanDone(old(View()), e)
    {
      hide S.AddTimer;
      if sm.wps.stage == WpsScan {
        if sm.wps.bcn != 0 && sm.wps.bcnLen != 0 {
          sm := sm.(wps := sm.wps.(stage := WpsConnect));
          Touch(sm.wps.bcn);
          if e.wpsAssocReason != 0 {
            Send(ConnectFail, e.wpsAssocReason);
          }
          Release(sm.wps.bcn);
          sm := sm.(wps := sm.wps.(bcn := 0, bcnLen := 0));
        } else {
          AddTimer(WPS_SCAN_INTERVAL, WpsScanTimer, NULL_CTX, NULL_CTX);
        }
      }
    }

    method WpsDisconnect(e: Env)
      requires Ready()
      modifies this, loop
      ensures Ready() && View() == S.WpsDisconnect(old(View()), e)
    {
      hide S.WpsStop, S.RetryParamSet, S.EnterScan, S.WpsFailed;
      if sm.wps.stage == WpsInit || sm.wps.stage == WpsScan {
        return;
      }
      if sm.wps.cred != 0 && sm.wps.stage == WpsDone {
        WpsStop();
        Touch(sm.wps.cred);
        Release(sm.wps.cred);
        cfg := cfg.(channel := ANY_CHANNEL);
        sm := sm.(wps := sm.wps.(cred := 0));
        RetryParamSet(false);
        EnterScan(e);
      } else {
        WpsFailed();
      }
    }

    method StepWps(e: Env)
      requires Ready()
      modifies this, loop
      ensures Ready() && View() == S.StepWps(old(View()), e)
    {
      hide S.WpsScanResult, S.WpsScanDone, S.EnterIdle, S.WpsStop, S.WpsDisconnect, S.WpsFailed;
      var ev := sm.msg.event;
      if ev == ScanResult {
        WpsScanResult(e);
      } else if ev == ScanDone {
        WpsScanDone(e);
      } else if ev == AssocSuccess {
        if sm.wps.stage == WpsConnect {
          sm := sm.(wps := sm.wps.(stage := WpsEapHandshake));
          Touch(sm.msg.param);
        }
      } else if ev == RxEapol {
        Touch(sm.msg.param);
      } else if ev == DisconnectCmd {
        WpsStop();
        EnterIdle();
      } else if ev == WpsSuccess {
        sm := sm.(wps := sm.wps.(stage := WpsDone));
      } else if ev == Disconnect {
        WpsDisconnect(e);
      } else if ev == WpsCred {
        if sm.msg.param != 0 {
          sm := sm.(wps := sm.wps.(cred := sm.msg.param), msg := sm.msg.(param := 0));
        }
      } else if ev == ScanFail || ev == ConnectFail || ev == WpsFail {
        WpsFailed();
      }
    }

    method StepScan(e: Env)
      requires Ready()
      modifies this, loop
      ensures Ready() && View() == S.StepScan(old(View()), e)
    {
      hide S.LinkIsOngoing, S.EnterIdle, S.EnterConnect, S.RegisterRetry, S.PreroamRollback, S.PostConnDone;
      var ev := sm.msg.event;
      if ev == ScanCmd || ev == ConnectCmd {
        LinkIsOngoing();
      } else if ev == DisconnectCmd || ev == ConnectFail {
        EnterIdle();
      } else if ev == ScanDone {
        EnterConnect(e);
      } else if ev == ScanFail {
        if sm.retry.count > 0 {
          RegisterRetry();
        } else {
          var reason := sm.msg.reason;
          PreroamRollback();
          PostConnDone(reason);
          EnterIdle();
        }
      }
    }

    method StepConnect(e: Env)
      requires Ready()
      modifies this, loop
      ensures Ready() && View() == S.StepConnect(old(View()), e)
    {
      hide S.LinkIsOngoing, S.EnterIdle, S.EnterHandshake, S.AttemptFailed;
      var ev := sm.msg.event;
      if ev == ScanCmd || ev == ConnectCmd {
        LinkIsOngoing();
      } else if ev == ScanResult || ev == RxMgmt {
        Touch(sm.msg.param);
      } else if ev == DisconnectCmd {
        EnterIdle();
      } else if ev == AssocSuccess {
        EnterHandshake();
      } else if ev == ConnectFail || ev == Disconnect {
        AttemptFailed(e);
      }
    }

    method StepHandshake(e: Env)
      requires Ready()
      modifies this, loop
      ensures Ready() && View() == S.StepHandshake(old(View()), e)
    {
      hide S.LinkIsOngoing, S.EnterIdle, S.EnterDhcp, S.AttemptFailed;
      var ev := sm.msg.event;
      if ev == ScanCmd || ev == ConnectCmd {
        LinkIsOngoing();
      } else if ev == RxEapol {
        Touch(sm.msg.param);
      } else if ev == DisconnectCmd {
        EnterIdle();
      } else if ev == ConnectFail || ev == Disconnect {
        AttemptFailed(e);
      } else if ev == DhcpStart {
        EnterDhcp(e);
      }
    }

    method StepDhcp(e: Env)
      requires Ready()
      modifies this, loop
      ensures Ready() && View() == S.StepDhcp(old(View()), e)
    {
      hide S.LinkIsOngoing, S.EnterIdle, S.EnterConnected, S.AttemptFailed, S.CancelTimer;
      var ev := sm.msg.event;
      if ev == ScanCmd || ev == ConnectCmd {
        LinkIsOngoing();
      } else if ev == RxEapol {
        Touch(sm.msg.param);
      } else if ev == DisconnectCmd {
        EnterIdle();
      } else if ev == DhcpSuccess {
        EnterConnected();
        CancelAll(ConnectRetry);
      } else if ev == DhcpFail || ev == ConnectFail || ev == Disconnect {
        AttemptFailed(e);
      }
    }

    method ConnectedScanDone(e: Env)
      requires Ready()
      modifies this, loop
      ensures Ready() && View() == S.ConnectedScanDone(old(View()), e)
    {
      hide S.PostScanDone;
      if sm.roam.polling {
        sm := sm.(roam := sm.roam.(polling := false));
        if e.candidate && !e.candidateSame && e.candidateBetter {
          cfg := cfg.(channel := e.candidateChannel);
          Send(ConnectCmd, 0);
        }
      }
      PostScanDone(SCAN_SUCCESS);
      PostScanDone(SCAN_FAILED);
    }

    method StepConnected(e: Env)
      requires Ready()
      modifies this, loop
      ensures Ready() && View() == S.StepConnected(old(View()), e)
    {
      hide S.UserScan, S.CopyCfg, S.RetryParamSet, S.EnterScan, S.EnterIdle, S.EnterWps, S.PostScanDone,
           S.ConnectedScanDone, S.AddTimer;
      var ev := sm.msg.event;
      if ev == ScanCmd {
        UserScan(e);
      } else if ev == ConnectCmd {
        CopyCfg(e);
        EnterIdle();
        RetryParamSet(false);
        EnterScan(e);
      } else if ev == WpsCmd {
        EnterIdle();
        RetryParamSet(false);
        EnterWps(e);
      } else if ev == DisconnectCmd {
        EnterIdle();
      } else if ev == ScanDone {
        ConnectedScanDone(e);
      } else if ev == ScanFail {
        PostScanDone(SCAN_FAILED);
      } else if ev == RxEapol || ev == RxUnprotDeauth || ev == RxAction {
        Touch(sm.msg.param);
      } else if ev == Disconnect {
        lastReason := sm.msg.reason;
        if S.LinkLost(sm.msg.reason) {
          RetryParamSet(true);
          EnterScan(e);
        } else {
          EnterIdle();
        }
      } else if ev == RoamingStart {
        if sm.roam.enabled {
          sm := sm.(roam := sm.roam.(started := true, bssidBk := cfg.bssid));
          AddTimer(1, LinkPolling, SM_CTX, NULL_CTX);
        }
      }
    }

    method ClearRecord(roaming: bool)
      requires Ready()
      modifies this, loop
      ensures Ready() && View() == S.ClearRecord(old(View()), roaming)
    {
      sm := ZERO_SM.(init := true, roam := ZERO_SM.roam.(enabled := roaming));
      Note(RecordCleared);
    }

    method StaStep(e: Env)
      requires Ready()
      modifies this, loop
      ensures Ready() && View() == S.StaStep(old(View()), e)
    {
      hide S.ClearRecord, S.EnterIdle, S.RetryParamSet, S.StepIdle, S.StepWps, S.StepScan, S.StepConnect,
           S.StepHandshake,           S.StepDhcp, S.StepConnected;
      if !sm.init || sm.msg.event == Init {
        ClearRecord(true);
        RetryParamSet(false);
        EnterIdle();
        return;
      }
      Note(Handled(sm.msg.event, sm.state));
      if sm.state == ST_IDLE {
        StepIdle(e);
      } else if sm.state == ST_WPS {
        StepWps(e);
      } else if sm.state == ST_SCAN {
        StepScan(e);
      } else if sm.state == ST_CONNECT {
        StepConnect(e);
      } else if sm.state == ST_HANDSHAKE {
        StepHandshake(e);
      } else if sm.state == ST_DHCP {
        StepDhcp(e);
      } else if sm.state == ST_CONNECTED {
        StepConnected(e);
      }
    }

    // -------------------------------------------------------------- the other two machines

    method ApStep(e: Env)
      requires Ready()
      modifies this, loop
      ensures Ready() && View() == S.ApStep(old(View()), e)
    {
      hide S.UserScan, S.PostScanDone, S.ClearRecord;
      var ev := sm.msg.event;
      if !sm.init || ev == Init {
        ClearRecord(false);
      } else if sm.state == ST_INIT {
        if ev == StartApCmd {
          Touch(sm.msg.param);
          sm := sm.(state := if e.startRet == 0 then ST_STARTED else ST_INIT);
        }
      } else if sm.state == ST_STARTED {
        if ev == StopApCmd {
          sm := sm.(state := ST_INIT);
        } else if ev == RxMgmt || ev == TxMgmtDone || ev == RxEapol || ev == ClientAdded || ev == ClientRemoved {
          Touch(sm.msg.param);
        } else if ev == ScanCmd {
          UserScan(e);
        } else if ev == ScanDone {
          PostScanDone(SCAN_SUCCESS);
        } else if ev == ScanFail {
          PostScanDone(SCAN_FAILED);
        }
      }
    }

    method MonitorStep(e: Env)
      requires Ready()
      modifies this, loop
      ensures Ready() && View() == S.MonitorStep(old(View()), e)
    {
      hide S.UserScan, S.PostScanDone, S.ClearRecord;
      var ev := sm.msg.event;
      if !sm.init || ev == Init {
        ClearRecord(false);
      } else if sm.state == ST_INIT {
        if ev == MonitorStartCmd {
          Touch(sm.msg.param);
          sm := sm.(state := if e.startRet == 0 then ST_STARTED else ST_INIT);
        }
      } else if sm.state == ST_STARTED {
        if ev == ScanCmd {
          UserScan(e);
        } else if ev == ScanDone {
          PostScanDone(SCAN_SUCCESS);
        } else if ev == ScanFail {
          PostScanDone(SCAN_FAILED);
        }
      }
    }

    /** mgmt_switch_mode, steps 1 to 3: the machine of the old type. */
    method LeaveMode()
      requires Ready()
      modifies this, loop
      ensures Ready() && View() == S.LeaveMode(old(View()))
    {
      hide S.EnterIdle;
      if vif == VifSta {
        EnterIdle();
        cfg := ZERO_CFG;
      } else if vif == VifAp || vif == VifMonitor {
        sm := sm.(state := ST_INIT);
      }
    }

    /** mgmt_switch_mode, step 5: the machine of the new type. */
    method EnterMode(target: VifType)
      requires Ready()
      modifies this, loop
      ensures Ready() && View() == S.EnterMode(old(View()), target)
    {
      hide S.RetryParamSet;
      sm := sm.(msg := sm.msg.(event := Foreign, reason := 0), init := true);
      if target == VifSta {
        sm := sm.(roam := sm.roam.(polling := false));
        RetryParamSet(false);
        sm := sm.(state := ST_IDLE);
      } else if target == VifAp || target == VifMonitor {
        sm := sm.(state := ST_INIT);
      }
    }

    /** mgmt_switch_mode; `ok` is false for its return value -2. */
    method SwitchMode(e: Env) returns (ok: bool)
      requires Ready()
      modifies this, loop
      ensures Ready() && View() == S.SwitchMode(old(View()), e)
      ensures !ok <==> old(vif) != VifTypeOf(old(sm.msg.reason)) && !e.typeSetOk
    {
      hide S.LeaveMode, S.EnterMode;
      var target := VifTypeOf(sm.msg.reason);
      ok := vif == target || e.typeSetOk;
      if vif != target {
        LeaveMode();
        vif := target;
        if e.typeSetOk {
          EnterMode(target);
        }
      }
    }

    // -------------------------------------------------------------- the loop

    /** The state machine of the interface's type. */
    method MachineStep(e: Env)
      requires Ready()
      modifies this, loop
      ensures Ready() && View() == S.MachineStep(old(View()), e)
    {
      hide S.StaStep, S.ApStep, S.MonitorStep, S.SwitchMode;
      if sm.msg.event == SwitchModeCmd {
        var ok := SwitchMode(e);
      } else if vif == VifSta {
        StaStep(e);
      } else if vif == VifAp {
        ApStep(e);
      } else if vif == VifMonitor {
        MonitorStep(e);
      }
    }

    /** A payload that no handler has taken over is freed. */
    method ReleaseParam()
      requires Ready()
      modifies this`sm, this`mem
      ensures Ready() && View() == S.ReleaseParam(old(View()))
    {
      if sm.msg.param != 0 {
        Release(sm.msg.param);
        sm := sm.(msg := sm.msg.(param := 0, len := 0));
      }
    }

    /** wifi_mgmt_cb_run_state_machine on the head of the queue. */
    method DispatchHead(e: Env)
      requires Ready() && queue != []
      modifies this, loop
      ensures Ready() && View() == S.Dispatch(old(View()), e)
    {
      hide S.MachineStep, S.ReleaseParam;
      var m := queue[0];
      queue := queue[1..];
      scanOut := scanOut && !m.scanEnd;
      if m.vif != 0 || m.event == Foreign {
        return;
      }
      sm := sm.(msg := sm.msg.(event := m.event, reason := m.reason, param := m.param, len := m.len));
      MachineStep(e);
      ReleaseParam();
    }

    method ConnectRetryCallback(e: Env)
      requires Ready()
      modifies this, loop
      ensures Ready() && View() == S.FireRetry(old(View()), e)
    {
      hide S.EnterScan;
      sm := sm.(retry := sm.retry.(count := (sm.retry.count - 1) % WORD32, delayed := false));
      EnterScan(e);
    }

    method DhcpPollingCallback(e: Env)
      requires Ready()
      modifies this, loop
      ensures Ready() && View() == S.FireDhcp(old(View()), e)
    {
      hide S.AddTimer;
      Note(DhcpPoll);
      if e.dhcpDone || e.staticIp {
        Note(DhcpReport(true));
        Send(DhcpSuccess, 0);
        return;
      }
      sm := sm.(dhcpCount := (sm.dhcpCount - 1) % 0x100);
      if sm.dhcpCount != 0 {
        AddTimer(DHCP_POLLING_INTERVAL, DhcpPolling, SM_CTX, NULL_CTX);
      } else {
        sm := sm.(msg := sm.msg.(reason := CONN_DHCP_FAIL));
        Note(DhcpReport(false));
        Send(DhcpFail, 0);
      }
    }

    method LinkPollingCallback(e: Env)
      requires Ready()
      modifies this, loop
      ensures Ready() && View() == S.FireLink(old(View()), e)
    {
      hide S.AddTimer;
      if sm.roam.enabled && sm.roam.started {
        if e.rssiRecovered {
          sm := sm.(roam := sm.roam.(started := false, scans := 0, bssidBk := 0));
          return;
        }
        if sm.roam.scans < 10 || sm.roam.scans % POLLING_SCAN_TRIGGER_POINT == 0 {
          RequestScan(ANY_CHANNEL, e.scanOk);
          sm := sm.(roam := sm.roam.(polling := true));
        }
        sm := sm.(roam := sm.roam.(scans := (sm.roam.scans + 1) % 0x1_0000));
        AddTimer(LINK_POLLING_INTERVAL, LinkPolling, SM_CTX, NULL_CTX);
      }
    }

    method WpsScanCallback(e: Env)
      requires Ready()
      modifies this, loop
      ensures Ready() && View() == S.FireWps(old(View()), e)
    {
      if !wpsCtx {
        return;
      }
      if e.wpsScanned {
        scanOut := true;
      } else {
        Send(ScanFail, 0);
      }
    }

    /** eloop_timeout_handle: take the head if it is due and run its callback. */
    method HandleTimeout(e: Env)
      requires Ready()
      modifies this, loop
      ensures Ready() && View() == S.FireHead(old(View()), e)
    {
      hide S.FireRetry, S.FireDhcp, S.FireLink, S.FireWps;
      var fired := loop.TakeDue();
      if fired != [] {
        var h := fired[0].handler;
        assert View() == S.TakeTimer(old(View()));
        if h == ConnectRetry {
          ConnectRetryCallback(e);
        } else if h == DhcpPolling {
          DhcpPollingCallback(e);
        } else if h == LinkPolling {
          LinkPollingCallback(e);
        } else if h == WpsScanTimer {
          WpsScanCallback(e);
        }
      }
    }

    // -------------------------------------------------------------- what other tasks do

    /** eloop_message_send from another task or the radio; the payload is a fresh block. */
    method Arrive(m: Msg)
      requires Ready() && S.Enabled(View(), S.Arrive(m))
      modifies this`queue, this`mem
      ensures Ready() && View() == S.Next(old(View()), S.Arrive(m))
    {
      queue := queue + [m];
      if m.param != 0 {
        mem := mem.(live := mem.live + {m.param});
      }
    }

    method ArmScan(blocked: bool)
      requires Ready()
      modifies this`sm, this`log
      ensures Ready() && View() == S.Next(old(View()), S.ArmScan(blocked))
    {
      sm := sm.(scanBlocked := blocked);
      if blocked {
        Note(ScanArmed);
      }
    }

    method SetRoaming(enable: bool)
      requires Ready()
      modifies this`sm
      ensures Ready() && View() == S.Next(old(View()), S.SetRoaming(enable))
    {
      sm := sm.(roam := sm.roam.(enabled := enable));
    }

    method Tick(now: nat)
      requires Ready() && now < WORD32
      modifies loop
      ensures Ready() && View() == S.Next(old(View()), S.Tick(now))
    {
      loop.Advance(now);
    }
  }
}
