/** What each operation of the manager does, as functions on the world. */
module WifiSpec {
  import opened EventLoop
  import opened WifiTypes

  // ---------------------------------------------------------------- primitives

  function Post(w: World, event: Event, reason: nat): World {
    w.(queue := w.queue + [Msg(0, event, reason, 0, 0, false)])
  }

  /** Retry timers are only ever registered for the record of interface 0. */
  ghost predicate RetryCtx(ts: seq<Timeout>) {
    forall t :: t in ts && t.handler == ConnectRetry ==> t.data == SM_CTX && t.user == NULL_CTX
  }

  function AddTimer(w: World, msecs: nat, h: Handler, data: nat, user: nat): (r: World)
    ensures forall g :: CountOf(r.timers, g) == CountOf(w.timers, g) + (if g == h then 1 else 0)
    ensures RetryCtx(w.timers) && (h == ConnectRetry ==> data == SM_CTX && user == NULL_CTX) ==> RetryCtx(r.timers)
  {
    var t := Timeout((w.now + msecs) % WORD32, h, data, user);
    AddTimerFacts(w.timers, t);
    w.(timers := Insert(w.timers, t))
  }

  lemma {:induction false} AddTimerFacts(ts: seq<Timeout>, t: Timeout)
    ensures forall g :: CountOf(Insert(ts, t), g) == CountOf(ts, g) + (if g == t.handler then 1 else 0)
    ensures forall x :: x in Insert(ts, t) <==> x == t || x in ts
  {
    forall g { CountInsert(ts, t, g); }
    forall x { InsertMembers(ts, t, x); }
  }

  /** eloop_timeout_cancel with both contexts ELOOP_ALL_CTX. */
  function CancelTimer(w: World, h: Handler): (r: World)
    ensures forall g :: CountOf(r.timers, g) == (if g == h then 0 else CountOf(w.timers, g))
    ensures RetryCtx(w.timers) ==> RetryCtx(r.timers)
  {
    CancelTimerFacts(w.timers, h);
    assert forall g :: CountOf(Without(w.timers, h, ALL_CTX, ALL_CTX), g) ==
                       (if g == h then 0 else CountOf(w.timers, g));
    w.(timers := Without(w.timers, h, ALL_CTX, ALL_CTX))
  }

  lemma {:induction false} CancelTimerFacts(ts: seq<Timeout>, h: Handler)
    ensures var r := Without(ts, h, ALL_CTX, ALL_CTX);
            && (forall g :: CountOf(r, g) == (if g == h then 0 else CountOf(ts, g)))
            && (forall x :: x in r ==> x in ts)
  {
    forall g { CountWithout(ts, h, g); }
    forall x { WithoutExact(ts, h, ALL_CTX, ALL_CTX, x); }
  }

  function CancelWpsTimer(w: World): (r: World)
    ensures forall g :: g != WpsScanTimer ==> CountOf(r.timers, g) == CountOf(w.timers, g)
    ensures RetryCtx(w.timers) ==> RetryCtx(r.timers)
  {
    WpsStopFacts(w.timers);
    w.(timers := Without(w.timers, WpsScanTimer, NULL_CTX, NULL_CTX))
  }

  /** wifi_wpa_wps_stop, as far as the manager can see it: its timer and its context go. */
  function WpsStop(w: World): (r: World)
    ensures forall g :: g != WpsScanTimer ==> CountOf(r.timers, g) == CountOf(w.timers, g)
    ensures RetryCtx(w.timers) ==> RetryCtx(r.timers)
  {
    CancelWpsTimer(w).(wpsCtx := false)
  }

  lemma {:induction false} WpsStopFacts(ts: seq<Timeout>)
    ensures var r := Without(ts, WpsScanTimer, NULL_CTX, NULL_CTX);
            && (forall g :: g != WpsScanTimer ==> CountOf(r, g) == CountOf(ts, g))
            && (forall x :: x in r ==> x in ts)
  {
    forall g | g != WpsScanTimer { CountWithoutOther(ts, WpsScanTimer, NULL_CTX, NULL_CTX, g); }
    forall x { WithoutExact(ts, WpsScanTimer, NULL_CTX, NULL_CTX, x); }
  }

  /** Cancelling the DHCP timer is visible when one was pending. */
  function CancelDhcp(w: World): World {
    var c := CancelTimer(w, DhcpPolling);
    if CountOf(w.timers, DhcpPolling) > 0 then Emit(c, DhcpCancelled) else c
  }

  function Read(w: World, p: nat): World {
    if p != 0 && p !in w.mem.live then w.(mem := w.mem.(fault := true)) else w
  }

  function Free(w: World, p: nat): World {
    if p in w.mem.live then w.(mem := w.mem.(live := w.mem.live - {p})) else w.(mem := w.mem.(fault := true))
  }

  function PostConnDone(w: World, reason: nat): World {
    if !w.cfg.connBlocked then w
    else Emit(w.(cfg := w.cfg.(connBlocked := false)), ConnDonePost(reason))
  }

  function PostScanDone(w: World, reason: nat): World {
    if !w.sm.scanBlocked then w
    else Emit(w.(sm := w.sm.(scanBlocked := false)), ScanDonePost(reason))
  }

  /** Setting conn_blocked, directly or by copying a configuration over it. */
  function SetCfg(w: World, cfg: StaCfg): World {
    var w1 := w.(cfg := cfg);
    if cfg.connBlocked then Emit(w1, ConnArmed) else w1
  }

  /** One call of wifi_netlink_scan_set or wifi_netlink_scan_set_with_ssid. */
  function RequestScan(w: World, channel: nat, ok: bool): World {
    var w1 := Emit(w, ScanRequest(channel));
    if ok then w1.(scanOut := true) else w1
  }

  // ---------------------------------------------------------------- retries

  function RetryParamSet(w: World, roaming: bool): World {
    var limit := if roaming then ROAMING_RETRY_LIMIT else CONNECT_RETRY_LIMIT;
    var interval := if roaming then ROAMING_RETRY_INTERVAL else CONNECT_RETRY_INTERVAL;
    Emit(w.(sm := w.sm.(retry := w.sm.retry.(count := limit - 1, limit := limit, interval := interval))),
         RetryParams(limit, interval))
  }

  /** The delay before the next attempt, in 32-bit unsigned arithmetic. */
  function RetryDelay(count: nat, limit: nat, interval: nat): nat {
    var used := (limit - count) % WORD32;
    var d := if used > 30 then (interval * ((used - 30) % WORD32)) % WORD32 else interval;
    if d > MAX_RETRY_INTERVAL then MAX_RETRY_INTERVAL else d
  }

  function RegisterRetry(w: World): World {
    if Registered(w.timers, ConnectRetry, SM_CTX, NULL_CTX) then w
    else
      var d := RetryDelay(w.sm.retry.count, w.sm.retry.limit, w.sm.retry.interval);
      Emit(AddTimer(w, d, ConnectRetry, SM_CTX, NULL_CTX), RetryArmed(d))
  }

  function LinkIsOngoing(w: World): World {
    PostConnDone(SetCfg(w, w.cfg.(connBlocked := true)), 1)
  }

  function PreroamRollback(w: World): World {
    if !w.sm.roam.started || w.sm.roam.bssidBk == 0 then w
    else
      Post(w.(sm := w.sm.(roam := w.sm.roam.(started := false, scans := 0, bssidBk := 0)),
              cfg := w.cfg.(channel := ANY_CHANNEL, bssid := w.sm.roam.bssidBk, withBssid := true)),
           ConnectCmd, 0)
  }

  // ---------------------------------------------------------------- state entries

  function EnterIdle(w: World): World {
    var w1 := Emit(w.(sm := w.sm.(state := ST_IDLE, wps := w.sm.wps.(stage := WpsInit),
                                  retry := w.sm.retry.(delayed := false))),
                   Entered(ST_IDLE));
    CancelTimer(CancelTimer(CancelDhcp(w1), LinkPolling), ConnectRetry)
  }

  function EnterWps(w: World, e: Env): World {
    var w1 := Emit(w.(sm := w.sm.(state := ST_WPS, wps := w.sm.wps.(stage := WpsScan))), Entered(ST_WPS));
    var w2 := Read(SetCfg(w1, w1.cfg.(connBlocked := true)), w1.sm.msg.param);
    var w3 := w2.(wpsCtx := e.wpsCtx || e.wpsScanned, scanOut := w2.scanOut || e.wpsScanned);
    if e.startRet != 0 then Post(w3, WpsFail, e.startRet) else w3
  }

  function EnterScan(w: World, e: Env): World {
    var w1 := Emit(w.(sm := w.sm.(state := ST_SCAN)), Entered(ST_SCAN));
    var w2 := CancelTimer(CancelDhcp(w1), LinkPolling);
    if w2.sm.retry.delayed then w2
    else
      var channel :=
        if w.lastReason == CONN_NO_AP || w.lastReason == DISCON_NO_BEACON
           || w.lastReason == DISCON_RECV_DEAUTH || w.lastReason == DISCON_UNSPECIFIED
        then ANY_CHANNEL else w.cfg.channel;
      var w3 := RequestScan(w2, channel, e.scanOk);
      if e.scanOk then w3 else Post(w3, ScanFail, 0)
  }

  function EnterConnect(w: World, e: Env): World {
    var w1 := Emit(Emit(w.(sm := w.sm.(state := ST_CONNECT)), Entered(ST_CONNECT)), ConnectRequest);
    if e.connectReason != 0 then Post(w1, ConnectFail, e.connectReason) else w1
  }

  function EnterHandshake(w: World): World {
    Read(Emit(w.(sm := w.sm.(state := ST_HANDSHAKE)), Entered(ST_HANDSHAKE)), w.sm.msg.param)
  }

  function EnterDhcp(w: World, e: Env): World {
    var w1 := Emit(w.(sm := w.sm.(state := ST_DHCP)), Entered(ST_DHCP));
    var w2 := if e.staticIp then w1 else w1.(sm := w1.sm.(dhcpCount := DHCP_POLLING_LIMIT));
    AddTimer(Emit(w2, DhcpBegin(!e.staticIp)), DHCP_POLLING_INTERVAL, DhcpPolling, SM_CTX, NULL_CTX)
  }

  function EnterConnected(w: World): World {
    var w1 := Emit(w.(sm := w.sm.(state := ST_CONNECTED), lastReason := 0), Entered(ST_CONNECTED));
    var w2 := if !w1.cfg.connBlocked then Post(w1, ConnectSuccess, 0) else PostConnDone(w1, 0);
    w2.(sm := w2.sm.(roam := w2.sm.roam.(started := false, scans := 0, bssidBk := 0)),
        cfg := w2.cfg.(withBssid := false))
  }

  // ---------------------------------------------------------------- the station machine

  /** Used when a connection attempt ends: retry later or give up. */
  function RetryOrGiveUp(w: World, e: Env): World {
    if w.sm.retry.count > 0 then
      RegisterRetry(EnterScan(w.(sm := w.sm.(retry := w.sm.retry.(delayed := true))), e))
    else
      EnterIdle(PostConnDone(PreroamRollback(w), w.sm.msg.reason))
  }

  function AttemptFailed(w: World, e: Env): World {
    RetryOrGiveUp(w.(lastReason := w.sm.msg.reason), e)
  }

  /** A scan asked for by the application. */
  function UserScan(w: World, e: Env): World {
    var w1 := RequestScan(Read(w, w.sm.msg.param), ANY_CHANNEL, e.scanOk);
    if e.scanOk then w1 else PostScanDone(w1, SCAN_START_FAIL)
  }

  function CopyCfg(w: World, e: Env): World {
    if w.sm.msg.param == 0 then w else SetCfg(Read(w, w.sm.msg.param), e.newCfg)
  }

  function StepIdle(w: World, e: Env): World {
    var ev := w.sm.msg.event;
    if ev == ScanCmd then UserScan(w, e)
    else if ev == ConnectCmd then EnterScan(RetryParamSet(CopyCfg(w, e), false), e)
    else if ev == AutoConnectCmd then
      if !e.apLoaded then EnterIdle(w)
      else EnterScan(RetryParamSet(w.(cfg := w.cfg.(channel := e.apChannel)), true), e)
    else if ev == ScanDone then PostScanDone(w, SCAN_SUCCESS)
    else if ev == WpsCmd then EnterWps(w, e)
    else w
  }

  /** A beacon from an access point with WPS active is kept past this message. */
  function WpsScanResult(w: World, e: Env): World {
    if w.sm.wps.stage != WpsScan then w
    else
      var w1 := Read(w, w.sm.msg.param);
      if e.wpsMatch && w1.sm.wps.bcn == 0 then
        var w2 := CancelWpsTimer(w1);
        w2.(sm := w2.sm.(wps := w2.sm.wps.(bcn := w2.sm.msg.param, bcnLen := w2.sm.msg.len),
                         msg := w2.sm.msg.(param := 0)))
      else w1
  }

  function WpsScanDone(w: World, e: Env): World {
    if w.sm.wps.stage != WpsScan then w
    else if w.sm.wps.bcn != 0 && w.sm.wps.bcnLen != 0 then
      var w1 := Read(w.(sm := w.sm.(wps := w.sm.wps.(stage := WpsConnect))), w.sm.wps.bcn);
      var w2 := if e.wpsAssocReason != 0 then Post(w1, ConnectFail, e.wpsAssocReason) else w1;
      var w3 := Free(w2, w2.sm.wps.bcn);
      w3.(sm := w3.sm.(wps := w3.sm.wps.(bcn := 0, bcnLen := 0)))
    else AddTimer(w, WPS_SCAN_INTERVAL, WpsScanTimer, NULL_CTX, NULL_CTX)
  }

  /** The credential is consumed before the ordinary connection starts. */
  function UseCredential(w: World): World {
    var w1 := Free(Read(w, w.sm.wps.cred), w.sm.wps.cred);
    w1.(cfg := w1.cfg.(channel := ANY_CHANNEL), sm := w1.sm.(wps := w1.sm.wps.(cred := 0)))
  }

  function WpsFailed(w: World): World {
    EnterIdle(PostConnDone(WpsStop(w), CONN_WPS_FAIL))
  }

  function WpsDisconnect(w: World, e: Env): World {
    if w.sm.wps.stage == WpsInit || w.sm.wps.stage == WpsScan then w
    else if w.sm.wps.cred != 0 && w.sm.wps.stage == WpsDone then
      EnterScan(RetryParamSet(UseCredential(WpsStop(w)), false), e)
    else WpsFailed(w)
  }

  function StepWps(w: World, e: Env): World {
    var ev := w.sm.msg.event;
    if ev == ScanResult then WpsScanResult(w, e)
    else if ev == ScanDone then WpsScanDone(w, e)
    else if ev == AssocSuccess then
      if w.sm.wps.stage != WpsConnect then w
      else Read(w.(sm := w.sm.(wps := w.sm.wps.(stage := WpsEapHandshake))), w.sm.msg.param)
    else if ev == RxEapol then Read(w, w.sm.msg.param)
    else if ev == DisconnectCmd then EnterIdle(WpsStop(w))
    else if ev == WpsSuccess then w.(sm := w.sm.(wps := w.sm.wps.(stage := WpsDone)))
    else if ev == Disconnect then WpsDisconnect(w, e)
    else if ev == WpsCred then
      if w.sm.msg.param == 0 then w
      else w.(sm := w.sm.(wps := w.sm.wps.(cred := w.sm.msg.param), msg := w.sm.msg.(param := 0)))
    else if ev == ScanFail || ev == ConnectFail || ev == WpsFail then WpsFailed(w)
    else w
  }

  function StepScan(w: World, e: Env): World {
    var ev := w.sm.msg.event;
    if ev == ScanCmd || ev == ConnectCmd then LinkIsOngoing(w)
    else if ev == DisconnectCmd || ev == ConnectFail then EnterIdle(w)
    else if ev == ScanDone then EnterConnect(w, e)
    else if ev == ScanFail then
      if w.sm.retry.count > 0 then RegisterRetry(w)
      else EnterIdle(PostConnDone(PreroamRollback(w), w.sm.msg.reason))
    else w
  }

  function StepConnect(w: World, e: Env): World {
    var ev := w.sm.msg.event;
    if ev == ScanCmd || ev == ConnectCmd then LinkIsOngoing(w)
    else if ev == ScanResult || ev == RxMgmt then Read(w, w.sm.msg.param)
    else if ev == DisconnectCmd then EnterIdle(w)
    else if ev == AssocSuccess then EnterHandshake(w)
    else if ev == ConnectFail || ev == Disconnect then AttemptFailed(w, e)
    else w
  }

  function StepHandshake(w: World, e: Env): World {
    var ev := w.sm.msg.event;
    if ev == ScanCmd || ev == ConnectCmd then LinkIsOngoing(w)
    else if ev == RxEapol then Read(w, w.sm.msg.param)
    else if ev == DisconnectCmd then EnterIdle(w)
    else if ev == ConnectFail || ev == Disconnect then AttemptFailed(w, e)
    else if ev == DhcpStart then EnterDhcp(w, e)
    else w
  }

  function StepDhcp(w: World, e: Env): World {
    var ev := w.sm.msg.event;
    if ev == ScanCmd || ev == ConnectCmd then LinkIsOngoing(w)
    else if ev == RxEapol then Read(w, w.sm.msg.param)
    else if ev == DisconnectCmd then EnterIdle(w)
    else if ev == DhcpSuccess then CancelTimer(EnterConnected(w), ConnectRetry)
    else if ev == DhcpFail || ev == ConnectFail || ev == Disconnect then AttemptFailed(w, e)
    else w
  }

  /** mgmt_connected_scan_done: ask to reconnect when a better access point shows up. */
  function RoamingScanDone(w: World, e: Env): World {
    var w1 := w.(sm := w.sm.(roam := w.sm.roam.(polling := false)));
    if !e.candidate || e.candidateSame || !e.candidateBetter then w1
    else Post(w1.(cfg := w1.cfg.(channel := e.candidateChannel)), ConnectCmd, 0)
  }

  /** The SCAN_DONE case falls through into SCAN_FAIL. */
  function ConnectedScanDone(w: World, e: Env): World {
    var w1 := if w.sm.roam.polling then RoamingScanDone(w, e) else w;
    PostScanDone(PostScanDone(w1, SCAN_SUCCESS), SCAN_FAILED)
  }

  predicate LinkLost(reason: nat) {
    || reason == DISCON_NO_BEACON || reason == DISCON_UNSPECIFIED
    || reason == DISCON_RECV_DEAUTH || reason == DISCON_SA_QUERY_FAIL
  }

  function ConnectedDisconnect(w: World, e: Env): World {
    var w1 := w.(lastReason := w.sm.msg.reason);
    if LinkLost(w.sm.msg.reason) then EnterScan(RetryParamSet(w1, true), e) else EnterIdle(w1)
  }

  function StartRoaming(w: World): World {
    if !w.sm.roam.enabled then w
    else AddTimer(w.(sm := w.sm.(roam := w.sm.roam.(started := true, bssidBk := w.cfg.bssid))),
                  1, LinkPolling, SM_CTX, NULL_CTX)
  }

  function Reconnect(w: World, e: Env): World {
    EnterScan(RetryParamSet(EnterIdle(CopyCfg(w, e)), false), e)
  }

  function StepConnected(w: World, e: Env): World {
    var ev := w.sm.msg.event;
    if ev == ScanCmd then UserScan(w, e)
    else if ev == ConnectCmd then Reconnect(w, e)
    else if ev == WpsCmd then EnterWps(RetryParamSet(EnterIdle(w), false), e)
    else if ev == DisconnectCmd then EnterIdle(w)
    else if ev == ScanDone then ConnectedScanDone(w, e)
    else if ev == ScanFail then PostScanDone(w, SCAN_FAILED)
    else if ev == RxEapol || ev == RxUnprotDeauth || ev == RxAction then Read(w, w.sm.msg.param)
    else if ev == Disconnect then ConnectedDisconnect(w, e)
    else if ev == RoamingStart then StartRoaming(w)
    else w
  }

  /** Every machine starts by zeroing the record. */
  function ClearRecord(w: World, roaming: bool): World {
    Emit(w.(sm := ZERO_SM.(init := true, roam := ZERO_SM.roam.(enabled := roaming))), RecordCleared)
  }

  /** The first message an uninitialised station machine sees, or INIT at any time. */
  function StaReset(w: World): World {
    EnterIdle(RetryParamSet(ClearRecord(w, true), false))
  }

  function StaStep(w: World, e: Env): World {
    if !w.sm.init || w.sm.msg.event == Init then StaReset(w)
    else
      var h := Emit(w, Handled(w.sm.msg.event, w.sm.state));
      if w.sm.state == ST_IDLE then StepIdle(h, e)
      else if w.sm.state == ST_WPS then StepWps(h, e)
      else if w.sm.state == ST_SCAN then StepScan(h, e)
      else if w.sm.state == ST_CONNECT then StepConnect(h, e)
      else if w.sm.state == ST_HANDSHAKE then StepHandshake(h, e)
      else if w.sm.state == ST_DHCP then StepDhcp(h, e)
      else if w.sm.state == ST_CONNECTED then StepConnected(h, e)
      else h
  }

  // ---------------------------------------------------------------- the other two machines

  function ApStep(w: World, e: Env): World {
    if !w.sm.init || w.sm.msg.event == Init then ClearRecord(w, false)
    else if w.sm.state == ST_INIT then
      var ev := w.sm.msg.event;
      if ev == StartApCmd then
        Read(w, w.sm.msg.param).(sm := w.sm.(state := if e.startRet == 0 then ST_STARTED else ST_INIT))
      else w
    else if w.sm.state == ST_STARTED then
      var ev := w.sm.msg.event;
      if ev == StopApCmd then w.(sm := w.sm.(state := ST_INIT))
      else if ev == RxMgmt || ev == TxMgmtDone || ev == RxEapol || ev == ClientAdded || ev == ClientRemoved then
        Read(w, w.sm.msg.param)
      else if ev == ScanCmd then UserScan(w, e)
      else if ev == ScanDone then PostScanDone(w, SCAN_SUCCESS)
      else if ev == ScanFail then PostScanDone(w, SCAN_FAILED)
      else w
    else w
  }

  function MonitorStep(w: World, e: Env): World {
    if !w.sm.init || w.sm.msg.event == Init then ClearRecord(w, false)
    else if w.sm.state == ST_INIT then
      var ev := w.sm.msg.event;
      if ev == MonitorStartCmd then
        Read(w, w.sm.msg.param).(sm := w.sm.(state := if e.startRet == 0 then ST_STARTED else ST_INIT))
      else w
    else if w.sm.state == ST_STARTED then
      var ev := w.sm.msg.event;
      if ev == ScanCmd then UserScan(w, e)
      else if ev == ScanDone then PostScanDone(w, SCAN_SUCCESS)
      else if ev == ScanFail then PostScanDone(w, SCAN_FAILED)
      else w
    else w
  }

  // ---------------------------------------------------------------- mode switch

  /** Leaving a mode: reset its machine and clear its configuration. */
  function LeaveMode(w: World): World {
    match w.vif
    case VifSta => EnterIdle(w).(cfg := ZERO_CFG)
    case VifAp => w.(sm := w.sm.(state := ST_INIT))
    case VifMonitor => w.(sm := w.sm.(state := ST_INIT))
    case _ => w
  }

  function StartMode(w: World): World {
    w.(sm := w.sm.(msg := w.sm.msg.(event := Foreign, reason := 0), init := true))
  }

  /** Starting the machine of the new type; the record is not cleared. */
  function EnterMode(w: World, target: VifType): World {
    var w1 := StartMode(w);
    match target
    case VifSta =>
      var w2 := RetryParamSet(w1.(sm := w1.sm.(roam := w1.sm.roam.(polling := false))), false);
      w2.(sm := w2.sm.(state := ST_IDLE))
    case VifAp => w1.(sm := w1.sm.(state := ST_INIT))
    case VifMonitor => w1.(sm := w1.sm.(state := ST_INIT))
    case _ => w1
  }

  function SwitchMode(w: World, e: Env): World {
    var target := VifTypeOf(w.sm.msg.reason);
    if w.vif == target then w
    else
      var w1 := LeaveMode(w).(vif := target);
      if e.typeSetOk then EnterMode(w1, target) else w1
  }

  // ---------------------------------------------------------------- dispatch

  function MachineStep(w: World, e: Env): World {
    if w.sm.msg.event == SwitchModeCmd then SwitchMode(w, e)
    else match w.vif
      case VifSta => StaStep(w, e)
      case VifAp => ApStep(w, e)
      case VifMonitor => MonitorStep(w, e)
      case _ => w
  }

  function ReleaseParam(w: World): World {
    if w.sm.msg.param == 0 then w
    else
      var w1 := Free(w, w.sm.msg.param);
      w1.(sm := w1.sm.(msg := w1.sm.msg.(param := 0, len := 0)))
  }

  /** The queue head is taken off and, for a scan completion, the radio is free again. */
  function TakeMessage(w: World): World
    requires w.queue != []
  {
    w.(queue := w.queue[1..], scanOut := w.scanOut && !w.queue[0].scanEnd)
  }

  function LoadMessage(w: World, m: Msg): World {
    w.(sm := w.sm.(msg := w.sm.msg.(event := m.event, reason := m.reason, param := m.param, len := m.len)))
  }

  /** wifi_mgmt_cb_run_state_machine on the head of the queue. */
  function Dispatch(w: World, e: Env): World
    requires w.queue != []
  {
    var m, w1 := w.queue[0], TakeMessage(w);
    if m.vif != 0 || m.event == Foreign then w1
    else ReleaseParam(MachineStep(LoadMessage(w1, m), e))
  }

  // ---------------------------------------------------------------- timer callbacks

  function FireRetry(w: World, e: Env): World {
    EnterScan(w.(sm := w.sm.(retry := w.sm.retry.(count := (w.sm.retry.count - 1) % WORD32, delayed := false))), e)
  }

  function FireDhcp(w: World, e: Env): World {
    var w1 := Emit(w, DhcpPoll);
    if e.dhcpDone || e.staticIp then Post(Emit(w1, DhcpReport(true)), DhcpSuccess, 0)
    else
      var left := (w1.sm.dhcpCount - 1) % 0x100;
      var w2 := w1.(sm := w1.sm.(dhcpCount := left));
      if left != 0 then AddTimer(w2, DHCP_POLLING_INTERVAL, DhcpPolling, SM_CTX, NULL_CTX)
      else Post(Emit(w2.(sm := w2.sm.(msg := w2.sm.msg.(reason := CONN_DHCP_FAIL))), DhcpReport(false)), DhcpFail, 0)
  }

  function FireLink(w: World, e: Env): World {
    if !(w.sm.roam.enabled && w.sm.roam.started) then w
    else if e.rssiRecovered then
      w.(sm := w.sm.(roam := w.sm.roam.(started := false, scans := 0, bssidBk := 0)))
    else
      var w1 :=
        if w.sm.roam.scans < 10 || w.sm.roam.scans % POLLING_SCAN_TRIGGER_POINT == 0 then
          RequestScan(w, ANY_CHANNEL, e.scanOk).(sm := w.sm.(roam := w.sm.roam.(polling := true)))
        else w;
      AddTimer(w1.(sm := w1.sm.(roam := w1.sm.roam.(scans := (w1.sm.roam.scans + 1) % 0x1_0000))),
               LINK_POLLING_INTERVAL, LinkPolling, SM_CTX, NULL_CTX)
  }

  /** wifi_wpa_wps_scan_timer: start another scan, if the WPS context still exists. */
  function FireWps(w: World, e: Env): World {
    if !w.wpsCtx then w
    else if e.wpsScanned then w.(scanOut := true)
    else Post(w, ScanFail, 0)
  }

  function TakeTimer(w: World): (r: World)
    requires w.timers != []
    ensures forall g :: CountOf(r.timers, g)
                        == CountOf(w.timers, g) - (if g == w.timers[0].handler then 1 else 0)
    ensures RetryCtx(w.timers) ==> RetryCtx(r.timers)
  {
    w.(timers := w.timers[1..])
  }

  function Callback(w: World, h: Handler, e: Env): World {
    match h
    case ConnectRetry => FireRetry(w, e)
    case DhcpPolling => FireDhcp(w, e)
    case LinkPolling => FireLink(w, e)
    case WpsScanTimer => FireWps(w, e)
    case OtherHandler(_) => w
  }

  predicate HeadDue(w: World) {
    w.timers != [] && AfterEq(w.now, w.timers[0].time)
  }

  /** eloop_timeout_handle. */
  function FireHead(w: World, e: Env): World {
    if HeadDue(w) then Callback(TakeTimer(w), w.timers[0].handler, e) else w
  }

  // ---------------------------------------------------------------- runs

  /** What can happen next: the manager handles a message or its head timer, time
      passes, another task or the radio posts, a caller arms a blocking scan. */
  datatype Step =
    | Handle(env: Env)
    | Fire(env: Env)
    | Tick(now: nat)
    | Arrive(msg: Msg)
    | ArmScan(blocked: bool)
    | SetRoaming(enable: bool)

  /** Arriving payloads are fresh heap blocks. */
  predicate Enabled(w: World, s: Step) {
    match s
    case Handle(_) => w.queue != []
    case Fire(_) => true
    case Tick(now) => now < WORD32
    case Arrive(m) => m.param !in w.mem.live && (m.scanEnd ==> m.event == ScanDone || m.event == ScanFail)
    case ArmScan(_) => true
    case SetRoaming(_) => true
  }

  function Next(w: World, s: Step): World
    requires Enabled(w, s)
  {
    match s
    case Handle(e) => Dispatch(w, e)
    case Fire(e) => FireHead(w, e)
    case Tick(now) => w.(now := now)
    case Arrive(m) =>
      w.(queue := w.queue + [m], mem := w.mem.(live := if m.param == 0 then w.mem.live else w.mem.live + {m.param}))
    case ArmScan(b) =>
      var w1 := w.(sm := w.sm.(scanBlocked := b));
      if b then Emit(w1, ScanArmed) else w1
    case SetRoaming(b) => w.(sm := w.sm.(roam := w.sm.roam.(enabled := b)))
  }

  /** After wifi_management_init: a cleared record and an INIT message.  wifi_netlink_start has set the
      interface type, to station or, in builds for radio tests, to monitor; most results hold of any. */
  ghost predicate Start(w: World) {
    && w.sm == ZERO_SM && w.cfg == ZERO_CFG && w.timers == [] && w.now < WORD32
    && w.queue == [Msg(0, Init, 0, 0, 0, false)]
    && w.mem == Memory({}, false) && !w.scanOut && !w.wpsCtx && w.log == []
  }

  ghost predicate Run(ws: seq<World>, ss: seq<Step>) {
    && |ws| == |ss| + 1
    && Start(ws[0])
    && forall i :: 0 <= i < |ss| ==> Enabled(ws[i], ss[i]) && ws[i + 1] == Next(ws[i], ss[i])
  }
}
