/** What the state entries and their helpers leave behind: control fields, timer
    counts, and the effect on each observer of the trail. */
module WifiEntries {
  import opened EventLoop
  import opened WifiTypes
  import opened WifiSpec
  import opened WifiCoherence

  ghost function Seen(w: World): View { Observe(w.log) }

  /** The DHCP view after a cancellation. */
  function Cut(v: DhcpView, pending: nat): DhcpView {
    if pending > 0 then DhcpStep(v, DhcpCancelled) else v
  }

  /** Everything outside the record, the timers and the trail is untouched. */
  ghost predicate SameRest(w: World, r: World) {
    && r.vif == w.vif && r.cfg == w.cfg && r.lastReason == w.lastReason && r.now == w.now
    && r.queue == w.queue && r.mem == w.mem && r.scanOut == w.scanOut
  }

  lemma {:induction false} CancelDhcpFacts(w: World)
    ensures var r := CancelDhcp(w);
            && SameRest(w, r) && r.sm == w.sm
            && Seen(r) == Seen(w).(dhcp := Cut(Seen(w).dhcp, DhcpPolls(w)))
            && DhcpPolls(r) == 0 && Retries(r) == Retries(w) && LinkPolls(r) == LinkPolls(w)
            && (RetryCtx(w.timers) ==> RetryCtx(r.timers))
  {
    hide CountOf, Insert, Without, Observe;
    Observed(CancelTimer(w, DhcpPolling).log, DhcpCancelled);
  }

  lemma {:induction false} EnterIdleFacts(w: World)
    ensures var r := EnterIdle(w);
            && SameRest(w, r)
            && r.sm == w.sm.(state := ST_IDLE, wps := w.sm.wps.(stage := WpsInit),
                             retry := w.sm.retry.(delayed := false))
            && Seen(r) == Seen(w).(dhcp := Cut(Seen(w).dhcp, DhcpPolls(w)))
            && DhcpPolls(r) == Retries(r) == LinkPolls(r) == 0
            && (RetryCtx(w.timers) ==> RetryCtx(r.timers))
  {
    hide CountOf, Insert, Without, Observe, CancelDhcp;
    Observed(w.log, Entered(ST_IDLE));
    CancelDhcpFacts(Emit(w.(sm := w.sm.(state := ST_IDLE, wps := w.sm.wps.(stage := WpsInit),
                                        retry := w.sm.retry.(delayed := false))), Entered(ST_IDLE)));
  }

  lemma {:induction false} EnterScanFacts(w: World, e: Env)
    ensures var r := EnterScan(w, e);
            && r.vif == w.vif && r.cfg == w.cfg && r.mem == w.mem
            && r.sm == w.sm.(state := ST_SCAN)
            && Seen(r) == Seen(w).(phase := Seen(w).phase.(done := 0),
                                   dhcp := Cut(Seen(w).dhcp, DhcpPolls(w)))
            && DhcpPolls(r) == LinkPolls(r) == 0 && Retries(r) == Retries(w)
            && (RetryCtx(w.timers) ==> RetryCtx(r.timers))
            && r.scanOut == (w.scanOut || (!w.sm.retry.delayed && e.scanOk))
            && r.queue == w.queue + (if w.sm.retry.delayed || e.scanOk then []
                                     else [Msg(0, ScanFail, 0, 0, 0, false)])
  {
    hide CountOf, Insert, Without, Observe, CancelDhcp;
    Observed(w.log, Entered(ST_SCAN));
    var w1 := Emit(w.(sm := w.sm.(state := ST_SCAN)), Entered(ST_SCAN));
    CancelDhcpFacts(w1);
    var w2 := CancelTimer(CancelDhcp(w1), LinkPolling);
    forall c: nat ensures Observe(w2.log + [ScanRequest(c)]) == Observe(w2.log) {
      Observed(w2.log, ScanRequest(c));
    }
    assert w.queue + [] == w.queue;
  }

  lemma {:induction false} EnterWpsFacts(w: World, e: Env)
    ensures var r := EnterWps(w, e);
            && r.vif == w.vif && r.timers == w.timers && r.cfg == w.cfg.(connBlocked := true)
            && r.sm == w.sm.(state := ST_WPS, wps := w.sm.wps.(stage := WpsScan))
            && Seen(r) == Seen(w).(block := Seen(w).block.(connArms := Seen(w).block.connArms + 1))
            && r.mem == Read(w, w.sm.msg.param).mem
            && r.scanOut == (w.scanOut || e.wpsScanned)
            && r.queue == w.queue + (if e.startRet == 0 then []
                                     else [Msg(0, WpsFail, e.startRet, 0, 0, false)])
  {
    hide Observe;
    Observed(w.log, Entered(ST_WPS));
    Observed(w.log + [Entered(ST_WPS)], ConnArmed);
    assert w.queue + [] == w.queue;
  }

  lemma {:induction false} EnterConnectFacts(w: World, e: Env)
    ensures var r := EnterConnect(w, e);
            && r.vif == w.vif && r.timers == w.timers && r.cfg == w.cfg && r.mem == w.mem
            && r.sm == w.sm.(state := ST_CONNECT) && r.scanOut == w.scanOut
            && Seen(r) == Seen(w).(retry := RetryStep(Seen(w).retry, ConnectRequest))
            && r.queue == w.queue + (if e.connectReason == 0 then []
                                     else [Msg(0, ConnectFail, e.connectReason, 0, 0, false)])
  {
    hide Observe;
    Observed(w.log, Entered(ST_CONNECT));
    Observed(w.log + [Entered(ST_CONNECT)], ConnectRequest);
    assert w.queue + [] == w.queue;
  }

  lemma {:induction false} EnterHandshakeFacts(w: World)
    ensures var r := EnterHandshake(w);
            && r.vif == w.vif && r.timers == w.timers && r.cfg == w.cfg && r.queue == w.queue
            && r.mem == Read(w, w.sm.msg.param).mem
            && r.sm == w.sm.(state := ST_HANDSHAKE) && r.scanOut == w.scanOut
            && Seen(r) == Seen(w)
  {
    hide Observe;
    Observed(w.log, Entered(ST_HANDSHAKE));
  }

  lemma {:induction false} EnterDhcpFacts(w: World, e: Env)
    ensures var r := EnterDhcp(w, e);
            && SameRest(w, r)
            && r.sm == w.sm.(state := ST_DHCP,
                             dhcpCount := if e.staticIp then w.sm.dhcpCount else DHCP_POLLING_LIMIT)
            && Seen(r) == Seen(w).(dhcp := DhcpStep(Seen(w).dhcp, DhcpBegin(!e.staticIp)))
            && DhcpPolls(r) == DhcpPolls(w) + 1 && Retries(r) == Retries(w) && LinkPolls(r) == LinkPolls(w)
            && (RetryCtx(w.timers) ==> RetryCtx(r.timers))
  {
    hide CountOf, Insert, Without, Observe;
    Observed(w.log, Entered(ST_DHCP));
    Observed(w.log + [Entered(ST_DHCP)], DhcpBegin(!e.staticIp));
  }

  lemma {:induction false} PostConnDoneFacts(w: World, reason: nat)
    ensures var r := PostConnDone(w, reason);
            && SameRest(w.(cfg := w.cfg.(connBlocked := false)), r) && r.sm == w.sm && r.timers == w.timers
            && Seen(r) == Seen(w).(block := Seen(w).block.(connPosts :=
                 Seen(w).block.connPosts + (if w.cfg.connBlocked then 1 else 0)))
  {
    hide Observe;
    Observed(w.log, ConnDonePost(reason));
  }

  lemma {:induction false} EnterConnectedFacts(w: World)
    ensures var r := EnterConnected(w);
            && r.vif == w.vif && r.timers == w.timers && r.mem == w.mem && r.scanOut == w.scanOut
            && r.cfg == w.cfg.(connBlocked := false, withBssid := false)
            && r.sm == w.sm.(state := ST_CONNECTED,
                             roam := w.sm.roam.(started := false, scans := 0, bssidBk := 0))
            && Seen(r) == Seen(w).(
                 phase := Seen(w).phase.(ordered := Seen(w).phase.ordered && Seen(w).phase.done == 4),
                 block := Seen(w).block.(connPosts :=
                   Seen(w).block.connPosts + (if w.cfg.connBlocked then 1 else 0)))
            && r.queue == w.queue + (if w.cfg.connBlocked then []
                                     else [Msg(0, ConnectSuccess, 0, 0, 0, false)])
  {
    hide Observe;
    Observed(w.log, Entered(ST_CONNECTED));
    PostConnDoneFacts(Emit(w.(sm := w.sm.(state := ST_CONNECTED), lastReason := 0), Entered(ST_CONNECTED)), 0);
    assert w.queue + [] == w.queue;
  }

  lemma {:induction false} PostScanDoneFacts(w: World, reason: nat)
    ensures var r := PostScanDone(w, reason);
            && SameRest(w, r) && r.sm == w.sm.(scanBlocked := false) && r.timers == w.timers
            && Seen(r) == Seen(w).(block := Seen(w).block.(scanPosts :=
                 Seen(w).block.scanPosts + (if w.sm.scanBlocked then 1 else 0)))
  {
    hide Observe;
    Observed(w.log, ScanDonePost(reason));
  }

  lemma {:induction false} SetCfgFacts(w: World, cfg: StaCfg)
    ensures var r := SetCfg(w, cfg);
            && SameRest(w.(cfg := cfg), r) && r.sm == w.sm && r.timers == w.timers
            && Seen(r) == Seen(w).(block := Seen(w).block.(connArms :=
                 Seen(w).block.connArms + (if cfg.connBlocked then 1 else 0)))
  {
    hide Observe;
    Observed(w.log, ConnArmed);
  }

  lemma {:induction false} ClearRecordFacts(w: World, roaming: bool)
    ensures var r := ClearRecord(w, roaming);
            && SameRest(w, r) && r.timers == w.timers
            && r.sm == ZERO_SM.(init := true, roam := ZERO_SM.roam.(enabled := roaming))
            && Seen(r) == Seen(w).(retry := Seen(w).retry.(budgeted := false))
  {
    hide Observe;
    Observed(w.log, RecordCleared);
  }

  lemma {:induction false} RetryParamSetFacts(w: World, roaming: bool)
    ensures var r := RetryParamSet(w, roaming);
            && SameRest(w, r) && r.timers == w.timers
            && BudgetOk(r.sm) && r.sm == w.sm.(retry := r.sm.retry)
            && r.sm.retry.delayed == w.sm.retry.delayed && r.sm.retry.count + 1 == r.sm.retry.limit
            && Seen(r) == Seen(w).(retry :=
                 RetryView(Seen(w).retry.resets + 1, 0, r.sm.retry.limit, r.sm.retry.interval, 0,
                           Seen(w).retry.bounded, Seen(w).retry.ordered, true))
  {
    hide Observe;
    var limit := if roaming then ROAMING_RETRY_LIMIT else CONNECT_RETRY_LIMIT;
    var interval := if roaming then ROAMING_RETRY_INTERVAL else CONNECT_RETRY_INTERVAL;
    Observed(w.log, RetryParams(limit, interval));
  }

  /** The delay the retry timer would be armed with now. */
  function DelayNow(sm: Sm): nat { RetryDelay(sm.retry.count, sm.retry.limit, sm.retry.interval) }

  lemma {:induction false} RegisterRetryFacts(w: World)
    requires RetryCtx(w.timers)
    ensures var r := RegisterRetry(w);
            && SameRest(w, r) && r.sm == w.sm && RetryCtx(r.timers)
            && Retries(r) == (if Retries(w) > 0 then Retries(w) else 1)
            && DhcpPolls(r) == DhcpPolls(w) && LinkPolls(r) == LinkPolls(w)
            && Seen(r) == if Retries(w) > 0 then Seen(w)
                          else Seen(w).(retry := RetryStep(Seen(w).retry, RetryArmed(DelayNow(w.sm))))
  {
    hide CountOf, Insert, Without, Observe, RetryDelay;
    RetryRegistered(w.timers);
    Observed(w.log, RetryArmed(DelayNow(w.sm)));
  }

  lemma {:induction false} LinkIsOngoingFacts(w: World)
    ensures var r := LinkIsOngoing(w);
            && SameRest(w.(cfg := w.cfg.(connBlocked := false)), r) && r.sm == w.sm && r.timers == w.timers
            && Seen(r) == Seen(w).(block := Seen(w).block.(
                 connArms := Seen(w).block.connArms + 1, connPosts := Seen(w).block.connPosts + 1))
  {
    hide Observe;
    SetCfgFacts(w, w.cfg.(connBlocked := true));
    PostConnDoneFacts(SetCfg(w, w.cfg.(connBlocked := true)), 1);
  }

  lemma {:induction false} PreroamRollbackFacts(w: World)
    ensures var r := PreroamRollback(w);
            && r.vif == w.vif && r.timers == w.timers && r.mem == w.mem && r.scanOut == w.scanOut
            && r.cfg.connBlocked == w.cfg.connBlocked && r.log == w.log
            && r.sm == w.sm.(roam := r.sm.roam)
            && (r.queue == w.queue || r.queue == w.queue + [Msg(0, ConnectCmd, 0, 0, 0, false)])
  {
  }

  lemma {:induction false} UserScanFacts(w: World, e: Env)
    ensures var r := UserScan(w, e);
            && r.vif == w.vif && r.cfg == w.cfg && r.timers == w.timers && r.queue == w.queue
            && r.mem == Read(w, w.sm.msg.param).mem
            && r.scanOut == (w.scanOut || e.scanOk)
            && r.sm == (if e.scanOk then w.sm else w.sm.(scanBlocked := false))
            && Seen(r) == Seen(w).(block := Seen(w).block.(scanPosts :=
                 Seen(w).block.scanPosts + (if !e.scanOk && w.sm.scanBlocked then 1 else 0)))
  {
    hide Observe;
    Observed(w.log, ScanRequest(ANY_CHANNEL));
    PostScanDoneFacts(RequestScan(Read(w, w.sm.msg.param), ANY_CHANNEL, e.scanOk), SCAN_START_FAIL);
  }

  lemma {:induction false} CopyCfgFacts(w: World, e: Env)
    ensures var r := CopyCfg(w, e);
            && r.vif == w.vif && r.timers == w.timers && r.queue == w.queue && r.scanOut == w.scanOut
            && r.sm == w.sm && r.mem == Read(w, w.sm.msg.param).mem
            && Seen(r) == Seen(w).(block := Seen(w).block.(connArms :=
                 Seen(w).block.connArms + (if w.sm.msg.param != 0 && e.newCfg.connBlocked then 1 else 0)))
            && r.cfg == if w.sm.msg.param != 0 then e.newCfg else w.cfg
  {
    hide Observe;
    SetCfgFacts(Read(w, w.sm.msg.param), e.newCfg);
  }

  /** What handling an event inside WPS leaves alone. */
  lemma {:induction false} WpsStaysRest(w: World, e: Env)
    requires !LeavesWps(w.sm.msg.event)
    ensures var r := StepWps(w, e);
            && r.log == w.log && r.scanOut == w.scanOut && r.cfg == w.cfg
            && r.sm.dhcpCount == w.sm.dhcpCount && r.sm.scanBlocked == w.sm.scanBlocked
            && (r.queue == w.queue || r.queue == w.queue + [Msg(0, ConnectFail, e.wpsAssocReason, 0, 0, false)])
  {
    hide CountOf, EnterIdle, WpsDisconnect, WpsFailed, WpsScanResult, WpsScanDone, Observe;
    if w.sm.msg.event == ScanResult {
      WpsScanResultRest(w, e);
    } else if w.sm.msg.event == ScanDone {
      WpsScanDoneRest(w, e);
    }
  }

  lemma {:induction false} WpsScanResultRest(w: World, e: Env)
    ensures var r := WpsScanResult(w, e);
            && r.log == w.log && r.scanOut == w.scanOut && r.cfg == w.cfg && r.queue == w.queue
            && r.sm.dhcpCount == w.sm.dhcpCount && r.sm.scanBlocked == w.sm.scanBlocked
  {
    hide CountOf, Without;
  }

  lemma {:induction false} WpsScanDoneRest(w: World, e: Env)
    ensures var r := WpsScanDone(w, e);
            && r.log == w.log && r.scanOut == w.scanOut && r.cfg == w.cfg
            && r.sm.dhcpCount == w.sm.dhcpCount && r.sm.scanBlocked == w.sm.scanBlocked
            && (r.queue == w.queue || r.queue == w.queue + [Msg(0, ConnectFail, e.wpsAssocReason, 0, 0, false)])
  {
    hide CountOf, Insert;
  }

  /** The observers at one DHCP poll: report success, poll again, or report failure. */
  lemma {:induction false} FireDhcpSeen(w: World, e: Env)
    ensures var left := (w.sm.dhcpCount - 1) % 0x100;
            var polled := DhcpStep(Seen(w).dhcp, DhcpPoll);
            Seen(FireDhcp(w, e)) == Seen(w).(dhcp :=
              if e.dhcpDone || e.staticIp || left == 0 then DhcpStep(polled, DhcpReport(true)) else polled)
  {
    hide CountOf, Insert, Observe;
    Observed(w.log, DhcpPoll);
    Observed(w.log + [DhcpPoll], DhcpReport(true));
    Observed(w.log + [DhcpPoll], DhcpReport(false));
  }

  /** The rest of one DHCP poll. */
  lemma {:induction false} FireDhcpFacts(w: World, e: Env)
    ensures var r := FireDhcp(w, e);
            var left := (w.sm.dhcpCount - 1) % 0x100;
            var ok := e.dhcpDone || e.staticIp;
            && r.vif == w.vif && r.cfg == w.cfg && r.mem == w.mem && r.scanOut == w.scanOut
            && r.sm.state == w.sm.state && r.sm.retry == w.sm.retry && r.sm.scanBlocked == w.sm.scanBlocked
            && r.sm.dhcpCount == (if ok then w.sm.dhcpCount else left)
            && DhcpPolls(r) == DhcpPolls(w) + (if ok || left == 0 then 0 else 1)
            && Retries(r) == Retries(w) && LinkPolls(r) == LinkPolls(w)
            && (RetryCtx(w.timers) ==> RetryCtx(r.timers))
            && r.queue == w.queue + (if ok then [Msg(0, DhcpSuccess, 0, 0, 0, false)]
                                     else if left == 0 then [Msg(0, DhcpFail, 0, 0, 0, false)] else [])
  {
    hide CountOf, Insert, Observe;
    assert w.queue + [] == w.queue;
  }

  lemma {:induction false} FireLinkFacts(w: World, e: Env)
    ensures var r := FireLink(w, e);
            && r.vif == w.vif && r.cfg == w.cfg && r.mem == w.mem && r.queue == w.queue
            && r.sm == w.sm.(roam := r.sm.roam)
            && Seen(r) == Seen(w)
            && DhcpPolls(r) == DhcpPolls(w) && Retries(r) == Retries(w)
            && (RetryCtx(w.timers) ==> RetryCtx(r.timers))
            && (r.scanOut == w.scanOut || (r.scanOut && e.scanOk))
  {
    hide Observe, CountOf, Insert;
    Observed(w.log, ScanRequest(ANY_CHANNEL));
  }
}
