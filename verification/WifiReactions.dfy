/** What the handlers do besides moving: which channels are scanned, which budget an attempt gets, what
    callers are told, how roaming, WPS and the other two machines react. */
module WifiReactions {
  import opened EventLoop
  import opened WifiTypes
  import opened WifiSpec
  import opened WifiCoherence
  import opened WifiEntries

  /** A timer for handler h is pending that is due `msecs` from now. */
  predicate DueIn(w: World, msecs: nat, h: Handler, data: nat, user: nat) {
    Timeout((w.now + msecs) % WORD32, h, data, user) in w.timers
  }

  lemma {:induction false} AddedDue(w: World, msecs: nat, h: Handler, data: nat, user: nat)
    ensures DueIn(AddTimer(w, msecs, h, data, user), msecs, h, data, user)
  {
    var t := Timeout((w.now + msecs) % WORD32, h, data, user);
    InsertMembers(w.timers, t, t);
  }

  // ---------------------------------------------------------------- scanning

  /** A new attempt scans every channel when the last one found no access point (2) or lost its link
      (11, 12, 15), and otherwise the configured channel; a delayed retry does not scan yet, and a
      scan that cannot start is reported to the machine itself. */
  lemma {:induction false} ScanChannels(w: World, e: Env)
    ensures var r := EnterScan(w, e);
            var all := w.lastReason == 2 || w.lastReason == 11 || w.lastReason == 12 || w.lastReason == 15;
            && r.log == w.log + [Entered(ST_SCAN)] + (if DhcpPolls(w) > 0 then [DhcpCancelled] else [])
                        + (if w.sm.retry.delayed then [] else [ScanRequest(if all then 0xFF else w.cfg.channel)])
            && r.queue == w.queue + (if w.sm.retry.delayed || e.scanOk then [] else [Msg(0, ScanFail, 0, 0, 0, false)])
  {
    hide CountOf, Without;
    assert w.queue + [] == w.queue;
  }

  /** A scan for the application covers every channel; if it cannot start, a blocked caller is told. */
  lemma {:induction false} UserScans(w: World, e: Env)
    ensures var r := UserScan(w, e);
            && r.log == w.log + [ScanRequest(0xFF)] + (if !e.scanOk && w.sm.scanBlocked then [ScanDonePost(1)] else [])
            && r.sm.scanBlocked == (w.sm.scanBlocked && e.scanOk)
  {
    assert w.log + [ScanRequest(0xFF)] + [] == w.log + [ScanRequest(0xFF)];
  }

  // ---------------------------------------------------------------- budgets and failures

  /** Three attempts two seconds apart for a command; a hundred, 2.5 seconds apart, for a link to be
      found again or a stored access point. */
  const COMMANDED: Retry := Retry(2, 3, 2000, false)
  const ROAMING: Retry := Retry(99, 100, 2500, false)

  lemma {:induction false} IdleBudgets(w: World, e: Env)
    requires !w.sm.retry.delayed
    ensures w.sm.msg.event == ConnectCmd ==> StepIdle(w, e).sm.retry == COMMANDED
    ensures w.sm.msg.event == AutoConnectCmd && e.apLoaded ==>
              StepIdle(w, e).sm.retry == ROAMING && StepIdle(w, e).cfg.channel == e.apChannel
  {
    hide EnterScan, CopyCfg, Observe, CountOf;
    CopyCfgFacts(w, e);
    EnterScanFacts(RetryParamSet(CopyCfg(w, e), false), e);
    EnterScanFacts(RetryParamSet(w.(cfg := w.cfg.(channel := e.apChannel)), true), e);
  }

  lemma {:induction false} ConnectedBudgets(w: World, e: Env)
    requires !w.sm.retry.delayed
    ensures w.sm.msg.event == ConnectCmd || w.sm.msg.event == WpsCmd ==> StepConnected(w, e).sm.retry == COMMANDED
  {
    hide EnterScan, EnterIdle, EnterWps, CopyCfg, Observe, CountOf;
    CopyCfgFacts(w, e);
    EnterIdleFacts(CopyCfg(w, e));
    EnterScanFacts(RetryParamSet(EnterIdle(CopyCfg(w, e)), false), e);
    EnterIdleFacts(w);
    EnterWpsFacts(RetryParamSet(EnterIdle(w), false), e);
  }

  /** A link that ended is remembered by its reason, and one that broke off gets the budget of a search. */
  lemma {:induction false} LostLinkBudget(w: World, e: Env)
    requires w.sm.msg.event == Disconnect
    ensures StepConnected(w, e).lastReason == w.sm.msg.reason
    ensures !w.sm.retry.delayed && StepConnected(w, e).sm.state == ST_SCAN ==> StepConnected(w, e).sm.retry == ROAMING
  {
    hide EnterScan, EnterIdle, Observe, CountOf;
    var w1 := w.(lastReason := w.sm.msg.reason);
    EnterIdleFacts(w1);
    ReasonKept(w1, e);
    ReasonKept(RetryParamSet(w1, true), e);
    EnterScanFacts(RetryParamSet(w1, true), e);
  }

  lemma {:induction false} ReasonKept(w: World, e: Env)
    ensures EnterIdle(w).lastReason == w.lastReason && EnterScan(w, e).lastReason == w.lastReason
    ensures RegisterRetry(w).lastReason == w.lastReason
  {
    hide CountOf, Insert, Without;
  }

  /** A failed attempt is remembered by its reason; it is retried from SCAN, delayed, one retry timer
      armed, while a retry is left, and otherwise given up. */
  lemma {:induction false} FailureReacts(w: World, e: Env)
    requires RetryCtx(w.timers)
    ensures var r := AttemptFailed(w, e);
            && r.lastReason == w.sm.msg.reason
            && (w.sm.retry.count > 0 ==>
                  r.sm.retry == w.sm.retry.(delayed := true) && Retries(r) > 0 && r.queue == w.queue)
            && (w.sm.retry.count == 0 ==> Retries(r) == 0 && !r.sm.retry.delayed)
  {
    hide EnterScan, EnterIdle, RegisterRetry, PostConnDone, PreroamRollback, Observe, CountOf;
    var w1 := w.(lastReason := w.sm.msg.reason);
    var w2 := w1.(sm := w1.sm.(retry := w1.sm.retry.(delayed := true)));
    EnterScanFacts(w2, e);
    ReasonKept(w2, e);
    RegisterRetryFacts(EnterScan(w2, e));
    ReasonKept(EnterScan(w2, e), e);
    RollbackKeepsReason(w1);
    ReasonKept(PostConnDone(PreroamRollback(w1), w1.sm.msg.reason), e);
    EnterIdleFacts(PostConnDone(PreroamRollback(w1), w1.sm.msg.reason));
    assert w2.queue + [] == w2.queue;
  }

  lemma {:induction false} RollbackKeepsReason(w: World)
    ensures PostConnDone(PreroamRollback(w), w.sm.msg.reason).lastReason == w.lastReason
  {
  }

  /** Giving up tells a blocked caller the reason of the failure, once. */
  lemma {:induction false} GivingUpTells(w: World)
    ensures var r := EnterIdle(PostConnDone(PreroamRollback(w), w.sm.msg.reason));
            && r.log == w.log + (if w.cfg.connBlocked then [ConnDonePost(w.sm.msg.reason)] else [])
                        + [Entered(ST_IDLE)] + (if DhcpPolls(w) > 0 then [DhcpCancelled] else [])
            && !r.cfg.connBlocked
  {
    hide CountOf, Without;
    assert w.log + [] == w.log;
  }

  /** A command that comes during an attempt is refused with 1, and changes nothing else. */
  lemma {:induction false} BusyTells(w: World, e: Env)
    requires w.sm.init && (w.sm.msg.event == ScanCmd || w.sm.msg.event == ConnectCmd)
    requires w.sm.state == 2 || w.sm.state == 3 || w.sm.state == 4 || w.sm.state == 5
    ensures StaStep(w, e) == w.(cfg := w.cfg.(connBlocked := false),
                                log := w.log + [Handled(w.sm.msg.event, w.sm.state), ConnArmed, ConnDonePost(1)])
  {
  }

  /** An idle or connected station scans when it is asked to, and tells a blocked caller how that ended. */
  lemma {:induction false} QuietScans(w: World, e: Env)
    ensures w.sm.msg.event == ScanCmd ==> StepIdle(w, e) == StepConnected(w, e) == UserScan(w, e)
    ensures w.sm.msg.event == ScanDone ==> StepIdle(w, e) == PostScanDone(w, 0)
    ensures w.sm.msg.event == ScanFail ==> StepIdle(w, e) == w && StepConnected(w, e) == PostScanDone(w, 2)
  {
  }

  /** A scan ends for a blocked caller with success (0) or failure (2), in every mode that scans. */
  lemma {:induction false} ScanTells(w: World, result: nat)
    ensures PostScanDone(w, result).log == w.log + (if w.sm.scanBlocked then [ScanDonePost(result)] else [])
    ensures !PostScanDone(w, result).sm.scanBlocked
  {
    assert w.log + [] == w.log;
  }

  /** An address is waited for by polls from 100 ms on, at most 200 of them unless it is static. */
  lemma {:induction false} AddressAwaited(w: World, e: Env)
    ensures DueIn(EnterDhcp(w, e), 100, DhcpPolling, SM_CTX, NULL_CTX)
    ensures !e.staticIp ==> EnterDhcp(w, e).sm.dhcpCount == 200
    ensures EnterDhcp(w, e).log == w.log + [Entered(ST_DHCP), DhcpBegin(!e.staticIp)]
  {
    hide CountOf, Insert, AddTimer;
    var w1 := Emit(w.(sm := w.sm.(state := ST_DHCP)), Entered(ST_DHCP));
    var w2 := if e.staticIp then w1 else w1.(sm := w1.sm.(dhcpCount := DHCP_POLLING_LIMIT));
    AddedDue(Emit(w2, DhcpBegin(!e.staticIp)), 100, DhcpPolling, SM_CTX, NULL_CTX);
    AddKeeps(Emit(w2, DhcpBegin(!e.staticIp)), 100, DhcpPolling, SM_CTX, NULL_CTX);
  }

  lemma {:induction false} AddKeeps(w: World, msecs: nat, h: Handler, data: nat, user: nat)
    ensures var r := AddTimer(w, msecs, h, data, user);
            r == w.(timers := r.timers)
  {
  }

  /** A connect command takes over the configuration it brings, if it brings one. */
  lemma {:induction false} CommandConfigures(w: World, e: Env)
    requires w.sm.msg.event == ConnectCmd
    ensures var cfg := if w.sm.msg.param == 0 then w.cfg else e.newCfg;
            StepIdle(w, e).cfg == cfg && StepConnected(w, e).cfg == cfg
  {
    hide EnterScan, EnterIdle, CopyCfg, Observe, CountOf;
    CopyCfgFacts(w, e);
    EnterScanFacts(RetryParamSet(CopyCfg(w, e), false), e);
    EnterIdleFacts(CopyCfg(w, e));
    EnterScanFacts(RetryParamSet(EnterIdle(CopyCfg(w, e)), false), e);
  }

  /** A connect request that is refused is reported to the machine itself, with its reason. */
  lemma {:induction false} RequestRefused(w: World, e: Env)
    ensures EnterConnect(w, e).log == w.log + [Entered(ST_CONNECT), ConnectRequest]
    ensures EnterConnect(w, e).queue ==
            w.queue + (if e.connectReason == 0 then [] else [Msg(0, ConnectFail, e.connectReason, 0, 0, false)])
  {
    assert w.queue + [] == w.queue;
  }

  /** Being connected ends every search: the last failure is forgotten, so is the address to roam to; a
      blocked caller is told 0, and otherwise the application gets a message. */
  lemma {:induction false} ConnectedTells(w: World)
    ensures var r := EnterConnected(w);
            && r.lastReason == 0 && !r.cfg.withBssid && !r.cfg.connBlocked
            && r.sm.roam == w.sm.roam.(started := false, scans := 0, bssidBk := 0)
            && r.log == w.log + [Entered(ST_CONNECTED)] + (if w.cfg.connBlocked then [ConnDonePost(0)] else [])
            && r.queue == w.queue + (if w.cfg.connBlocked then [] else [Msg(0, ConnectSuccess, 0, 0, 0, false)])
  {
    assert w.queue + [] == w.queue;
    assert w.log + [Entered(ST_CONNECTED)] + [] == w.log + [Entered(ST_CONNECTED)];
  }

  // ---------------------------------------------------------------- roaming

  /** A weak signal starts the search for a better access point, if roaming is enabled: the link is
      checked a millisecond later, and the present access point is remembered. */
  lemma {:induction false} RoamingStarts(w: World, e: Env)
    requires w.sm.msg.event == RoamingStart
    ensures var r := StepConnected(w, e);
            if !w.sm.roam.enabled then r == w
            else
              && r.sm == w.sm.(roam := w.sm.roam.(started := true, bssidBk := w.cfg.bssid))
              && DueIn(r, 1, LinkPolling, SM_CTX, NULL_CTX)
  {
    hide AddTimer, CountOf;
    var w1 := w.(sm := w.sm.(roam := w.sm.roam.(started := true, bssidBk := w.cfg.bssid)));
    AddedDue(w1, 1, LinkPolling, SM_CTX, NULL_CTX);
    AddKeeps(w1, 1, LinkPolling, SM_CTX, NULL_CTX);
  }

  /** Checking the link: nothing unless the search is on; a recovered signal ends it; otherwise every
      channel is scanned in the first ten rounds and in every tenth one after them, and the link is
      checked again after three seconds. */
  lemma {:induction false} LinkChecked(w: World, e: Env)
    ensures var r := FireLink(w, e);
            var scan := w.sm.roam.scans < 10 || w.sm.roam.scans % 10 == 0;
            if !w.sm.roam.enabled || !w.sm.roam.started then r == w
            else if e.rssiRecovered
            then r == w.(sm := w.sm.(roam := w.sm.roam.(started := false, scans := 0, bssidBk := 0)))
            else
              && r.log == w.log + (if scan then [ScanRequest(0xFF)] else [])
              && r.sm.roam == w.sm.roam.(scans := (w.sm.roam.scans + 1) % 0x1_0000,
                                         polling := scan || w.sm.roam.polling)
              && DueIn(r, 3000, LinkPolling, SM_CTX, NULL_CTX)
  {
    hide AddTimer, CountOf;
    assert w.log + [] == w.log;
    var w1 := if w.sm.roam.scans < 10 || w.sm.roam.scans % 10 == 0
              then RequestScan(w, 0xFF, e.scanOk).(sm := w.sm.(roam := w.sm.roam.(polling := true)))
              else w;
    var w2 := w1.(sm := w1.sm.(roam := w1.sm.roam.(scans := (w1.sm.roam.scans + 1) % 0x1_0000)));
    AddedDue(w2, 3000, LinkPolling, SM_CTX, NULL_CTX);
    AddKeeps(w2, 3000, LinkPolling, SM_CTX, NULL_CTX);
  }

  /** The scan of such a search ends with a command to reconnect, on the channel of the access point
      found, exactly when there is one that is not the present one and is better. */
  lemma {:induction false} BetterFound(w: World, e: Env)
    requires w.sm.msg.event == ScanDone
    ensures var r := StepConnected(w, e);
            var go := w.sm.roam.polling && e.candidate && !e.candidateSame && e.candidateBetter;
            && r.queue == w.queue + (if go then [Msg(0, ConnectCmd, 0, 0, 0, false)] else [])
            && r.cfg == (if go then w.cfg.(channel := e.candidateChannel) else w.cfg)
            && !r.sm.roam.polling
            && r.log == w.log + (if w.sm.scanBlocked then [ScanDonePost(0)] else [])
  {
    assert w.queue + [] == w.queue && w.log + [] == w.log;
  }

  /** Giving up during such a search goes back to the access point remembered, on any channel. */
  lemma {:induction false} RollsBack(w: World, e: Env)
    requires w.sm.retry.count == 0
    ensures var back := w.sm.roam.started && w.sm.roam.bssidBk != 0;
            var cfg := if back then w.cfg.(channel := 0xFF, bssid := w.sm.roam.bssidBk, withBssid := true) else w.cfg;
            var more := if back then [Msg(0, ConnectCmd, 0, 0, 0, false)] else [];
            && AttemptFailed(w, e).queue == w.queue + more
            && AttemptFailed(w, e).cfg == cfg.(connBlocked := false)
            && (w.sm.msg.event == ScanFail ==>
                  StepScan(w, e).queue == w.queue + more && StepScan(w, e).cfg == cfg.(connBlocked := false))
  {
    hide EnterIdle, EnterScan, RegisterRetry, PostConnDone, PreroamRollback, Observe, CountOf;
    var w1 := w.(lastReason := w.sm.msg.reason);
    RolledBack(w);
    RolledBack(w1);
    EnterIdleFacts(PostConnDone(PreroamRollback(w), w.sm.msg.reason));
    EnterIdleFacts(PostConnDone(PreroamRollback(w1), w1.sm.msg.reason));
  }

  lemma {:induction false} RolledBack(w: World)
    ensures var back := w.sm.roam.started && w.sm.roam.bssidBk != 0;
            var cfg := if back then w.cfg.(channel := 0xFF, bssid := w.sm.roam.bssidBk, withBssid := true) else w.cfg;
            var r := PostConnDone(PreroamRollback(w), w.sm.msg.reason);
            && r.queue == w.queue + (if back then [Msg(0, ConnectCmd, 0, 0, 0, false)] else [])
            && r.cfg == cfg.(connBlocked := false)
  {
    assert w.queue + [] == w.queue;
  }

  // ---------------------------------------------------------------- WPS

  /** WPS scans until a beacon has been kept: the first one that matches. */
  lemma {:induction false} WpsKeepsBeacon(w: World, e: Env)
    requires w.sm.wps.stage == WpsScan && w.sm.msg.event == ScanResult
    ensures var r := StepWps(w, e);
            var kept := e.wpsMatch && w.sm.wps.bcn == 0;
            && r.sm.wps == (if kept then w.sm.wps.(bcn := w.sm.msg.param, bcnLen := w.sm.msg.len) else w.sm.wps)
            && (!kept ==> r.timers == w.timers)
  {
    hide CountOf, Without;
  }

  /** At the end of a scan it connects to that access point, or scans again two seconds later. */
  lemma {:induction false} WpsScanEnds(w: World, e: Env)
    requires w.sm.wps.stage == WpsScan && w.sm.msg.event == ScanDone
    ensures var r := StepWps(w, e);
            if w.sm.wps.bcn == 0 || w.sm.wps.bcnLen == 0
            then r.sm == w.sm && DueIn(r, 2000, WpsScanTimer, NULL_CTX, NULL_CTX)
            else
              && r.sm == w.sm.(wps := w.sm.wps.(stage := WpsConnect, bcn := 0, bcnLen := 0))
              && r.queue ==
                 w.queue + (if e.wpsAssocReason == 0 then [] else [Msg(0, ConnectFail, e.wpsAssocReason, 0, 0, false)])
  {
    hide AddTimer, CountOf;
    assert w.queue + [] == w.queue;
    AddedDue(w, 2000, WpsScanTimer, NULL_CTX, NULL_CTX);
    AddKeeps(w, 2000, WpsScanTimer, NULL_CTX, NULL_CTX);
  }

  /** The stages that follow, and the credential. */
  lemma {:induction false} WpsStages(w: World, e: Env)
    ensures w.sm.msg.event == AssocSuccess ==>
              StepWps(w, e).sm.wps.stage == (if w.sm.wps.stage == WpsConnect then WpsEapHandshake else w.sm.wps.stage)
    ensures w.sm.msg.event == WpsSuccess ==> StepWps(w, e).sm.wps == w.sm.wps.(stage := WpsDone)
    ensures w.sm.msg.event == WpsCred && w.sm.msg.param != 0 ==> StepWps(w, e).sm.wps.cred == w.sm.msg.param
    ensures w.sm.msg.event == WpsCred && w.sm.msg.param == 0 ==> StepWps(w, e) == w
  {
  }

  /** The disconnection that ends WPS: with a credential the ordinary connection starts, on any channel
      and with a fresh budget. */
  lemma {:induction false} WpsConnects(w: World, e: Env)
    requires w.sm.msg.event == Disconnect && w.sm.wps.cred != 0 && w.sm.wps.stage == WpsDone
    ensures var r := StepWps(w, e);
            && r.sm.retry == COMMANDED.(delayed := w.sm.retry.delayed)
            && r.cfg == w.cfg.(channel := 0xFF) && r.sm.wps.cred == 0
  {
    hide EnterScan, CountOf, Without, Observe;
    EnterScanFacts(RetryParamSet(UseCredential(WpsStop(w)), false), e);
  }

  /** Without one, as after every failure, a blocked caller is told 8 and WPS is gone. */
  lemma {:induction false} WpsGivesUp(w: World, e: Env)
    requires
      || w.sm.msg.event == ScanFail || w.sm.msg.event == ConnectFail || w.sm.msg.event == WpsFail
      || (w.sm.msg.event == Disconnect
          && (w.sm.wps.stage == WpsConnect || w.sm.wps.stage == WpsEapHandshake
              || (w.sm.wps.stage == WpsDone && w.sm.wps.cred == 0)))
    ensures !StepWps(w, e).cfg.connBlocked && !StepWps(w, e).wpsCtx && Tells(w, StepWps(w, e), 8)
  {
    hide EnterScan, EnterIdle, UseCredential, CountOf, Without;
    assert StepWps(w, e) == WpsFailed(w);
    hide StepWps;
    assert w.log + [] == w.log;
    IdleAfter(PostConnDone(WpsStop(w), 8));
  }

  /** If a caller was blocked it is told the reason, just before the station goes idle. */
  ghost predicate Tells(w: World, r: World, reason: nat) {
    w.log + (if w.cfg.connBlocked then [ConnDonePost(reason)] else []) + [Entered(ST_IDLE)] <= r.log
  }

  lemma {:induction false} IdleAfter(w: World)
    ensures w.log + [Entered(ST_IDLE)] <= EnterIdle(w).log
    ensures EnterIdle(w).cfg == w.cfg && EnterIdle(w).wpsCtx == w.wpsCtx
  {
    hide CountOf, Without;
  }

  /** The WPS timer starts another scan, or reports to the machine that it could not; it does nothing
      once WPS has been stopped. */
  lemma {:induction false} WpsScansAgain(w: World, e: Env)
    ensures var r := FireWps(w, e);
            && r.queue == w.queue + (if w.wpsCtx && !e.wpsScanned then [Msg(0, ScanFail, 0, 0, 0, false)] else [])
            && r.scanOut == (w.scanOut || (w.wpsCtx && e.wpsScanned))
            && r.sm == w.sm && r.timers == w.timers && r.log == w.log
  {
    assert w.queue + [] == w.queue;
  }

  /** WPS starts with a blocked caller; if it cannot start, the machine is told. */
  lemma {:induction false} WpsStarts(w: World, e: Env)
    ensures var r := EnterWps(w, e);
            && r.sm == w.sm.(state := ST_WPS, wps := w.sm.wps.(stage := WpsScan)) && r.cfg.connBlocked
            && r.queue == w.queue + (if e.startRet == 0 then [] else [Msg(0, WpsFail, e.startRet, 0, 0, false)])
            && r.log == w.log + [Entered(ST_WPS), ConnArmed]
  {
    assert w.queue + [] == w.queue;
  }

  // ---------------------------------------------------------------- the other machines, and mode switches

  /** A retry that is registered, unless one is pending, is due after the delay it is said to have. */
  lemma {:induction false} RetryDue(w: World)
    ensures var r, d := RegisterRetry(w), RetryDelay(w.sm.retry.count, w.sm.retry.limit, w.sm.retry.interval);
            if exists i :: 0 <= i < |w.timers| && w.timers[i].handler == ConnectRetry
                           && w.timers[i].data == SM_CTX && w.timers[i].user == NULL_CTX
            then r == w
            else DueIn(r, d, ConnectRetry, SM_CTX, NULL_CTX) && r.log == w.log + [RetryArmed(d)]
  {
    hide AddTimer, RetryDelay, CountOf;
    var d := RetryDelay(w.sm.retry.count, w.sm.retry.limit, w.sm.retry.interval);
    AddedDue(w, d, ConnectRetry, SM_CTX, NULL_CTX);
    AddKeeps(w, d, ConnectRetry, SM_CTX, NULL_CTX);
  }

  /** The head timer fires exactly when it is due, is gone then, and runs its own callback. */
  lemma {:induction false} HeadFires(w: World, e: Env)
    ensures w.timers == [] || !AfterEq(w.now, w.timers[0].time) ==> FireHead(w, e) == w
    ensures w.timers != [] && AfterEq(w.now, w.timers[0].time) ==>
              var rest, h := w.(timers := w.timers[1..]), w.timers[0].handler;
              && (h == ConnectRetry ==> FireHead(w, e) == FireRetry(rest, e))
              && (h == DhcpPolling ==> FireHead(w, e) == FireDhcp(rest, e))
              && (h == LinkPolling ==> FireHead(w, e) == FireLink(rest, e))
              && (h == WpsScanTimer ==> FireHead(w, e) == FireWps(rest, e))
  {
    hide FireRetry, FireDhcp, FireLink, FireWps, CountOf;
  }

  /** A retry timer that fires uses one attempt up and scans at once. */
  lemma {:induction false} RetryFires(w: World, e: Env)
    ensures var r := FireRetry(w, e);
            && r.sm == w.sm.(state := ST_SCAN,
                             retry := w.sm.retry.(count := (w.sm.retry.count - 1) % 0x1_0000_0000, delayed := false))
            && r.queue == w.queue + (if e.scanOk then [] else [Msg(0, ScanFail, 0, 0, 0, false)])
  {
    hide EnterScan, CountOf, Observe;
    var w1 := w.(sm := w.sm.(retry := w.sm.retry.(count := (w.sm.retry.count - 1) % WORD32, delayed := false)));
    EnterScanFacts(w1, e);
  }

  /** An uninitialised station, or one told to start over, has a cleared record, the budget of a command
      and roaming enabled, and is idle. */
  lemma {:induction false} StationResets(w: World, e: Env)
    requires !w.sm.init || w.sm.msg.event == Init
    ensures StaStep(w, e).sm == ZERO_SM.(init := true, retry := COMMANDED, roam := Roam(true, false, false, 0, 0))
    ensures StaStep(w, e).cfg == w.cfg && StaStep(w, e).queue == w.queue
  {
    hide EnterIdle, CountOf, Observe;
    EnterIdleFacts(RetryParamSet(ClearRecord(w, true), false));
  }

  /** The access point and the monitor: reset in the same way, without roaming; started by their
      command if the driver starts them; the access point alone can be stopped. */
  lemma {:induction false} OthersReact(w: World, e: Env)
    ensures !w.sm.init || w.sm.msg.event == Init ==>
              ApStep(w, e).sm == MonitorStep(w, e).sm == ZERO_SM.(init := true)
    ensures w.sm.init && w.sm.state == 0 && w.sm.msg.event == StartApCmd ==>
              ApStep(w, e).sm.state == if e.startRet == 0 then 1 else 0
    ensures w.sm.init && w.sm.state == 0 && w.sm.msg.event == MonitorStartCmd ==>
              MonitorStep(w, e).sm.state == if e.startRet == 0 then 1 else 0
    ensures w.sm.init && w.sm.state == 1 && w.sm.msg.event == StopApCmd ==>
              ApStep(w, e).sm == w.sm.(state := 0) && MonitorStep(w, e) == w
  {
  }

  /** Started, both scan for the application and tell its caller how that ended. */
  lemma {:induction false} OthersScan(w: World, e: Env)
    requires w.sm.init && w.sm.state == 1
    ensures w.sm.msg.event == ScanCmd ==> ApStep(w, e) == MonitorStep(w, e) == UserScan(w, e)
    ensures w.sm.msg.event == ScanDone || w.sm.msg.event == ScanFail ==>
              var told := if w.sm.msg.event == ScanDone then 0 else 2;
              && ApStep(w, e) == MonitorStep(w, e)
              && ApStep(w, e).log == w.log + (if w.sm.scanBlocked then [ScanDonePost(told)] else [])
              && !ApStep(w, e).sm.scanBlocked
  {
    hide UserScan;
    assert w.log + [] == w.log;
  }

  /** A mode switch: nothing if the mode is the present one; leaving the station clears its
      configuration; in the new mode the machine is in its first state; if the driver refuses the mode,
      the machine is left as it was.  A station starts with the budget of a command. */
  lemma {:induction false} ModeSwitches(w: World, e: Env)
    requires w.sm.msg.event == SwitchModeCmd
    ensures var r := MachineStep(w, e);
            var target := VifTypeOf(w.sm.msg.reason);
            if w.vif == target then r == w
            else
              && r.vif == target
              && r.cfg == (if w.vif == VifSta then ZERO_CFG else w.cfg)
              && (e.typeSetOk && (target == VifSta || target == VifAp || target == VifMonitor) ==>
                    r.sm.state == 0 && r.sm.init && r.sm.msg.event == Foreign)
              && (!e.typeSetOk ==> r.sm.init == w.sm.init && r.sm.msg == w.sm.msg)
  {
    hide EnterIdle, CountOf, Observe;
    EnterIdleFacts(w);
  }

  lemma {:induction false} StationStarts(w: World, e: Env)
    requires w.sm.msg.event == SwitchModeCmd && w.vif != VifSta && VifTypeOf(w.sm.msg.reason) == VifSta && e.typeSetOk
    ensures MachineStep(w, e).sm.retry == COMMANDED.(delayed := w.sm.retry.delayed)
    ensures MachineStep(w, e).sm.roam == w.sm.roam.(polling := false)
  {
    hide EnterIdle, CountOf;
  }

  lemma {:induction false} ModeCodes(w: World, e: Env)
    requires w.sm.msg.event == SwitchModeCmd
    ensures w.sm.msg.reason == 1 ==> MachineStep(w, e).vif == VifSta
    ensures w.sm.msg.reason == 2 ==> MachineStep(w, e).vif == VifAp
    ensures w.sm.msg.reason == 3 ==> MachineStep(w, e).vif == VifMonitor
  {
    hide EnterIdle, CountOf, Observe;
    EnterIdleFacts(w);
  }

  /** A message for another interface, or of another kind, is only taken off the queue; any other one is
      copied into the record and handled by the machine of the present mode. */
  lemma {:induction false} MessageGoes(w: World, e: Env)
    requires w.queue != []
    ensures var m := w.queue[0];
            var taken := w.(queue := w.queue[1..], scanOut := w.scanOut && !m.scanEnd);
            var loaded := taken.(sm := w.sm.(msg := Loaded(m.event, m.reason, m.param, m.len)));
            if m.vif != 0 || m.event == Foreign then Dispatch(w, e) == taken
            else
              && (m.event != SwitchModeCmd && w.vif == VifSta ==> Dispatch(w, e) == ReleaseParam(StaStep(loaded, e)))
              && (m.event != SwitchModeCmd && w.vif == VifAp ==> Dispatch(w, e) == ReleaseParam(ApStep(loaded, e)))
              && (m.event != SwitchModeCmd && w.vif == VifMonitor ==>
                    Dispatch(w, e) == ReleaseParam(MonitorStep(loaded, e)))
              && (m.event == SwitchModeCmd ==> Dispatch(w, e) == ReleaseParam(SwitchMode(loaded, e)))
  {
    hide StaStep, ApStep, MonitorStep, SwitchMode;
  }
}
