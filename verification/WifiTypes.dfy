/** Data model of the Wi-Fi manager: messages, the state-machine record, and the
    trail of externally visible effects together with its observers. */
module WifiTypes {
  import opened EventLoop

  // States of the station machine, as stored in the shared state word.
  const ST_IDLE: nat := 0
  const ST_WPS: nat := 1
  const ST_SCAN: nat := 2
  const ST_CONNECT: nat := 3
  const ST_HANDSHAKE: nat := 4
  const ST_DHCP: nat := 5
  const ST_CONNECTED: nat := 6
  // The SoftAP and monitor machines store 0 (INIT) and 1 (STARTED) in the same word.
  const ST_INIT: nat := 0
  const ST_STARTED: nat := 1

  const ROAMING_RETRY_LIMIT: nat := 100
  const ROAMING_RETRY_INTERVAL: nat := 2500
  const CONNECT_RETRY_LIMIT: nat := 3
  const CONNECT_RETRY_INTERVAL: nat := 2000
  const MAX_RETRY_INTERVAL: nat := 300000
  const DHCP_POLLING_LIMIT: nat := 200
  const DHCP_POLLING_INTERVAL: nat := 100
  const LINK_POLLING_INTERVAL: nat := 3000
  const WPS_SCAN_INTERVAL: nat := 2000
  const POLLING_SCAN_TRIGGER_POINT: nat := 10
  const ANY_CHANNEL: nat := 0xFF

  // Reasons the manager looks at or reports.
  const CONN_NO_AP: nat := 2
  const CONN_DHCP_FAIL: nat := 6
  const CONN_WPS_FAIL: nat := 8
  const DISCON_RECV_DEAUTH: nat := 11
  const DISCON_NO_BEACON: nat := 12
  const DISCON_UNSPECIFIED: nat := 15
  const DISCON_SA_QUERY_FAIL: nat := 16
  const SCAN_SUCCESS: nat := 0
  const SCAN_START_FAIL: nat := 1
  const SCAN_FAILED: nat := 2

  // Contexts handed to timer callbacks: the record of interface 0, and NULL / index 0.
  const SM_CTX: nat := 1
  const NULL_CTX: nat := 0

  datatype VifType = VifUnknown | VifSta | VifAp | VifMonitor | VifOther

  /** The mode requested by a SWITCH_MODE message travels in its reason field. */
  function VifTypeOf(code: nat): VifType {
    if code == 0 then VifUnknown else if code == 1 then VifSta
    else if code == 2 then VifAp else if code == 3 then VifMonitor else VifOther
  }

  /** Message codes; `Foreign` stands for the codes below WIFI_MGMT_EVENT_INIT. */
  datatype Event =
    | Foreign
    | Init | SwitchModeCmd | RxMgmt | RxEapol
    | ScanCmd | ConnectCmd | DisconnectCmd | AutoConnectCmd | WpsCmd
    | ScanDone | ScanFail | ScanResult | ExternalAuthRequired | AssocSuccess
    | DhcpStart | DhcpSuccess | DhcpFail | ConnectSuccess | ConnectFail
    | Disconnect | RoamingStart | RxUnprotDeauth | RxAction
    | WpsSuccess | WpsFail | WpsCred
    | StartApCmd | StopApCmd | ApSwitchChnlCmd | TxMgmtDone | ClientAdded | ClientRemoved
    | MonitorStartCmd | EapSuccess

  /** A queued message.  `param` is a heap address, 0 being NULL.  `scanEnd`
      marks the one completion event the radio sends for an accepted scan. */
  datatype Msg = Msg(vif: nat, event: Event, reason: nat, param: nat, len: nat, scanEnd: bool)

  datatype WpsStage = WpsInit | WpsScan | WpsConnect | WpsEapHandshake | WpsDone

  /** The part of the station configuration the manager reads. */
  datatype StaCfg = StaCfg(connBlocked: bool, channel: nat, bssid: nat, withBssid: bool)

  const ZERO_CFG: StaCfg := StaCfg(false, 0, 0, false)

  /** The message being handled, as copied into the record. */
  datatype Loaded = Loaded(event: Event, reason: nat, param: nat, len: nat)

  /** WPS hand-over: the stage, the credential and the beacon kept across messages. */
  datatype Wps = Wps(stage: WpsStage, cred: nat, bcn: nat, bcnLen: nat)

  /** retry_count, retry_limit, retry_interval and delayed_connect_retry. */
  datatype Retry = Retry(count: nat, limit: nat, interval: nat, delayed: bool)

  /** preroam_enable, preroam_start, polling_scan, polling_scan_count, preroam_bssid_bk. */
  datatype Roam = Roam(enabled: bool, started: bool, polling: bool, scans: nat, bssidBk: nat)

  /** wifi_management_sm_data_t, its fields grouped by purpose. */
  datatype Sm = Sm(
    init: bool, state: nat, msg: Loaded, wps: Wps, retry: Retry, roam: Roam,
    dhcpCount: nat, scanBlocked: bool)

  const ZERO_SM: Sm :=
    Sm(false, 0, Loaded(Foreign, 0, 0, 0), Wps(WpsInit, 0, 0, 0), Retry(0, 0, 0, false),
       Roam(false, false, false, 0, 0), 0, false)

  // ---------------------------------------------------------------- visible effects

  datatype Effect =
    | Handled(event: Event, state: nat)         // the station machine looks at an event
    | Entered(state: nat)                       // a station state entry function runs
    | RetryParams(limit: nat, interval: nat)    // the retry budget is reset
    | RecordCleared                             // the whole record is set to zero
    | RetryArmed(delay: nat)                    // a retry timer is registered
    | ScanRequest(channel: nat)
    | ConnectRequest
    | ConnArmed | ConnDonePost(reason: nat)
    | ScanArmed | ScanDonePost(reason: nat)
    | DhcpBegin(dynamic: bool) | DhcpPoll | DhcpReport(success: bool) | DhcpCancelled

  /** Resets of the retry budget, and connect requests and delays since the last one; `budgeted` says
      that a budget was set since the record was last cleared. */
  datatype RetryView = RetryView(resets: nat, attempts: nat, limit: nat, interval: nat, lastDelay: nat,
                                 bounded: bool, ordered: bool, budgeted: bool)

  /** How far the phases of a connection have advanced since SCAN was last entered. */
  datatype PhaseView = PhaseView(done: nat, ordered: bool)

  datatype BlockView = BlockView(connArms: nat, connPosts: nat, scanArms: nat, scanPosts: nat)

  /** The current DHCP session; `orderly` says that every session so far polled within the limit, did
      nothing after its report or cancellation, and had one of the two before the next one began. */
  datatype DhcpView = DhcpView(begun: bool, dynamic: bool, polls: nat, reports: nat, cancelled: bool, orderly: bool)

  datatype View = View(retry: RetryView, phase: PhaseView, block: BlockView, dhcp: DhcpView)

  function RetryStep(v: RetryView, e: Effect): RetryView {
    match e
    case RetryParams(limit, interval) => RetryView(v.resets + 1, 0, limit, interval, 0, v.bounded, v.ordered, true)
    case RecordCleared => v.(budgeted := false)
    case ConnectRequest => v.(attempts := v.attempts + 1, bounded := v.bounded && v.attempts < v.limit)
    case RetryArmed(d) =>
      v.(lastDelay := d,
         ordered := v.ordered && v.lastDelay <= d && v.interval <= d <= MAX_RETRY_INTERVAL)
    case _ => v
  }

  /** The event that ends each phase, and the state it has to arrive in. */
  function PhaseEvent(k: nat): Effect {
    if k == 0 then Handled(ScanDone, ST_SCAN)
    else if k == 1 then Handled(AssocSuccess, ST_CONNECT)
    else if k == 2 then Handled(DhcpStart, ST_HANDSHAKE)
    else Handled(DhcpSuccess, ST_DHCP)
  }

  function PhaseStep(v: PhaseView, e: Effect): PhaseView {
    if e == Entered(ST_SCAN) then v.(done := 0)
    else if e == Entered(ST_CONNECTED) then v.(ordered := v.ordered && v.done == 4)
    else if v.done < 4 && e == PhaseEvent(v.done) then v.(done := v.done + 1)
    else v
  }

  function BlockStep(v: BlockView, e: Effect): BlockView {
    match e
    case ConnArmed => v.(connArms := v.connArms + 1)
    case ConnDonePost(_) => v.(connPosts := v.connPosts + 1)
    case ScanArmed => v.(scanArms := v.scanArms + 1)
    case ScanDonePost(_) => v.(scanPosts := v.scanPosts + 1)
    case _ => v
  }

  /** A session is going on. */
  predicate Open(v: DhcpView) { v.begun && !v.cancelled && v.reports == 0 }

  function DhcpStep(v: DhcpView, e: Effect): DhcpView {
    match e
    case DhcpBegin(d) => DhcpView(true, d, 0, 0, false, v.orderly && (!v.begun || v.cancelled || v.reports == 1))
    case DhcpPoll =>
      v.(polls := v.polls + 1,
         orderly := v.orderly && Open(v) && (v.dynamic ==> v.polls < DHCP_POLLING_LIMIT))
    case DhcpReport(_) => v.(reports := v.reports + 1, orderly := v.orderly && Open(v))
    case DhcpCancelled => v.(cancelled := true, orderly := v.orderly && Open(v))
    case _ => v
  }

  function ViewStep(v: View, e: Effect): View {
    View(RetryStep(v.retry, e), PhaseStep(v.phase, e), BlockStep(v.block, e), DhcpStep(v.dhcp, e))
  }

  const START_VIEW: View :=
    View(RetryView(0, 0, 0, 0, 0, true, true, false), PhaseView(0, true), BlockView(0, 0, 0, 0),
         DhcpView(false, false, 0, 0, false, true))

  /** What the observers conclude from a trail of effects. */
  function Observe(log: seq<Effect>): View {
    if log == [] then START_VIEW
    else ViewStep(Observe(log[..|log| - 1]), log[|log| - 1])
  }

  // ---------------------------------------------------------------- the world

  /** The live heap blocks, and whether a dead one was ever freed or read. */
  datatype Memory = Memory(live: set<nat>, fault: bool)

  /** Everything the manager task can reach, the blocks it may free, whether the radio still owes
      a scan completion, whether wps_ctx exists, and the trail of effects. */
  datatype World = World(
    vif: VifType, sm: Sm, cfg: StaCfg, lastReason: nat,
    timers: seq<Timeout>, now: nat, queue: seq<Msg>,
    mem: Memory, scanOut: bool, wpsCtx: bool, log: seq<Effect>)

  /** Results of the calls a handler makes into code outside the model. */
  datatype Env = Env(
    scanOk: bool,            // wifi_netlink_scan_set[_with_ssid] returns 0
    connectReason: nat,      // result of wifi_netlink_connect_req
    apLoaded: bool,          // wifi_netlink_joined_ap_load returns 0
    newCfg: StaCfg,          // contents of a CONNECT_CMD payload
    apChannel: nat,          // channel loaded from the stored access point
    staticIp: bool,          // net_if_is_static_ip
    dhcpDone: bool,          // net_dhcp_address_obtained
    candidate: bool, candidateSame: bool, candidateBetter: bool, candidateChannel: nat,
    rssiRecovered: bool,
    typeSetOk: bool,         // both wifi_vif_type_set calls return 0
    startRet: nat,           // wifi_netlink_ap_start, wifi_netlink_monitor_start, wifi_wpa_wps_start
    wpsScanned: bool,        // a WPS call started a scan
    wpsCtx: bool,            // wifi_wpa_wps_start allocated its context
    wpsMatch: bool,          // wifi_wpa_wps_ssid_bss_match returns 1
    wpsAssocReason: nat)     // wifi_wpa_wps_associate

  function Emit(w: World, e: Effect): World {
    w.(log := w.log + [e])
  }

  lemma Observed(log: seq<Effect>, e: Effect)
    ensures Observe(log + [e]) == ViewStep(Observe(log), e)
  {
    assert (log + [e])[..|log|] == log;
  }
}
