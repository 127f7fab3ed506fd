# A Dafny model of the GD32VW55x SDK core

Four parts of the SDK are modelled, and properties of them are proved for all inputs and all runs.

* **The Wi-Fi manager on its event loop** (`EventLoop`, `WifiTypes`, `WifiSpec`, `WifiCoherence`, `WifiEntries`,
  `WifiTrail`, `WifiScan`, `WifiStray`, `WifiRuns`, `WifiMoves`, `WifiProgress`, `WifiReactions`, `WifiOwnership`,
  `WifiKept`, `WifiManager`, `WifiTask`).
  `WifiSpec` gives the station, SoftAP and monitor machines as functions on a `World` (interface type, state-machine
  record, message queue, timers, heap, log of effects) and a step relation: handle one message, check the head timer,
  let time pass, let another task post.  `WifiManager.Manager` is the imperative code, each method proved to compute its function, and
  `WifiTask.Task` is the task that runs it and keeps the history: its invariant says that the object's world is the
  last one of a run, so that the theorems about runs hold of the object after every turn.  `EventLoop.Loop` is the
  timer list, proved to refine a stable priority queue that is defined without it.  The log is read by observer functions
  (`WifiTypes.Observe`), and `WifiRuns` states what the observers mean by positions in the log.  What must not happen is
  in `WifiRuns`; `WifiMoves` and `WifiProgress` say that the machine goes where it should and that connections are
  made, and `WifiReactions` what the handlers do besides moving.
* **A/B boot with over-the-air update** (`Boot`, `HttpHeader`, `Ota`, `BootRuns`).  `Boot` has the records, the selection rule,
  validation and the list of writes of one boot; `Ota.Board` has the downloader and the boot sequence as methods that
  record every point where power can be cut; `BootRuns` has whole histories of boots, updates, resets and cuts.
* **The AT socket layer** (`ClientTable`, `ClientSlots`, `PassThrough`).  The table is a step function over the atomic steps of the
  AT task and the receive task, with a class for the loops and one for the two tasks and their history; the
  pass-through buffer is a class whose socket calls are recorded.
* **Text encoders and decoders** (`Text`, `AtLine`, `AtBuild`, `WpaNames`, `WpaConfig`,
  `WpaReadback`).  The in-place tokeniser and
  the lines the Azure client builds for it; the length-tracked supplicant configuration, a reader of it
  that knows nothing of the writers, and the key-management parser.

`dafny verify dfyconfig.toml` checks everything.

## Assumptions

* `wifi_netlink_start` runs before the loop and makes interface 0 a station (MSDK/wifi_manager/wifi_netlink.c:2085-2104);
  in the builds for radio and signalling tests it makes it a monitor.  `WifiTask.Task` starts as a station; results
  about runs hold for any first type unless they name one.  INIT has a single sender
  (MSDK/wifi_manager/wifi_management.c:2267).
* One interface, index 0; `eloop.terminate` is 0 in runs; queue and timer allocation succeeds; `CFG_WPS` is built in;
  payloads that other tasks post are fresh heap blocks.
* For `RunNoStranding`, `RunRetryBudget` and `RunAttemptBudget` only: a scan request succeeds only when no earlier
  scan is outstanding, and the radio sends one completion per accepted scan (`WifiScan.Disciplined`).  They also need
  that no WPS session is abandoned; see below.
* Timer order is claimed while no 32-bit wrap of the clock lies between now and the deadlines concerned
  (`EventLoop.NoWrap`).
* `rom_sys_set_img_flag` is an atomic `(old & ~mask) | (flag & mask)` that creates a missing record from 0;
  `rom_sys_set_fw_ver` rejects lower versions; whether content validates is an abstract predicate of the slot's bytes.
* A flash operation that fails may leave anything in the bytes it covers; programming only clears bits.
* The pass-through receiver reports its buffer full only when it is, and `at_dma_get_cur_received_num` never shrinks
  within a round; `co_snprintf` and `dbg_snprintf` return the untruncated length.
* `WpaConfig` belongs to the build with `CONFIG_WPA_SUPPLICANT`: `CFG_MFP` and `CONFIG_OWE` on,
  `CFG_SAE_PK` and `CFG_8021x_EAP_TLS` off.  The WPS scan timer that can become stray belongs to the build without it;
  with it `wifi_wpa_wps_scan_timer` does nothing (MSDK/wifi_manager/wifi_wpa.c:1292-1294).
* `socket` and `accept` return a descriptor that is not open; a free-and-close pair is one atomic step (on a remote
  close the source closes first and frees second).

## Where the code does less than its design suggests

* `retry_count < retry_limit` holds from the first message on when the interface starts as a station
  (`RunRetryBelowLimit`), but not in the builds for radio tests, which start it as a monitor: a failed switch to
  station mode then leaves both fields 0 (`TestBuildExceedsLimit`).
* The one-scan discipline does not by itself prevent stranding.  `mgmt_switch_mode` and INIT leave WPS without
  `wifi_wpa_wps_stop`, so the scan timer and `wps_ctx` survive and the timer may scan in any later state; the
  completion of that scan is then taken for the station's own (`StrandedRun`, `StrayScanStrands`).  `NextStray`,
  `RunStray` and `NextSound` are exact: a timer becomes stray if and only if a step abandons a session, and a step
  breaks the invariants if and only if a WPS timer scans during a delayed retry or a connection attempt.
* A good slot with VERIFY_OK and IA_OK does not suffice for recovery: `boot_image_find` gives up when slot 1 has a
  record and slot 0 has none (`RecoveryNeedsSlotZero`, exact condition in `BoundedRecovery`).
* A Content-Length below the number of body bytes in the first read makes the next receive size negative
  (`Ota.Board.HttpRspImage`, result `overrun`; `HttpHeader.ShortResponseOverruns`).  If that call returns 0 or more, or would
  block, the loop ends as a success and the flags are written.
* A positive result of `http_rsp_image` counts as success in `ota_demo_task`; the state stays recoverable all the same.
* Pass-through advances `readptr` by what was offered, not by what `send` took, so a partial send loses bytes; and the
  "+++" test looks at the start of the buffer even when the three unsent bytes are elsewhere (`PassThrough.Escape`).
* The client table's balance of opens and closes is broken by a failed UDP request whose socket is gone and by `AT`
  on a table in use (`StepBalanced` is exact).
* A line's allocation wraps at 2^32 (`LineFits`), and a quote in topic or payload changes the arguments (`RoundTrip`).
* The default suites include WPA-PSK-SHA256, which `wifi_wpa_parse_key_mgmt` rejects (`DefaultSuitesUnread`).

## Model

| member | source | states |
|---|---|---|
| `EventLoop.AfterEqNoWrap` | `MSDK/wifi_manager/wifi_eloop.c:397` | the wrap-aware comparison used for firing is the ordinary order exactly when no wrap lies between the two times, for all pairs of 32-bit values |
| `EventLoop.InsertSplits` | `MSDK/wifi_manager/wifi_eloop.c:273-282` | a new deadline goes after every entry that is not later and before the first later one, and nothing else moves |
| `EventLoop.InsertSorted` | `MSDK/wifi_manager/wifi_eloop.c:273-282` | registration keeps the list sorted |
| `EventLoop.InsertKeepsEntries` | `MSDK/wifi_manager/wifi_eloop.c:273-282` | registration adds exactly one entry and loses none |
| `EventLoop.QueueSorts` | `MSDK/wifi_manager/wifi_eloop.c:273-282` | the reference queue (repeatedly the first registered of the least deadlines) is sorted and a permutation of what is pending |
| `EventLoop.RegisterRefines` | `MSDK/wifi_manager/wifi_eloop.c:253-287` | inserting into the sorted list serves the new timer exactly where the reference queue serves it, so equal deadlines stay first-in-first-out |
| `EventLoop.FirstMin` | `MSDK/wifi_manager/wifi_eloop.c:387-410` | the timer served next has a minimal deadline and was registered before every other such timer |
| `EventLoop.CancelRefines` | `MSDK/wifi_manager/wifi_eloop.c:309-334` | cancelling in the list is cancelling in the reference queue: the order of the rest is kept |
| `EventLoop.WithoutExact` | `MSDK/wifi_manager/wifi_eloop.c:318-330` | exactly the matching entries go, wildcards included |
| `EventLoop.Unlink` | `MSDK/wifi_manager/wifi_eloop.c:315-333` | the cancel loop's result list and its count of removed entries, for every handler, context and wildcard |
| `EventLoop.Loop.Register` | `MSDK/wifi_manager/wifi_eloop.c:253-287` | the list is the sorted list of arrivals with the new deadline added; refused once the loop terminates |
| `EventLoop.Loop.Cancel` | `MSDK/wifi_manager/wifi_eloop.c:309-334` | removes exactly the matching entries, returns their number, keeps the order of the rest, -1 once the loop terminates |
| `EventLoop.Loop.IsRegistered` | `MSDK/wifi_manager/wifi_eloop.c:361-378` | true exactly when an entry with that handler and contexts is pending |
| `EventLoop.Loop.TakeDue` | `MSDK/wifi_manager/wifi_eloop.c:387-410` | at most the head is removed, exactly when it is due; it is the first registered of minimal deadline and the rest is the reference queue of the others; without a wrap nothing fires early |
| `EventLoop.Loop.SleepTime` | `MSDK/wifi_manager/wifi_eloop.c:425-444` | without a wrap the sleep ends exactly at the later of now and the head's deadline, past no timer's deadline; it is without limit only when the list is empty |
| `WifiRuns.RunTimers` | `MSDK/wifi_manager/wifi_management.c:364-375` | in every world of every run: retry and DHCP timers are unique and pending only in their states, a pending retry implies retry_count > 0, a pending link poll implies CONNECTED, and none is pending in IDLE or outside station mode |
| `WifiCoherence.NextCoherent` | `MSDK/wifi_manager/wifi_management.c:786-1186` | every message dispatch, timer callback and outside action keeps timers, state word and retry counter coherent |
| `WifiCoherence.RunCoherent` | `MSDK/wifi_manager/wifi_management.c:1407-1466` | the same over whole runs from initialisation |
| `WifiCoherence.FireRetryCoherent` | `MSDK/wifi_manager/wifi_management.c:364-375` | the unguarded decrement of retry_count never wraps and SCAN is re-entered coherently |
| `WifiCoherence.SwitchModeCoherent` | `MSDK/wifi_manager/wifi_management.c:493-588` | after a mode switch the state word is legal and 0 whenever the type changed, even if wifi_vif_type_set fails part-way, and no station timer survives |
| `WifiCoherence.EnterIdleCoherent` | `MSDK/wifi_manager/wifi_management.c:591-619` | entering IDLE from anywhere leaves none of the three station timers pending |
| `WifiCoherence.FireLinkCoherent` | `MSDK/wifi_manager/wifi_management.c:323-352` | a link poll leaves at most CONNECTED with polls pending |
| `WifiEntries.RetryParamSetFacts` | `MSDK/wifi_manager/wifi_management.c:441-457` | a reset gives one attempt to start with and the rest as retries, and every observer but the budget's sees nothing |
| `WifiEntries.LinkIsOngoingFacts` | `MSDK/wifi_manager/wifi_management.c:474-485` | a command refused during a connection arms and answers its caller exactly once |
| `WifiTrail.GiveUpTrail` | `MSDK/wifi_manager/wifi_management.c:962-966` | giving up keeps phases, completions, DHCP sessions and budgets consistent, whether or not roaming is rolled back |
| `WifiTrail.FireDhcpTrail` | `MSDK/wifi_manager/wifi_management.c:229-257` | one poll either reports or leaves one poll less to go, within the limit |
| `WifiTrail.StepConnectTrail` | `MSDK/wifi_manager/wifi_management.c:968-1013` | every event in CONNECT keeps the phase, completion, DHCP and budget invariants; where each event leads is `WifiMoves.RunMoves`, that the phases advance `WifiProgress.RunAdvances` |
| `WifiTrail.StepHandshakeTrail` | `MSDK/wifi_manager/wifi_management.c:1014-1060` | every event in HANDSHAKE keeps them |
| `WifiTrail.StepDhcpTrail` | `MSDK/wifi_manager/wifi_management.c:1061-1105` | every event in DHCP keeps them, the entry to CONNECTED included |
| `WifiTrail.StepConnectedTrail` | `MSDK/wifi_manager/wifi_management.c:1106-1187` | every event in CONNECTED keeps them |
| `WifiTrail.StepWpsTrail` | `MSDK/wifi_manager/wifi_management.c:844-940` | every event in WPS keeps them |
| `WifiTrail.StepIdleTrail` | `MSDK/wifi_manager/wifi_management.c:795-842` | every event in IDLE keeps them |
| `WifiScan.EnterScanSound` | `MSDK/wifi_manager/wifi_management.c:640-672` | a new attempt enters SCAN with something that will move it on and within the budget |
| `WifiScan.ArmRetrySound` | `MSDK/wifi_manager/wifi_management.c:459-472` | a retry is armed at most once and with a delay no shorter than the last |
| `WifiScan.EnterWpsSound` | `MSDK/wifi_manager/wifi_management.c:621-638` | entering WPS keeps scans, queue and budget consistent |
| `WifiScan.StepScanSound` | `MSDK/wifi_manager/wifi_management.c:942-967` | every event in SCAN leaves a way out of SCAN and keeps the budget |
| `WifiScan.ApStepSound` | `MSDK/wifi_manager/wifi_management.c:1223-1307` | every event of the SoftAP machine keeps the scan and queue invariants |
| `WifiScan.MonitorStepSound` | `MSDK/wifi_manager/wifi_management.c:1334-1385` | every event of the monitor machine keeps them |
| `WifiScan.FireRetrySound` | `MSDK/wifi_manager/wifi_management.c:364-375` | the retry callback starts an attempt within the budget |
| `WifiScan.FireLinkSound` | `MSDK/wifi_manager/wifi_management.c:323-352` | the link poll callback keeps the scan and queue invariants |
| `WifiRuns.RunUnionSafe` | `MSDK/wifi_manager/wifi_management.h:115-133` | in every world of every run the shared state word is a legal state of the machine selected by wvif_type |
| `WifiRuns.RunPhases` | `MSDK/wifi_manager/wifi_management.c:942-1103` | every entry to CONNECTED is preceded, since the last SCAN entry, by SCAN_DONE, ASSOC_SUCCESS, DHCP_START and DHCP_SUCCESS, each handled in its own state and in that order |
| `WifiRuns.PhasesFound` | `MSDK/wifi_manager/wifi_management.c:952-954` | the phase observer is sound: it counts events that really occur at increasing positions of the log with no SCAN entry since |
| `WifiMoves.RunMoves` | `MSDK/wifi_manager/wifi_management.c:786-1187` | in every run each message takes an initialised station exactly where the transition diagram says, for every state and event |
| `WifiMoves.OthersMove` | `MSDK/wifi_manager/wifi_management.c:364-375` | timers and other tasks move the station only back into SCAN, by the retry timer |
| `WifiMoves.LeavesForIdle` | `MSDK/wifi_manager/wifi_management.c:942-1105` | an attempt is left for IDLE only on a disconnect command, INIT, a mode switch, CONNECT_FAIL in SCAN, or a failure with retry_count 0 |
| `WifiProgress.RunAdvances` | `MSDK/wifi_manager/wifi_management.c:942-1103` | in every run each event that ends a phase, handled in its own state, is followed by the entry to the next state, before anything else is logged |
| `WifiProgress.RunCompletes` | `MSDK/wifi_manager/wifi_management.c:942-1103` | a station in SCAN with no retry pending, handed no command and no failure, is at every later point exactly as many states on as phases were ended, and a blocked caller has been told 0 once if all four were, and nothing otherwise |
| `WifiProgress.RunConnects` | `MSDK/wifi_manager/wifi_management.c:942-1103` | such a station that is handed SCAN_DONE, ASSOC_SUCCESS, DHCP_START and DHCP_SUCCESS in this order, with anything harmless between them, is in CONNECTED, and a blocked caller has exactly one CONN_DONE post, with reason 0 |
| `WifiProgress.PollPosts` | `MSDK/wifi_manager/wifi_management.c:229-257` | a due poll that finds an address posts DHCP_SUCCESS; one that does not polls again 100 ms later, or posts DHCP_FAIL when it was the last |
| `WifiReactions.ScanChannels` | `MSDK/wifi_manager/wifi_management.c:640-672` | a new attempt scans every channel after a missing access point or a lost link and the configured channel otherwise, not before a delayed retry is due, and reports a scan that cannot start to the machine |
| `WifiReactions.FailureReacts` | `MSDK/wifi_manager/wifi_management.c:992-1011` | a failure is remembered by its reason and retried once more exactly while retry_count allows |
| `WifiReactions.GivingUpTells` | `MSDK/wifi_manager/wifi_management.c:962-966` | giving up tells a blocked caller the reason of the failure, once |
| `WifiReactions.BusyTells` | `MSDK/wifi_manager/wifi_management.c:474-485` | a command that comes during an attempt is refused with reason 1 in every state of the attempt and changes nothing else |
| `WifiReactions.LinkChecked` | `MSDK/wifi_manager/wifi_management.c:323-352` | a link poll ends the search when the signal has recovered, and otherwise scans in the first ten rounds and every tenth one after them and polls again in 3 s |
| `WifiReactions.BetterFound` | `MSDK/wifi_manager/wifi_management.c:385-412` | the search asks to reconnect, on the candidate's channel, exactly when there is a candidate that is another access point and better |
| `WifiReactions.RetryDue` | `MSDK/wifi_manager/wifi_management.c:459-472` | the retry timer registered is due after exactly the delay computed, and none is registered while one is pending |
| `WifiReactions.RollsBack` | `MSDK/wifi_manager/wifi_management.c:418-433` | giving up during the search goes back to the access point remembered, on any channel |
| `WifiReactions.WpsConnects` | `MSDK/wifi_manager/wifi_management.c:892-917` | with a credential the disconnection that ends WPS starts an ordinary attempt on any channel with a fresh budget |
| `WifiReactions.WpsGivesUp` | `MSDK/wifi_manager/wifi_management.c:892-937` | without one, as after every failure, a blocked caller is told reason 8 and the WPS context is gone |
| `WifiReactions.StationResets` | `MSDK/wifi_manager/wifi_management.c:786-794` | INIT, and the first message of an uninitialised station, give a cleared idle record with the budget of a command and roaming enabled |
| `WifiReactions.ModeSwitches` | `MSDK/wifi_manager/wifi_management.c:493-588` | what a mode switch clears, resets and keeps, also when the driver refuses the new type |
| `WifiRuns.RunCompletions` | `MSDK/wifi_manager/wifi_management.c:109-123` | over any run CONN_DONE and SCAN_DONE posts never outnumber the armings of conn_blocked and scan_blocked |
| `WifiTrail.ConnectedScanAnsweredOnce` | `MSDK/wifi_manager/wifi_management.c:1137-1143` | a blocked scan finished in CONNECTED is answered once and with SUCCESS, although the case falls through into SCAN_FAIL |
| `WifiRuns.RunDhcp` | `MSDK/wifi_manager/wifi_management.c:229-257` | every DHCP session in the log of every run, between its beginning and the next, polls at most 200 times with a dynamic address, reports at most once and not after a cancellation, and has reported exactly once unless cancelled before the next begins or once its timer is gone |
| `WifiRuns.SessionSeen` | `MSDK/wifi_manager/wifi_management.c:716-745` | the DHCP observer counts the polls, reports and cancellations that stand in the log |
| `WifiTrail.RunTrail` | `MSDK/wifi_manager/wifi_management.c:716-745` | phase, completion and DHCP invariants hold in every world of every run |
| `WifiRuns.RunNoStranding` | `MSDK/wifi_manager/wifi_management.c:640-672` | with one scan outstanding at a time and no WPS session abandoned, delayed_connect_retry implies SCAN with the retry timer pending, and SCAN always has an outstanding scan, a queued failure or a pending retry timer |
| `WifiScan.NextSound` | `MSDK/wifi_manager/wifi_management.c:942-1012` | under the one-scan discipline a step keeps the scan, queue and retry-attempt invariants if and only if it is no scan of a WPS timer during a delayed retry or a connection attempt |
| `WifiStray.RunSound` | `MSDK/wifi_manager/wifi_management.c:1407-1466` | the invariants hold in every world of every disciplined run that abandons no WPS session |
| `WifiStray.RunSoundExact` | `MSDK/wifi_manager/wifi_management.c:942-1012` | up to any point of a disciplined run the invariants have held if and only if no step was a stray scan |
| `WifiStray.NextStray` | `MSDK/wifi_manager/wifi_management.c:516-522` | a step leaves no WPS timer stray if and only if it does not abandon a WPS session: a switch to another mode or an initialisation while the session's timer and context exist |
| `WifiStray.RunStray` | `MSDK/wifi_manager/wifi_management.c:493-588` | over any run no WPS timer was ever stray if and only if no step abandoned a WPS session |
| `WifiStray.StepWpsCtx` | `MSDK/wifi_manager/wifi_management.c:844-940` | the WPS handlers leave WPS only together with its context |
| `WifiStray.StrayScanStrands` | `MSDK/wifi_manager/wifi_wpa.c:2450-2464` | from every sound delayed SCAN with nothing queued, a stray WPS scan and its completion end in CONNECT with the retry still marked delayed |
| `WifiStray.StrandedRun` | `MSDK/wifi_manager/wifi_management.c:493-588` | a concrete run that starts as a station, keeps the one-scan discipline, abandons a WPS session for monitor mode and strands a delayed retry |
| `WifiScan.RetryDelayExact` | `MSDK/wifi_manager/wifi_management.c:459-472` | for both budgets the 32-bit product does not overflow, the delay is interval x (attempts past the thirtieth, at least 1) and lies between retry_interval and WIFI_MGMT_MAX_RETRY_INTERVAL |
| `WifiScan.RetryDelayMonotone` | `MSDK/wifi_manager/wifi_management.c:459-472` | successive delays of one budget never decrease |
| `WifiRuns.RunRetryBudget` | `MSDK/wifi_manager/wifi_management.c:441-472` | between two resets of the budget at most retry_limit connect requests are issued, and the delays armed are ordered and bounded, over every disciplined run that abandons no WPS session |
| `WifiRuns.ConnectAccepted` | `MSDK/wifi_manager/wifi_management.c:810-815` | a CONNECT_CMD in IDLE resets the budget to the connect limit with no attempt used |
| `WifiRuns.AttemptKeepsBudget` | `MSDK/wifi_manager/wifi_management.c:942-1103` | between leaving IDLE and the next IDLE or CONNECTED no step resets the budget |
| `WifiRuns.RunAttemptBudget` | `MSDK/wifi_manager/wifi_management.c:675-688` | from a CONNECT_CMD accepted in IDLE until the next IDLE or CONNECTED the log grows by at most retry_limit connect requests, in disciplined runs that abandon no WPS session |
| `WifiRuns.RequestsSeen` | `MSDK/wifi_manager/wifi_management.c:675-688` | while the budget is not reset the observer counts the connect requests that stand in the log |
| `WifiRuns.RunCounterBelowLimit` | `MSDK/wifi_manager/wifi_management.c:441-457` | whatever type the interface starts with and however often INIT comes, retry_count < retry_limit if and only if the log shows a budget set and no clearing of the record since, as it always does from SCAN on |
| `WifiRuns.BudgetedMeans` | `MSDK/wifi_manager/wifi_management.c:786-794` | the observer of budgets and clearings says what stands in the log |
| `WifiRuns.RunRetryBelowLimit` | `MSDK/wifi_manager/wifi_management.c:441-457` | in every run that starts as a station and gets INIT once, retry_count < retry_limit if and only if a message has been handled, so always once INIT has been |
| `WifiKept.MachineStepKept` | `MSDK/wifi_manager/wifi_management.c:1407-1466` | once the record is initialised, no message but INIT undoes the initialisation or the budget, posts INIT, shortens the trail or brings a block to life |
| `WifiKept.NextGrows` | `MSDK/wifi_manager/wifi_management.c:1407-1466` | over every step the trail only grows, and no block comes to life but the payload of an arrival |
| `WifiRuns.TestBuildExceedsLimit` | `MSDK/wifi_manager/wifi_netlink.c:2085-2093` | in the builds for radio tests, which start as a monitor, the bound fails: INIT clears the record and a switch to station that fails part-way leaves a station with both fields 0 |
| `WifiOwnership.OwnedOnceAndLive` | `MSDK/wifi_manager/wifi_management.c:1407-1466` | the ownership invariant means one owner per payload, and a live one |
| `WifiOwnership.DispatchFrees` | `MSDK/wifi_manager/wifi_management.c:1459-1466` | a payload that reaches an initialised machine is freed by the end of its dispatch, except INIT and the two WPS hand-overs, in which wps_bcn or wps_cred owns it |
| `WifiOwnership.WpsScanResultOwn` | `MSDK/wifi_manager/wifi_management.c:846-873` | the beacon hand-over moves ownership from sm->param to wps_bcn without duplicating it |
| `WifiOwnership.WpsCredOwn` | `MSDK/wifi_manager/wifi_management.c:916-930` | the credential hand-over moves ownership to wps_cred without duplicating it |
| `WifiOwnership.RunOwnership` | `MSDK/wifi_manager/wifi_management.c:1407-1466` | over any run no payload is freed twice or read after being freed, and each has at most one owner among queue, sm->param, wps_bcn and wps_cred |
| `WifiManager.Manager.SwitchMode` | `MSDK/wifi_manager/wifi_management.c:493-588` | the mode switch fails exactly when the type must change and cannot be set, and then too the old machine has been left and the new type recorded |
| `WifiManager.Manager.HandleTimeout` | `MSDK/wifi_manager/wifi_eloop.c:387-410` | fires the callback of a due head timer and changes nothing otherwise |
| `WifiTask.Task.constructor` | `MSDK/wifi_manager/wifi_netlink.c:2095-2104` | initialisation starts a run of the step relation, as a station whose first message is INIT |
| `WifiTask.Task.RunHolds` | `MSDK/wifi_manager/wifi_eloop.c:417-448` | the object's world ends a run, so timers and states agree, the trail is in order, payloads have one live owner, the retry counter is below its limit once INIT is handled, and nothing is stranded while the radio is disciplined and no WPS session is abandoned |
| `WifiTask.Task.Turn` | `MSDK/wifi_manager/wifi_eloop.c:417-448` | one turn, in which time passes while the task sleeps, extends the run by exactly its steps and keeps all of that |
| `WifiTask.Task.Run` | `MSDK/wifi_manager/wifi_eloop.c:417-448` | the loop, over any script of turns and of what other tasks do between them, extends the run by exactly the steps of the script and keeps all of that |
| `WifiTask.Task.Arrive` | `MSDK/wifi_manager/wifi_eloop.c:193-205` | a message from another task extends the run and keeps the invariants |
| `Boot.WindowShowsSlot` | `MBL/mainboot/mbl.c:149-157` | what the loader reads at the image-0 window, with the remap set for image 1, is byte for byte the slot it selected |
| `Boot.FailedNeverSelected` | `MBL/mainboot/mbl_image_validate.c:98-124` | an image marked VERIFY_FAIL is never selected, whatever the other record says |
| `Boot.SelectionExact` | `MBL/mainboot/mbl_image_validate.c:66-129` | which slot is selected, and which error is returned, exactly, in terms of the bits of the two status bytes |
| `Boot.BootLeaves` | `MBL/mainboot/mbl.c:253-283` | what a boot leaves behind: flash and the other record unchanged, the selected slot marked verified or failed with its other bits kept, counter and running index set exactly when they should be |
| `Boot.BootKeepsOtherMarks` | `MBL/mainboot/mbl.c:253-283` | no write of a boot changes the status byte of a slot it did not select |
| `Boot.MaskedFields` | `ROM-EXPORT/bootloader/rom_image.h:147-162` | each masked update the loader makes leaves the other fields as they were |
| `Boot.MaskedLaw` | `ROM-EXPORT/bootloader/rom_api.h:82` | a masked update replaces the bits of the mask and keeps all others, for every byte, mask and flag |
| `Boot.InstallFlags` | `MSDK/app/ota_demo.c:425-427` | the two installing writes leave a fresh record from any record, and between them the slot is not selectable |
| `Boot.Validate` | `MBL/mainboot/mbl_image_validate.c:159-211` | an image is accepted exactly if verification is off, or the signature check the option asks for succeeds and its version is not below the counter, which then becomes that version |
| `Boot.RejectedBy` | `MBL/mainboot/mbl_image_validate.c:159-211` | the error code of a rejected image names the check that failed |
| `Boot.ValidateAgain` | `MBL/mainboot/mbl_image_validate.c:192-205` | an accepted image is accepted again after the counter was raised to its version |
| `Boot.EligibleFindsOne` | `MBL/mainboot/mbl_image_validate.c:66-129` | with readable records and an eligible slot, selection succeeds and picks an eligible slot |
| `Boot.SuccessLeavesFallback` | `MBL/mainboot/mbl.c:271-283` | a boot that starts an image leaves that image as a fallback, the first boot of a factory-fresh device included |
| `Boot.FirstBoot` | `MBL/mainboot/mbl_image_validate.c:88-92` | a factory-fresh device with a good image starts it, and a cut after any write of that boot leaves slot 0 to fall back on |
| `Boot.FailureSelectsFallback` | `MBL/mainboot/mbl.c:266-276` | a failed boot with a fallback leaves the fallback as the next selection, and that boot succeeds |
| `Boot.CutBootKeepsFallback` | `MBL/mainboot/mbl.c:253-283` | power cut after any write of a boot keeps a fallback |
| `Boot.FallbackRecovers` | `MBL/mainboot/mbl.c:253-283` | with a fallback, selection succeeds and one of the next two boots starts an image |
| `Boot.BoundedRecovery` | `MBL/mainboot/mbl_image_validate.c:66-129` | with a good proven slot, recovery within two boots holds if and only if slot 0 has a readable record and the record of slot 1 is not broken |
| `Boot.RecoveryNeedsSlotZero` | `MBL/mainboot/mbl_image_validate.c:82-96` | the unconditional claim is false: a good, proven slot 1 without a record for slot 0 is never started |
| `BootRuns.HistorySafe` | `MBL/mainboot/mbl.c:253-283` | over every history of boots, updates, resets and power cuts at any write, from a successful boot or a factory-fresh device with a good image, selection never fails, two boots in a row never fail, and after one failed boot the next succeeds |
| `BootRuns.MarkStaysOver` | `MBL/mainboot/mbl_image_validate.c:98-124` | a VERIFY_FAIL mark stays, and keeps the slot unselected, through any history until an update of that slot clears it |
| `BootRuns.UpdateSafe` | `MSDK/app/ota_demo.c:424-432` | every download write, flag write and cut of an update keeps the history invariant |
| `HttpHeader.HdrLenExact` | `MSDK/app/ota_demo.c:182-196` | for every NUL-free header ending in its first blank line the measured length is the header's, so the rest is the body |
| `HttpHeader.StrStr` | `MSDK/app/ota_demo.c:182-231` | the search returns the first match before the first NUL, or the end of the C string when there is none |
| `HttpHeader.HttpBodyLen` | `MSDK/app/ota_demo.c:208-231` | the copy into the ten-byte buffer and the conversion stay inside it if and only if the text has fewer than ten bytes, or ten and the number ends before the last; the value is then `BodyLen`, whose meaning `LengthRead` and `DecimalLength` give |
| `HttpHeader.DecimalLength` | `MSDK/app/ota_demo.c:208-231` | for every number n and every response whose first Content-Length field is followed by any number of spaces, the decimal digits of n and CR LF, the announced length is n |
| `HttpHeader.LengthRead` | `MSDK/app/ota_demo.c:214-229` | the announced length is the decimal value of the digits up to the first byte that is none, negated after a minus sign, whatever follows on the line |
| `HttpHeader.NumberRead` | `MSDK/app/ota_demo.c:229` | the conversion reads sign and digits, in decimal, and stops at the first other byte |
| `HttpHeader.NoBlankLine` | `MSDK/app/ota_demo.c:190-194` | without a blank line the header length is 0 |
| `HttpHeader.NumberStops` | `MSDK/app/ota_demo.c:228-229` | zeros after the copied text change neither the number nor how far the conversion reads |
| `HttpHeader.NoLengthField` | `MSDK/app/ota_demo.c:208-231` | without a Content-Length field the announced length is 0, less than any first body bytes |
| `HttpHeader.ShortResponseOverruns` | `MSDK/app/ota_demo.c:330-378` | a concrete 200 response for which the receive size becomes negative |
| `Ota.ProgramErased` | `MSDK/app/ota_demo.c:355-359` | programming erased bytes stores exactly the data |
| `Ota.Board.EraseAhead` | `MSDK/app/ota_demo.c:338-354` | pages are erased inside the slot until the data fits, none of them holding written data |
| `Ota.Board.StoreChunk` | `MSDK/app/ota_demo.c:339-362` | one buffer is written to pages erased before, and the bytes before it are kept |
| `Ota.Board.ReceiveBody` | `MSDK/app/ota_demo.c:330-378` | every erase and write stays in the slot; success means the slot starts with the body; a negative size is asked for only if, and, unless a flash operation fails, whenever Content-Length is below the first body bytes |
| `Ota.Board.HttpRspImage` | `MSDK/app/ota_demo.c:287-383` | every flash operation stays in the other slot, goes to a page already erased in this run, and never erases written data; success stores exactly the first n body bytes where the header announces n; which error an empty, refused or too long response gives, with nothing erased; no receive asks for more than 1516 bytes; a connection that delivers and flash that works lead to success; a negative receive size is asked for only if, and, unless a flash operation fails, whenever the announced length is below the first body bytes |
| `Ota.StoredMeans` | `MSDK/app/ota_demo.c:330-378` | for a header that announces n in decimal, the image is stored if and only if the slot starts with exactly the first n bytes after the header |
| `Ota.Board.BootImageFind` | `MBL/mainboot/mbl_image_validate.c:51-143` | returns the selection rule's image or its error, and writes only the factory NEWER flag |
| `Ota.Board.SetImgFlag` | `ROM-EXPORT/bootloader/rom_api.h:82` | one atomic masked update, creating the record; a failure has no effect |
| `Ota.Board.PowerOn` | `MBL/mainboot/mbl.c:253-283` | the boot sequence performs exactly the specified writes in order and starts exactly the specified image |
| `Ota.Board.OtaTask` | `MSDK/app/ota_demo.c:390-440` | after every write of an update, whether it completes, fails or is cut, the running image is still one the loader can return to; a failed or interrupted download leaves both status records as they were, any other sets exactly the given masks, and a completed update leaves the new slot fresh and the old one proven |
| `Ota.AfterBootRecovers` | `MBL/mainboot/mbl_image_validate.c:66-129` | in every such state selection succeeds and one of the next two boots starts an image |
| `Ota.OtherSlotIsFree` | `MSDK/app/ota_demo.c:338-378` | no content or record of the other slot can spoil the running image's state |
| `Ota.BootedIsAfterBoot` | `MBL/mainboot/mbl.c:271-283` | a successful boot establishes the state an update starts from |
| `Ota.FailedUpdateRollsBack` | `MSDK/app/ota_demo.c:425-427` | after a completed update the new image is selected; if it does not validate, the next boot selects and starts the image that ran the update |
| `ClientTable.AllocExact` | `MSDK/app/atcmd_tcpip.c:107-121` | allocation fails exactly when the table is full, and cli_num is at most MAX_CLIENT_NUM |
| `ClientTable.StepCounted` | `MSDK/app/atcmd_tcpip.c:1111-1335` | every step of either task keeps cli_num equal to the number of slots in use, whatever descriptors it is given |
| `ClientTable.RunCounted` | `MSDK/app/atcmd_tcpip.c:1099-1341` | the same over every interleaving |
| `ClientTable.StepBalanced` | `MSDK/app/atcmd_tcpip.c:1200-1230` | a step keeps stored descriptors distinct and open exactly while kept, if and only if it is no stale UDP failure and no AT on a table in use |
| `ClientTable.StaleRequestBreaks` | `MSDK/app/atcmd_tcpip.c:1217-1228` | a failed UDP request whose socket has left the table always breaks the balance of opens and closes |
| `ClientTable.InitLeaks` | `MSDK/app/atcmd_tcpip.c:86-99` | re-initialising keeps the balance only when the table and the server are empty |
| `ClientTable.LeavesClosedOnce` | `MSDK/app/atcmd_tcpip.c:1243-1335` | a descriptor that leaves the table is closed exactly once in that step |
| `ClientSlots.StopServerSlots` | `MSDK/app/atcmd_tcpip.c:1111-1121` | stopping the server vacates exactly the slots of accepted clients and leaves every other slot as it was; the closes logged are exactly those clients' descriptors in slot order, then the server's |
| `ClientSlots.EmptiedSlots` | `MSDK/app/atcmd_tcpip.c:235-253` | a reset and the end of the receive task leave every slot vacant and no server; the closes logged are exactly all descriptors in slot order, then the server's; only a reset asks the task to stop |
| `ClientSlots.EmptiedCount` | `MSDK/app/atcmd_tcpip.c:1319-1335` | then cli_num is 0, and after stopping the server no accepted client is left |
| `ClientSlots.CloseSlots` | `MSDK/app/atcmd_tcpip.c:1975-2020` | AT+CIPCLOSE marks exactly the slot of the descriptor if another client or a server is there, asks the task to stop if not, and does nothing on its error paths |
| `ClientSlots.ServerStopAsks` | `MSDK/app/atcmd_tcpip.c:928-953` | AT+CIPSERVER=0 asks for the server to be stopped exactly while an outgoing client is in use, for the task to stop otherwise, and for nothing without a server |
| `ClientSlots.ClientStored` | `MSDK/app/atcmd_tcpip.c:133-154` | a connected client takes the first vacant slot as an outgoing one, or is closed when there is none |
| `ClientSlots.ClientAccepted` | `MSDK/app/atcmd_tcpip.c:1138-1158` | an accepted client takes the first vacant slot with the server's role; a full table leaves the connection waiting |
| `ClientSlots.TcpFailSlots` | `MSDK/app/atcmd_tcpip.c:1193-1208` | a failed TCP send vacates and closes the first slot of its descriptor only if that is an outgoing client |
| `ClientSlots.UdpFailSlots` | `MSDK/app/atcmd_tcpip.c:1213-1228` | a failed UDP send closes its descriptor in any case and vacates its slot if there is one |
| `ClientSlots.DropSlots` | `MSDK/app/atcmd_tcpip.c:1243-1315` | dropping a client touches its slot and no other |
| `ClientTable.RunBalanced` | `MSDK/app/atcmd_tcpip.c:1099-1341` | over every interleaving that meets the two provisos stored descriptors are distinct and each is open exactly while one place keeps it |
| `ClientTable.RunFromStart` | `MSDK/app/atcmd_tcpip.c:86-99` | from the empty table: the count and the exactness of allocation over every interleaving, distinct and balanced descriptors over every one that meets the provisos |
| `ClientTable.Tasks.Perform` | `MSDK/app/atcmd_tcpip.c:1099-1341` | every atomic step of either task on the shared object extends its history, so that the count and the exactness of allocation always hold of it, and balanced descriptors while the provisos are met |
| `ClientTable.FirstVacant` | `MSDK/app/atcmd_tcpip.c:115-120` | the slot returned is vacant, and -1 means that none is |
| `ClientTable.FindFd` | `MSDK/app/atcmd_tcpip.c:194-204` | the first slot holding the descriptor, -1 exactly when none does |
| `ClientTable.Table.AllocSlot` | `MSDK/app/atcmd_tcpip.c:107-121` | the loop finds the specified slot |
| `ClientTable.Table.Find` | `MSDK/app/atcmd_tcpip.c:194-204` | the loop finds the first slot of the descriptor |
| `ClientTable.Table.Store` | `MSDK/app/atcmd_tcpip.c:133-154` | stores a client with its type and role, or closes the descriptor when the table is full |
| `ClientTable.Table.Free` | `MSDK/app/atcmd_tcpip.c:162-187` | clears a slot in use and decrements cli_num; anything else is untouched |
| `ClientTable.Table.ReleaseAll` | `MSDK/app/atcmd_tcpip.c:1111-1117` | the loop does what `ReleaseFrom` says; which slots and descriptors that is, is stated by `ClientSlots.StopServerSlots` and `EmptiedSlots` |
| `ClientTable.Table.InfoInit` | `MSDK/app/atcmd_tcpip.c:86-99` | forgets the whole table without closing anything |
| `ClientTable.Table.Reset` | `MSDK/app/atcmd_tcpip.c:235-253` | frees and closes every client and the server, and stops the receive task |
| `ClientTable.Table.Scan` | `MSDK/app/atcmd_tcpip.c:1995-2002` | the slot of the descriptor and the number of slots in use |
| `ClientTable.Table.CipClose` | `MSDK/app/atcmd_tcpip.c:1975-2020` | marks the client, or stops the receive task when it is the last socket; accepted exactly for a stored descriptor that is not the server's |
| `ClientTable.Table.TcpServerStop` | `MSDK/app/atcmd_tcpip.c:928-953` | asks the receive task to stop the server, or stops the receive task when no outgoing client is left |
| `ClientTable.Table.Accept` | `MSDK/app/atcmd_tcpip.c:1138-1158` | takes a connection only while the table has room |
| `ClientTable.Table.SendFailed` | `MSDK/app/atcmd_tcpip.c:1193-1228` | a failed TCP send drops an outgoing client still in the table; a failed UDP send closes the descriptor in any case |
| `ClientTable.Table.FinishStart` | `MSDK/app/atcmd_tcpip.c:296-323` | the new client's descriptor moves into the table or is closed |
| `PassThrough.CallsOffer` | `MSDK/app/atcmd_tcpip.c:460-493` | a pass offers the unsent bytes from the front, in order and each once; unless a call fails it leaves fewer than PASSTH_START_TRANSFER_LEN, and none when flushing |
| `PassThrough.CallsShape` | `MSDK/app/atcmd_tcpip.c:460-493` | only the last call of a pass can fail, and each offers 2920 bytes, except that the last one of a flush may offer fewer, though not none |
| `PassThrough.DeliveredExact` | `MSDK/app/atcmd_tcpip.c:470-492` | the network has exactly the offered bytes if and only if every accepted call was taken in full: a partial send loses bytes silently |
| `PassThrough.TracksExact` | `MSDK/app/atcmd_tcpip.c:460-493` | everything received so far was delivered unchanged if and only if nothing was dropped and every accepted call was full |
| `PassThrough.Session.SendChunks` | `MSDK/app/atcmd_tcpip.c:460-493` | the loop makes exactly the specified calls and advances readptr by what they accepted |
| `PassThrough.Session.SendData` | `MSDK/app/atcmd_tcpip.c:428-499` | 0 <= readptr <= writeptr <= size is kept; the terminate flag is raised exactly on the escape test or a failed call, the index reset exactly on a failed call |
| `PassThrough.Session.Forward` | `MSDK/app/atcmd_tcpip.c:546-568` | a pass in a round keeps the correspondence between received and offered bytes, and completes when it can |
| `PassThrough.Session.OneTick` | `MSDK/app/atcmd_tcpip.c:542-575` | one turn of the receive loop: when the buffer is full or the interval timer has expired nothing stays unsent while the flag is down; otherwise fewer than 2920 bytes do, with a reachable peer; terminate is raised exactly by a failed call or, at such a turn, by three unsent bytes in a round that starts with +++ |
| `PassThrough.Session.PassthSend` | `MSDK/app/atcmd_tcpip.c:506-582` | over any sequence of turns the offered bytes are the received ones in order; while the flag is down everything that had arrived when the buffer was last full or the timer last expired has been offered, and after such a turn everything received is delivered if every accepted call was full; a round of +++ alone ends the session on expiry |
| `AtLine.GetNextParam` | `MSDK/app/atcmd.c:1339-1361` | the in-place step finds the specified argument, changes one byte of the buffer, and reports where the rest starts or that there is none |
| `AtLine.TakeParams` | `MSDK/app/atcmd.c:1404-1409` | the argument loop stores every specified parameter as a C string, at most 14 |
| `AtLine.AtcmdParse` | `MSDK/app/atcmd.c:1371-1420` | argc is the number of the line's arguments and argv points at C strings equal to them, for every line |
| `AtLine.CommandRead` | `MSDK/app/atcmd.c:1371-1420` | for every command and every list of plain and quoted arguments, with any blanks and commas between them, the line is split into the name and the arguments in order, at most fourteen |
| `AtLine.CommandAlone` | `MSDK/app/atcmd.c:1385-1400` | a command without '=' stands alone, up to the end of its line |
| `AtLine.SkipSeparators` | `MSDK/app/atcmd.c:1354-1355` | drops exactly the leading spaces and commas |
| `AtLine.TokensKept` | `MSDK/app/atcmd.c:1352-1354` | later separators overwritten with NUL leave earlier arguments intact |
| `AtBuild.LineFits` | `MSDK/app/atcmd_azure.c:1278-1294` | the line with its NUL fits the allocated size if and only if the 32-bit size does not wrap |
| `AtBuild.LineIs` | `MSDK/app/atcmd_azure.c:1271-1294` | the three request lines character by character |
| `AtBuild.Build` | `MSDK/app/atcmd_azure.c:1271-1294` | no write leaves the freshly allocated buffer if and only if the size does not wrap, and then it holds exactly the specified line |
| `AtBuild.Exchange` | `MSDK/app/atcmd_azure.c:1278-1294` | built by one side and taken apart in place by the other, a request gives argc 5 and the five original fields if and only if topic and payload are free of NUL and single quotes |
| `AtBuild.RoundTrip` | `MSDK/app/atcmd_azure.c:1278-1294` | the tokeniser returns exactly the five original fields if and only if topic and payload are free of NUL and single quotes, for all three requests |
| `AtBuild.QuotedParam` | `MSDK/app/atcmd.c:1347-1358` | a quoted argument ends at the first quote, commas and spaces inside it included |
| `Text.DecValue` | `MSDK/app/atcmd_azure.c:1284-1287` | the printed lengths can be read back for every number |
| `Text.DecLength32` | `MSDK/app/atcmd_azure.c:1278-1287` | a 32-bit number prints in at most ten digits |
| `Text.StrLen` | `MSDK/app/atcmd.c:1384` | the index of the first NUL |
| `WpaNames.PrintNames` | `MSDK/wifi_manager/wifi_wpa.c:3152-3208` | returns exactly the number of characters before its NUL, succeeds exactly when names, ';' and NUL fit, and writes nothing outside its space |
| `WpaNames.ListedWords` | `MSDK/wifi_manager/wifi_wpa.c:3152-3179` | splitting a printed list on blanks gives back the printed names |
| `WpaNames.ParsePrinted` | `MSDK/wifi_manager/wifi_wpa.c:3067-3117` | parsing printed suites gives the printed set with PRE_RSN exactly when PSK is in it, and an error exactly when nothing or an unrecognised suite was printed |
| `WpaNames.NamesRoundTrip` | `MSDK/wifi_manager/wifi_wpa.c:3067-3117` | printing then parsing is the identity for exactly the non-empty recognised sets that hold PRE_RSN if and only if they hold PSK |
| `WpaNames.NextWord` | `MSDK/wifi_manager/wifi_wpa.c:3075-3083` | blanks are skipped and one word found |
| `WpaNames.ParseKeyMgmt` | `MSDK/wifi_manager/wifi_wpa.c:3067-3117` | the in-place parser returns the specified value for every text |
| `WpaNames.MeaningOf` | `MSDK/wifi_manager/wifi_wpa.c:45-68` | each name of the table means its own suite if recognised (PSK also PRE_RSN) and is an error otherwise |
| `WpaConfig.Writer.Copy` | `MSDK/wifi_manager/wifi_wpa.c:1345-1356` | a checked copy keeps written plus remaining at 384 and fails exactly when there is no room |
| `WpaConfig.Writer.Print` | `MSDK/wifi_manager/wifi_wpa.c:1388-1392` | a formatted field keeps written plus remaining at 384, succeeds exactly when it and a NUL fit, and never writes past the buffer |
| `WpaConfig.Writer.Names` | `MSDK/wifi_manager/wifi_wpa.c:1402-1412` | a keyword and its names are appended, exactly when they fit |
| `WpaConfig.Writer.WriteHead` | `MSDK/wifi_manager/wifi_wpa.c:1345-1412` | SSID, protocol and key-management fields |
| `WpaConfig.Writer.WriteCiphers` | `MSDK/wifi_manager/wifi_wpa.c:1414-1476` | pairwise and group ciphers, unless they are the default pair |
| `WpaConfig.Writer.WriteKeys` | `MSDK/wifi_manager/wifi_wpa.c:1478-1528` | appends `Keys`, exactly when it fits; what that says is `WpaReadback.KeysReadBack` |
| `WpaConfig.Writer.WriteTail` | `MSDK/wifi_manager/wifi_wpa.c:1530-1547` | the optional BSSID and the scan field |
| `WpaConfig.WpaStaCfg` | `MSDK/wifi_manager/wifi_wpa.c:1329-1614` | succeeds if and only if the configuration is usable and its text is shorter than 384; the buffer then holds the text and its NUL within 385 bytes; what the text says is `NetworkReadsBack`, `CiphersReadBack`, `KeysReadBack` and `NothingElse` |
| `WpaReadback.NetworkReadsBack` | `MSDK/wifi_manager/wifi_wpa.c:1345-1412` | read field by field, the text gives the SSID, proto RSN exactly when WPA1 is not allowed, exactly the chosen suites by name, and the six bytes of the BSSID in order unless its first three are zero |
| `WpaReadback.CiphersReadBack` | `MSDK/wifi_manager/wifi_wpa.c:1414-1476` | pairwise and group name exactly the chosen ciphers, and are absent exactly when no suite needs them or the choice is TKIP and CCMP |
| `WpaReadback.KeysReadBack` | `MSDK/wifi_manager/wifi_wpa.c:1478-1528` | wep_key0 or psk gives the passphrase, each exactly under its own condition, and ieee80211w is 2 if and only if protection is required, 1 otherwise, present exactly with a key or OWE |
| `WpaReadback.NothingElse` | `MSDK/wifi_manager/wifi_wpa.c:1329-1614` | no other keyword is in the text |
| `WpaReadback.SuitesMeant` | `MSDK/wifi_manager/wifi_wpa.c:1358-1400` | the suites a configuration stands for, member by member |
| `WpaReadback.UsableMeans` | `MSDK/wifi_manager/wifi_wpa.c:1396-1446` | a configuration is refused exactly when no supported suite is asked for, or a suite needs ciphers and none of one kind is left |
| `WpaReadback.SuitesNamed` | `MSDK/wifi_manager/wifi_wpa.c:45-68` | printed suite names say which suites were printed, for every set of suites |
| `WpaReadback.CiphersNamed` | `MSDK/wifi_manager/wifi_wpa.c:70-85` | printed cipher names say which ciphers were printed, for every set |
| `WpaConfig.ConfiguredSuites` | `MSDK/wifi_manager/wifi_wpa.c:1358-1412` | the key_mgmt list of any configuration reads back as the configured suites, or as an error exactly when WPA-PSK-SHA256 is among them |
| `WpaConfig.DefaultSuitesUnread` | `MSDK/wifi_manager/wifi_wpa.c:1359-1370` | the default suites for a key of 8 or more characters cannot be read back |

## Left out

- Dispatch of events to handlers registered by applications (`eloop_event_register`, `eloop_event_unregister`) and
  the numeric packing of event identifiers: messages the manager does not handle are one event, `Foreign`.
- The second interface of `CFG_WIFI_CONCURRENT`, IPv6 polling, EAP-TLS and the internals of WPS beyond the hand-over of
  the beacon and the credential.
- The mirrors `sta.state` and `ap_state` in `wifi_vif_tab`, and the sharing of memory between the station and access
  point configuration records.
- The reason of a DHCP failure: `eloop_event_send` always carries reason 0, so what `mgmt_dhcp_polling` stores in the
  record is overwritten by the next message, in the model as in the source.
- Payloads of an INIT message, or of a message that meets an uninitialised machine: the source clears the record
  without freeing them, and the model keeps them live and unowned.
- What a call of `recv` with a negative size does to memory.
- Null pointer dereferences of an absent payload, failing allocations, and races of callers that set a flag after
  sending the event.
- The list cells of the timer list: `EventLoop.Loop` holds a sequence, so pointer updates are not modelled.
- `http_rsp_code` (its result is a parameter of `HttpRspImage`), and how long a download takes when reads bring
  nothing.
- What the configuration string says when the SSID or the passphrase contains a double quote.
- What happens after a Content-Length text that overruns its ten-byte buffer: `HttpBodyLen` says when that is, and
  `HttpRspImage` goes on with the value.
- Flash contents at a cut inside one erase or program operation: cuts fall between operations, and an operation that
  fails may leave anything in its own bytes.
- ROM code, signatures, MAC, lwIP, UART, DMA and the jump to the image.
- Addresses and ports stored with a client, the pass-through-mode checks before a client starts, and the wait for the
  receive task in `at_cip_close` and `tcp_server_stop`.
- Bytes that arrive between reading the receive counter and stopping the receiver, and a full-buffer signal left over
  from an earlier round.
- Allocation failure in the line builders and the transmission itself; the result -1 of `atcmd_parse` for a NULL line.
- `wifi_wpa_sta_cfg` checks of the interface index and type and the call that creates the network; the access point's
  configuration string, which is built the same way.
- The SPI build of the AT layer, file transfer, shell commands, status printing, ping, iperf and CoAP.
