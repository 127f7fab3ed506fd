/** Connections are made: every phase event leads on to the next phase, and when all four have been
    handled the station is connected and whoever waited for it has been told so. */
module WifiProgress {
  import opened EventLoop
  import opened WifiTypes
  import opened WifiSpec
  import opened WifiCoherence
  import opened WifiEntries
  import opened WifiKept
  import opened WifiMoves

  // ---------------------------------------------------------------- each phase leads to the next

  /** The event that ends phase k, 0 <= k < 4. */
  function PhaseEnd(k: nat): Event {
    if k == 0 then ScanDone else if k == 1 then AssocSuccess else if k == 2 then DhcpStart else DhcpSuccess
  }

  predicate IsPhase(x: Effect) {
    exists k :: 0 <= k < 4 && x == Handled(PhaseEnd(k), ST_SCAN + k)
  }

  /** Every phase event handled in its own state is followed at once by the entry to the next state. */
  ghost predicate Advances(log: seq<Effect>) {
    forall p, k :: 0 <= p < |log| && 0 <= k < 4 && log[p] == Handled(PhaseEnd(k), ST_SCAN + k) ==>
      p + 1 < |log| && log[p + 1] == Entered(ST_SCAN + k + 1)
  }

  /** The trail of one phase step begins with the event and the next state. */
  lemma {:induction false} PhaseEnters(w: World, e: Env, k: nat)
    requires k < 4 && w.vif == VifSta && w.sm.init && w.sm.state == ST_SCAN + k && w.sm.msg.event == PhaseEnd(k)
    ensures var h := w.log + [Handled(PhaseEnd(k), ST_SCAN + k), Entered(ST_SCAN + k + 1)];
            h <= StaStep(w, e).log
  {
    hide CountOf, Insert, Without, PostConnDone;
    var h := Emit(w, Handled(PhaseEnd(k), ST_SCAN + k));
    if k == 0 { ConnectTrail(h, e); }
    else if k == 1 { HandshakeTrail(h); }
    else if k == 2 { DhcpTrail(h, e); }
    else { ConnectedTrail(h); }
  }

  lemma {:induction false} ConnectTrail(w: World, e: Env)
    ensures EnterConnect(w, e).log == w.log + [Entered(ST_CONNECT), ConnectRequest]
  {
  }

  lemma {:induction false} HandshakeTrail(w: World)
    ensures EnterHandshake(w).log == w.log + [Entered(ST_HANDSHAKE)]
  {
  }

  lemma {:induction false} DhcpTrail(w: World, e: Env)
    ensures EnterDhcp(w, e).log == w.log + [Entered(ST_DHCP), DhcpBegin(!e.staticIp)]
  {
    hide CountOf, Insert;
  }

  /** A blocked caller is told of the success, once. */
  lemma {:induction false} ConnectedTrail(w: World)
    ensures EnterConnected(w).log ==
            w.log + [Entered(ST_CONNECTED)] + (if w.cfg.connBlocked then [ConnDonePost(0)] else [])
    ensures !EnterConnected(w).cfg.connBlocked
  {
  }

  /** What a step notes is what it handles. */
  lemma {:induction false} NotedIs(w: World, s: Step)
    requires Enabled(w, s)
    ensures Handles(w, s) ==> NotedLog(w, s) == w.log + [Handled(w.queue[0].event, w.sm.state)]
    ensures !Handles(w, s) ==> NotedLog(w, s) == w.log
  {
  }

  lemma {:induction false} NextEnters(w: World, s: Step, k: nat)
    requires Enabled(w, s) && Handles(w, s) && k < 4
    requires w.sm.state == ST_SCAN + k && w.queue[0].event == PhaseEnd(k)
    ensures w.log + [Handled(PhaseEnd(k), ST_SCAN + k), Entered(ST_SCAN + k + 1)] <= Next(w, s).log
  {
    hide StaStep;
    PhaseEnters(LoadMessage(TakeMessage(w), w.queue[0]), s.env, k);
  }

  lemma {:induction false} NextAdvances(w: World, s: Step)
    requires Enabled(w, s) && Advances(w.log)
    ensures Advances(Next(w, s).log)
  {
    hide Next, NotedLog;
    NextGrows(w, s);
    NotedIs(w, s);
    var r := Next(w, s).log;
    forall p, k | 0 <= p < |r| && 0 <= k < 4 && r[p] == Handled(PhaseEnd(k), ST_SCAN + k)
      ensures p + 1 < |r| && r[p + 1] == Entered(ST_SCAN + k + 1)
    {
      if p < |w.log| {
        assert w.log[p] == r[p];
      } else {
        assert Handles(w, s) && p == |w.log| && r[p] == NotedLog(w, s)[p];
        PhaseOfEvent(w.queue[0].event, w.sm.state, k);
        NextEnters(w, s, k);
      }
    }
  }

  lemma {:induction false} PhaseOfEvent(ev: Event, state: nat, k: nat)
    requires k < 4 && Handled(ev, state) == Handled(PhaseEnd(k), ST_SCAN + k)
    ensures ev == PhaseEnd(k) && state == ST_SCAN + k
  {
  }

  /** In every run each event that ends a phase, handled in its own state, is followed by the entry to
      the next state before anything else is entered. */
  lemma {:induction false} RunAdvances(ws: seq<World>, ss: seq<Step>, i: nat)
    requires Run(ws, ss) && i < |ws|
    ensures Advances(ws[i].log)
  {
    hide Next, Enabled, Advances;
    if i == 0 {
      NothingYet(ws[0]);
    } else {
      RunAdvances(ws, ss, i - 1);
      assert ws[i - 1 + 1] == Next(ws[i - 1], ss[i - 1]);
      NextAdvances(ws[i - 1], ss[i - 1]);
    }
  }

  lemma {:induction false} NothingYet(w: World)
    requires Start(w)
    ensures Advances(w.log)
  {
  }

  // ---------------------------------------------------------------- a connection completes

  /** No command and no failure: nothing that ends an attempt or asks for something else. */
  predicate Calm(ev: Event) {
    && ev != ScanCmd && ev != ConnectCmd && ev != DisconnectCmd && ev != AutoConnectCmd && ev != WpsCmd
    && ev != Init && ev != SwitchModeCmd
    && ev != ScanFail && ev != ConnectFail && ev != DhcpFail && ev != Disconnect
  }

  predicate CalmStep(w: World, s: Step) { s.Handle? && w.queue != [] && w.queue[0].vif == 0 ==> Calm(w.queue[0].event) }

  /** A station on its way, with n phases behind it since the trail had n0 entries; b says whether a
      caller was waiting then. */
  ghost predicate OnTheWay(w: World, n0: nat, n: nat, b: bool) {
    && w.vif == VifSta && w.sm.init && n <= 4 && w.sm.state == ST_SCAN + n
    && Retries(w) == 0
    && n0 <= |w.log| && |Phases(w.log, n0)| == n
    && Answered(w.log, n0, n == 4 && b)
    && w.cfg.connBlocked == (b && n < 4)
  }

  /** The phase events handled since position n0. */
  function Phases(log: seq<Effect>, n0: nat): set<nat> {
    set p: nat | n0 <= p < |log| && IsPhase(log[p])
  }

  function Answers(log: seq<Effect>, n0: nat): set<nat> {
    set p: nat | n0 <= p < |log| && log[p].ConnDonePost?
  }

  /** Since position n0 the blocked caller was told of success exactly once, or of nothing. */
  ghost predicate Answered(log: seq<Effect>, n0: nat, told: bool) {
    && |Answers(log, n0)| == (if told then 1 else 0)
    && forall p :: n0 <= p < |log| && log[p].ConnDonePost? ==> log[p] == ConnDonePost(0)
  }

  /** A step adds one phase, first of all, or none. */
  ghost predicate AddsPhase(a: seq<Effect>, b: seq<Effect>, phase: bool) {
    && a <= b && (phase ==> |b| > |a| && IsPhase(b[|a|]))
    && forall p :: |a| + (if phase then 1 else 0) <= p < |b| ==> !IsPhase(b[p])
  }

  /** A step tells the caller of success once, or nothing. */
  ghost predicate Tells(a: seq<Effect>, b: seq<Effect>, told: bool) {
    && a <= b
    && (told ==> exists q :: |a| <= q < |b| && b[q] == ConnDonePost(0)
                             && forall p :: |a| <= p < |b| && b[p].ConnDonePost? ==> p == q)
    && (!told ==> forall p :: |a| <= p < |b| ==> !b[p].ConnDonePost?)
  }

  lemma {:induction false} PhasesAdd(a: seq<Effect>, b: seq<Effect>, n0: nat, phase: bool)
    requires n0 <= |a| && AddsPhase(a, b, phase)
    ensures |Phases(b, n0)| == |Phases(a, n0)| + (if phase then 1 else 0)
  {
    hide IsPhase;
    var here: set<nat> := if phase then {|a|} else {};
    assert forall p :: 0 <= p < |a| ==> b[p] == a[p];
    assert Phases(b, n0) == Phases(a, n0) + here;
  }

  lemma {:induction false} AnswersAdd(a: seq<Effect>, b: seq<Effect>, n0: nat, told: bool, before: bool)
    requires n0 <= |a| && Tells(a, b, told) && Answered(a, n0, before) && !(before && told)
    ensures Answered(b, n0, before || told)
  {
    assert forall p :: 0 <= p < |a| ==> b[p] == a[p];
    if told {
      var q: nat :| |a| <= q < |b| && b[q] == ConnDonePost(0)
                    && forall p :: |a| <= p < |b| && b[p].ConnDonePost? ==> p == q;
      assert Answers(b, n0) == Answers(a, n0) + {q};
    } else {
      assert Answers(b, n0) == Answers(a, n0);
    }
  }

  lemma {:induction false} UnnotedAddsNoPhase(a: seq<Effect>, b: seq<Effect>)
    requires NoNotes(a, b)
    ensures AddsPhase(a, b, false)
  {
  }

  lemma {:induction false} NotedAddsPhase(a: seq<Effect>, b: seq<Effect>, ev: Event, n: nat)
    requires n <= 4 && NoNotes(a + [Handled(ev, ST_SCAN + n)], b)
    ensures AddsPhase(a, b, n < 4 && ev == PhaseEnd(n))
  {
    var x := Handled(ev, ST_SCAN + n);
    assert b[|a|] == (a + [x])[|a|] == x;
    if n < 4 && ev == PhaseEnd(n) {
      assert IsPhase(x);
    } else {
      forall k | 0 <= k < 4 ensures x != Handled(PhaseEnd(k), ST_SCAN + k) {
        if x == Handled(PhaseEnd(k), ST_SCAN + k) {
          PhaseOfEvent(ev, ST_SCAN + n, k);
        }
      }
    }
  }

  // ---------------------------------------------------------------- one calm step

  /** Answers, the flag of the waiting caller, and retry timers. */
  ghost predicate Proceeds(w: World, r: World, told: bool) {
    && Tells(w.log, r.log, told)
    && r.cfg.connBlocked == (w.cfg.connBlocked && !told)
    && (Retries(w) == 0 ==> Retries(r) == 0)
  }

  lemma {:induction false} SilentProceeds(w: World, r: World)
    requires r.log == w.log && r.cfg.connBlocked == w.cfg.connBlocked && r.timers == w.timers
    ensures Proceeds(w, r, false)
  {
  }

  lemma {:induction false} ReadProceeds(w: World)
    ensures Proceeds(w, w, false) && Proceeds(w, Read(w, w.sm.msg.param), false)
  {
    hide CountOf;
  }

  lemma {:induction false} EntriesProceed(w: World, e: Env)
    ensures Proceeds(w, EnterConnect(w, e), false) && Proceeds(w, EnterHandshake(w), false)
    ensures Proceeds(w, EnterDhcp(w, e), false)
  {
    hide CountOf, Insert;
  }

  lemma {:induction false} ConnectedProceeds(w: World)
    ensures Proceeds(w, CancelTimer(EnterConnected(w), ConnectRetry), w.cfg.connBlocked)
  {
    hide CountOf, Without, EnterConnected;
    ConnectedTrail(w);
    EnterConnectedFacts(w);
    var r := EnterConnected(w);
    if w.cfg.connBlocked {
      assert r.log[|w.log| + 1] == ConnDonePost(0);
    }
  }

  lemma {:induction false} LinkedProceeds(w: World, e: Env)
    ensures Proceeds(w, ConnectedScanDone(w, e), false) && Proceeds(w, StartRoaming(w), false)
  {
    hide CountOf, Insert;
  }

  lemma {:induction false} CalmProceeds(w: World, e: Env)
    requires ST_SCAN <= w.sm.state <= ST_CONNECTED && Calm(w.sm.msg.event)
    ensures var r := if w.sm.state == ST_SCAN then StepScan(w, e)
                     else if w.sm.state == ST_CONNECT then StepConnect(w, e)
                     else if w.sm.state == ST_HANDSHAKE then StepHandshake(w, e)
                     else if w.sm.state == ST_DHCP then StepDhcp(w, e) else StepConnected(w, e);
            Proceeds(w, r, w.sm.state == ST_DHCP && w.sm.msg.event == DhcpSuccess && w.cfg.connBlocked)
  {
    hide Proceeds, EnterConnect, EnterHandshake, EnterDhcp, EnterConnected, ConnectedScanDone, StartRoaming, Read,
         CancelTimer;
    ReadProceeds(w);
    if w.sm.state == ST_CONNECTED {
      LinkedProceeds(w, e);
    } else if w.sm.state == ST_DHCP && w.sm.msg.event == DhcpSuccess {
      ConnectedProceeds(w);
    } else {
      EntriesProceed(w, e);
    }
  }

  lemma {:induction false} StationProceeds(w: World, e: Env)
    requires w.vif == VifSta && w.sm.init && ST_SCAN <= w.sm.state <= ST_CONNECTED && Calm(w.sm.msg.event)
    ensures Proceeds(w, StaStep(w, e), w.sm.state == ST_DHCP && w.sm.msg.event == DhcpSuccess && w.cfg.connBlocked)
  {
    hide StepScan, StepConnect, StepHandshake, StepDhcp, StepConnected;
    var h := Emit(w, Handled(w.sm.msg.event, w.sm.state));
    CalmProceeds(h, e);
    NotingTells(w, h, StaStep(w, e), w.sm.state == ST_DHCP && w.sm.msg.event == DhcpSuccess && w.cfg.connBlocked);
  }

  lemma {:induction false} NotingTells(w: World, h: World, r: World, told: bool)
    requires h.log == w.log + [Handled(w.sm.msg.event, w.sm.state)] && Tells(h.log, r.log, told)
    ensures Tells(w.log, r.log, told)
  {
    assert r.log[|w.log|] == h.log[|w.log|];
  }

  lemma {:induction false} HandlesProceeds(w: World, s: Step)
    requires Enabled(w, s) && Handles(w, s) && ST_SCAN <= w.sm.state <= ST_CONNECTED && CalmStep(w, s)
    ensures Proceeds(w, Next(w, s), w.sm.state == ST_DHCP && w.queue[0].event == DhcpSuccess && w.cfg.connBlocked)
  {
    hide StaStep, CountOf, Tells;
    StationProceeds(LoadMessage(TakeMessage(w), w.queue[0]), s.env);
  }

  lemma {:induction false} PollsProceed(w: World, e: Env)
    ensures Proceeds(w, FireDhcp(w, e), false) && Proceeds(w, FireLink(w, e), false)
    ensures Proceeds(w, FireWps(w, e), false)
  {
    hide CountOf, Insert;
  }

  lemma {:induction false} FireProceeds(w: World, e: Env)
    requires Retries(w) == 0
    ensures Proceeds(w, FireHead(w, e), false)
  {
    hide FireRetry, FireDhcp, FireLink, FireWps, Tells;
    SilentProceeds(w, w);
    if HeadDue(w) {
      HeadNotRetry(w);
      PollsProceed(TakeTimer(w), e);
      SilentProceeds(TakeTimer(w), TakeTimer(w));
      hide CountOf;
    }
  }

  lemma {:induction false} HeadNotRetry(w: World)
    requires w.timers != [] && Retries(w) == 0
    ensures w.timers[0].handler != ConnectRetry && Retries(TakeTimer(w)) == 0
  {
  }

  lemma {:induction false} OthersProceed(w: World, s: Step)
    requires Enabled(w, s) && !Handles(w, s) && CalmStep(w, s) && w.vif == VifSta && w.sm.init && Retries(w) == 0
    ensures Proceeds(w, Next(w, s), false)
    ensures MovedTo(w, Next(w, s), Next(w, s).sm.state)
  {
    hide FireHead, CountOf, MachineStep;
    if s.Fire? {
      FireProceeds(w, s.env);
      FireMoves(w, s.env);
    }
  }

  lemma {:induction false} FireMoves(w: World, e: Env)
    ensures MovedTo(w, FireHead(w, e), FireHead(w, e).sm.state)
    ensures Retries(w) == 0 ==> FireHead(w, e).sm.state == w.sm.state
  {
    hide FireRetry, FireDhcp, FireLink, FireWps;
    if HeadDue(w) {
      RetryMoves(TakeTimer(w), e);
      PollsMove(TakeTimer(w), e);
      if Retries(w) == 0 {
        HeadNotRetry(w);
      }
    }
  }

  lemma {:induction false} OthersStay(w: World, s: Step)
    requires Enabled(w, s) && !Handles(w, s) && CalmStep(w, s) && w.vif == VifSta && w.sm.init && Retries(w) == 0
    ensures Next(w, s).sm.state == w.sm.state
  {
    hide FireHead, MachineStep, CountOf;
    if s.Fire? {
      FireMoves(w, s.env);
    }
  }

  predicate EndsPhase(w: World, s: Step, n: nat) { Handles(w, s) && n < 4 && w.queue[0].event == PhaseEnd(n) }

  /** A calm step of a station with n phases behind it ends phase n if it handles the event that does,
      and changes nothing of this otherwise. */
  lemma {:induction false} CalmKeeps(w: World, s: Step, n0: nat, n: nat, b: bool)
    requires Coherent(w) && Enabled(w, s) && CalmStep(w, s) && OnTheWay(w, n0, n, b)
    ensures OnTheWay(Next(w, s), n0, if EndsPhase(w, s, n) then n + 1 else n, b)
  {
    hide Next, Coherent, Retries, Phases, Answered, AddsPhase, Tells, CalmStep, Diagram, Calm;
    var r := Next(w, s);
    var phase := EndsPhase(w, s, n);
    var told := phase && n == 3 && w.cfg.connBlocked;
    NextGrows(w, s);
    NotedIs(w, s);
    if Handles(w, s) {
      HandlesProceeds(w, s);
      NotedAddsPhase(w.log, r.log, w.queue[0].event, n);
      NextMoves(w, s);
      CalmDiagram(w, s, n);
      ToldWhen(w, s, n);
    } else {
      OthersProceed(w, s);
      OthersStay(w, s);
      UnnotedAddsNoPhase(w.log, r.log);
    }
    PhasesAdd(w.log, r.log, n0, phase);
    AnswersAdd(w.log, r.log, n0, told, n == 4 && b);
    TellsGrow(w.log, r.log, told);
  }

  lemma {:induction false} TellsGrow(a: seq<Effect>, b: seq<Effect>, told: bool)
    requires Tells(a, b, told)
    ensures |a| <= |b|
  {
  }

  lemma {:induction false} ToldWhen(w: World, s: Step, n: nat)
    requires Handles(w, s) && n <= 4 && w.sm.state == ST_SCAN + n
    ensures EndsPhase(w, s, n) && n == 3 <==> w.sm.state == ST_DHCP && w.queue[0].event == DhcpSuccess
  {
  }

  lemma {:induction false} CalmDiagram(w: World, s: Step, n: nat)
    requires Handles(w, s) && CalmStep(w, s) && n <= 4 && w.sm.state == ST_SCAN + n
    ensures var m := w.queue[0];
            Diagram(w.sm.state, m.event, m.reason, w.sm.retry.count, w.sm.wps, s.env.apLoaded)
            == ST_SCAN + (if EndsPhase(w, s, n) then n + 1 else n)
  {
  }

  // ---------------------------------------------------------------- runs

  /** From world i on, a station in SCAN without a pending retry is left alone until world j. */
  ghost predicate LeftAlone(ws: seq<World>, ss: seq<Step>, i: nat, j: nat) {
    && Run(ws, ss) && i <= j < |ws|
    && ws[i].vif == VifSta && ws[i].sm.init && ws[i].sm.state == ST_SCAN && Retries(ws[i]) == 0
    && forall k :: i <= k < j ==> CalmStep(ws[k], ss[k])
  }

  /** How many phases are behind it. */
  ghost function Behind(ws: seq<World>, i: nat, j: nat): nat
    requires i < |ws| && j < |ws|
  {
    |Phases(ws[j].log, |ws[i].log|)|
  }

  lemma {:induction false} RunOnTheWay(ws: seq<World>, ss: seq<Step>, i: nat, j: nat)
    requires LeftAlone(ws, ss, i, j)
    ensures OnTheWay(ws[j], |ws[i].log|, Behind(ws, i, j), ws[i].cfg.connBlocked)
    ensures j > i ==> OnTheWay(ws[j - 1], |ws[i].log|, Behind(ws, i, j - 1), ws[i].cfg.connBlocked)
    ensures j > i ==>
              Behind(ws, i, j) == Behind(ws, i, j - 1)
                                  + (if EndsPhase(ws[j - 1], ss[j - 1], Behind(ws, i, j - 1)) then 1 else 0)
  {
    hide Next, Enabled, Start, OnTheWay, CalmStep, EndsPhase, Retries, Phases;
    if i == j {
      FirstOnTheWay(ws[i]);
    } else {
      RunOnTheWay(ws, ss, i, j - 1);
      RunCoherent(ws, ss, j - 1);
      assert ws[j - 1 + 1] == Next(ws[j - 1], ss[j - 1]);
      var n := Behind(ws, i, j - 1);
      CalmKeeps(ws[j - 1], ss[j - 1], |ws[i].log|, n, ws[i].cfg.connBlocked);
      WayCounts(ws[j], |ws[i].log|, if EndsPhase(ws[j - 1], ss[j - 1], n) then n + 1 else n, ws[i].cfg.connBlocked);
    }
  }

  lemma {:induction false} WayCounts(w: World, n0: nat, n: nat, b: bool)
    requires OnTheWay(w, n0, n, b)
    ensures n == |Phases(w.log, n0)|
  {
  }

  lemma {:induction false} FirstOnTheWay(w: World)
    requires w.vif == VifSta && w.sm.init && w.sm.state == ST_SCAN && Retries(w) == 0
    ensures OnTheWay(w, |w.log|, 0, w.cfg.connBlocked) && |Phases(w.log, |w.log|)| == 0
  {
    assert Phases(w.log, |w.log|) == {} && Answers(w.log, |w.log|) == {};
  }

  /** Left alone, a station is exactly as many states past SCAN as phases are behind it; when that is
      all four it is connected, and a caller who was waiting has been told of success exactly once. */
  lemma {:induction false} RunCompletes(ws: seq<World>, ss: seq<Step>, i: nat, j: nat)
    requires LeftAlone(ws, ss, i, j)
    ensures var n0, b := |ws[i].log|, ws[i].cfg.connBlocked;
            var n := |Phases(ws[j].log, n0)|;
            && ws[j].vif == VifSta && n <= 4 && ws[j].sm.state == ST_SCAN + n
            && Answered(ws[j].log, n0, n == 4 && b) && ws[j].cfg.connBlocked == (b && n < 4)
  {
    hide Run, Phases, Answered, Retries;
    RunOnTheWay(ws, ss, i, j);
  }

  /** Message k of a run is the event that ends phase m. */
  ghost predicate HandsOver(ws: seq<World>, ss: seq<Step>, k: nat, m: nat) {
    && k < |ss| && k < |ws| && ss[k].Handle? && ws[k].queue != []
    && ws[k].queue[0].vif == 0 && ws[k].queue[0].event == PhaseEnd(m)
  }

  lemma {:induction false} PhasePassed(ws: seq<World>, ss: seq<Step>, i: nat, k: nat, j: nat, m: nat)
    requires LeftAlone(ws, ss, i, j) && i <= k < j && m < 4 && HandsOver(ws, ss, k, m)
    requires Behind(ws, i, k) >= m
    ensures Behind(ws, i, k + 1) >= m + 1
  {
    hide Run, Phases, Retries, Answered, OnTheWay, EndsPhase, HandsOver, CalmStep;
    RunOnTheWay(ws, ss, i, k + 1);
    HandedOver(ws, ss, k, m);
    PhaseEnded(ws[k], ss[k], |ws[i].log|, Behind(ws, i, k), ws[i].cfg.connBlocked, m);
  }

  lemma {:induction false} HandedOver(ws: seq<World>, ss: seq<Step>, k: nat, m: nat)
    requires HandsOver(ws, ss, k, m)
    ensures k < |ss| && k < |ws| && ss[k].Handle? && ws[k].queue != []
    ensures ws[k].queue[0].vif == 0 && ws[k].queue[0].event == PhaseEnd(m)
  {
  }

  lemma {:induction false} PhaseEnded(w: World, s: Step, n0: nat, n: nat, b: bool, m: nat)
    requires OnTheWay(w, n0, n, b) && m < 4 && n >= m
    requires s.Handle? && w.queue != [] && w.queue[0].vif == 0 && w.queue[0].event == PhaseEnd(m)
    ensures n == m ==> EndsPhase(w, s, n)
  {
    hide Phases, Answered, Retries;
  }

  lemma {:induction false} BehindGrows(ws: seq<World>, ss: seq<Step>, i: nat, k: nat, j: nat)
    requires LeftAlone(ws, ss, i, j) && i <= k <= j
    ensures Behind(ws, i, k) <= Behind(ws, i, j)
  {
    hide Run, Phases, Retries, OnTheWay, EndsPhase;
    if k < j {
      BehindGrows(ws, ss, i, k, j - 1);
      RunOnTheWay(ws, ss, i, j);
    }
  }

  /** A station in SCAN that is handed SCAN_DONE, ASSOC_SUCCESS, DHCP_START and DHCP_SUCCESS, in this
      order and with no command or failure among what else it is handed, is connected after that; a
      caller who was waiting has been told of success exactly once, and nobody of anything else. */
  lemma {:induction false} RunConnects(ws: seq<World>, ss: seq<Step>, i: nat, j: nat,
                                       k0: nat, k1: nat, k2: nat, k3: nat)
    requires LeftAlone(ws, ss, i, j) && i <= k0 < k1 < k2 < k3 < j
    requires HandsOver(ws, ss, k0, 0) && HandsOver(ws, ss, k1, 1)
    requires HandsOver(ws, ss, k2, 2) && HandsOver(ws, ss, k3, 3)
    ensures ws[j].vif == VifSta && ws[j].sm.state == ST_CONNECTED && !ws[j].cfg.connBlocked
    ensures Answered(ws[j].log, |ws[i].log|, ws[i].cfg.connBlocked)
  {
    hide Run, Phases, Answered, Retries, Behind, HandsOver;
    PhasePassed(ws, ss, i, k0, j, 0);
    BehindGrows(ws, ss, i, k0 + 1, k1);
    PhasePassed(ws, ss, i, k1, j, 1);
    BehindGrows(ws, ss, i, k1 + 1, k2);
    PhasePassed(ws, ss, i, k2, j, 2);
    BehindGrows(ws, ss, i, k2 + 1, k3);
    PhasePassed(ws, ss, i, k3, j, 3);
    BehindGrows(ws, ss, i, k3 + 1, j);
    RunCompletes(ws, ss, i, j);
    BehindIs(ws, i, j);
  }

  lemma {:induction false} BehindIs(ws: seq<World>, i: nat, j: nat)
    requires i < |ws| && j < |ws|
    ensures Behind(ws, i, j) == |Phases(ws[j].log, |ws[i].log|)|
  {
  }

  // ---------------------------------------------------------------- addresses

  /** A due poll that finds an address posts DHCP_SUCCESS and reports success; one that does not
      polls again in 100 ms, or after the last of its polls posts DHCP_FAIL and reports failure. */
  lemma {:induction false} PollPosts(w: World, e: Env)
    requires HeadDue(w) && w.timers[0].handler == DhcpPolling
    ensures var r, ok, last := FireHead(w, e), e.dhcpDone || e.staticIp, (w.sm.dhcpCount - 1) % 0x100 == 0;
            && r.queue == w.queue + (if ok then [Msg(0, DhcpSuccess, 0, 0, 0, false)]
                                     else if last then [Msg(0, DhcpFail, 0, 0, 0, false)] else [])
            && r.log == w.log + [DhcpPoll]
                        + (if ok then [DhcpReport(true)] else if last then [DhcpReport(false)] else [])
            && (!ok ==> r.sm.dhcpCount == (w.sm.dhcpCount - 1) % 0x100)
            && (!ok && !last ==>
                  Timeout((w.now + 100) % WORD32, DhcpPolling, SM_CTX, NULL_CTX) in r.timers)
  {
    hide CountOf, Insert;
    var t := Timeout((w.now + 100) % WORD32, DhcpPolling, SM_CTX, NULL_CTX);
    InsertMembers(w.timers[1..], t, t);
    assert w.queue + [] == w.queue && w.log + [DhcpPoll] + [] == w.log + [DhcpPoll];
  }
}
