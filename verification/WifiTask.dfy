/** The manager task: its loop and the other tasks' calls, with the history of what has happened.
    The object's world is at every moment the last world of a run of the step relation, so that the
    theorems about runs are theorems about the object. */
module WifiTask {
  import opened EventLoop
  import opened WifiTypes
  import opened WifiManager
  import S = WifiSpec
  import C = WifiCoherence
  import T = WifiTrail
  import O = WifiOwnership
  import D = WifiScan
  import R = WifiStray
  import K = WifiKept
  import P = WifiRuns

  lemma {:induction false} RunExtends(ws: seq<World>, ss: seq<S.Step>, s: S.Step)
    requires S.Run(ws, ss) && S.Enabled(ws[|ss|], s)
    ensures S.Run(ws + [S.Next(ws[|ss|], s)], ss + [s])
  {
    hide S.Next, S.Enabled, S.Start;
  }

  /** What every world of every run satisfies: timers and states agree, the trail of effects is in
      order, and every payload has one live owner. */
  ghost predicate Healthy(w: World) {
    C.Coherent(w) && T.TrailOk(w) && O.Settled(w)
  }

  /** The radio has kept the one-scan discipline and no WPS session was abandoned. */
  ghost predicate Obedient(ws: seq<World>, ss: seq<S.Step>) {
    |ws| == |ss| + 1 && D.DisciplinedRun(ws, ss) && D.NoneAbandoned(ws, ss)
  }

  /** The steps of one turn of wifi_eloop_run: unless the head timer is due, the task sleeps until
      `wake` and handles a message if there is one; then it lets the head timer fire. */
  ghost function TurnSteps(w: World, wake: nat, e1: Env, e2: Env): seq<S.Step> {
    (if S.HeadDue(w) then [] else [S.Tick(wake)] + (if w.queue != [] then [S.Handle(e1)] else [])) + [S.Fire(e2)]
  }

  /** What happens to the task: a turn of its loop, or a call of another task. */
  datatype Input =
    | OneTurn(wake: nat, e1: Env, e2: Env)
    | Post(msg: Msg)
    | Arm(blocked: bool)
    | Roam(enable: bool)

  ghost predicate InputOk(w: World, x: Input) {
    match x
    case OneTurn(wake, _, _) => wake < WORD32
    case Post(m) => S.Enabled(w, S.Arrive(m))
    case _ => true
  }

  ghost function InputSteps(w: World, x: Input): seq<S.Step> {
    match x
    case OneTurn(wake, e1, e2) => TurnSteps(w, wake, e1, e2)
    case Post(m) => [S.Arrive(m)]
    case Arm(b) => [S.ArmScan(b)]
    case Roam(b) => [S.SetRoaming(b)]
  }

  ghost function AfterTurn(w: World, wake: nat, e1: Env, e2: Env): World
    requires wake < WORD32
  {
    if S.HeadDue(w) then S.FireHead(w, e2)
    else
      var w1 := S.Next(w, S.Tick(wake));
      S.FireHead(if w.queue != [] then S.Dispatch(w1, e1) else w1, e2)
  }

  ghost function After(w: World, x: Input): World
    requires InputOk(w, x)
  {
    match x
    case OneTurn(wake, e1, e2) => AfterTurn(w, wake, e1, e2)
    case Post(m) => S.Next(w, S.Arrive(m))
    case Arm(b) => S.Next(w, S.ArmScan(b))
    case Roam(b) => S.Next(w, S.SetRoaming(b))
  }

  /** Every payload is a fresh block when it is posted. */
  ghost predicate Playable(w: World, script: seq<Input>)
    decreases |script|
  {
    script == [] || (InputOk(w, script[0]) && Playable(After(w, script[0]), script[1..]))
  }

  ghost function Script(w: World, script: seq<Input>): seq<S.Step>
    requires Playable(w, script)
    decreases |script|
  {
    if script == [] then [] else InputSteps(w, script[0]) + Script(After(w, script[0]), script[1..])
  }

  lemma {:induction false} ScriptStep(w: World, script: seq<Input>)
    requires Playable(w, script) && script != []
    ensures InputOk(w, script[0]) && Playable(After(w, script[0]), script[1..])
    ensures Script(w, script) == InputSteps(w, script[0]) + Script(After(w, script[0]), script[1..])
  {
    hide After, InputSteps, InputOk;
  }

  lemma {:induction false} ScriptEnds(w: World)
    ensures Playable(w, []) && Script(w, []) == []
  {
  }

  class Task {
    const manager: Manager
    ghost var ws: seq<World>
    ghost var ss: seq<S.Step>

    ghost predicate Valid()
      reads this, manager, manager.loop
    {
      manager.Ready() && |ws| == |ss| + 1 && S.Run(ws, ss) && ws[0].vif == VifSta && ws[|ss|] == manager.View()
    }

    /** wifi_management_init. */
    constructor ()
      ensures Valid() && fresh(manager) && fresh(manager.loop) && ss == []
    {
      manager := new Manager();
      new;
      ws, ss := [manager.View()], [];
    }

    /** The run so far is a run, so its theorems hold of the object. */
    lemma {:induction false} RunHolds()
      requires Valid()
      ensures Healthy(manager.View())
      ensures Obedient(ws, ss) ==> D.Sound(manager.View())
      ensures P.InitOnce(ss) && P.HasHandled(ss, |ss|) ==> manager.sm.retry.count < manager.sm.retry.limit
    {
      hide S.Start, S.Enabled, S.Next, D.Disciplined, D.Abandons, C.Coherent, T.TrailOk, O.Settled, D.Sound;
      T.RunTrail(ws, ss, |ss|);
      O.RunOwnership(ws, ss, |ss|);
      if P.InitOnce(ss) {
        P.RunRetryBelowLimit(ws, ss, |ss|);
      }
      if Obedient(ws, ss) {
        R.RunSound(ws, ss, |ss|);
      }
    }

    /** The manager has just made step s. */
    ghost method Record(s: S.Step)
      requires manager.Ready() && |ws| == |ss| + 1 && S.Run(ws, ss) && ws[0].vif == VifSta && S.Enabled(ws[|ss|], s)
      requires manager.View() == S.Next(ws[|ss|], s)
      modifies this`ws, this`ss
      ensures Valid() && ss == old(ss) + [s] && ws == old(ws) + [manager.View()]
    {
      hide S.Run, S.Enabled, S.Next;
      RunExtends(ws, ss, s);
      ws, ss := ws + [manager.View()], ss + [s];
    }

    method Arrive(m: Msg)
      requires Valid() && S.Enabled(manager.View(), S.Arrive(m))
      modifies this`ws, this`ss, manager
      ensures Valid() && ss == old(ss) + [S.Arrive(m)] && ws == old(ws) + [manager.View()]
      ensures manager.View() == S.Next(old(manager.View()), S.Arrive(m))
      ensures Healthy(manager.View()) && (Obedient(ws, ss) ==> D.Sound(manager.View()))
    {
      hide S.Next, S.Enabled, S.Run, Healthy, Obedient, D.Sound;
      manager.Arrive(m);
      Record(S.Arrive(m));
      RunHolds();
    }

    method ArmScan(blocked: bool)
      requires Valid()
      modifies this`ws, this`ss, manager
      ensures Valid() && ss == old(ss) + [S.ArmScan(blocked)] && ws == old(ws) + [manager.View()]
      ensures manager.View() == S.Next(old(manager.View()), S.ArmScan(blocked))
      ensures Healthy(manager.View()) && (Obedient(ws, ss) ==> D.Sound(manager.View()))
    {
      hide S.Next, S.Run, Healthy, Obedient, D.Sound;
      manager.ArmScan(blocked);
      Record(S.ArmScan(blocked));
      RunHolds();
    }

    method SetRoaming(enable: bool)
      requires Valid()
      modifies this`ws, this`ss, manager
      ensures Valid() && ss == old(ss) + [S.SetRoaming(enable)] && ws == old(ws) + [manager.View()]
      ensures manager.View() == S.Next(old(manager.View()), S.SetRoaming(enable))
      ensures Healthy(manager.View()) && (Obedient(ws, ss) ==> D.Sound(manager.View()))
    {
      hide S.Next, S.Run, Healthy, Obedient, D.Sound;
      manager.SetRoaming(enable);
      Record(S.SetRoaming(enable));
      RunHolds();
    }

    method Sleep(wake: nat)
      requires Valid() && wake < WORD32
      modifies this`ws, this`ss, manager.loop
      ensures Valid() && ss == old(ss) + [S.Tick(wake)] && ws == old(ws) + [manager.View()]
      ensures manager.View() == S.Next(old(manager.View()), S.Tick(wake)) && manager.queue == old(manager.queue)
    {
      hide S.Next, S.Run;
      manager.Tick(wake);
      Record(S.Tick(wake));
    }

    method HandleMessage(e: Env)
      requires Valid() && manager.queue != []
      modifies this`ws, this`ss, manager, manager.loop
      ensures Valid() && ss == old(ss) + [S.Handle(e)] && ws == old(ws) + [manager.View()]
      ensures manager.View() == S.Dispatch(old(manager.View()), e)
    {
      hide S.Dispatch, S.Run;
      manager.DispatchHead(e);
      Record(S.Handle(e));
    }

    method HandleTimeout(e: Env)
      requires Valid()
      modifies this`ws, this`ss, manager, manager.loop
      ensures Valid() && ss == old(ss) + [S.Fire(e)] && ws == old(ws) + [manager.View()]
      ensures manager.View() == S.FireHead(old(manager.View()), e)
    {
      hide S.FireHead, S.Run;
      manager.HandleTimeout(e);
      Record(S.Fire(e));
    }

    /** One turn of wifi_eloop_run.  The run grows by the turn's steps; afterwards timers and states
        agree, the trail is in order and no payload is lost track of, and while the radio keeps its
        discipline and no WPS session was abandoned, nothing is stranded and the budget is kept. */
    method Turn(wake: nat, e1: Env, e2: Env)
      requires Valid() && wake < WORD32
      modifies this`ws, this`ss, manager, manager.loop
      ensures Valid() && old(ws) <= ws && ss == old(ss) + TurnSteps(old(manager.View()), wake, e1, e2)
      ensures manager.View() == AfterTurn(old(manager.View()), wake, e1, e2)
      ensures Healthy(manager.View())
      ensures Obedient(ws, ss) ==> D.Sound(manager.View())
    {
      hide S.Run, S.Next, S.Dispatch, S.FireHead, Healthy, Obedient, D.Sound;
      var limited, remain := manager.loop.SleepTime();
      if !(limited && remain == 0) {
        Sleep(wake);
        if manager.queue != [] {
          HandleMessage(e1);
        }
      }
      HandleTimeout(e2);
      RunHolds();
    }

    method Play(x: Input)
      requires Valid() && InputOk(manager.View(), x)
      modifies this`ws, this`ss, manager, manager.loop
      ensures Valid() && old(ws) <= ws && ss == old(ss) + InputSteps(old(manager.View()), x)
      ensures manager.View() == After(old(manager.View()), x)
      ensures Healthy(manager.View())
      ensures Obedient(ws, ss) ==> D.Sound(manager.View())
    {
      hide S.Run, S.Next, S.Enabled, Healthy, Obedient, D.Sound, TurnSteps, AfterTurn;
      match x
      case OneTurn(wake, e1, e2) => Turn(wake, e1, e2);
      case Post(m) => Arrive(m);
      case Arm(b) => ArmScan(b);
      case Roam(b) => SetRoaming(b);
      RunHolds();
    }

    /** wifi_eloop_run until it is told to stop, with what other tasks do between its turns.  The run
        grows by exactly the steps of the script. */
    method Run(script: seq<Input>)
      requires Valid() && Playable(manager.View(), script)
      modifies this`ws, this`ss, manager, manager.loop
      ensures Valid() && old(ws) <= ws && Healthy(manager.View())
      ensures ss == old(ss) + Script(old(manager.View()), script)
      ensures Obedient(ws, ss) ==> D.Sound(manager.View())
    {
      hide S.Run, Healthy, Obedient, D.Sound, TurnSteps, Script, Playable, InputSteps, After, InputOk;
      RunHolds();
      ghost var w0, all := manager.View(), Script(manager.View(), script);
      ScriptEnds(w0);
      assert script[0..] == script;
      for i := 0 to |script|
        invariant Valid() && old(ws) <= ws && Healthy(manager.View())
        invariant Playable(manager.View(), script[i..])
        invariant ss + Script(manager.View(), script[i..]) == old(ss) + all
        invariant Obedient(ws, ss) ==> D.Sound(manager.View())
      {
        ScriptStep(manager.View(), script[i..]);
        assert script[i..][0] == script[i] && script[i..][1..] == script[i + 1..];
        Play(script[i]);
      }
      assert script[|script|..] == [];
      ScriptEnds(manager.View());
    }
  }
}
