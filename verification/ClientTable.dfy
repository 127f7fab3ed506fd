/** The table of connected clients that the AT command task and the receive task share. */
module ClientTable {

  const MAX_CLIENT_NUM: nat := 9

  datatype Slot = Slot(fd: int, tcp: bool, server: bool, stop: bool)

  const Vacant: Slot := Slot(-1, false, false, false)

  /** What the network stack sees of the descriptors the two tasks handle. */
  datatype Trace = Opened(fd: int) | Closed(fd: int)

  /** `held` is the descriptor of a client the AT task is still connecting, -1 if none. */
  datatype State = State(cli: seq<Slot>, num: int, srv: int, srvStop: bool, quit: bool, held: int, log: seq<Trace>)

  // ---------------------------------------------------------------- slots

  function FirstVacant(cli: seq<Slot>): (i: int)
    ensures -1 <= i < |cli|
    ensures i >= 0 ==> cli[i].fd < 0 && forall j :: 0 <= j < i ==> cli[j].fd >= 0
    ensures i < 0 ==> forall j :: 0 <= j < |cli| ==> cli[j].fd >= 0
  {
    if cli == [] then -1
    else if cli[0].fd < 0 then 0
    else
      var k := FirstVacant(cli[1..]);
      assert forall j :: 1 <= j < |cli| ==> cli[j] == cli[1..][j - 1];
      if k < 0 then -1 else k + 1
  }

  function FindFd(cli: seq<Slot>, fd: int): (i: int)
    ensures -1 <= i < |cli|
    ensures i >= 0 ==> cli[i].fd == fd && forall j :: 0 <= j < i ==> cli[j].fd != fd
    ensures i < 0 ==> forall j :: 0 <= j < |cli| ==> cli[j].fd != fd
  {
    if cli == [] then -1
    else if cli[0].fd == fd then 0
    else
      var k := FindFd(cli[1..], fd);
      assert forall j :: 1 <= j < |cli| ==> cli[j] == cli[1..][j - 1];
      if k < 0 then -1 else k + 1
  }

  /** The last slot that holds fd. */
  function LastFd(cli: seq<Slot>, fd: int): (i: int)
    ensures -1 <= i < |cli|
    ensures i >= 0 ==> cli[i].fd == fd
    ensures i < 0 ==> forall j :: 0 <= j < |cli| ==> cli[j].fd != fd
  {
    var n := |cli|;
    if n == 0 then -1 else if cli[n - 1].fd == fd then n - 1 else LastFd(cli[..n - 1], fd)
  }

  /** How many slots are in use. */
  function InUse(cli: seq<Slot>): (n: nat)
    ensures n <= |cli|
  {
    if cli == [] then 0 else InUse(cli[..|cli| - 1]) + (if cli[|cli| - 1].fd >= 0 then 1 else 0)
  }

  function Holding(cli: seq<Slot>, fd: int): nat {
    if cli == [] then 0 else Holding(cli[..|cli| - 1], fd) + (if cli[|cli| - 1].fd == fd then 1 else 0)
  }

  lemma {:induction false} SlotSet(cli: seq<Slot>, i: nat, x: Slot, fd: int)
    requires i < |cli|
    ensures InUse(cli[i := x]) == InUse(cli) - (if cli[i].fd >= 0 then 1 else 0) + (if x.fd >= 0 then 1 else 0)
    ensures Holding(cli[i := x], fd) ==
            Holding(cli, fd) - (if cli[i].fd == fd then 1 else 0) + (if x.fd == fd then 1 else 0)
  {
    var n := |cli| - 1;
    if i == n {
      assert cli[i := x][..n] == cli[..n];
    } else {
      assert cli[i := x][..n] == cli[..n][i := x];
      SlotSet(cli[..n], i, x, fd);
    }
  }

  lemma {:induction false} HoldingZero(cli: seq<Slot>, fd: int)
    ensures Holding(cli, fd) == 0 <==> forall j :: 0 <= j < |cli| ==> cli[j].fd != fd
  {
    if cli != [] {
      var n := |cli| - 1;
      HoldingZero(cli[..n], fd);
      assert forall j :: 0 <= j < n ==> cli[j] == cli[..n][j];
    }
  }

  /** The table is full exactly when the scan for a vacant slot fails. */
  lemma {:induction false} FullExact(cli: seq<Slot>)
    ensures InUse(cli) == |cli| <==> forall j :: 0 <= j < |cli| ==> cli[j].fd >= 0
  {
    if cli != [] {
      var n := |cli| - 1;
      FullExact(cli[..n]);
      assert forall j :: 0 <= j < n ==> cli[j] == cli[..n][j];
    }
  }

  // ---------------------------------------------------------------- operations

  /** cip_info_cli_alloc. */
  function Alloc(s: State): (i: int)
    ensures -1 <= i < |s.cli| && (i >= 0 ==> s.num < MAX_CLIENT_NUM && s.cli[i].fd < 0)
  {
    if s.num >= MAX_CLIENT_NUM then -1 else FirstVacant(s.cli)
  }

  function Close(s: State, fd: int): State { s.(log := s.log + [Closed(fd)]) }
  function Open(s: State, fd: int): State { s.(log := s.log + [Opened(fd)]) }

  /** Store fd, or close it when the table is full. */
  function StoreOrClose(s: State, fd: int, tcp: bool, server: bool): State {
    var i := Alloc(s);
    if i < 0 || fd < 0 then Close(s, fd)
    else s.(cli := s.cli[i := Slot(fd, tcp, server, false)], num := s.num + 1)
  }

  /** cip_info_cli_free. */
  function FreeSlot(s: State, i: int): State {
    if 0 <= i < |s.cli| && s.cli[i].fd != -1
    then s.(cli := s.cli[i := Vacant], num := s.num - 1)
    else s
  }

  /** Free slot i and close its descriptor, if it has one. */
  function Release(s: State, i: nat): (r: State)
    requires i < |s.cli|
    ensures |r.cli| == |s.cli| && r == s.(cli := r.cli, num := r.num, log := r.log)
  {
    if s.cli[i].fd >= 0 then Close(FreeSlot(s, i), s.cli[i].fd) else s
  }

  /** Release the slots from i on, or only those of accepted clients. */
  function ReleaseFrom(s: State, i: nat, serversOnly: bool): (r: State)
    requires i <= |s.cli|
    ensures |r.cli| == |s.cli| && r == s.(cli := r.cli, num := r.num, log := r.log)
    decreases |s.cli| - i
  {
    if i == |s.cli| then s
    else ReleaseFrom(if serversOnly && !s.cli[i].server then s else Release(s, i), i + 1, serversOnly)
  }

  function CloseServer(s: State): State {
    if s.srv >= 0 then Close(s.(srv := -1), s.srv) else s
  }

  /** cip_info_init on a table that may be in use. */
  function Init(s: State): State {
    s.(cli := seq(MAX_CLIENT_NUM, _ => Vacant), num := 0, srv := -1, srvStop := false, quit := false)
  }

  // ---------------------------------------------------------------- steps

  datatype Event =
    | AtOpen(fd: int)                 // socket() for a client
    | AtStore(tcp: bool)              // the client is connected
    | AtAbandon                       // connect or bind failed
    | AtListen(fd: int)               // AT+CIPSERVER=1
    | AtServerStop                    // AT+CIPSERVER=0
    | AtClose(fd: int)                // AT+CIPCLOSE
    | AtReset                         // ATQ
    | AtInit                          // AT
    | RxStart                         // the receive task starts
    | RxStopServer
    | RxAccept(fd: int)
    | RxTcpFail(fd: int)              // a queued send failed
    | RxUdpFail(fd: int)
    | RxDrop(slot: nat)               // receive error, remote close, exception or stop flag
    | RxExit

  function Step(s: State, e: Event): State
    requires |s.cli| == MAX_CLIENT_NUM
  {
    match e
    case AtOpen(fd) => Open(s.(held := fd), fd)
    case AtStore(tcp) => StoreOrClose(s, s.held, tcp, false).(held := -1)
    case AtAbandon => Close(s, s.held).(held := -1)
    case AtListen(fd) => Open(s.(srv := fd, srvStop := false), fd)
    case AtServerStop => ServerStop(s)
    case AtClose(fd) => CloseCommand(s, fd)
    case AtReset => CloseServer(ReleaseFrom(s, 0, false)).(quit := true)
    case AtInit => Init(s)
    case RxStart => s.(quit := false)
    case RxStopServer => CloseServer(ReleaseFrom(s, 0, true))
    case RxAccept(fd) => if s.num >= MAX_CLIENT_NUM then s else StoreOrClose(Open(s, fd), fd, true, true)
    case RxTcpFail(fd) =>
      var i := FindFd(s.cli, fd);
      if i >= 0 && !s.cli[i].server then Close(FreeSlot(s, i), fd) else s
    case RxUdpFail(fd) => Close(FreeSlot(s, FindFd(s.cli, fd)), fd)
    case RxDrop(i) => if i < |s.cli| then Release(s, i) else s
    case RxExit => CloseServer(ReleaseFrom(s, 0, false))
  }

  predicate Outgoing(c: Slot) { c.fd > -1 && !c.server }

  /** tcp_server_stop: the receive task stops the server, or is stopped when it has nothing else to do. */
  function ServerStop(s: State): State {
    if s.srv < 0 then s
    else if exists i :: 0 <= i < |s.cli| && Outgoing(s.cli[i]) then s.(srvStop := true)
    else s.(quit := true)
  }

  /** at_cip_close. */
  function CloseCommand(s: State, fd: int): State {
    var i := LastFd(s.cli, fd);
    if fd < 0 || fd == s.srv || i < 0 then s
    else if InUse(s.cli) + (if s.srv != -1 then 1 else 0) > 1 then s.(cli := s.cli[i := s.cli[i].(stop := true)])
    else s.(quit := true)
  }

  /** What the network stack and the order of each task's own steps allow; socket() and accept()
      return descriptors that are not open. */
  predicate Enabled(s: State, e: Event) {
    match e
    case AtOpen(fd) => s.held == -1 && fd >= 0 && Balance(s.log, fd) == 0
    case AtStore(_) => s.held >= 0
    case AtAbandon => s.held >= 0
    case AtListen(fd) => s.held == -1 && s.srv < 0 && fd >= 0 && Balance(s.log, fd) == 0
    case RxAccept(fd) => s.srv >= 0 && fd >= 0 && Balance(s.log, fd) == 0
    case RxStopServer => s.srv >= 0 && s.srvStop
    case RxTcpFail(fd) => fd >= 0
    case RxUdpFail(fd) => fd >= 0
    case _ => true
  }

  function Times(log: seq<Trace>, t: Trace): nat {
    if log == [] then 0 else Times(log[..|log| - 1], t) + (if log[|log| - 1] == t then 1 else 0)
  }

  /** Times opened minus times closed. */
  function Balance(log: seq<Trace>, fd: int): int { Times(log, Opened(fd)) - Times(log, Closed(fd)) }

  lemma {:induction false} TimesStep(log: seq<Trace>, x: Trace, fd: int)
    ensures Times(log + [x], Opened(fd)) == Times(log, Opened(fd)) + (if x == Opened(fd) then 1 else 0)
    ensures Times(log + [x], Closed(fd)) == Times(log, Closed(fd)) + (if x == Closed(fd) then 1 else 0)
  {
    assert (log + [x])[..|log|] == log;
  }

  // ---------------------------------------------------------------- the count

  /** cli_num is the number of slots in use. */
  predicate Counted(s: State) {
    && |s.cli| == MAX_CLIENT_NUM
    && (forall i :: 0 <= i < |s.cli| ==> s.cli[i].fd >= -1)
    && s.num == InUse(s.cli)
  }

  /** Allocation fails exactly when the table is full. */
  lemma {:induction false} AllocExact(s: State)
    requires Counted(s)
    ensures Alloc(s) < 0 <==> InUse(s.cli) == MAX_CLIENT_NUM
    ensures s.num <= MAX_CLIENT_NUM
  {
    FullExact(s.cli);
  }

  lemma {:induction false} FreeSlotCounted(s: State, i: int)
    requires Counted(s)
    ensures Counted(FreeSlot(s, i))
  {
    if 0 <= i < |s.cli| {
      SlotSet(s.cli, i, Vacant, 0);
    }
    hide InUse;
  }

  lemma {:induction false} ReleaseFromCounted(s: State, i: nat, serversOnly: bool)
    requires Counted(s) && i <= |s.cli|
    ensures Counted(ReleaseFrom(s, i, serversOnly))
    decreases |s.cli| - i
  {
    hide Counted, InUse;
    if i < |s.cli| {
      FreeSlotCounted(s, i);
      var s' := if serversOnly && !s.cli[i].server then s else Release(s, i);
      assert Counted(s') by { ReleaseCounted(s, i); }
      ReleaseFromCounted(s', i + 1, serversOnly);
    }
  }

  lemma {:induction false} ReleaseCounted(s: State, i: nat)
    requires Counted(s) && i < |s.cli|
    ensures Counted(Release(s, i))
  {
    FreeSlotCounted(s, i);
    hide InUse, FreeSlot;
  }

  lemma {:induction false} StoreCounted(s: State, fd: int, tcp: bool, server: bool)
    requires Counted(s)
    ensures Counted(StoreOrClose(s, fd, tcp, server))
  {
    var i := Alloc(s);
    if i >= 0 {
      SlotSet(s.cli, i, Slot(fd, tcp, server, false), 0);
    }
    hide InUse, Alloc;
  }

  lemma {:induction false} CloseCommandCounted(s: State, fd: int)
    requires Counted(s)
    ensures Counted(CloseCommand(s, fd))
  {
    var i := LastFd(s.cli, fd);
    if i >= 0 {
      SlotSet(s.cli, i, s.cli[i].(stop := true), 0);
    }
    hide InUse, LastFd;
  }

  lemma {:induction false} VacantTable(n: nat, fd: int)
    requires fd >= 0
    ensures InUse(seq(n, _ => Vacant)) == 0 && Holding(seq(n, _ => Vacant), fd) == 0
  {
    if n > 0 {
      var c := seq(n, _ => Vacant);
      assert c[..n - 1] == seq(n - 1, _ => Vacant);
      VacantTable(n - 1, fd);
    }
  }

  /** Every step keeps the count, whatever descriptors it is given. */
  lemma {:induction false} StepCounted(s: State, e: Event)
    requires Counted(s)
    ensures Counted(Step(s, e))
  {
    StepCountedAt(s, e);
    hide InUse, StoreOrClose, ReleaseFrom, FreeSlot, CloseCommand, FindFd, Alloc;
    VacantTable(MAX_CLIENT_NUM, 0);
  }

  /** The parts of a step that touch the table. */
  lemma {:induction false} StepCountedAt(s: State, e: Event)
    requires Counted(s)
    ensures e.AtStore? ==> Counted(StoreOrClose(s, s.held, e.tcp, false))
    ensures e.RxAccept? ==> Counted(StoreOrClose(Open(s, e.fd), e.fd, true, true))
    ensures e.AtClose? ==> Counted(CloseCommand(s, e.fd))
    ensures e.AtReset? || e.RxExit? ==> Counted(ReleaseFrom(s, 0, false))
    ensures e.RxStopServer? ==> Counted(ReleaseFrom(s, 0, true))
    ensures e.RxTcpFail? || e.RxUdpFail? ==> Counted(FreeSlot(s, FindFd(s.cli, e.fd)))
    ensures e.RxDrop? && e.slot < |s.cli| ==> Counted(Release(s, e.slot))
  {
    hide InUse, StoreOrClose, ReleaseFrom, FreeSlot, Release, CloseCommand, FindFd;
    if e.AtStore? {
      StoreCounted(s, s.held, e.tcp, false);
    } else if e.RxAccept? {
      StoreCounted(Open(s, e.fd), e.fd, true, true);
    } else if e.AtClose? {
      CloseCommandCounted(s, e.fd);
    } else if e.RxTcpFail? || e.RxUdpFail? {
      FreeSlotCounted(s, FindFd(s.cli, e.fd));
    } else if e.RxDrop? && e.slot < |s.cli| {
      ReleaseCounted(s, e.slot);
    } else {
      ReleaseFromCounted(s, 0, false);
      ReleaseFromCounted(s, 0, true);
    }
  }

  // ---------------------------------------------------------------- the descriptors

  /** In how many places fd is kept. */
  function Copies(s: State, fd: int): nat {
    Holding(s.cli, fd) + (if s.srv == fd then 1 else 0) + (if s.held == fd then 1 else 0)
  }

  /** fd is kept in at most one place, and it is open exactly while it is kept. */
  predicate BalancedAt(s: State, fd: int) {
    Balance(s.log, fd) == Copies(s, fd) <= 1
  }

  ghost predicate Balanced(s: State) {
    Counted(s) && s.srv >= -1 && s.held >= -1 && forall fd: nat :: BalancedAt(s, fd)
  }

  lemma {:induction false} FreeSlotHolds(s: State, i: int, fd: nat)
    requires Counted(s)
    ensures var s' := FreeSlot(s, i);
            && s' == s.(cli := s'.cli, num := s'.num)
            && Holding(s'.cli, fd) == Holding(s.cli, fd) - (if 0 <= i < |s.cli| && s.cli[i].fd == fd then 1 else 0)
  {
    if 0 <= i < |s.cli| {
      SlotSet(s.cli, i, Vacant, fd);
    }
    hide Holding, InUse;
  }

  lemma {:induction false} ReleaseBalanced(s: State, i: nat, fd: nat)
    requires Counted(s) && i < |s.cli| && BalancedAt(s, fd)
    ensures BalancedAt(Release(s, i), fd)
    ensures Times(Release(s, i).log, Opened(fd)) == Times(s.log, Opened(fd))
  {
    FreeSlotHolds(s, i, fd);
    TimesStep(s.log, Closed(s.cli[i].fd), fd);
    hide Holding, InUse, Times, FreeSlot;
  }

  lemma {:induction false} ReleaseFromBalanced(s: State, i: nat, serversOnly: bool, fd: nat)
    requires Counted(s) && i <= |s.cli| && BalancedAt(s, fd)
    ensures BalancedAt(ReleaseFrom(s, i, serversOnly), fd)
    ensures Times(ReleaseFrom(s, i, serversOnly).log, Opened(fd)) == Times(s.log, Opened(fd))
    decreases |s.cli| - i
  {
    hide Counted, BalancedAt, InUse, Times;
    if i < |s.cli| {
      var s' := if serversOnly && !s.cli[i].server then s else Release(s, i);
      ReleaseCounted(s, i);
      ReleaseBalanced(s, i, fd);
      ReleaseFromBalanced(s', i + 1, serversOnly, fd);
    }
  }

  lemma {:induction false} CloseServerBalanced(s: State, fd: nat)
    requires BalancedAt(s, fd)
    ensures BalancedAt(CloseServer(s), fd)
    ensures Times(CloseServer(s).log, Opened(fd)) == Times(s.log, Opened(fd))
  {
    TimesStep(s.log, Closed(s.srv), fd);
    hide Times, Holding;
  }

  lemma {:induction false} StoreHolds(s: State, added: int, tcp: bool, server: bool, fd: nat)
    requires Counted(s) && added >= 0
    ensures var s' := StoreOrClose(s, added, tcp, server);
            && s' == s.(cli := s'.cli, num := s'.num, log := s'.log)
            && Holding(s'.cli, fd) - Balance(s'.log, fd) ==
               Holding(s.cli, fd) - Balance(s.log, fd) + (if added == fd then 1 else 0)
            && Holding(s'.cli, fd) <= Holding(s.cli, fd) + (if added == fd then 1 else 0)
            && Times(s'.log, Opened(fd)) == Times(s.log, Opened(fd))
  {
    var i := Alloc(s);
    if i >= 0 {
      SlotSet(s.cli, i, Slot(added, tcp, server, false), fd);
    }
    TimesStep(s.log, Closed(added), fd);
    hide Holding, InUse, Times, Alloc;
  }

  lemma {:induction false} HoldingInUse(cli: seq<Slot>, fd: nat)
    ensures Holding(cli, fd) <= InUse(cli)
  {
    if cli != [] {
      HoldingInUse(cli[..|cli| - 1], fd);
    }
  }

  /** The provisos: AT is issued again only when nothing is open, and no UDP send request outlives its
      socket. */
  predicate Safe(s: State, e: Event) {
    && (e.AtInit? ==> s.num == 0 && s.srv < 0)
    && (e.RxUdpFail? ==> FindFd(s.cli, e.fd) >= 0)
  }

  predicate Opens(s: State, e: Event, fd: int) {
    || (e.AtOpen? && e.fd == fd)
    || (e.AtListen? && e.fd == fd)
    || (e.RxAccept? && e.fd == fd && s.num < MAX_CLIENT_NUM)
  }

  ghost predicate StepAt(s: State, e: Event, fd: nat)
    requires |s.cli| == MAX_CLIENT_NUM
  {
    var s' := Step(s, e);
    && BalancedAt(s', fd)
    && Times(s'.log, Opened(fd)) == Times(s.log, Opened(fd)) + (if Opens(s, e, fd) then 1 else 0)
  }

  lemma {:induction false} AtStepBalanced(s: State, e: Event, fd: nat)
    requires Counted(s) && BalancedAt(s, fd) && s.srv >= -1 && s.held >= -1
    requires Enabled(s, e) && Safe(s, e)
    requires e.AtOpen? || e.AtStore? || e.AtAbandon? || e.AtListen? || e.AtInit?
    ensures StepAt(s, e, fd)
  {
    hide StoreOrClose, Holding, InUse, Times, Alloc;
    if e.AtOpen? || e.AtListen? {
      TimesStep(s.log, Opened(e.fd), fd);
    } else if e.AtStore? {
      StoreHolds(s, s.held, e.tcp, false, fd);
    } else if e.AtAbandon? {
      TimesStep(s.log, Closed(s.held), fd);
    } else {
      HoldingInUse(s.cli, fd);
      VacantTable(MAX_CLIENT_NUM, fd);
    }
  }

  lemma {:induction false} RxStepBalanced(s: State, e: Event, fd: nat)
    requires Counted(s) && BalancedAt(s, fd) && s.srv >= -1 && s.held >= -1
    requires Enabled(s, e) && Safe(s, e)
    requires e.RxAccept? || e.RxTcpFail? || e.RxUdpFail? || e.RxDrop?
    ensures StepAt(s, e, fd)
  {
    hide StoreOrClose, Holding, InUse, Times, Alloc, FreeSlot, FindFd;
    if e.RxAccept? {
      TimesStep(s.log, Opened(e.fd), fd);
      StoreHolds(Open(s, e.fd), e.fd, true, true, fd);
    } else if e.RxDrop? {
      if e.slot < |s.cli| {
        ReleaseBalanced(s, e.slot, fd);
      }
    } else {
      FreeSlotHolds(s, FindFd(s.cli, e.fd), fd);
      TimesStep(s.log, Closed(e.fd), fd);
    }
  }

  lemma {:induction false} SweepBalanced(s: State, e: Event, fd: nat)
    requires Counted(s) && BalancedAt(s, fd) && s.srv >= -1 && s.held >= -1
    requires e.AtReset? || e.RxStopServer? || e.RxExit? || e.RxStart? || e.AtServerStop? || e.AtClose?
    ensures StepAt(s, e, fd)
  {
    hide Holding, InUse, Times, ReleaseFrom, LastFd, CloseServer;
    if e.AtReset? || e.RxExit? {
      ReleaseFromBalanced(s, 0, false, fd);
      CloseServerBalanced(ReleaseFrom(s, 0, false), fd);
    } else if e.RxStopServer? {
      ReleaseFromBalanced(s, 0, true, fd);
      CloseServerBalanced(ReleaseFrom(s, 0, true), fd);
    } else if e.AtClose? {
      var i := LastFd(s.cli, e.fd);
      if i >= 0 {
        SlotSet(s.cli, i, s.cli[i].(stop := true), fd);
      }
    }
  }

  lemma {:induction false} StepBalancedAt(s: State, e: Event, fd: nat)
    requires Balanced(s) && Enabled(s, e) && Safe(s, e)
    ensures StepAt(s, e, fd)
  {
    hide StepAt, Counted, BalancedAt, Step, Enabled, Safe;
    assert BalancedAt(s, fd);
    if e.AtOpen? || e.AtStore? || e.AtAbandon? || e.AtListen? || e.AtInit? {
      AtStepBalanced(s, e, fd);
    } else if e.RxAccept? || e.RxTcpFail? || e.RxUdpFail? || e.RxDrop? {
      RxStepBalanced(s, e, fd);
    } else {
      SweepBalanced(s, e, fd);
    }
  }

  lemma {:induction false} StepKeepers(s: State, e: Event)
    requires Balanced(s) && Enabled(s, e)
    ensures Step(s, e).srv == -1 || Step(s, e).srv == s.srv || (e.AtListen? && Step(s, e).srv == e.fd)
    ensures Step(s, e).held == -1 || Step(s, e).held == s.held || (e.AtOpen? && Step(s, e).held == e.fd)
  {
    hide Counted, BalancedAt, ReleaseFrom, FindFd, LastFd, Alloc, Times;
  }

  lemma {:induction false} InitLeaks(s: State)
    requires Balanced(s) && Balanced(Init(s))
    ensures s.num == 0 && s.srv < 0
  {
    hide Times, InUse, Holding;
    forall fd: nat ensures Holding(s.cli, fd) == 0 && s.srv != fd {
      VacantTable(MAX_CLIENT_NUM, fd);
      assert BalancedAt(s, fd) && BalancedAt(Init(s), fd);
    }
    var _ := Holding(s.cli, s.srv);
    if s.num > 0 {
      UsedSlot(s.cli);
      var i :| 0 <= i < |s.cli| && s.cli[i].fd >= 0;
      HoldingZero(s.cli, s.cli[i].fd);
    }
  }

  lemma {:induction false} UsedSlot(cli: seq<Slot>)
    requires InUse(cli) > 0
    ensures exists i :: 0 <= i < |cli| && cli[i].fd >= 0
  {
    var n := |cli| - 1;
    if cli[n].fd < 0 {
      UsedSlot(cli[..n]);
      var i :| 0 <= i < n && cli[..n][i].fd >= 0;
      assert cli[i].fd >= 0;
    }
  }

  lemma {:induction false} StaleRequestBreaks(s: State, fd: nat)
    requires Balanced(s) && FindFd(s.cli, fd) < 0
    ensures !Balanced(Step(s, RxUdpFail(fd)))
  {
    hide Times, InUse, Holding, FindFd;
    var s' := Step(s, RxUdpFail(fd));
    TimesStep(s.log, Closed(fd), fd);
    assert s'.cli == s.cli;
    assert BalancedAt(s, fd) && !BalancedAt(s', fd);
  }

  /** A step keeps descriptors distinct, open while stored and closed once, exactly under the provisos. */
  lemma {:induction false} StepBalanced(s: State, e: Event)
    requires Balanced(s) && Enabled(s, e)
    ensures Balanced(Step(s, e)) <==> Safe(s, e)
  {
    StepKeepers(s, e);
    if Safe(s, e) {
      StepCounted(s, e);
      forall fd: nat ensures BalancedAt(Step(s, e), fd) {
        StepBalancedAt(s, e, fd);
      }
    } else if e.AtInit? {
      if Balanced(Step(s, e)) {
        InitLeaks(s);
      }
    } else {
      StaleRequestBreaks(s, e.fd);
    }
    hide Step, Counted, BalancedAt;
  }

  /** A descriptor that leaves the table is closed once in that step, and not opened in it. */
  lemma {:induction false} LeavesClosedOnce(s: State, e: Event, fd: nat)
    requires Balanced(s) && Enabled(s, e) && Safe(s, e)
    requires FindFd(s.cli, fd) >= 0 && FindFd(Step(s, e).cli, fd) < 0
    ensures Times(Step(s, e).log, Closed(fd)) == Times(s.log, Closed(fd)) + 1
    ensures Times(Step(s, e).log, Opened(fd)) == Times(s.log, Opened(fd))
  {
    var s' := Step(s, e);
    StepBalancedAt(s, e, fd);
    HoldingZero(s.cli, fd);
    HoldingZero(s'.cli, fd);
    assert BalancedAt(s, fd);
    StepKeepers(s, e);
    hide Step, FindFd, Holding, Times, Counted;
  }

  /** No two slots share a descriptor. */
  lemma {:induction false} DistinctFds(cli: seq<Slot>, i: nat, j: nat)
    requires i < j < |cli| && cli[i].fd == cli[j].fd
    ensures Holding(cli, cli[i].fd) >= 2
  {
    var fd := cli[i].fd;
    SlotSet(cli, i, Vacant, fd);
    SlotSet(cli, i, Slot(if fd == -1 then 0 else -1, false, false, false), fd);
    var c := cli[i := Slot(if fd == -1 then 0 else -1, false, false, false)];
    HoldingZero(c, fd);
    assert c[j].fd == fd;
  }

  // ---------------------------------------------------------------- runs

  function Start(): State { State(seq(MAX_CLIENT_NUM, _ => Vacant), 0, -1, false, false, -1, []) }

  ghost predicate Run(s: State, es: seq<Event>, r: State)
    decreases |es|
  {
    if es == [] then r == s
    else |s.cli| == MAX_CLIENT_NUM && Enabled(s, es[0]) && Run(Step(s, es[0]), es[1..], r)
  }

  ghost predicate SafeRun(s: State, es: seq<Event>)
    decreases |es|
  {
    es != [] ==> |s.cli| == MAX_CLIENT_NUM && Safe(s, es[0]) && SafeRun(Step(s, es[0]), es[1..])
  }

  /** Over every interleaving cli_num is the number of slots in use, and at most the table's size. */
  lemma {:induction false} RunCounted(s: State, es: seq<Event>, r: State)
    requires Counted(s) && Run(s, es, r)
    ensures Counted(r) && r.num <= MAX_CLIENT_NUM
    decreases |es|
  {
    hide Step, Enabled, Counted;
    if es == [] {
      AllocExact(s);
    } else {
      StepCounted(s, es[0]);
      RunCounted(Step(s, es[0]), es[1..], r);
    }
  }

  /** Over every interleaving that meets the provisos stored descriptors are distinct, and each is open
      exactly while one place keeps it. */
  lemma {:induction false} RunBalanced(s: State, es: seq<Event>, r: State)
    requires Balanced(s) && Run(s, es, r) && SafeRun(s, es)
    ensures Balanced(r)
    ensures forall i, j :: 0 <= i < j < |r.cli| && r.cli[i].fd >= 0 ==> r.cli[i].fd != r.cli[j].fd
    decreases |es|
  {
    hide Step, Enabled, Counted, BalancedAt, Safe;
    if es == [] {
      forall i, j | 0 <= i < j < |r.cli| && r.cli[i].fd >= 0 ensures r.cli[i].fd != r.cli[j].fd {
        if r.cli[i].fd == r.cli[j].fd {
          DistinctFds(r.cli, i, j);
          KeptOnce(r, r.cli[i].fd);
        }
      }
    } else {
      StepBalanced(s, es[0]);
      RunBalanced(Step(s, es[0]), es[1..], r);
    }
  }

  lemma {:induction false} KeptOnce(s: State, fd: nat)
    requires Balanced(s)
    ensures Holding(s.cli, fd) <= 1
  {
    assert BalancedAt(s, fd);
    hide Holding, Times, Counted;
  }

  lemma {:induction false} StartBalanced()
    ensures Balanced(Start())
  {
    forall fd: nat ensures InUse(Start().cli) == 0 && Holding(Start().cli, fd) == 0 {
      VacantTable(MAX_CLIENT_NUM, fd);
    }
    assert Holding(Start().cli, 0) == 0;
    hide InUse, Holding;
  }

  /** From the empty table, every interleaving keeps the count, and every one that meets the provisos
      also keeps the descriptors. */
  lemma RunFromStart(es: seq<Event>, r: State)
    requires Run(Start(), es, r)
    ensures Counted(r) && r.num <= MAX_CLIENT_NUM && (Alloc(r) < 0 <==> InUse(r.cli) == MAX_CLIENT_NUM)
    ensures SafeRun(Start(), es) ==>
              && Balanced(r)
              && forall i, j :: 0 <= i < j < |r.cli| && r.cli[i].fd >= 0 ==> r.cli[i].fd != r.cli[j].fd
  {
    hide Start, Run, SafeRun, Counted, Alloc, InUse, BalancedAt;
    StartBalanced();
    RunCounted(Start(), es, r);
    AllocExact(r);
    if SafeRun(Start(), es) {
      RunBalanced(Start(), es, r);
    }
  }

  // ---------------------------------------------------------------- the tasks' code

  class Table {
    const cli: array<Slot>
    var num: int
    var srv: int
    var srvStop: bool
    var quit: bool
    var held: int
    var log: seq<Trace>

    predicate Valid() reads this { cli.Length == MAX_CLIENT_NUM }

    function View(): State
      reads this, cli
    {
      State(cli[..], num, srv, srvStop, quit, held, log)
    }

    constructor ()
      ensures Valid() && fresh(cli) && View() == Start()
    {
      cli := new Slot[MAX_CLIENT_NUM](_ => Vacant);
      num, srv, srvStop, quit, held, log := 0, -1, false, false, -1, [];
      new;
      assert cli[..] == seq(MAX_CLIENT_NUM, _ => Vacant);
    }

    /** cip_info_cli_alloc. */
    method AllocSlot() returns (i: int)
      requires Valid()
      ensures i == Alloc(View())
    {
      if num >= MAX_CLIENT_NUM {
        return -1;
      }
      i := 0;
      assert cli[0..] == cli[..];
      while i < cli.Length
        invariant 0 <= i <= cli.Length
        invariant FirstVacant(cli[..]) == if FirstVacant(cli[i..]) < 0 then -1 else i + FirstVacant(cli[i..])
      {
        assert cli[i..][1..] == cli[i + 1..];
        if cli[i].fd < 0 {
          return i;
        }
        i := i + 1;
      }
      return -1;
    }

    /** cip_info_cli_find. */
    method Find(fd: int) returns (i: int)
      requires Valid()
      ensures i == FindFd(cli[..], fd)
    {
      i := 0;
      assert cli[0..] == cli[..];
      while i < cli.Length
        invariant 0 <= i <= cli.Length
        invariant FindFd(cli[..], fd) == if FindFd(cli[i..], fd) < 0 then -1 else i + FindFd(cli[i..], fd)
      {
        assert cli[i..][1..] == cli[i + 1..];
        if cli[i].fd == fd {
          return i;
        }
        i := i + 1;
      }
      return -1;
    }

    /** cip_info_cli_store, and the close that follows when it fails. */
    method Store(fd: int, tcp: bool, server: bool)
      requires Valid()
      modifies this`num, this`log, cli
      ensures Valid() && View() == StoreOrClose(old(View()), fd, tcp, server)
    {
      var i := AllocSlot();
      if i < 0 || fd < 0 {
        log := log + [Closed(fd)];
      } else {
        cli[i] := Slot(fd, tcp, server, false);
        num := num + 1;
      }
    }

    /** cip_info_cli_free. */
    method Free(i: int)
      requires Valid()
      modifies this`num, cli
      ensures Valid() && View() == FreeSlot(old(View()), i)
    {
      if i >= 0 && i < MAX_CLIENT_NUM {
        if cli[i].fd != -1 {
          cli[i] := Vacant;
          num := num - 1;
        }
      }
    }

    method ReleaseSlot(i: nat)
      requires Valid() && i < MAX_CLIENT_NUM
      modifies this`num, this`log, cli
      ensures Valid() && View() == Release(old(View()), i)
    {
      if cli[i].fd >= 0 {
        var fd := cli[i].fd;
        Free(i);
        log := log + [Closed(fd)];
      }
    }

    /** The loops that empty the table. */
    method ReleaseAll(serversOnly: bool)
      requires Valid()
      modifies this`num, this`log, cli
      ensures Valid() && View() == ReleaseFrom(old(View()), 0, serversOnly)
    {
      hide Release;
      var i := 0;
      while i < MAX_CLIENT_NUM
        invariant 0 <= i <= MAX_CLIENT_NUM && Valid()
        invariant ReleaseFrom(View(), i, serversOnly) == ReleaseFrom(old(View()), 0, serversOnly)
      {
        if !serversOnly || cli[i].server {
          ReleaseSlot(i);
        }
        i := i + 1;
      }
    }

    method CloseSrv()
      requires Valid()
      modifies this`srv, this`log
      ensures Valid() && View() == CloseServer(old(View()))
    {
      if srv >= 0 {
        var fd := srv;
        srv := -1;
        log := log + [Closed(fd)];
      }
    }

    /** The scan of at_cip_close: the slot of fd, and how many slots are in use. */
    method Scan(fd: int) returns (found: int, active: nat)
      requires Valid()
      ensures found == LastFd(cli[..], fd) && active == InUse(cli[..])
    {
      found, active := -1, 0;
      var i := 0;
      while i < MAX_CLIENT_NUM
        invariant 0 <= i <= MAX_CLIENT_NUM
        invariant found == LastFd(cli[..i], fd) && active == InUse(cli[..i])
      {
        assert cli[..i + 1][..i] == cli[..i];
        if fd == cli[i].fd {
          found := i;
        }
        if cli[i].fd > -1 {
          active := active + 1;
        }
        i := i + 1;
      }
      assert cli[..i] == cli[..];
    }

    /** at_cip_close, up to the wait for the receive task. */
    method CipClose(fd: int) returns (ok: bool)
      requires Valid()
      modifies this`quit, cli
      ensures Valid() && View() == CloseCommand(old(View()), fd)
      ensures ok <==> fd >= 0 && fd != srv && FindFd(old(cli[..]), fd) >= 0
    {
      hide InUse, LastFd, FindFd;
      if fd < 0 || fd == srv {
        return false;
      }
      var found, active := Scan(fd);
      if found == -1 {
        return false;
      }
      if srv != -1 {
        active := active + 1;
      }
      if active > 1 {
        cli[found] := cli[found].(stop := true);
      } else {
        quit := true;
      }
      return true;
    }

    /** tcp_server_stop, up to the wait for the receive task. */
    method TcpServerStop()
      requires Valid()
      modifies this`srvStop, this`quit
      ensures Valid() && View() == ServerStop(old(View()))
    {
      var i, active := 0, false;
      ghost var s := cli[..];
      while i < MAX_CLIENT_NUM && !active
        invariant 0 <= i <= MAX_CLIENT_NUM
        invariant active ==> exists j :: 0 <= j < |s| && Outgoing(s[j])
        invariant !active ==> forall j :: 0 <= j < i ==> !Outgoing(s[j])
      {
        assert s[i] == cli[i];
        if Outgoing(cli[i]) {
          active := true;
        }
        i := i + 1;
      }
      if srv >= 0 {
        if active {
          srvStop := true;
        } else {
          quit := true;
        }
      }
    }

    /** cip_info_init. */
    method InfoInit()
      requires Valid()
      modifies this`num, this`srv, this`srvStop, this`quit, cli
      ensures Valid() && View() == Init(old(View()))
    {
      quit, num, srv, srvStop := false, 0, -1, false;
      var i := 0;
      while i < MAX_CLIENT_NUM
        invariant 0 <= i <= MAX_CLIENT_NUM
        invariant !quit && num == 0 && srv == -1 && !srvStop
        invariant forall j :: 0 <= j < i ==> cli[j] == Vacant
      {
        cli[i] := Vacant;
        i := i + 1;
      }
      assert cli[..] == seq(MAX_CLIENT_NUM, _ => Vacant);
    }

    /** The receive task takes a connection from the listening socket. */
    method Accept(fd: int)
      requires Valid()
      modifies this`num, this`log, cli
      ensures Valid() && View() == Step(old(View()), RxAccept(fd))
    {
      hide StoreOrClose;
      if num < MAX_CLIENT_NUM {
        log := log + [Opened(fd)];
        Store(fd, true, true);
      }
    }

    /** A queued send failed: a TCP client is dropped if the table still has it, a UDP descriptor is
        closed whether or not it does. */
    method SendFailed(fd: int, udp: bool)
      requires Valid()
      modifies this`num, this`log, cli
      ensures Valid() && View() == Step(old(View()), if udp then RxUdpFail(fd) else RxTcpFail(fd))
    {
      hide FindFd;
      var i := Find(fd);
      if udp || (i != -1 && !cli[i].server) {
        Free(i);
        log := log + [Closed(fd)];
      }
    }

    /** The end of a client start: the descriptor moves into the table, or is closed. */
    method FinishStart(connected: bool, tcp: bool)
      requires Valid()
      modifies this`num, this`log, this`held, cli
      ensures Valid() && View() == Step(old(View()), if connected then AtStore(tcp) else AtAbandon)
    {
      hide StoreOrClose;
      if connected {
        Store(held, tcp, false);
      } else {
        log := log + [Closed(held)];
      }
      held := -1;
    }

    /** cip_info_reset. */
    method Reset()
      requires Valid()
      modifies this`num, this`log, this`srv, this`quit, cli
      ensures Valid() && View() == Step(old(View()), AtReset)
    {
      hide ReleaseFrom, CloseServer;
      ReleaseAll(false);
      CloseSrv();
      quit := true;
    }

    /** A descriptor for a client that is being connected. */
    method StartClient(fd: int)
      requires Valid()
      modifies this`held, this`log
      ensures Valid() && View() == Step(old(View()), AtOpen(fd))
    {
      held := fd;
      log := log + [Opened(fd)];
    }

    /** tcp_server_start. */
    method Listen(fd: int)
      requires Valid()
      modifies this`srv, this`srvStop, this`log
      ensures Valid() && View() == Step(old(View()), AtListen(fd))
    {
      srv, srvStop := fd, false;
      log := log + [Opened(fd)];
    }

    /** The receive task stops the server and its clients. */
    method StopServer()
      requires Valid()
      modifies this`num, this`log, this`srv, cli
      ensures Valid() && View() == Step(old(View()), RxStopServer)
    {
      hide ReleaseFrom, CloseServer;
      ReleaseAll(true);
      CloseSrv();
    }

    /** The end of the receive task. */
    method ExitTask()
      requires Valid()
      modifies this`num, this`log, this`srv, cli
      ensures Valid() && View() == Step(old(View()), RxExit)
    {
      hide ReleaseFrom, CloseServer;
      ReleaseAll(false);
      CloseSrv();
    }

    /** A receive error, a remote close, an exception or a stop flag on a slot. */
    method Drop(i: nat)
      requires Valid()
      modifies this`num, this`log, cli
      ensures Valid() && View() == Step(old(View()), RxDrop(i))
    {
      hide Release;
      if i < MAX_CLIENT_NUM {
        ReleaseSlot(i);
      }
    }
  }

  lemma {:induction false} RunAppend(s: State, es: seq<Event>, r: State, e: Event)
    requires Run(s, es, r) && |r.cli| == MAX_CLIENT_NUM && Enabled(r, e)
    ensures Run(s, es + [e], Step(r, e))
    decreases |es|
  {
    hide Step, Enabled;
    if es == [] {
      assert [] + [e] == [e] && [e][1..] == [];
    } else {
      RunAppend(Step(s, es[0]), es[1..], r, e);
      assert (es + [e])[0] == es[0] && (es + [e])[1..] == es[1..] + [e];
    }
  }

  /** The two tasks at work on one table, with the history of their steps. */
  class Tasks {
    const table: Table
    ghost var es: seq<Event>

    ghost predicate Valid()
      reads this, table, table.cli
    {
      table.Valid() && Run(Start(), es, table.View())
    }

    constructor ()
      ensures Valid() && fresh(table) && fresh(table.cli) && es == []
    {
      table := new Table();
      es := [];
    }

    /** One atomic step of either task.  The history grows by it; the count is right and allocation
        exact, and while the provisos have been met stored descriptors are distinct and each is open
        exactly while one place keeps it. */
    method Perform(e: Event)
      requires Valid() && Enabled(table.View(), e)
      modifies this`es, table, table.cli
      ensures Valid() && es == old(es) + [e] && table.View() == Step(old(table.View()), e)
      ensures Counted(table.View()) && (Alloc(table.View()) < 0 <==> InUse(table.View().cli) == MAX_CLIENT_NUM)
      ensures SafeRun(Start(), es) ==> Balanced(table.View())
    {
      hide Step, Enabled, Run, SafeRun, Start, Counted, Balanced, Alloc, InUse;
      RunAppend(Start(), es, table.View(), e);
      Act(e);
      es := es + [e];
      RunFromStart(es, table.View());
    }

    method Act(e: Event)
      requires table.Valid()
      modifies table, table.cli
      ensures table.Valid() && table.View() == Step(old(table.View()), e)
    {
      hide StoreOrClose, FreeSlot, Release, ReleaseFrom, CloseServer, ServerStop, CloseCommand, FindFd;
      match e
      case AtOpen(fd) => table.StartClient(fd);
      case AtStore(tcp) => table.FinishStart(true, tcp);
      case AtAbandon => table.FinishStart(false, false);
      case AtListen(fd) => table.Listen(fd);
      case AtServerStop => table.TcpServerStop();
      case AtClose(fd) => var ok := table.CipClose(fd);
      case AtReset => table.Reset();
      case AtInit => table.InfoInit();
      case RxStart => table.quit := false;
      case RxStopServer => table.StopServer();
      case RxAccept(fd) => table.Accept(fd);
      case RxTcpFail(fd) => table.SendFailed(fd, false);
      case RxUdpFail(fd) => table.SendFailed(fd, true);
      case RxDrop(i) => table.Drop(i);
      case RxExit => table.ExitTask();
    }
  }
}
