/** What each event does to the client table, slot by slot: whose slot is taken, given back or marked, and
    which descriptors are closed, in which order. */
module ClientSlots {
  import opened ClientTable

  /** The descriptors in use, in slot order. */
  function AllFds(cli: seq<Slot>): seq<int> {
    if cli == [] then [] else (if cli[0].fd >= 0 then [cli[0].fd] else []) + AllFds(cli[1..])
  }

  /** Those of accepted clients. */
  function AcceptedFds(cli: seq<Slot>): seq<int> {
    if cli == [] then []
    else (if cli[0].fd >= 0 && cli[0].server then [cli[0].fd] else []) + AcceptedFds(cli[1..])
  }

  function Closes(fds: seq<int>): (t: seq<Trace>)
    ensures |t| == |fds|
  {
    seq(|fds|, k requires 0 <= k < |fds| => Closed(fds[k]))
  }

  // ---------------------------------------------------------------- sweeps

  ghost predicate Swept(s: State, r: State, i: nat, serversOnly: bool) {
    && |r.cli| == |s.cli| && i <= |s.cli|
    && (forall k :: 0 <= k < i ==> r.cli[k] == s.cli[k])
    && (forall k :: i <= k < |s.cli| ==>
          r.cli[k] == if s.cli[k].fd >= 0 && (serversOnly ==> s.cli[k].server) then Vacant else s.cli[k])
    && r.log == s.log + Closes(if serversOnly then AcceptedFds(s.cli[i..]) else AllFds(s.cli[i..]))
  }

  lemma {:induction false} ReleaseSlots(s: State, i: nat, serversOnly: bool)
    requires i <= |s.cli|
    ensures Swept(s, ReleaseFrom(s, i, serversOnly), i, serversOnly)
    decreases |s.cli| - i
  {
    if i < |s.cli| {
      var taken := s.cli[i].fd >= 0 && (serversOnly ==> s.cli[i].server);
      var s' := if serversOnly && !s.cli[i].server then s else Release(s, i);
      ReleaseOne(s, i, taken);
      ReleaseSlots(s', i + 1, serversOnly);
      SweptFirst(s, s', ReleaseFrom(s', i + 1, serversOnly), i, serversOnly);
    } else {
      assert s.cli[i..] == [] && s.log + [] == s.log;
    }
  }

  lemma {:induction false} ReleaseOne(s: State, i: nat, taken: bool)
    requires i < |s.cli|
    ensures taken && s.cli[i].fd >= 0 ==>
              Release(s, i).cli == s.cli[i := Vacant] && Release(s, i).log == s.log + [Closed(s.cli[i].fd)]
    ensures s.cli[i].fd < 0 ==> Release(s, i) == s
  {
  }

  lemma {:induction false} SweptFirst(s: State, s': State, r: State, i: nat, serversOnly: bool)
    requires i < |s.cli| == |s'.cli| && Swept(s', r, i + 1, serversOnly)
    requires if s.cli[i].fd >= 0 && (serversOnly ==> s.cli[i].server)
             then s'.cli == s.cli[i := Vacant] && s'.log == s.log + [Closed(s.cli[i].fd)]
             else s'.cli == s.cli && s'.log == s.log
    ensures Swept(s, r, i, serversOnly)
  {
    assert s'.cli[i + 1..] == s.cli[i + 1..] == s.cli[i..][1..] && s.cli[i..][0] == s.cli[i];
    var fd, rest := s.cli[i].fd, if serversOnly then AcceptedFds(s.cli[i + 1..]) else AllFds(s.cli[i + 1..]);
    assert Closes([fd] + rest) == [Closed(fd)] + Closes(rest);
    assert s.log + [Closed(fd)] + Closes(rest) == s.log + ([Closed(fd)] + Closes(rest));
    assert [] + rest == rest;
  }

  lemma {:induction false} Sweep(s: State, serversOnly: bool)
    requires |s.cli| == MAX_CLIENT_NUM
    ensures Swept(s, ReleaseFrom(s, 0, serversOnly), 0, serversOnly)
    ensures s.cli[0..] == s.cli
  {
    ReleaseSlots(s, 0, serversOnly);
  }

  /** What closing the server's descriptor adds to the trail. */
  function ServerClose(s: State): seq<Trace> { if s.srv >= 0 then [Closed(s.srv)] else [] }

  /** Stopping the server gives up the slots of accepted clients and no others; their descriptors are
      closed in slot order, then the server's. */
  lemma {:induction false} StopServerSlots(s: State)
    requires |s.cli| == MAX_CLIENT_NUM
    ensures var r := Step(s, RxStopServer);
            && |r.cli| == 9
            && (forall k :: 0 <= k < 9 ==>
                  r.cli[k] == if s.cli[k].server && s.cli[k].fd >= 0 then Slot(-1, false, false, false) else s.cli[k])
            && r.log == s.log + (Closes(AcceptedFds(s.cli)) + ServerClose(s))
            && r.srv < 0 && r.quit == s.quit && r.srvStop == s.srvStop && r.held == s.held
  {
    hide ReleaseFrom, AcceptedFds;
    Sweep(s, true);
  }

  /** A reset and the end of the receive task leave an empty table and no server; every descriptor is
      closed, in slot order, then the server's.  Only a reset asks the task to stop. */
  lemma {:induction false} EmptiedSlots(s: State)
    requires |s.cli| == MAX_CLIENT_NUM
    ensures var r := Step(s, AtReset);
            && |r.cli| == 9 && (forall k :: 0 <= k < 9 ==> r.cli[k].fd < 0)
            && (forall k :: 0 <= k < 9 && s.cli[k].fd >= 0 ==> r.cli[k] == Slot(-1, false, false, false))
            && r.log == s.log + (Closes(AllFds(s.cli)) + ServerClose(s))
            && r.srv < 0 && r.quit && r.srvStop == s.srvStop && r.held == s.held
            && Step(s, RxExit) == r.(quit := s.quit)
  {
    hide ReleaseFrom, AllFds;
    Sweep(s, false);
  }

  /** So in a counted table nothing is left after them, and after stopping the server only outgoing
      clients are. */
  lemma {:induction false} EmptiedCount(s: State)
    requires Counted(s)
    ensures Step(s, AtReset).num == 0 && Step(s, RxExit).num == 0
    ensures forall k :: 0 <= k < 9 && Step(s, RxStopServer).cli[k].fd >= 0 ==> !s.cli[k].server
  {
    EmptiedSlots(s);
    StopServerSlots(s);
    StepCounted(s, AtReset);
    StepCounted(s, RxExit);
    hide Step;
    NoneInUse(Step(s, AtReset).cli);
  }

  lemma {:induction false} NoneInUse(cli: seq<Slot>)
    requires forall k :: 0 <= k < |cli| ==> cli[k].fd < 0
    ensures InUse(cli) == 0
  {
    if cli != [] {
      NoneInUse(cli[..|cli| - 1]);
    }
  }

  /** AT starts from a table of vacant slots, whatever it held; no descriptor is closed. */
  lemma {:induction false} InitSlots(s: State)
    requires |s.cli| == MAX_CLIENT_NUM
    ensures var r := Step(s, AtInit);
            && |r.cli| == 9 && (forall k :: 0 <= k < 9 ==> r.cli[k] == Slot(-1, false, false, false))
            && r.num == 0 && r.srv == -1 && !r.srvStop && !r.quit && r.held == s.held && r.log == s.log
  {
  }

  // ---------------------------------------------------------------- commands

  /** Closing client fd: an error, which changes nothing, if fd is negative, the server's or not in the
      table; otherwise its slot k alone is marked if there is another client or a server, and the task
      is asked to stop if there is not. */
  lemma {:induction false} CloseSlots(s: State, fd: int)
    requires Counted(s)
    ensures fd < 0 || fd == s.srv || (forall j :: 0 <= j < 9 ==> s.cli[j].fd != fd) ==> Step(s, AtClose(fd)) == s
    ensures forall k :: fd >= 0 && fd != s.srv
                        && 0 <= k < 9 && s.cli[k].fd == fd && (forall j :: k < j < 9 ==> s.cli[j].fd != fd) ==>
              var r := Step(s, AtClose(fd));
              if s.srv != -1 || (exists j :: 0 <= j < 9 && j != k && s.cli[j].fd >= 0)
              then
                && |r.cli| == 9 && r.cli[k] == s.cli[k].(stop := true)
                && (forall j :: 0 <= j < 9 && j != k ==> r.cli[j] == s.cli[j])
                && r == s.(cli := r.cli)
              else r == s.(quit := true)
  {
    hide Counted, InUse, LastFd;
    var i := LastFd(s.cli, fd);
    SizeOf(s);
    if fd >= 0 && i >= 0 {
      LastIs(s.cli, fd);
      OthersInUse(s.cli, i);
      forall k | 0 <= k < 9 && s.cli[k].fd == fd && (forall j :: k < j < 9 ==> s.cli[j].fd != fd) ensures k == i {
        assert s.cli[i].fd == fd;
      }
    }
  }

  lemma {:induction false} SizeOf(s: State)
    requires Counted(s)
    ensures |s.cli| == 9
  {
  }

  lemma {:induction false} LastIs(cli: seq<Slot>, fd: int)
    ensures forall k :: LastFd(cli, fd) < k < |cli| && k >= 0 ==> cli[k].fd != fd
  {
    if cli != [] {
      LastIs(cli[..|cli| - 1], fd);
      assert forall k :: 0 <= k < |cli| - 1 ==> cli[..|cli| - 1][k] == cli[k];
    }
  }

  lemma {:induction false} OthersInUse(cli: seq<Slot>, i: nat)
    requires i < |cli| && cli[i].fd >= 0
    ensures InUse(cli) >= 1
    ensures InUse(cli) > 1 <==> exists j :: 0 <= j < |cli| && j != i && cli[j].fd >= 0
  {
    SlotSet(cli, i, Vacant, 0);
    var c := cli[i := Vacant];
    hide InUse;
    if InUse(c) > 0 {
      UsedSlot(c);
      var j :| 0 <= j < |c| && c[j].fd >= 0;
      assert cli[j].fd >= 0;
    } else if exists j :: 0 <= j < |cli| && j != i && cli[j].fd >= 0 {
      var j :| 0 <= j < |cli| && j != i && cli[j].fd >= 0;
      NoneUsed(c, j);
    }
  }

  lemma {:induction false} NoneUsed(cli: seq<Slot>, j: nat)
    requires j < |cli| && cli[j].fd >= 0
    ensures InUse(cli) > 0
  {
    if j < |cli| - 1 {
      NoneUsed(cli[..|cli| - 1], j);
    }
  }

  /** Stopping the server asks the receive task to do it while an outgoing client is in use, and asks the
      task itself to stop when none is; without a server nothing happens. */
  lemma {:induction false} ServerStopAsks(s: State)
    requires |s.cli| == MAX_CLIENT_NUM
    ensures s.srv < 0 ==> Step(s, AtServerStop) == s
    ensures s.srv >= 0 && (exists k :: 0 <= k < 9 && s.cli[k].fd >= 0 && !s.cli[k].server) ==>
              Step(s, AtServerStop) == s.(srvStop := true)
    ensures s.srv >= 0 && (forall k :: 0 <= k < 9 ==> s.cli[k].fd < 0 || s.cli[k].server) ==>
              Step(s, AtServerStop) == s.(quit := true)
  {
    if s.srv >= 0 {
      if k :| 0 <= k < 9 && s.cli[k].fd >= 0 && !s.cli[k].server {
        assert Outgoing(s.cli[k]);
      }
    }
  }

  /** The first slot that is vacant. */
  predicate FirstFree(cli: seq<Slot>, k: nat) {
    k < |cli| && cli[k].fd < 0 && forall j :: 0 <= j < k ==> cli[j].fd >= 0
  }

  /** The first slot that holds fd. */
  predicate FirstWith(cli: seq<Slot>, fd: int, k: nat) {
    k < |cli| && cli[k].fd == fd && forall j :: 0 <= j < k ==> cli[j].fd != fd
  }

  lemma {:induction false} StoreSlots(s: State, fd: int, tcp: bool, server: bool)
    requires Counted(s) && fd >= 0
    ensures var r := StoreOrClose(s, fd, tcp, server);
            && (forall k: nat :: FirstFree(s.cli, k) ==>
                  r == s.(cli := s.cli[k := Slot(fd, tcp, server, false)], num := s.num + 1))
            && ((forall j :: 0 <= j < 9 ==> s.cli[j].fd >= 0) ==> r == s.(log := s.log + [Closed(fd)]))
  {
    AllocExact(s);
    FullExact(s.cli);
    hide InUse, FirstVacant;
    forall k: nat | FirstFree(s.cli, k) ensures Alloc(s) == k {
      assert s.cli[k].fd < 0;
    }
  }

  /** A connected client moves into the first vacant slot as an outgoing one; with the table full its
      descriptor is closed.  A client that could not connect is closed. */
  lemma {:induction false} ClientStored(s: State, tcp: bool)
    requires Counted(s) && s.held >= 0
    ensures var r := Step(s, AtStore(tcp));
            && (forall k: nat :: FirstFree(s.cli, k) ==>
                  r == s.(cli := s.cli[k := Slot(s.held, tcp, false, false)], num := s.num + 1, held := -1))
            && ((forall j :: 0 <= j < 9 ==> s.cli[j].fd >= 0) ==> r == s.(log := s.log + [Closed(s.held)], held := -1))
    ensures Step(s, AtAbandon) == s.(log := s.log + [Closed(s.held)], held := -1)
  {
    StoreSlots(s, s.held, tcp, false);
    hide StoreOrClose, Counted;
  }

  /** A connection is accepted into the first vacant slot as a TCP client of the server; a full table
      leaves it waiting. */
  lemma {:induction false} ClientAccepted(s: State, fd: int)
    requires Counted(s) && fd >= 0
    ensures var r := Step(s, RxAccept(fd));
            && (forall k: nat :: FirstFree(s.cli, k) ==>
                  r == s.(cli := s.cli[k := Slot(fd, true, true, false)], num := s.num + 1,
                          log := s.log + [Opened(fd)]))
            && ((forall j :: 0 <= j < 9 ==> s.cli[j].fd >= 0) ==> r == s)
  {
    AllocExact(s);
    FullExact(s.cli);
    hide InUse;
    StoreSlots(Open(s, fd), fd, true, true);
    hide StoreOrClose;
  }

  // ---------------------------------------------------------------- single slots

  lemma {:induction false} FirstFound(cli: seq<Slot>, fd: int, k: nat)
    requires FirstWith(cli, fd, k)
    ensures FindFd(cli, fd) == k
  {
    var i := FindFd(cli, fd);
    assert i >= 0 ==> cli[i].fd == fd;
  }

  /** A failed TCP send closes an outgoing client and gives up its slot; an accepted client, or one that
      is gone, is left alone. */
  lemma {:induction false} TcpFailSlots(s: State, fd: int)
    requires |s.cli| == MAX_CLIENT_NUM && fd >= 0
    ensures var r := Step(s, RxTcpFail(fd));
            && (forall k: nat :: FirstWith(s.cli, fd, k) ==>
                  r == if s.cli[k].server then s
                       else s.(cli := s.cli[k := Slot(-1, false, false, false)], num := s.num - 1,
                               log := s.log + [Closed(fd)]))
            && ((forall j :: 0 <= j < 9 ==> s.cli[j].fd != fd) ==> r == s)
  {
    hide FindFd;
    forall k: nat | FirstWith(s.cli, fd, k) {
      FirstFound(s.cli, fd, k);
    }
  }

  /** A failed UDP send closes the descriptor in any case, and gives up the slot if there is one. */
  lemma {:induction false} UdpFailSlots(s: State, fd: int)
    requires |s.cli| == MAX_CLIENT_NUM && fd >= 0
    ensures var r := Step(s, RxUdpFail(fd));
            && (forall k: nat :: FirstWith(s.cli, fd, k) ==>
                  r == s.(cli := s.cli[k := Slot(-1, false, false, false)], num := s.num - 1,
                          log := s.log + [Closed(fd)]))
            && ((forall j :: 0 <= j < 9 ==> s.cli[j].fd != fd) ==> r == s.(log := s.log + [Closed(fd)]))
  {
    hide FindFd;
    forall k: nat | FirstWith(s.cli, fd, k) {
      FirstFound(s.cli, fd, k);
    }
  }

  /** Dropping a client touches its slot and no other, and closes its descriptor. */
  lemma {:induction false} DropSlots(s: State, i: nat)
    requires |s.cli| == MAX_CLIENT_NUM
    ensures i < 9 && s.cli[i].fd >= 0 ==>
              Step(s, RxDrop(i)) == s.(cli := s.cli[i := Slot(-1, false, false, false)], num := s.num - 1,
                                       log := s.log + [Closed(s.cli[i].fd)])
    ensures i >= 9 || s.cli[i].fd < 0 ==> Step(s, RxDrop(i)) == s
  {
  }

  /** Descriptors appear where they are opened: a client's in the hands of the AT task, a server's as the
      listening socket, with no stop pending. */
  lemma {:induction false} OpenedWhere(s: State, fd: int)
    requires |s.cli| == MAX_CLIENT_NUM
    ensures Step(s, AtOpen(fd)) == s.(held := fd, log := s.log + [Opened(fd)])
    ensures Step(s, AtListen(fd)) == s.(srv := fd, srvStop := false, log := s.log + [Opened(fd)])
    ensures Step(s, RxStart) == s.(quit := false)
  {
  }
}
