/**
Hand-over of the FUSE descriptor between mount pods (pkg/fuse/passfd.go).

The driver keeps the descriptor of a mount while its pod is replaced. Each request runs in two
phases under the entry's mutex: send the stored descriptor and forget it, then store what came back.
Requests interleave freely between their phases. Descriptor numbers are reused by the kernel, so
ownership is tracked per received instance.
*/
module FdHandover {
  import opened Wrappers

  /** The descriptor table of the process: FUSE descriptors by number, and the numbers others use. */
  datatype Kernel = Kernel(open: map<int, nat>, foreign: set<int>, nextId: nat, closed: multiset<nat>, misclosed: bool)

  function Close(k: Kernel, fd: int): Kernel {
    if fd in k.open then k.(open := k.open - {fd}, closed := k.closed + multiset{k.open[fd]})
    else k.(misclosed := true)
  }

  function CloseAll(k: Kernel, fds: seq<int>): Kernel {
    if fds == [] then k else Close(CloseAll(k, fds[..|fds| - 1]), fds[|fds| - 1])
  }

  /** The entry of one pod hash: `fuseFd`, `fuseSetting`, and the kernel it lives in. */
  datatype Core = Core(fuseFd: int, setting: string, kernel: Kernel)

  /** First phase, when sending succeeded. */
  function Send(c: Core): Core {
    if c.fuseFd > 0 then c.(fuseFd := -1, kernel := Close(c.kernel, c.fuseFd)) else c
  }

  predicate Accepts(c: Core, msg: string, fds: seq<int>) {
    msg != "CLOSE" && c.fuseFd <= 0 && |fds| >= 1
  }

  /** Second phase. */
  function Store(c: Core, msg: string, fds: seq<int>): Core {
    if Accepts(c, msg, fds) then c.(fuseFd := fds[0], setting := msg)
    else c.(kernel := CloseAll(c.kernel, fds))
  }

  /** The same two phases on the mutable entry. */
  class Entry {
    var fuseFd: int
    var fuseSetting: string
    var kernel: Kernel

    ghost function View(): Core
      reads this
    {
      Core(fuseFd, fuseSetting, kernel)
    }

    /** GetFdAddress makes an empty entry. */
    constructor (kernel: Kernel)
      ensures View() == Core(0, "FUSE", kernel)
    {
      fuseFd, fuseSetting := 0, "FUSE";
      this.kernel := kernel;
    }

    method SendPhase(putOk: bool) returns (sent: seq<int>)
      modifies this
      ensures sent == (if old(fuseFd) > 0 then [0, old(fuseFd)] else [0])
      ensures View() == if putOk then Send(old(View())) else old(View())
    {
      sent := [0];
      if fuseFd > 0 {
        sent := sent + [fuseFd];
      }
      if !putOk {
        return;
      }
      if fuseFd > 0 {
        kernel := Close(kernel, fuseFd);
        fuseFd := -1;
      }
    }

    method StorePhase(msg: string, fds: seq<int>)
      modifies this
      ensures View() == Store(old(View()), msg, fds)
    {
      if msg != "CLOSE" && fuseFd <= 0 && |fds| >= 1 {
        fuseFd := fds[0];
        fuseSetting := msg;
      } else {
        var i := 0;
        while i < |fds|
          invariant 0 <= i <= |fds|
          invariant fuseFd == old(fuseFd) && fuseSetting == old(fuseSetting)
          invariant kernel == CloseAll(old(kernel), fds[..i])
        {
          kernel := Close(kernel, fds[i]);
          assert fds[..i + 1][..i] == fds[..i];
          i := i + 1;
        }
        assert fds[..i] == fds;
      }
    }
  }

  // ---------- all interleavings of requests on one entry ----------

  type Tid = nat

  datatype Request = Connected | Waiting | Got(msg: string, fds: seq<int>)

  /**
  History: `msgOf` is the message each instance came with, `last` the instance stored last, and
  `leaked` the numbers that a stored reply carried beyond its first.
  */
  datatype State = State(core: Core, requests: map<Tid, Request>, msgOf: seq<string>, last: Option<nat>, leaked: set<int>)

  datatype Action =
    | Connect(tid: Tid)
    | SendStep(tid: Tid, putOk: bool)
    | Receive(tid: Tid, msg: string, fds: seq<int>)
    | ReceiveFails(tid: Tid)
    | StoreStep(tid: Tid)
    | ForeignOpen(fd: int)
    | ForeignClose(fd: int)

  predicate Distinct(fds: seq<int>) {
    forall i, j | 0 <= i < j < |fds| :: fds[i] != fds[j]
  }

  /** recvmsg installs descriptors under numbers that are free; 0 is taken by stdin. */
  predicate Installable(k: Kernel, fds: seq<int>) {
    Distinct(fds) && forall i | 0 <= i < |fds| :: fds[i] > 0 && fds[i] !in k.open && fds[i] !in k.foreign
  }

  function Install(k: Kernel, fds: seq<int>): Kernel {
    if fds == [] then k
    else
      var k1 := Install(k, fds[..|fds| - 1]);
      k1.(open := k1.open[fds[|fds| - 1] := k1.nextId], nextId := k1.nextId + 1)
  }

  function Next(s: State, a: Action): State {
    match a
    case Connect(tid) => if tid in s.requests then s else s.(requests := s.requests[tid := Connected])
    case SendStep(tid, putOk) =>
      if tid !in s.requests || !s.requests[tid].Connected? then s
      else if !putOk then s.(requests := s.requests - {tid})
      else s.(core := Send(s.core), requests := s.requests[tid := Waiting])
    case Receive(tid, msg, fds) =>
      if tid !in s.requests || !s.requests[tid].Waiting? || !Installable(s.core.kernel, fds) then s
      else
        var k := s.core.kernel;
        s.(core := s.core.(kernel := Install(k, fds)), requests := s.requests[tid := Got(msg, fds)],
           msgOf := s.msgOf + seq(|fds|, _ => msg))
    case ReceiveFails(tid) =>
      if tid !in s.requests || !s.requests[tid].Waiting? then s else s.(requests := s.requests - {tid})
    case StoreStep(tid) =>
      if tid !in s.requests || !s.requests[tid].Got? then s
      else
        var Got(msg, fds) := s.requests[tid];
        var s1 := s.(core := Store(s.core, msg, fds), requests := s.requests - {tid});
        if Accepts(s.core, msg, fds) && fds[0] in s.core.kernel.open
        then s1.(last := Some(s.core.kernel.open[fds[0]]), leaked := s.leaked + (set fd | fd in fds[1..]))
        else s1
    case ForeignOpen(fd) =>
      if fd in s.core.kernel.open then s
      else s.(core := s.core.(kernel := s.core.kernel.(foreign := s.core.kernel.foreign + {fd})))
    case ForeignClose(fd) =>
      s.(core := s.core.(kernel := s.core.kernel.(foreign := s.core.kernel.foreign - {fd})))
  }

  /** GetFdAddress: an empty entry. parseFuse: an entry that already holds descriptor `fd`. */
  function Start(fd: int, setting: string): State {
    if fd > 0
    then State(Core(fd, setting, Kernel(map[fd := 0], {0}, 1, multiset{}, false)), map[], [setting], Some(0), {})
    else State(Core(0, "FUSE", Kernel(map[], {0}, 0, multiset{}, false)), map[], [], None, {})
  }

  function Run(s: State, run: seq<Action>): State
    decreases |run|
  {
    if run == [] then s else Next(Run(s, run[..|run| - 1]), run[|run| - 1])
  }

  // ---------- invariants ----------

  /** Every instance received so far is open under exactly one number, or was closed exactly once. */
  ghost predicate KernelInv(k: Kernel) {
    && !k.misclosed
    && (forall fd | fd in k.open :: k.open[fd] < k.nextId && k.closed[k.open[fd]] == 0)
    && (forall fd, fd' | fd in k.open && fd' in k.open && k.open[fd] == k.open[fd'] :: fd == fd')
    && (forall id: nat | id < k.nextId :: k.closed[id] == 1 || exists fd :: fd in k.open && k.open[fd] == id)
    && (forall id: nat | id >= k.nextId :: k.closed[id] == 0)
    && (forall id: nat :: k.closed[id] <= 1)
  }

  /** Number `fd` is owned by request `tid`. */
  predicate Holds(s: State, tid: Tid, fd: int) {
    tid in s.requests && s.requests[tid].Got? && fd in s.requests[tid].fds
  }

  predicate Stored(s: State, fd: int) {
    fd > 0 && s.core.fuseFd == fd
  }

  /** Open numbers are owned by exactly one of: the entry, one request, the leak. */
  ghost predicate OwnInv(s: State) {
    && (s.core.fuseFd > 0 ==> s.core.fuseFd in s.core.kernel.open)
    && (forall tid, fd | Holds(s, tid, fd) :: fd > 0 && fd in s.core.kernel.open && !Stored(s, fd) && fd !in s.leaked)
    && (forall tid, tid', fd | Holds(s, tid, fd) && Holds(s, tid', fd) :: tid == tid')
    && (forall fd | fd in s.leaked :: fd in s.core.kernel.open && !Stored(s, fd))
    && (forall fd | fd in s.core.kernel.open :: Stored(s, fd) || fd in s.leaked || exists tid :: Holds(s, tid, fd))
    && (forall tid | tid in s.requests && s.requests[tid].Got? :: Distinct(s.requests[tid].fds))
  }

  /** The setting is the message of the descriptor stored last. */
  ghost predicate SettingInv(s: State, initial: string) {
    && |s.msgOf| == s.core.kernel.nextId
    && (s.last.None? ==> s.core.setting == initial && s.core.fuseFd <= 0)
    && (s.last.Some? ==> s.last.value < |s.msgOf| && s.core.setting == s.msgOf[s.last.value])
    && (s.core.fuseFd > 0 ==> s.core.fuseFd in s.core.kernel.open && s.last == Some(s.core.kernel.open[s.core.fuseFd]))
    && (forall tid, fd | Holds(s, tid, fd) && fd in s.core.kernel.open ::
          s.core.kernel.open[fd] < |s.msgOf| && s.msgOf[s.core.kernel.open[fd]] == s.requests[tid].msg)
  }

  lemma CloseInv(k: Kernel, fd: int)
    requires KernelInv(k) && fd in k.open
    ensures KernelInv(Close(k, fd))
  {
    var k' := Close(k, fd);
    forall id: nat | id < k'.nextId
      ensures k'.closed[id] == 1 || exists fd' :: fd' in k'.open && k'.open[fd'] == id
    {
      if k.closed[id] != 1 {
        var fd' :| fd' in k.open && k.open[fd'] == id;
        assert fd' != fd ==> fd' in k'.open;
      }
    }
  }

  lemma {:induction false} CloseAllInv(k: Kernel, fds: seq<int>)
    requires KernelInv(k) && Distinct(fds) && forall i | 0 <= i < |fds| :: fds[i] in k.open
    ensures KernelInv(CloseAll(k, fds))
    ensures forall fd :: fd in CloseAll(k, fds).open <==> fd in k.open && fd !in fds
    ensures forall fd | fd in CloseAll(k, fds).open :: CloseAll(k, fds).open[fd] == k.open[fd]
    ensures CloseAll(k, fds).nextId == k.nextId && CloseAll(k, fds).foreign == k.foreign
    decreases |fds|
  {
    if fds != [] {
      var n := |fds| - 1;
      CloseAllInv(k, fds[..n]);
      assert fds[n] !in fds[..n];
      CloseInv(CloseAll(k, fds[..n]), fds[n]);
      assert fds == fds[..n] + [fds[n]];
    }
  }

  lemma InstallOne(k: Kernel, fd: int)
    requires KernelInv(k) && fd !in k.open
    ensures KernelInv(k.(open := k.open[fd := k.nextId], nextId := k.nextId + 1))
  {
    var k' := k.(open := k.open[fd := k.nextId], nextId := k.nextId + 1);
    assert k'.open[fd] == k.nextId;
    forall id: nat | id < k'.nextId
      ensures k'.closed[id] == 1 || exists fd' :: fd' in k'.open && k'.open[fd'] == id
    {
      if id < k.nextId && k.closed[id] != 1 {
        var fd' :| fd' in k.open && k.open[fd'] == id;
        assert fd' in k'.open && k'.open[fd'] == id;
      }
    }
  }

  lemma {:induction false} InstallShape(k: Kernel, fds: seq<int>)
    requires Installable(k, fds)
    ensures var k' := Install(k, fds);
            && k' == k.(open := k'.open, nextId := k.nextId + |fds|)
            && (forall fd :: fd in k'.open <==> fd in k.open || fd in fds)
            && (forall fd | fd in k.open :: k'.open[fd] == k.open[fd])
            && (forall fd | fd in fds :: k.nextId <= k'.open[fd] < k'.nextId)
    decreases |fds|
  {
    if fds != [] {
      var n := |fds| - 1;
      InstallShape(k, fds[..n]);
      assert fds == fds[..n] + [fds[n]];
      assert fds[n] !in fds[..n] && fds[n] !in k.open;
      assert forall fd :: fd in fds <==> fd in fds[..n] || fd == fds[n];
    }
  }

  lemma {:induction false} InstallInv(k: Kernel, fds: seq<int>)
    requires KernelInv(k) && Installable(k, fds)
    ensures KernelInv(Install(k, fds))
    decreases |fds|
  {
    if fds != [] {
      var n := |fds| - 1;
      InstallInv(k, fds[..n]);
      InstallShape(k, fds[..n]);
      assert fds[n] !in fds[..n];
      InstallOne(Install(k, fds[..n]), fds[n]);
    }
  }

  ghost predicate Inv(s: State, initial: string) {
    KernelInv(s.core.kernel) && OwnInv(s) && SettingInv(s, initial)
  }

  lemma SendKeeps(s: State, tid: Tid, initial: string)
    requires Inv(s, initial) && tid in s.requests && s.requests[tid].Connected?
    ensures Inv(Next(s, SendStep(tid, true)), initial)
  {
    var s' := Next(s, SendStep(tid, true));
    if s.core.fuseFd > 0 {
      CloseInv(s.core.kernel, s.core.fuseFd);
    }
    assert forall t, fd :: Holds(s', t, fd) <==> Holds(s, t, fd);
  }

  lemma ReceiveOwns(s: State, tid: Tid, msg: string, fds: seq<int>, initial: string)
    requires Inv(s, initial) && tid in s.requests && s.requests[tid].Waiting? && Installable(s.core.kernel, fds)
    ensures OwnInv(Next(s, Receive(tid, msg, fds)))
  {
    var s' := Next(s, Receive(tid, msg, fds));
    InstallShape(s.core.kernel, fds);
    forall t, fd | Holds(s', t, fd)
      ensures fd > 0 && fd in s'.core.kernel.open && !Stored(s', fd) && fd !in s'.leaked
      ensures if t == tid then fd in fds && fd !in s.core.kernel.open else Holds(s, t, fd)
    {
      assert t != tid ==> Holds(s, t, fd);
    }
    forall fd | fd in s'.core.kernel.open
      ensures Stored(s', fd) || fd in s'.leaked || exists t :: Holds(s', t, fd)
    {
      if fd in fds {
        assert Holds(s', tid, fd);
      } else if !Stored(s, fd) && fd !in s.leaked {
        var t :| Holds(s, t, fd);
        assert Holds(s', t, fd);
      }
    }
  }

  lemma ReceiveSetting(s: State, tid: Tid, msg: string, fds: seq<int>, initial: string)
    requires Inv(s, initial) && tid in s.requests && s.requests[tid].Waiting? && Installable(s.core.kernel, fds)
    ensures SettingInv(Next(s, Receive(tid, msg, fds)), initial)
  {
    var s' := Next(s, Receive(tid, msg, fds));
    InstallShape(s.core.kernel, fds);
    forall t, fd | Holds(s', t, fd) && fd in s'.core.kernel.open
      ensures s'.core.kernel.open[fd] < |s'.msgOf| && s'.msgOf[s'.core.kernel.open[fd]] == s'.requests[t].msg
    {
      assert t != tid ==> Holds(s, t, fd) && fd in s.core.kernel.open;
    }
  }

  lemma ReceiveKeeps(s: State, tid: Tid, msg: string, fds: seq<int>, initial: string)
    requires Inv(s, initial) && tid in s.requests && s.requests[tid].Waiting? && Installable(s.core.kernel, fds)
    ensures Inv(Next(s, Receive(tid, msg, fds)), initial)
  {
    InstallInv(s.core.kernel, fds);
    ReceiveOwns(s, tid, msg, fds, initial);
    ReceiveSetting(s, tid, msg, fds, initial);
  }

  lemma AcceptKeeps(s: State, tid: Tid, initial: string)
    requires Inv(s, initial) && tid in s.requests && s.requests[tid].Got?
    requires Accepts(s.core, s.requests[tid].msg, s.requests[tid].fds)
    ensures Inv(Next(s, StoreStep(tid)), initial)
  {
    var s' := Next(s, StoreStep(tid));
    var fds := s.requests[tid].fds;
    assert fds == [fds[0]] + fds[1..];
    assert Holds(s, tid, fds[0]);
    forall fd | fd in fds[1..]
      ensures Holds(s, tid, fd) && fd != fds[0]
    {
    }
    forall t, fd | Holds(s', t, fd)
      ensures t != tid && Holds(s, t, fd) && fd !in fds
    {
      if fd in fds {
        assert Holds(s, tid, fd);
      }
    }
    forall fd | fd in s'.core.kernel.open
      ensures Stored(s', fd) || fd in s'.leaked || exists t :: Holds(s', t, fd)
    {
      if fd !in fds && fd !in s.leaked {
        var t :| Holds(s, t, fd);
        assert Holds(s', t, fd);
      }
    }
  }

  lemma RejectOwns(s: State, tid: Tid, initial: string)
    requires Inv(s, initial) && tid in s.requests && s.requests[tid].Got?
    requires !Accepts(s.core, s.requests[tid].msg, s.requests[tid].fds)
    ensures OwnInv(Next(s, StoreStep(tid)))
  {
    var s' := Next(s, StoreStep(tid));
    var fds := s.requests[tid].fds;
    assert forall i | 0 <= i < |fds| :: Holds(s, tid, fds[i]);
    assert forall fd :: fd in fds <==> Holds(s, tid, fd);
    CloseAllInv(s.core.kernel, fds);
    assert forall t, fd :: Holds(s', t, fd) <==> t != tid && Holds(s, t, fd);
    forall fd | fd in s'.core.kernel.open
      ensures Stored(s', fd) || fd in s'.leaked || exists t :: Holds(s', t, fd)
    {
      if !Stored(s, fd) && fd !in s.leaked {
        var t :| Holds(s, t, fd);
        assert Holds(s', t, fd);
      }
    }
  }

  lemma RejectSetting(s: State, tid: Tid, initial: string)
    requires Inv(s, initial) && tid in s.requests && s.requests[tid].Got?
    requires !Accepts(s.core, s.requests[tid].msg, s.requests[tid].fds)
    ensures var s' := Next(s, StoreStep(tid)); SettingInv(s', initial) && KernelInv(s'.core.kernel)
  {
    var s' := Next(s, StoreStep(tid));
    var fds := s.requests[tid].fds;
    assert forall i | 0 <= i < |fds| :: Holds(s, tid, fds[i]);
    CloseAllInv(s.core.kernel, fds);
    forall t, fd | Holds(s', t, fd) && fd in s'.core.kernel.open
      ensures s'.core.kernel.open[fd] < |s'.msgOf| && s'.msgOf[s'.core.kernel.open[fd]] == s'.requests[t].msg
    {
      assert Holds(s, t, fd);
    }
  }

  lemma StoreKeeps(s: State, tid: Tid, initial: string)
    requires Inv(s, initial) && tid in s.requests && s.requests[tid].Got?
    ensures Inv(Next(s, StoreStep(tid)), initial)
  {
    if Accepts(s.core, s.requests[tid].msg, s.requests[tid].fds) {
      AcceptKeeps(s, tid, initial);
    } else {
      RejectOwns(s, tid, initial);
      RejectSetting(s, tid, initial);
    }
  }

  lemma DropKeeps(s: State, tid: Tid, initial: string)
    requires Inv(s, initial) && tid in s.requests && !s.requests[tid].Got?
    ensures Inv(s.(requests := s.requests - {tid}), initial)
  {
    var s' := s.(requests := s.requests - {tid});
    assert forall t, fd :: Holds(s', t, fd) <==> Holds(s, t, fd);
  }

  lemma ConnectKeeps(s: State, tid: Tid, initial: string)
    requires Inv(s, initial) && tid !in s.requests
    ensures Inv(s.(requests := s.requests[tid := Connected]), initial)
  {
    var s' := s.(requests := s.requests[tid := Connected]);
    assert forall t, fd :: Holds(s', t, fd) <==> Holds(s, t, fd);
  }

  lemma ForeignKeeps(s: State, foreign: set<int>, initial: string)
    requires Inv(s, initial)
    ensures Inv(s.(core := s.core.(kernel := s.core.kernel.(foreign := foreign))), initial)
  {
    var s' := s.(core := s.core.(kernel := s.core.kernel.(foreign := foreign)));
    assert KernelInv(s'.core.kernel);
    assert forall t, fd :: Holds(s', t, fd) <==> Holds(s, t, fd);
    assert forall fd :: Stored(s', fd) <==> Stored(s, fd);
  }

  lemma Step(s: State, a: Action, initial: string)
    requires Inv(s, initial)
    ensures Inv(Next(s, a), initial)
  {
    match a
    case Connect(tid) => if tid !in s.requests { ConnectKeeps(s, tid, initial); }
    case SendStep(tid, putOk) =>
      if tid in s.requests && s.requests[tid].Connected? {
        if putOk { SendKeeps(s, tid, initial); } else { DropKeeps(s, tid, initial); }
      }
    case Receive(tid, msg, fds) =>
      if tid in s.requests && s.requests[tid].Waiting? && Installable(s.core.kernel, fds) {
        ReceiveKeeps(s, tid, msg, fds, initial);
      }
    case ReceiveFails(tid) => if tid in s.requests && s.requests[tid].Waiting? { DropKeeps(s, tid, initial); }
    case StoreStep(tid) => if tid in s.requests && s.requests[tid].Got? { StoreKeeps(s, tid, initial); }
    case ForeignOpen(fd) => ForeignKeeps(s, s.core.kernel.foreign + {fd}, initial);
    case ForeignClose(fd) => ForeignKeeps(s, s.core.kernel.foreign - {fd}, initial);
  }

  lemma {:induction false} Reachable(fd: int, setting: string, run: seq<Action>)
    ensures Inv(Run(Start(fd, setting), run), if fd > 0 then setting else "FUSE")
    decreases |run|
  {
    if run != [] {
      Reachable(fd, setting, run[..|run| - 1]);
      Step(Run(Start(fd, setting), run[..|run| - 1]), run[|run| - 1], if fd > 0 then setting else "FUSE");
    }
  }

  // ---------- the promises ----------

  /** Instance `id` is the stored descriptor. */
  predicate IsStored(s: State, id: nat) {
    s.core.fuseFd > 0 && s.core.fuseFd in s.core.kernel.open && s.core.kernel.open[s.core.fuseFd] == id
  }

  /** Instance `id` has arrived with a request that has not decided about it yet. */
  ghost predicate IsInFlight(s: State, id: nat) {
    exists tid, fd :: Holds(s, tid, fd) && fd in s.core.kernel.open && s.core.kernel.open[fd] == id
  }

  ghost predicate IsLeaked(s: State, id: nat) {
    exists fd :: fd in s.leaked && fd in s.core.kernel.open && s.core.kernel.open[fd] == id
  }

  /**
  Linear ownership in every interleaving: a received descriptor is stored, in flight or leaked and
  then was never closed, or none of these and then was closed exactly once; no close ever hits a
  number the entry does not own.
  */
  lemma EveryDescriptorAccounted(fd: int, setting: string, run: seq<Action>, id: nat)
    requires id < Run(Start(fd, setting), run).core.kernel.nextId
    ensures var s := Run(Start(fd, setting), run);
            && !s.core.kernel.misclosed
            && s.core.kernel.closed[id] == (if IsStored(s, id) || IsInFlight(s, id) || IsLeaked(s, id) then 0 else 1)
  {
    var s := Run(Start(fd, setting), run);
    Reachable(fd, setting, run);
    if s.core.kernel.closed[id] != 1 {
      var n :| n in s.core.kernel.open && s.core.kernel.open[n] == id;
      if !Stored(s, n) && n !in s.leaked {
        var tid :| Holds(s, tid, n);
      }
    }
  }

  /** The replies carry at most one descriptor. */
  predicate SingleReply(a: Action) {
    a.Receive? ==> |a.fds| <= 1
  }

  /** Besides what is in flight, the server then holds at most the stored descriptor, and nothing leaks. */
  lemma {:induction false} AtMostOneHeld(fd: int, setting: string, run: seq<Action>)
    requires forall i | 0 <= i < |run| :: SingleReply(run[i])
    ensures var s := Run(Start(fd, setting), run);
            && s.leaked == {}
            && (forall n | n in s.core.kernel.open :: Stored(s, n) || exists tid :: Holds(s, tid, n))
            && (forall tid | tid in s.requests && s.requests[tid].Got? :: |s.requests[tid].fds| <= 1)
    decreases |run|
  {
    Reachable(fd, setting, run);
    if run != [] {
      AtMostOneHeld(fd, setting, run[..|run| - 1]);
    }
  }

  lemma LeakStep(s: State, a: Action, initial: string)
    requires Inv(s, initial)
    ensures var s' := Next(s, a);
            && s.leaked <= s'.leaked
            && (s'.leaked != s.leaked <==>
                a.StoreStep? && a.tid in s.requests && s.requests[a.tid].Got? && |s.requests[a.tid].fds| >= 2
                && Accepts(s.core, s.requests[a.tid].msg, s.requests[a.tid].fds))
  {
    if a.StoreStep? && a.tid in s.requests && s.requests[a.tid].Got? {
      var fds := s.requests[a.tid].fds;
      if |fds| >= 1 {
        assert Holds(s, a.tid, fds[0]);
      }
      if |fds| >= 2 {
        assert fds[1] in fds[1..] && Holds(s, a.tid, fds[1]);
      }
    }
  }

  /** Exactly the surplus of an accepted reply leaks, and what leaked is never closed afterwards. */
  lemma SurplusLeaks(fd: int, setting: string, run: seq<Action>, a: Action)
    ensures var s, s' := Run(Start(fd, setting), run), Next(Run(Start(fd, setting), run), a);
            && s.leaked <= s'.leaked <= s'.core.kernel.open.Keys
            && (s'.leaked != s.leaked <==>
                a.StoreStep? && a.tid in s.requests && s.requests[a.tid].Got? && |s.requests[a.tid].fds| >= 2
                && Accepts(s.core, s.requests[a.tid].msg, s.requests[a.tid].fds))
  {
    var s, s' := Run(Start(fd, setting), run), Next(Run(Start(fd, setting), run), a);
    var initial := if fd > 0 then setting else "FUSE";
    Reachable(fd, setting, run);
    Step(s, a, initial);
    LeakStep(s, a, initial);
    assert forall n | n in s'.leaked :: n in s'.core.kernel.open;
  }

  lemma RunSnoc(s: State, run: seq<Action>, a: Action)
    ensures Run(s, run + [a]) == Next(Run(s, run), a)
  {
    assert (run + [a])[..|run|] == run;
  }

  /** One request whose reply carries two descriptors, on an empty entry: the second stays open and unowned. */
  lemma LeakOccurs(msg: string)
    requires msg != "CLOSE"
    ensures var s := Run(Start(0, ""), [Connect(0), SendStep(0, true)] + [Receive(0, msg, [3, 4])] + [StoreStep(0)]);
            s.leaked == {4} && s.core.kernel.open == map[3 := 0, 4 := 1] && s.core.fuseFd == 3 && s.requests == map[]
  {
    var s0 := Start(0, "");
    RunSnoc(s0, [], Connect(0));
    RunSnoc(s0, [Connect(0)], SendStep(0, true));
    assert [] + [Connect(0)] == [Connect(0)] && [Connect(0)] + [SendStep(0, true)] == [Connect(0), SendStep(0, true)];
    var s2 := s0.(requests := map[0 := Waiting]);
    assert Run(s0, [Connect(0), SendStep(0, true)]) == s2;
    RunSnoc(s0, [Connect(0), SendStep(0, true)], Receive(0, msg, [3, 4]));
    RunSnoc(s0, [Connect(0), SendStep(0, true)] + [Receive(0, msg, [3, 4])], StoreStep(0));
    TwoInstalled(s0.core.kernel);
    var s3 := Next(s2, Receive(0, msg, [3, 4]));
    assert s3.requests == map[0 := Got(msg, [3, 4])];
    assert (set fd | fd in [3, 4][1..]) == {4};
  }

  lemma TwoInstalled(k: Kernel)
    requires k.open == map[] && k.foreign == {0} && k.nextId == 0
    ensures Installable(k, [3, 4]) && Install(k, [3, 4]).open == map[3 := 0, 4 := 1]
  {
    assert [3, 4][..1] == [3] && [3][..0] == [];
    assert Install(k, [3]) == k.(open := map[3 := 0], nextId := 1);
  }

  /** The stored setting came with the descriptor stored last; a stored descriptor is that one and is open. */
  lemma SettingBelongsToLast(fd: int, setting: string, run: seq<Action>)
    ensures var s := Run(Start(fd, setting), run);
            && (s.last.Some? ==> s.last.value < |s.msgOf| && s.core.setting == s.msgOf[s.last.value])
            && (s.last.None? ==> s.core.setting == "FUSE" && s.core.fuseFd <= 0)
            && (s.core.fuseFd > 0 ==> s.last.Some? && IsStored(s, s.last.value) && s.core.kernel.closed[s.last.value] == 0)
  {
    Reachable(fd, setting, run);
    if fd > 0 {
      LastStays(fd, setting, run);
    }
  }

  lemma {:induction false} LastStays(fd: int, setting: string, run: seq<Action>)
    requires fd > 0
    ensures Run(Start(fd, setting), run).last.Some?
    decreases |run|
  {
    if run != [] {
      LastStays(fd, setting, run[..|run| - 1]);
    }
  }

  // ---------- what one hand-over does ----------

  /**
  In every reachable state: a successful send gives the stored descriptor away. Afterwards nothing is
  stored, the instance that was has been closed once, and the setting stays; a failed one changes nothing.
  */
  lemma SendGivesAway(fd: int, setting: string, run: seq<Action>, tid: Tid)
    requires var s := Run(Start(fd, setting), run); tid in s.requests && s.requests[tid].Connected?
    ensures var s := Run(Start(fd, setting), run);
            var s', u := Next(s, SendStep(tid, true)), Next(s, SendStep(tid, false));
            && s'.core.fuseFd <= 0 && s'.core.setting == s.core.setting && s'.requests == s.requests[tid := Waiting]
            && (if s.core.fuseFd > 0
                then && s.core.fuseFd in s.core.kernel.open && s'.core.kernel.closed[s.core.kernel.open[s.core.fuseFd]] == 1
                     && s'.core.kernel.open == s.core.kernel.open - {s.core.fuseFd}
                else s'.core.kernel == s.core.kernel)
            && u.core == s.core && u.requests == s.requests - {tid}
  {
    Reachable(fd, setting, run);
  }

  /** In any state: what the second phase makes of a reply. */
  lemma ReplyDecides(s: State, tid: Tid)
    requires tid in s.requests && s.requests[tid].Got?
    ensures var s', Got(msg, fds) := Next(s, StoreStep(tid)), s.requests[tid];
            && tid !in s'.requests
            && (if msg != "CLOSE" && s.core.fuseFd <= 0 && fds != []
                then s'.core.fuseFd == fds[0] && s'.core.setting == msg && s'.core.kernel == s.core.kernel
                else s'.core.fuseFd == s.core.fuseFd && s'.core.setting == s.core.setting)
  {
  }

  /** A reply that is not stored is closed: every descriptor of it exactly once. */
  lemma RefusedIsClosed(fd: int, setting: string, run: seq<Action>, tid: Tid, n: int)
    requires var s := Run(Start(fd, setting), run); tid in s.requests && s.requests[tid].Got? && n in s.requests[tid].fds
    requires var s := Run(Start(fd, setting), run); s.requests[tid].msg == "CLOSE" || s.core.fuseFd > 0
    ensures var s, s' := Run(Start(fd, setting), run), Next(Run(Start(fd, setting), run), StoreStep(tid));
            n in s.core.kernel.open && n !in s'.core.kernel.open && s'.core.kernel.closed[s.core.kernel.open[n]] == 1
  {
    var s := Run(Start(fd, setting), run);
    var initial := if fd > 0 then setting else "FUSE";
    Reachable(fd, setting, run);
    Step(s, StoreStep(tid), initial);
    assert Holds(s, tid, n);
    var fds := s.requests[tid].fds;
    assert forall i | 0 <= i < |fds| :: Holds(s, tid, fds[i]);
    CloseAllInv(s.core.kernel, fds);
  }

  /** The action neither stores a reply nor belongs to request `tid`. */
  predicate Quiet(a: Action, tid: Tid) {
    !a.StoreStep? && (a.Connect? || a.SendStep? || a.Receive? || a.ReceiveFails? ==> a.tid != tid)
  }

  lemma {:induction false} QuietKeeps(s: State, run: seq<Action>, tid: Tid)
    requires s.core.fuseFd <= 0 && tid in s.requests && forall i | 0 <= i < |run| :: Quiet(run[i], tid)
    ensures var f := Run(s, run); f.core.fuseFd <= 0 && tid in f.requests && f.requests[tid] == s.requests[tid]
    decreases |run|
  {
    if run != [] {
      QuietKeeps(s, run[..|run| - 1], tid);
    }
  }

  /**
  A whole hand-over, from every reachable state with a connected request and whatever other requests do
  between, as long as they store nothing: the old descriptor is closed, and the reply's descriptor and
  setting are stored.
  */
  lemma HandOver(fd: int, setting: string, run: seq<Action>, tid: Tid, b: seq<Action>, msg: string, n: int, c: seq<Action>)
    requires var s := Run(Start(fd, setting), run); tid in s.requests && s.requests[tid].Connected?
    requires msg != "CLOSE" && (forall i | 0 <= i < |b| :: Quiet(b[i], tid)) && (forall i | 0 <= i < |c| :: Quiet(c[i], tid))
    requires var s1 := Next(Run(Start(fd, setting), run), SendStep(tid, true)); Installable(Run(s1, b).core.kernel, [n])
    ensures var s := Run(Start(fd, setting), run);
            var s1 := Next(s, SendStep(tid, true));
            var f := Next(Run(Next(Run(s1, b), Receive(tid, msg, [n])), c), StoreStep(tid));
            && f.core.fuseFd == n && f.core.setting == msg
            && (s.core.fuseFd > 0 ==> s.core.fuseFd in s.core.kernel.open && s1.core.kernel.closed[s.core.kernel.open[s.core.fuseFd]] == 1)
  {
    var s := Run(Start(fd, setting), run);
    SendGivesAway(fd, setting, run, tid);
    var s1 := Next(s, SendStep(tid, true));
    QuietKeeps(s1, b, tid);
    var s2 := Next(Run(s1, b), Receive(tid, msg, [n]));
    QuietKeeps(s2, c, tid);
    ReplyDecides(Run(s2, c), tid);
  }
}
