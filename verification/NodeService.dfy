/**
The node service: NodePublishVolume and NodeUnpublishVolume work on a target path between `lock`
and `unlock` of a map keyed by target paths. Calls interleave; the scan, the unmount and the mount of
BindTarget are separate steps, and so are the unmounts of an unpublish.
*/
module NodeService {
  import opened MountTable

  type CallId = nat

  datatype Pc =
    | CreatingTarget
    | Scanning
    | Unmounting(infos: seq<MountInfo>)
    | Mounting(infos: seq<MountInfo>)
    | Unpublishing

  /** A call in flight: it holds the lock of its target. */
  datatype Call = Call(target: string, mountPath: string, root: string, pc: Pc)

  /** How the last call on a target ended. */
  datatype Report = Published(minor: int) | Unpublished | Failed

  datatype State = State(entries: seq<MountInfo>, held: map<string, bool>, calls: map<CallId, Call>, last: map<string, Report>)

  datatype Action =
    | Publish(id: CallId, target: string, mountPath: string, root: string)
    | Unpublish(id: CallId, target: string)
    | Step(id: CallId, corrupt: bool, fails: bool)
    | MountElsewhere(entry: MountInfo)
    | UmountElsewhere(path: string)

  function Init(entries: seq<MountInfo>): State {
    State(entries, map[], map[], map[])
  }

  function Locked(held: map<string, bool>, target: string): map<string, bool> {
    if target in held then held else held[target := true]
  }

  function Unlocked(held: map<string, bool>, target: string): map<string, bool> {
    held - {target}
  }

  // ---------- steps ----------

  /** An empty target and a target in flight are refused. */
  function Begin(s: State, id: CallId, call: Call): State {
    if call.target == "" || call.target in s.held || id in s.calls then s
    else s.(held := Locked(s.held, call.target), calls := s.calls[id := call])
  }

  /** The deferred unlock, after the table became `entries`. */
  function End(s: State, id: CallId, entries: seq<MountInfo>, report: Report): State
    requires id in s.calls
  {
    var target := s.calls[id].target;
    State(entries, Unlocked(s.held, target), s.calls - {id}, s.last[target := report])
  }

  function Continue(s: State, id: CallId, entries: seq<MountInfo>, pc: Pc): State
    requires id in s.calls
  {
    s.(entries := entries, calls := s.calls[id := s.calls[id].(pc := pc)])
  }

  /** What the next step of a call does: the table it leaves, and whether the call goes on. */
  datatype Move = More(entries: seq<MountInfo>, pc: Pc) | Ended(entries: seq<MountInfo>, report: Report)

  function Plan(c: Call, es: seq<MountInfo>, corrupt: bool, fails: bool): Move {
    match c.pc
    case CreatingTarget =>
      if corrupt then More(Pop(es, c.target), CreatingTarget)
      else if fails then Ended(es, Failed)
      else More(es, Scanning)
    case Scanning =>
      if fails || !Mounted(es, c.mountPath) then Ended(es, Failed)
      else if !Mounted(es, c.target) then More(es, Mounting(es))
      else if Top(es, c.target).minor == Top(es, c.mountPath).minor then Ended(es, Published(Top(es, c.mountPath).minor))
      else More(es, Unmounting(es))
    case Unmounting(infos) => More(Pop(es, c.target), Mounting(infos))
    case Mounting(infos) =>
      if fails || !Mounted(infos, c.mountPath) then Ended(es, Failed)
      else
        var minor := Top(infos, c.mountPath).minor;
        Ended(es + [MountInfo(c.target, c.root, minor)], Published(minor))
    case Unpublishing =>
      if fails then Ended(es, Failed)
      else if Mounted(es, c.target) then More(Pop(es, c.target), Unpublishing)
      else Ended(es, Unpublished)
  }

  function Take(s: State, id: CallId, m: Move): State
    requires id in s.calls
  {
    match m
    case More(entries, pc) => Continue(s, id, entries, pc)
    case Ended(entries, report) => End(s, id, entries, report)
  }

  function StepCall(s: State, id: CallId, corrupt: bool, fails: bool): State
    requires id in s.calls
  {
    Take(s, id, Plan(s.calls[id], s.entries, corrupt, fails))
  }

  function Next(s: State, a: Action): State {
    match a
    case Publish(id, target, mountPath, root) => Begin(s, id, Call(target, mountPath, root, CreatingTarget))
    case Unpublish(id, target) => Begin(s, id, Call(target, "", "", Unpublishing))
    case Step(id, corrupt, fails) => if id in s.calls then StepCall(s, id, corrupt, fails) else s
    case MountElsewhere(entry) => s.(entries := s.entries + [entry])
    case UmountElsewhere(path) => s.(entries := Pop(s.entries, path))
  }

  function Run(entries: seq<MountInfo>, run: seq<Action>): State {
    if run == [] then Init(entries) else Next(Run(entries, run[..|run| - 1]), run[|run| - 1])
  }

  // ---------- one call per target ----------

  ghost predicate Exclusive(s: State) {
    && (forall id | id in s.calls :: s.calls[id].target in s.held)
    && (forall t | t in s.held :: exists id :: id in s.calls && s.calls[id].target == t)
    && (forall i, j | i in s.calls && j in s.calls && i != j :: s.calls[i].target != s.calls[j].target)
  }

  lemma BeginExclusive(s: State, id: CallId, call: Call)
    requires Exclusive(s)
    ensures Exclusive(Begin(s, id, call))
  {
    var s' := Begin(s, id, call);
    if s' != s {
      forall t | t in s'.held
        ensures exists i :: i in s'.calls && s'.calls[i].target == t
      {
        if t != call.target {
          var i :| i in s.calls && s.calls[i].target == t;
          assert i in s'.calls && s'.calls[i].target == t;
        } else {
          assert id in s'.calls && s'.calls[id].target == t;
        }
      }
    }
  }

  lemma EndExclusive(s: State, id: CallId, entries: seq<MountInfo>, report: Report)
    requires Exclusive(s) && id in s.calls
    ensures Exclusive(End(s, id, entries, report))
  {
    var s' := End(s, id, entries, report);
    forall t | t in s'.held
      ensures exists i :: i in s'.calls && s'.calls[i].target == t
    {
      var i :| i in s.calls && s.calls[i].target == t;
      assert i in s'.calls && s'.calls[i].target == t;
    }
  }

  lemma ContinueExclusive(s: State, id: CallId, entries: seq<MountInfo>, pc: Pc)
    requires Exclusive(s) && id in s.calls
    ensures Exclusive(Continue(s, id, entries, pc))
  {
    var s' := Continue(s, id, entries, pc);
    forall t | t in s'.held
      ensures exists i :: i in s'.calls && s'.calls[i].target == t
    {
      var i :| i in s.calls && s.calls[i].target == t;
      assert i in s'.calls && s'.calls[i].target == t;
    }
  }

  lemma TakeExclusive(s: State, id: CallId, m: Move)
    requires Exclusive(s) && id in s.calls
    ensures Exclusive(Take(s, id, m))
  {
    match m
    case More(entries, pc) => ContinueExclusive(s, id, entries, pc);
    case Ended(entries, report) => EndExclusive(s, id, entries, report);
  }

  lemma NextExclusive(s: State, a: Action)
    requires Exclusive(s)
    ensures Exclusive(Next(s, a))
  {
    match a
    case Publish(id, target, mountPath, root) => BeginExclusive(s, id, Call(target, mountPath, root, CreatingTarget));
    case Unpublish(id, target) => BeginExclusive(s, id, Call(target, "", "", Unpublishing));
    case Step(id, corrupt, fails) =>
      if id in s.calls {
        TakeExclusive(s, id, Plan(s.calls[id], s.entries, corrupt, fails));
      }
    case MountElsewhere(entry) => assert Next(s, a).held == s.held && Next(s, a).calls == s.calls;
    case UmountElsewhere(path) => assert Next(s, a).held == s.held && Next(s, a).calls == s.calls;
  }

  function InFlight(calls: map<CallId, Call>): set<string> {
    set id | id in calls :: calls[id].target
  }

  /** In every run the locked keys are the targets in flight, and no two calls in flight share a target. */
  lemma {:induction false} OneCallPerTarget(entries: seq<MountInfo>, run: seq<Action>)
    ensures Exclusive(Run(entries, run))
    ensures Run(entries, run).held.Keys == InFlight(Run(entries, run).calls)
    decreases |run|
  {
    if run != [] {
      OneCallPerTarget(entries, run[..|run| - 1]);
      NextExclusive(Run(entries, run[..|run| - 1]), run[|run| - 1]);
    }
  }

  /** The lock map that `lock` and `unlock` change; `s` is the state of the service around the call. */
  class TargetLocks {
    var held: map<string, bool>

    constructor ()
      ensures held == Init([]).held
    {
      held := map[];
    }

    /** Admits the call exactly when no call in flight has its target, as the service begins it. */
    method Lock(target: string, ghost s: State, ghost id: CallId, ghost call: Call) returns (ok: bool)
      requires held == s.held && Exclusive(s)
      requires target == call.target != "" && id !in s.calls
      modifies this
      ensures held == Begin(s, id, call).held
      ensures ok <==> target !in InFlight(s.calls)
      ensures ok <==> id in Begin(s, id, call).calls
    {
      if |held| == 0 {
        held := map[];
      }
      if target in held {
        return false;
      }
      held := held[target := true];
      return true;
    }

    /** Afterwards the keys are the targets of the other calls, so the next call on this target is admitted. */
    method Unlock(target: string, ghost s: State, ghost id: CallId)
      requires held == s.held && Exclusive(s)
      requires id in s.calls && s.calls[id].target == target
      modifies this
      ensures forall entries, report :: held == End(s, id, entries, report).held
      ensures held.Keys == InFlight(s.calls - {id}) == InFlight(s.calls) - {target}
    {
      EndExclusive(s, id, [], Failed);
      held := held - {target};
    }
  }

  // ---------- the steps of a call act as one ----------

  /** Others leave the targets that this service works on alone. */
  predicate Apart(s: State, a: Action) {
    match a
    case MountElsewhere(entry) => entry.mountPoint !in s.held && entry.mountPoint !in s.last
    case UmountElsewhere(path) => path !in s.held && path !in s.last
    case _ => true
  }

  predicate AlwaysApart(entries: seq<MountInfo>, run: seq<Action>) {
    run == [] || (AlwaysApart(entries, run[..|run| - 1]) && Apart(Run(entries, run[..|run| - 1]), run[|run| - 1]))
  }

  /** What a bind in progress has seen is still true of its target. */
  predicate Snapshot(c: Call, es: seq<MountInfo>) {
    match c.pc
    case Unmounting(infos) =>
      && Mounted(infos, c.mountPath) && Mounted(infos, c.target) && Stack(es, c.target) == Stack(infos, c.target)
      && Top(infos, c.target).minor != Top(infos, c.mountPath).minor
    case Mounting(infos) =>
      && Mounted(infos, c.mountPath) && Stack(es, c.target) == Stack(Pop(infos, c.target), c.target)
      && (Mounted(infos, c.target) ==> Top(infos, c.target).minor != Top(infos, c.mountPath).minor)
    case _ => true
  }

  /** The report on a target describes its stack. */
  predicate Honest(r: Report, es: seq<MountInfo>, t: string) {
    match r
    case Published(minor) => Mounted(es, t) && Top(es, t).minor == minor
    case Unpublished => !Mounted(es, t)
    case Failed => true
  }

  ghost predicate Inv(s: State) {
    && Exclusive(s)
    && (forall id | id in s.calls :: Snapshot(s.calls[id], s.entries))
    && (forall t | t in s.last && t !in s.held :: Honest(s.last[t], s.entries, t))
  }

  lemma SameStack(s: State, es: seq<MountInfo>, p: string, t: string)
    requires t != p && Elsewhere(es, p) == Elsewhere(s.entries, p)
    ensures Stack(es, t) == Stack(s.entries, t)
  {
    StackElsewhere(es, p, t);
    StackElsewhere(s.entries, p, t);
  }

  /** A move changes the stack of its own target only; it keeps the call's snapshot or ends with an honest report. */
  predicate Sound(c: Call, es: seq<MountInfo>, m: Move) {
    && Elsewhere(m.entries, c.target) == Elsewhere(es, c.target)
    && match m
       case More(entries, pc) => Snapshot(c.(pc := pc), entries)
       case Ended(entries, report) => Honest(report, entries, c.target)
  }

  lemma PlanSound(c: Call, es: seq<MountInfo>, corrupt: bool, fails: bool)
    requires Snapshot(c, es)
    ensures Sound(c, es, Plan(c, es, corrupt, fails))
  {
    PopStack(es, c.target);
    match c.pc
    case Unmounting(infos) => PopStack(infos, c.target);
    case Mounting(infos) => StackSnoc(es, MountInfo(c.target, c.root, Top(infos, c.mountPath).minor), c.target);
    case _ =>
  }

  lemma TakeInv(s: State, id: CallId, m: Move)
    requires Inv(s) && id in s.calls && Sound(s.calls[id], s.entries, m)
    ensures Inv(Take(s, id, m))
  {
    var s', p := Take(s, id, m), s.calls[id].target;
    TakeExclusive(s, id, m);
    forall t | t != p
      ensures Stack(s'.entries, t) == Stack(s.entries, t)
    {
      SameStack(s, s'.entries, p, t);
    }
    forall i | i in s'.calls
      ensures Snapshot(s'.calls[i], s'.entries)
    {
      if i != id {
        SnapshotIsLocal(s.calls[i], s.entries, s'.entries);
      }
    }
  }

  lemma SnapshotIsLocal(c: Call, es: seq<MountInfo>, es': seq<MountInfo>)
    requires Snapshot(c, es) && Stack(es', c.target) == Stack(es, c.target)
    ensures Snapshot(c, es')
  {
  }

  lemma HonestIsLocal(r: Report, es: seq<MountInfo>, es': seq<MountInfo>, t: string)
    requires Honest(r, es, t) && Stack(es', t) == Stack(es, t)
    ensures Honest(r, es', t)
  {
  }

  /** A change of the table at a path that the service does not work on. */
  lemma TableInv(s: State, es: seq<MountInfo>, p: string)
    requires Inv(s) && p !in s.held && p !in s.last && Elsewhere(es, p) == Elsewhere(s.entries, p)
    ensures Inv(s.(entries := es))
  {
    forall i | i in s.calls
      ensures Snapshot(s.calls[i], es)
    {
      SameStack(s, es, p, s.calls[i].target);
      SnapshotIsLocal(s.calls[i], s.entries, es);
    }
    forall t | t in s.last && t !in s.held
      ensures Honest(s.last[t], es, t)
    {
      SameStack(s, es, p, t);
      HonestIsLocal(s.last[t], s.entries, es, t);
    }
  }

  lemma OutsideInv(s: State, a: Action)
    requires Inv(s) && Apart(s, a) && (a.MountElsewhere? || a.UmountElsewhere?)
    ensures Inv(Next(s, a))
  {
    var p := if a.MountElsewhere? then a.entry.mountPoint else a.path;
    PopStack(s.entries, p);
    if a.MountElsewhere? {
      StackSnoc(s.entries, a.entry, p);
    }
    TableInv(s, Next(s, a).entries, p);
  }

  lemma InvStep(s: State, a: Action)
    requires Inv(s) && Apart(s, a)
    ensures Inv(Next(s, a))
  {
    NextExclusive(s, a);
    match a
    case Step(id, corrupt, fails) =>
      if id in s.calls {
        PlanSound(s.calls[id], s.entries, corrupt, fails);
        TakeInv(s, id, Plan(s.calls[id], s.entries, corrupt, fails));
      }
    case MountElsewhere(_) => OutsideInv(s, a);
    case UmountElsewhere(_) => OutsideInv(s, a);
    case _ =>
  }

  lemma {:induction false} InvHolds(entries: seq<MountInfo>, run: seq<Action>)
    requires AlwaysApart(entries, run)
    ensures Inv(Run(entries, run))
    decreases |run|
  {
    if run != [] {
      InvHolds(entries, run[..|run| - 1]);
      InvStep(Run(entries, run[..|run| - 1]), run[|run| - 1]);
    }
  }

  /**
  Whatever other calls do in between, a target whose last call was a successful unpublish has no
  mounts, and one whose last call was a successful publish has the published device on top.
  */
  lemma LastCallDecides(entries: seq<MountInfo>, run: seq<Action>, t: string)
    requires AlwaysApart(entries, run)
    requires t in Run(entries, run).last && t !in Run(entries, run).held
    ensures var s := Run(entries, run);
            && (s.last[t].Unpublished? ==> !Mounted(s.entries, t))
            && (s.last[t].Published? ==> Mounted(s.entries, t) && Top(s.entries, t).minor == s.last[t].minor)
  {
    InvHolds(entries, run);
  }

  /** The condition is needed: a foreign mount on a target after its unpublish shows there. */
  lemma ForeignMountShows(entries: seq<MountInfo>, run: seq<Action>, entry: MountInfo)
    requires AlwaysApart(entries, run)
    requires var s := Run(entries, run);
             && entry.mountPoint in s.last && entry.mountPoint !in s.held && s.last[entry.mountPoint].Unpublished?
    ensures !Apart(Run(entries, run), MountElsewhere(entry))
    ensures var s' := Next(Run(entries, run), MountElsewhere(entry));
            s'.last[entry.mountPoint].Unpublished? && Count(s'.entries, entry.mountPoint) == 1
  {
    InvHolds(entries, run);
    StackSnoc(Run(entries, run).entries, entry, entry.mountPoint);
  }

  /** The separate steps of BindTarget give its target what BindTarget on its snapshot gives at once. */
  lemma BindActsAtOnce(entries: seq<MountInfo>, run: seq<Action>, id: CallId, corrupt: bool)
    requires AlwaysApart(entries, run)
    requires var s := Run(entries, run); id in s.calls && s.calls[id].pc.Mounting?
    ensures var s := Run(entries, run);
            var c, s' := s.calls[id], StepCall(s, id, corrupt, false);
            && Mounted(c.pc.infos, c.mountPath)
            && Stack(s'.entries, c.target) == Stack(Bound(c.pc.infos, c.mountPath, c.root, c.target), c.target)
            && s'.last[c.target] == Published(Top(c.pc.infos, c.mountPath).minor)
  {
    InvHolds(entries, run);
    var s := Run(entries, run);
    var c := s.calls[id];
    var entry := MountInfo(c.target, c.root, Top(c.pc.infos, c.mountPath).minor);
    StackSnoc(s.entries, entry, c.target);
    StackSnoc(Pop(c.pc.infos, c.target), entry, c.target);
  }

  /** For instance: an unpublish on an empty table, and then a recovery's mount. */
  lemma ForeignMountOccurs(entry: MountInfo)
    requires entry.mountPoint != ""
    ensures var s := Run([], [Unpublish(0, entry.mountPoint), Step(0, false, false)]);
            && entry.mountPoint in s.last && entry.mountPoint !in s.held && s.last[entry.mountPoint].Unpublished?
            && Mounted(Next(s, MountElsewhere(entry)).entries, entry.mountPoint)
  {
    var t := entry.mountPoint;
    var run := [Unpublish(0, t), Step(0, false, false)];
    assert run[..1] == [Unpublish(0, t)] && run[..1][..0] == [];
    assert Run([], run[..1]) == Begin(Init([]), 0, Call(t, "", "", Unpublishing));
    assert AlwaysApart([], run[..1][..0]) && AlwaysApart([], run[..1]) && AlwaysApart([], run);
    ForeignMountShows([], run, entry);
  }

  // ---------- calls come to their end ----------

  function RunFrom(s: State, run: seq<Action>): State {
    if run == [] then s else Next(RunFrom(s, run[..|run| - 1]), run[|run| - 1])
  }

  predicate ApartFrom(s: State, run: seq<Action>) {
    run == [] || (ApartFrom(s, run[..|run| - 1]) && Apart(RunFrom(s, run[..|run| - 1]), run[|run| - 1]))
  }

  /** Whatever others do, a call in flight and the stack of its target wait for the call's own step. */
  lemma OthersWait(s: State, a: Action, id: CallId)
    requires Inv(s) && Apart(s, a) && id in s.calls && !(a.Step? && a.id == id)
    ensures var s', t := Next(s, a), s.calls[id].target;
            id in s'.calls && s'.calls[id] == s.calls[id] && Stack(s'.entries, t) == Stack(s.entries, t)
  {
    var t := s.calls[id].target;
    match a
    case Step(o, corrupt, fails) =>
      if o in s.calls {
        PlanSound(s.calls[o], s.entries, corrupt, fails);
        SameStack(s, Next(s, a).entries, s.calls[o].target, t);
      }
    case MountElsewhere(entry) =>
      StackSnoc(s.entries, entry, t);
    case UmountElsewhere(path) =>
      PopStack(s.entries, path);
      SameStack(s, Next(s, a).entries, path, t);
    case _ =>
  }

  /** The actions of the run that are steps of call `id`. */
  function OwnSteps(run: seq<Action>, id: CallId): nat {
    if run == [] then 0
    else OwnSteps(run[..|run| - 1], id) + if run[|run| - 1].Step? && run[|run| - 1].id == id then 1 else 0
  }

  predicate NoFault(a: Action, id: CallId) {
    a.Step? && a.id == id ==> !a.fails && !a.corrupt
  }

  /** One own step of an unpublish takes one mount off its target, or ends it with none left; nothing else changes. */
  lemma UnpublishStep(s: State, id: CallId)
    requires Inv(s) && id in s.calls && s.calls[id].pc.Unpublishing?
    ensures var s', t := Next(s, Step(id, false, false)), s.calls[id].target;
            && Elsewhere(s'.entries, t) == Elsewhere(s.entries, t)
            && if Count(s.entries, t) > 0
               then && id in s'.calls && s'.calls[id] == s.calls[id]
                    && Stack(s'.entries, t) == Stack(s.entries, t)[..Count(s.entries, t) - 1]
               else && id !in s'.calls && t !in s'.held && t in s'.last && s'.last[t] == Unpublished && s'.entries == s.entries
  {
    PopStack(s.entries, s.calls[id].target);
  }

  lemma {:induction false} UnpublishProgress(s: State, run: seq<Action>, id: CallId)
    requires Inv(s) && ApartFrom(s, run) && id in s.calls && s.calls[id].pc.Unpublishing?
    requires forall i | 0 <= i < |run| :: NoFault(run[i], id)
    requires OwnSteps(run, id) <= Count(s.entries, s.calls[id].target)
    ensures var f, t := RunFrom(s, run), s.calls[id].target;
            && Inv(f) && id in f.calls && f.calls[id] == s.calls[id]
            && Stack(f.entries, t) == Stack(s.entries, t)[..Count(s.entries, t) - OwnSteps(run, id)]
    decreases |run|
  {
    if run != [] {
      var before, a := run[..|run| - 1], run[|run| - 1];
      UnpublishProgress(s, before, id);
      InvStep(RunFrom(s, before), a);
      if a.Step? && a.id == id {
        UnpublishStep(RunFrom(s, before), id);
      } else {
        OthersWait(RunFrom(s, before), a, id);
      }
    }
  }

  /**
  From every state of the invariant, whatever other calls do between: an unpublish whose own steps meet
  no fault has ended after as many of them as its target had mounts, and one more, with no mount left.
  */
  lemma UnpublishCompletes(s: State, run: seq<Action>, id: CallId)
    requires Inv(s) && ApartFrom(s, run) && id in s.calls && s.calls[id].pc.Unpublishing?
    requires forall i | 0 <= i < |run| :: NoFault(run[i], id)
    requires OwnSteps(run, id) == Count(s.entries, s.calls[id].target)
    ensures var f, t := Next(RunFrom(s, run), Step(id, false, false)), s.calls[id].target;
            id !in f.calls && t !in f.held && !Mounted(f.entries, t) && t in f.last && f.last[t] == Unpublished
  {
    UnpublishProgress(s, run, id);
    UnpublishStep(RunFrom(s, run), id);
  }

  /** A turn of CreateTarget: a corrupt target loses one mount, a sound one is left as it is. */
  lemma CreateTurn(s: State, id: CallId, corrupt: bool)
    requires id in s.calls && s.calls[id].pc.CreatingTarget?
    ensures var s', t := Next(s, Step(id, corrupt, false)), s.calls[id].target;
            && id in s'.calls && Elsewhere(s'.entries, t) == Elsewhere(s.entries, t)
            && s'.calls[id] == s.calls[id].(pc := if corrupt then CreatingTarget else Scanning)
            && Stack(s'.entries, t)
               == if corrupt && Count(s.entries, t) > 0 then Stack(s.entries, t)[..Count(s.entries, t) - 1] else Stack(s.entries, t)
  {
    PopStack(s.entries, s.calls[id].target);
  }

  lemma {:induction false} QuietRun(s: State, run: seq<Action>, id: CallId)
    requires Inv(s) && ApartFrom(s, run) && id in s.calls && OwnSteps(run, id) == 0
    ensures var f, t := RunFrom(s, run), s.calls[id].target;
            Inv(f) && id in f.calls && f.calls[id] == s.calls[id] && Stack(f.entries, t) == Stack(s.entries, t)
    decreases |run|
  {
    if run != [] {
      QuietRun(s, run[..|run| - 1], id);
      InvStep(RunFrom(s, run[..|run| - 1]), run[|run| - 1]);
      OthersWait(RunFrom(s, run[..|run| - 1]), run[|run| - 1], id);
    }
  }

  /** Call `id` on target `t` has ended with device `minor` on top of the target. */
  predicate HasPublished(s: State, id: CallId, t: string, minor: int) {
    id !in s.calls && t !in s.held && t in s.last && s.last[t] == Published(minor) && Mounted(s.entries, t) && Top(s.entries, t).minor == minor
  }

  lemma ScanStep(s: State, id: CallId)
    requires Inv(s) && id in s.calls && s.calls[id].pc.Scanning? && Mounted(s.entries, s.calls[id].mountPath)
    ensures var s', c := Next(s, Step(id, false, false)), s.calls[id];
            var minor := Top(s.entries, c.mountPath).minor;
            && Inv(s') && s'.entries == s.entries
            && if !Mounted(s.entries, c.target) then id in s'.calls && s'.calls[id] == c.(pc := Mounting(s.entries))
               else if Top(s.entries, c.target).minor == minor then HasPublished(s', id, c.target, minor)
               else id in s'.calls && s'.calls[id] == c.(pc := Unmounting(s.entries))
  {
    InvStep(s, Step(id, false, false));
  }

  /** Without a mount at its mount path, or with a fault, a publish ends in failure and leaves the table. */
  lemma ScanFails(s: State, id: CallId, fails: bool)
    requires id in s.calls && s.calls[id].pc.Scanning? && (fails || !Mounted(s.entries, s.calls[id].mountPath))
    ensures var s', t := Next(s, Step(id, false, fails)), s.calls[id].target;
            id !in s'.calls && t !in s'.held && t in s'.last && s'.last[t] == Failed && s'.entries == s.entries
  {
  }

  lemma UnmountStep(s: State, id: CallId)
    requires Inv(s) && id in s.calls && s.calls[id].pc.Unmounting?
    ensures var s', c := Next(s, Step(id, false, false)), s.calls[id];
            && Inv(s') && id in s'.calls && s'.calls[id] == c.(pc := Mounting(c.pc.infos))
            && Count(s'.entries, c.target) == Count(s.entries, c.target) - 1
  {
    InvStep(s, Step(id, false, false));
    PopStack(s.entries, s.calls[id].target);
  }

  lemma MountStep(s: State, id: CallId)
    requires Inv(s) && id in s.calls && s.calls[id].pc.Mounting?
    ensures var c := s.calls[id];
            && Mounted(c.pc.infos, c.mountPath)
            && HasPublished(Next(s, Step(id, false, false)), id, c.target, Top(c.pc.infos, c.mountPath).minor)
            && Top(Next(s, Step(id, false, false)).entries, c.target).root == c.root
  {
    var c := s.calls[id];
    StackSnoc(s.entries, MountInfo(c.target, c.root, Top(c.pc.infos, c.mountPath).minor), c.target);
  }

  /**
  From every state of the invariant, whatever other calls do in `b` and `c`: a publish that comes to its
  scan with its mount path mounted, and whose steps meet no fault, ends in one, two or three of them with
  the device of the mount path on top of its target.
  */
  lemma PublishCompletes(s: State, id: CallId, b: seq<Action>, c: seq<Action>)
    requires Inv(s) && id in s.calls && s.calls[id].pc.Scanning? && Mounted(s.entries, s.calls[id].mountPath)
    requires OwnSteps(b, id) == 0 && OwnSteps(c, id) == 0
    requires ApartFrom(Next(s, Step(id, false, false)), b)
    requires ApartFrom(Next(RunFrom(Next(s, Step(id, false, false)), b), Step(id, false, false)), c)
    ensures var t, minor := s.calls[id].target, Top(s.entries, s.calls[id].mountPath).minor;
            var s1 := Next(s, Step(id, false, false));
            var s2 := Next(RunFrom(s1, b), Step(id, false, false));
            var s3 := Next(RunFrom(s2, c), Step(id, false, false));
            HasPublished(s1, id, t, minor) || HasPublished(s2, id, t, minor) || HasPublished(s3, id, t, minor)
  {
    var own := Step(id, false, false);
    var s1 := Next(s, own);
    ScanStep(s, id);
    if id in s1.calls {
      QuietRun(s1, b, id);
      var s2 := Next(RunFrom(s1, b), own);
      if s1.calls[id].pc.Mounting? {
        MountStep(RunFrom(s1, b), id);
      } else {
        UnmountStep(RunFrom(s1, b), id);
        QuietRun(s2, c, id);
        MountStep(RunFrom(s2, c), id);
      }
    }
  }
}
