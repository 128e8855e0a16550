/**
The shared mount-pod protocol of one node, as a small-step transition system.

State: the pods stored by the API server, the lock table of the driver process, the app pods
that exist, a clock, and one program counter with local variables per running operation.
Every constructor of `PubAt`, `UnAt`, `CkAt` and `HdAt` is a point between two API calls, so one `Act` performs at most
one API call and all interleavings of the operations are runs of the machine.
*/
module Protocol {
  import opened Annotations

  type Name = string
  type Tid = nat

  /** Nanoseconds per second: delete-at stamps have a resolution of one second. */
  const SECOND: int := 1_000_000_000

  /** The labels that matter: volume id and setting hash. */
  datatype Labels = Labels(volume: string, hash: string)

  /**
  A stored pod. `uid` tells incarnations of one name apart; `idleSince` is history: the last
  instant at which the pod's references became empty (or at which the pod was created).
  */
  datatype Pod = Pod(uid: nat, labels: Labels, annos: Annos, terminating: bool, finalizer: bool, idleSince: int)

  /** What the run may not choose: how hash labels map to mutexes, and the local time zone in seconds. */
  datatype Env = Env(lockOf: string -> nat, zone: int)

  /** One NodePublish request. `hasApp` tells whether the request names its app pod. */
  datatype Job = Job(target: Target, labels: Labels, base: Annos, hasApp: bool)

  /** Points of DMount, createPodOrAddRef and AddRefOfMount. */
  datatype PubAt =
    | PubLock
    | PubList
    | PubLabel(name: Name)
    | PubGet(name: Name)
    | PubCreate(name: Name)
    | PubRead(name: Name)
    | PubPatch(name: Name, annos: Annos)

  /** Points of DfsUnmount, UmountTarget, GetMountRef and DUmount. */
  datatype UnAt =
    | UnFind
    | UnLock(name: Name, hash: string)
    | UnGet(name: Name, hash: string)
    | UnReget(name: Name, hash: string)
    | UnDrop(name: Name, hash: string)
    | UnCount(name: Name, hash: string)
    | UnRead(name: Name, hash: string)
    | UnEval(name: Name, hash: string, annos: Annos)
    | UnStamp(name: Name, hash: string, second: int)
    | UnDelete(name: Name, hash: string)

  /** Points of Reconcile and checkAnnotations; `alive` is the pod list it worked from. */
  datatype CkAt =
    | CkList
    | CkLock(alive: set<string>)
    | CkGet(alive: set<string>)
    | CkDrop(alive: set<string>)
    | CkDecide(alive: set<string>)
    | CkStamp(second: int)
    | CkReget
    | CkDelete

  /** Points of podDeletedHandler. */
  datatype HdAt =
    | HdUnfinalize
    | HdLock
    | HdGet
    | HdCreate
    | HdMerge(annos: Annos)

  datatype Thread =
    | Publish(job: Job, pub: PubAt)
    | Unpublish(target: Target, un: UnAt)
    | Check(name: Name, snap: Pod, ck: CkAt)
    | Handle(name: Name, snap: Pod, hd: HdAt)

  /**
  `names` remembers the labels of every name ever generated, `apps` maps an existing app pod to
  whether it carries the unique-id label, `gone` holds the app pods deleted so far, and
  `vanished` the last annotations of every pod incarnation that left the store.
  */
  datatype State = State(
    pods: map<Name, Pod>,
    names: map<Name, Labels>,
    apps: map<string, bool>,
    gone: set<string>,
    now: int,
    locks: map<nat, Tid>,
    threads: map<Tid, Thread>,
    nextUid: nat,
    vanished: map<nat, Annos>)

  datatype Action =
    | BeginPublish(tid: Tid, job: Job)
    | BeginUnpublish(tid: Tid, target: Target)
    | BeginCheck(tid: Tid, name: Name)
    | BeginHandler(tid: Tid, name: Name)
    | Act(tid: Tid, pick: Name)
    | GiveUp(tid: Tid)
    | ExternalDelete(name: Name)
    | Vanish(name: Name)
    | AppCreated(uid: string)
    | AppDeleted(uid: string)
    | Tick(nanos: nat)

  const Init: State := State(map[], map[], map[], {}, 0, map[], map[], 0, map[])

  // ---------- pieces of the operations that only compute ----------

  /** Pod metadata built from the settings carries neither references nor a stamp. */
  predicate CleanBase(base: Annos) {
    DelayAtKey !in base && forall k | k in base :: !k.RefKey?
  }

  /** References of a snapshot whose app pod is in the pod list. */
  function LiveRefs(snap: Pod, alive: set<string>): set<Key> {
    set k | k in Refs(snap.annos) && k.target.uid in alive
  }

  /** The `delAnnotations` list of checkAnnotations. */
  function DropKeys(snap: Pod, alive: set<string>): set<Key> {
    (Refs(snap.annos) - LiveRefs(snap, alive)) +
    (if LiveRefs(snap, alive) != {} && DelayAtKey in snap.annos && snap.annos[DelayAtKey] != Text("")
     then {DelayAtKey} else {})
  }

  datatype Verdict = DeleteNow | Wait | StampAt(second: int)

  /** ShouldDelay: local time is formatted with second resolution and parsed back as UTC. */
  function ShouldDelay(env: Env, a: Annos, now: int): Verdict {
    if DelayTimeKey !in a then DeleteNow
    else if DelayAtKey !in a then
      if a[DelayTimeKey].Duration? then StampAt((now + a[DelayTimeKey].nanos) / SECOND) else DeleteNow
    else if a[DelayAtKey].Stamp? then
      if now < (a[DelayAtKey].second + env.zone) * SECOND then Wait else DeleteNow
    else DeleteNow
  }

  /** The references of `from` laid over `onto`. */
  function MergeRefs(onto: Annos, from: Annos): Annos {
    onto + (map k | k in from && IsRef(k, from[k]) :: from[k])
  }

  /** A pod that GenMountPodName returns for these labels. */
  predicate Serves(s: State, name: Name, labels: Labels) {
    name in s.pods && !s.pods[name].terminating && s.pods[name].labels == labels
  }

  predicate Served(s: State, labels: Labels) {
    exists n | n in s.pods :: Serves(s, n, labels)
  }

  // ---------- one step of an operation: an effect on the shared state, then the next point ----------

  datatype Effect =
    | Nothing
    | TakeLock(hash: string)
    | Generate(name: Name, labels: Labels)
    | LabelApp(uid: string)
    | CreatePod(name: Name, labels: Labels, annos: Annos)
    | PatchAnnos(name: Name, annos: Annos)
    | DropFinalizer(name: Name)
    | DeletePod(name: Name)

  datatype Outcome =
    | Blocked
    | Go(effect: Effect, next: Thread)
    | Return(effect: Effect)

  function Lock(env: Env, s: State, hash: string, next: Thread): Outcome {
    if env.lockOf(hash) in s.locks then Blocked else Go(TakeLock(hash), next)
  }

  function PlanPublish(env: Env, s: State, job: Job, at: PubAt, pick: Name): Outcome {
    match at
    case PubLock => Lock(env, s, job.labels.hash, Publish(job, PubList))
    case PubList =>
      if Serves(s, pick, job.labels) then Go(Nothing, Publish(job, PubLabel(pick)))
      else if !Served(s, job.labels) && pick !in s.names then
        Go(Generate(pick, job.labels), Publish(job, PubLabel(pick)))
      else Blocked
    case PubLabel(name) =>
      if !job.hasApp then Go(Nothing, Publish(job, PubGet(name)))
      else if job.target.uid in s.apps then Go(LabelApp(job.target.uid), Publish(job, PubGet(name)))
      else Return(Nothing)
    case PubGet(name) =>
      if name !in s.pods then Go(Nothing, Publish(job, PubCreate(name)))
      else if s.pods[name].terminating then Blocked
      else Go(Nothing, Publish(job, PubRead(name)))
    case PubCreate(name) =>
      if name in s.pods then Return(Nothing)
      else Return(CreatePod(name, job.labels, job.base[RefKey(job.target) := Path(job.target)]))
    case PubRead(name) =>
      if name !in s.pods || s.pods[name].terminating || RefKey(job.target) in s.pods[name].annos then Return(Nothing)
      else Go(Nothing, Publish(job, PubPatch(name, AddRef(s.pods[name].annos, job.target))))
    case PubPatch(name, annos) =>
      if name in s.pods then Return(PatchAnnos(name, annos)) else Return(Nothing)
  }

  function PlanUnpublish(env: Env, s: State, t: Target, at: UnAt, pick: Name): Outcome {
    match at
    case UnFind =>
      if pick in s.pods && RefKey(t) in s.pods[pick].annos
      then Go(Nothing, Unpublish(t, UnLock(pick, s.pods[pick].labels.hash)))
      else Return(Nothing)
    case UnLock(name, hash) => Lock(env, s, hash, Unpublish(t, UnGet(name, hash)))
    case UnGet(name, hash) =>
      if name in s.pods then Go(Nothing, Unpublish(t, UnReget(name, hash)))
      else Go(Nothing, Unpublish(t, UnCount(name, hash)))
    case UnReget(name, hash) =>
      if name !in s.pods then Return(Nothing)
      else if RefKey(t) in s.pods[name].annos then Go(Nothing, Unpublish(t, UnDrop(name, hash)))
      else Go(Nothing, Unpublish(t, UnCount(name, hash)))
    case UnDrop(name, hash) =>
      if name in s.pods && RefKey(t) in s.pods[name].annos
      then Go(PatchAnnos(name, s.pods[name].annos - {RefKey(t)}), Unpublish(t, UnCount(name, hash)))
      else Return(Nothing)
    case UnCount(name, hash) =>
      if name in s.pods && Refs(s.pods[name].annos) != {} then Return(Nothing)
      else Go(Nothing, Unpublish(t, UnRead(name, hash)))
    case UnRead(name, hash) =>
      if name !in s.pods || Refs(s.pods[name].annos) != {} then Return(Nothing)
      else Go(Nothing, Unpublish(t, UnEval(name, hash, s.pods[name].annos)))
    case UnEval(name, hash, annos) =>
      (match ShouldDelay(env, annos, s.now)
       case DeleteNow => Go(Nothing, Unpublish(t, UnDelete(name, hash)))
       case Wait => Return(Nothing)
       case StampAt(sec) => Go(Nothing, Unpublish(t, UnStamp(name, hash, sec))))
    case UnStamp(name, hash, sec) =>
      if name in s.pods then Return(PatchAnnos(name, s.pods[name].annos[DelayAtKey := Stamp(sec)]))
      else Return(Nothing)
    case UnDelete(name, hash) => Return(DeletePod(name))
  }

  function PlanCheck(env: Env, s: State, name: Name, snap: Pod, at: CkAt): Outcome {
    match at
    case CkList => Go(Nothing, Check(name, snap, CkLock(set u | u in s.apps && s.apps[u])))
    case CkLock(alive) =>
      Lock(env, s, snap.labels.hash,
           Check(name, snap, if DropKeys(snap, alive) != {} then CkGet(alive) else CkDecide(alive)))
    case CkGet(alive) =>
      if name !in s.pods || |Refs(s.pods[name].annos)| != |Refs(snap.annos)| then Return(Nothing)
      else Go(Nothing, Check(name, snap, CkDrop(alive)))
    case CkDrop(alive) =>
      if name in s.pods && DropKeys(snap, alive) <= s.pods[name].annos.Keys
      then Go(PatchAnnos(name, s.pods[name].annos - DropKeys(snap, alive)), Check(name, snap, CkDecide(alive)))
      else Return(Nothing)
    case CkDecide(alive) =>
      if LiveRefs(snap, alive) != {} || snap.terminating then Return(Nothing)
      else (match ShouldDelay(env, snap.annos, s.now)
            case DeleteNow => Go(Nothing, Check(name, snap, CkReget))
            case Wait => Return(Nothing)
            case StampAt(sec) => Go(Nothing, Check(name, snap, CkStamp(sec))))
    case CkStamp(sec) =>
      if name in s.pods then Return(PatchAnnos(name, s.pods[name].annos[DelayAtKey := Stamp(sec)]))
      else Return(Nothing)
    case CkReget =>
      if name !in s.pods || Refs(s.pods[name].annos) != {} then Return(Nothing)
      else Go(Nothing, Check(name, snap, CkDelete))
    case CkDelete => Return(DeletePod(name))
  }

  function PlanHandle(env: Env, s: State, name: Name, snap: Pod, at: HdAt): Outcome {
    match at
    case HdUnfinalize =>
      if name !in s.pods then Return(Nothing)
      else if Refs(snap.annos) == {} then Return(DropFinalizer(name))
      else Go(DropFinalizer(name), Handle(name, snap, HdLock))
    case HdLock => Lock(env, s, snap.labels.hash, Handle(name, snap, HdGet))
    case HdGet =>
      if name !in s.pods then Go(Nothing, Handle(name, snap, HdCreate))
      else if s.pods[name].terminating then Blocked
      else Go(Nothing, Handle(name, snap, HdMerge(MergeRefs(s.pods[name].annos, snap.annos))))
    case HdCreate =>
      if name in s.pods then Return(Nothing) else Return(CreatePod(name, snap.labels, snap.annos))
    case HdMerge(annos) =>
      if name in s.pods then Return(PatchAnnos(name, annos)) else Return(Nothing)
  }

  /** The next API call (or local decision) of an operation; `pick` resolves what a list call returns first. */
  function Plan(env: Env, s: State, th: Thread, pick: Name): Outcome {
    match th
    case Publish(job, at) => PlanPublish(env, s, job, at, pick)
    case Unpublish(t, at) => PlanUnpublish(env, s, t, at, pick)
    case Check(name, snap, at) => PlanCheck(env, s, name, snap, at)
    case Handle(name, snap, at) => PlanHandle(env, s, name, snap, at)
  }

  /** History: the instant at which the references of a pod last became empty. */
  function IdleSince(pod: Pod, annos: Annos, now: int): int {
    if Refs(annos) == {} && Refs(pod.annos) != {} then now else pod.idleSince
  }

  function Terminate(s: State, name: Name): State {
    if name in s.pods then s.(pods := s.pods[name := s.pods[name].(terminating := true)]) else s
  }

  function Apply(env: Env, s: State, tid: Tid, e: Effect): State {
    match e
    case Nothing => s
    case TakeLock(hash) => s.(locks := s.locks[env.lockOf(hash) := tid])
    case Generate(name, labels) => s.(names := s.names[name := labels])
    case LabelApp(uid) => s.(apps := s.apps[uid := true])
    case CreatePod(name, labels, annos) =>
      s.(pods := s.pods[name := Pod(s.nextUid, labels, annos, false, true, s.now)], nextUid := s.nextUid + 1)
    case PatchAnnos(name, annos) =>
      if name in s.pods
      then s.(pods := s.pods[name := s.pods[name].(annos := annos, idleSince := IdleSince(s.pods[name], annos, s.now))])
      else s
    case DropFinalizer(name) =>
      if name in s.pods then s.(pods := s.pods[name := s.pods[name].(finalizer := false)]) else s
    case DeletePod(name) => Terminate(s, name)
  }

  function Goto(s: State, tid: Tid, th: Thread): State {
    s.(threads := s.threads[tid := th])
  }

  /** The operation returns: its deferred unlock runs. */
  function Finish(s: State, tid: Tid): State {
    s.(threads := s.threads - {tid},
       locks := map i | i in s.locks && s.locks[i] != tid :: s.locks[i])
  }

  function Perform(env: Env, s: State, tid: Tid, o: Outcome): State {
    match o
    case Blocked => s
    case Go(e, th) => Goto(Apply(env, s, tid, e), tid, th)
    case Return(e) => Finish(Apply(env, s, tid, e), tid)
  }

  /** Starting or abandoning an operation, and what the environment does. */
  function Outside(s: State, a: Action): State
    requires !a.Act?
  {
    match a
    case BeginPublish(tid, job) =>
      if tid in s.threads || !CleanBase(job.base) then s else Goto(s, tid, Publish(job, PubLock))
    case BeginUnpublish(tid, t) => if tid in s.threads then s else Goto(s, tid, Unpublish(t, UnFind))
    case BeginCheck(tid, name) =>
      if tid in s.threads || name !in s.pods then s else Goto(s, tid, Check(name, s.pods[name], CkList))
    case BeginHandler(tid, name) =>
      if tid in s.threads || name !in s.pods || !s.pods[name].terminating || !s.pods[name].finalizer then s
      else Goto(s, tid, Handle(name, s.pods[name], HdUnfinalize))
    case GiveUp(tid) => Finish(s, tid)
    case ExternalDelete(name) => Terminate(s, name)
    case Vanish(name) =>
      if name !in s.pods || !s.pods[name].terminating || s.pods[name].finalizer then s
      else s.(pods := s.pods - {name}, vanished := s.vanished[s.pods[name].uid := s.pods[name].annos])
    case AppCreated(uid) => if uid in s.apps || uid in s.gone then s else s.(apps := s.apps[uid := false])
    case AppDeleted(uid) => if uid !in s.apps then s else s.(apps := s.apps - {uid}, gone := s.gone + {uid})
    case Tick(nanos) => s.(now := s.now + nanos)
  }

  /** One step of the whole system. An action that is not enabled leaves the state as it is. */
  function Next(env: Env, s: State, a: Action): State {
    if !a.Act? then Outside(s, a)
    else if a.tid !in s.threads then s
    else Perform(env, s, a.tid, Plan(env, s, s.threads[a.tid], a.pick))
  }

  function Run(env: Env, s: State, run: seq<Action>): State
    decreases |run|
  {
    if run == [] then s else Next(env, Run(env, s, run[..|run| - 1]), run[|run| - 1])
  }

  lemma RunSnoc(env: Env, s: State, run: seq<Action>, a: Action)
    ensures Run(env, s, run + [a]) == Next(env, Run(env, s, run), a)
  {
  }

  lemma RunTwo(env: Env, s: State, a1: Action, a2: Action)
    ensures Run(env, s, [a1, a2]) == Next(env, Next(env, s, a1), a2)
  {
    RunSnoc(env, s, [], a1);
    RunSnoc(env, s, [a1], a2);
    assert [] + [a1] == [a1] && [a1] + [a2] == [a1, a2];
  }

  lemma RunThree(env: Env, s: State, a1: Action, a2: Action, a3: Action)
    ensures Run(env, s, [a1, a2, a3]) == Next(env, Next(env, Next(env, s, a1), a2), a3)
  {
    RunTwo(env, s, a1, a2);
    RunSnoc(env, s, [a1, a2], a3);
    assert [a1, a2] + [a3] == [a1, a2, a3];
  }

  lemma {:induction false} RunAppend(env: Env, s: State, r1: seq<Action>, r2: seq<Action>)
    ensures Run(env, s, r1 + r2) == Run(env, Run(env, s, r1), r2)
    decreases |r2|
  {
    if r2 == [] {
      assert r1 + r2 == r1;
    } else {
      var k := |r2| - 1;
      assert (r1 + r2)[..|r1 + r2| - 1] == r1 + r2[..k];
      RunAppend(env, s, r1, r2[..k]);
    }
  }

  /** Every action of the run was taken in a state that permits it. */
  ghost predicate Always(env: Env, ok: (State, Action) -> bool, run: seq<Action>)
    decreases |run|
  {
    run == [] ||
    (Always(env, ok, run[..|run| - 1]) && ok(Run(env, Init, run[..|run| - 1]), run[|run| - 1]))
  }

  lemma {:induction false} AlwaysBoth(
      env: Env, p: (State, Action) -> bool, q: (State, Action) -> bool, r: (State, Action) -> bool, run: seq<Action>)
    requires Always(env, p, run) && Always(env, q, run) && forall s, a :: p(s, a) && q(s, a) ==> r(s, a)
    ensures Always(env, r, run)
    decreases |run|
  {
    if run != [] {
      AlwaysBoth(env, p, q, r, run[..|run| - 1]);
    }
  }
}
