/**
What the lock per setting hash buys: while an operation holds the lock of a pod's hash label,
nobody else writes that pod's annotations or creates a pod of that name, so what it read stays true.
*/
module Locking {
  import opened Annotations
  import opened Protocol

  /** The operation is past its lock acquisition. */
  predicate Locked(th: Thread) {
    match th
    case Publish(_, at) => !at.PubLock?
    case Unpublish(_, at) => !at.UnFind? && !at.UnLock?
    case Check(_, _, at) => !at.CkList? && !at.CkLock?
    case Handle(_, _, at) => !at.HdUnfinalize? && !at.HdLock?
  }

  /** The hash label whose mutex the operation takes. */
  function HashOf(th: Thread): string {
    match th
    case Publish(job, _) => job.labels.hash
    case Unpublish(_, at) => if at.UnFind? then "" else at.hash
    case Check(_, snap, _) => snap.labels.hash
    case Handle(_, snap, _) => snap.labels.hash
  }

  predicate Named(th: Thread) {
    match th
    case Publish(_, at) => !at.PubLock? && !at.PubList?
    case Unpublish(_, at) => !at.UnFind?
    case _ => true
  }

  /** The pod the operation works on. */
  function NameOf(th: Thread): Name
    requires Named(th)
  {
    match th
    case Publish(_, at) => at.name
    case Unpublish(_, at) => at.name
    case Check(name, _, _) => name
    case Handle(name, _, _) => name
  }

  predicate HoldsLock(env: Env, s: State, tid: int) {
    tid in s.threads && Locked(s.threads[tid]) ==>
      var i := env.lockOf(HashOf(s.threads[tid]));
      i in s.locks && s.locks[i] == tid
  }

  ghost predicate LockInv(env: Env, s: State) {
    forall tid | tid in s.threads :: HoldsLock(env, s, tid)
  }

  /** Every stored pod has the labels its name was generated for. */
  ghost predicate PodInv(s: State) {
    forall n | n in s.pods :: n in s.names && s.names[n] == s.pods[n].labels && WellFormed(s.pods[n].annos)
  }

  /** Stored references of `name` are none. */
  predicate Unreferenced(s: State, name: Name) {
    name in s.pods ==> Refs(s.pods[name].annos) == {}
  }

  ghost predicate NameInv(s: State, th: Thread) {
    Named(th) ==> NameOf(th) in s.names && s.names[NameOf(th)].hash == HashOf(th)
  }

  ghost predicate PublishInv(s: State, job: Job, at: PubAt) {
    && CleanBase(job.base)
    && (!at.PubLock? && !at.PubList? ==> at.name in s.names && s.names[at.name] == job.labels)
    && (at.PubCreate? ==> at.name !in s.pods)
    && (at.PubPatch? && at.name in s.pods ==>
        RefKey(job.target) !in s.pods[at.name].annos && at.annos == AddRef(s.pods[at.name].annos, job.target))
  }

  ghost predicate UnpublishInv(s: State, at: UnAt) {
    && (at.UnEval? ==> Refs(at.annos) == {} && (at.name in s.pods ==> s.pods[at.name].annos == at.annos))
    && (at.UnStamp? || at.UnDelete? ==> Unreferenced(s, at.name))
  }

  ghost predicate HandleInv(s: State, name: Name, snap: Pod, at: HdAt) {
    && name in s.names && s.names[name] == snap.labels
    && WellFormed(snap.annos)
    && (at.HdCreate? ==> name !in s.pods)
    && (at.HdMerge? && name in s.pods ==> at.annos == MergeRefs(s.pods[name].annos, snap.annos))
  }

  /** What is known at each program point. */
  ghost predicate LocalInv(s: State, th: Thread) {
    && NameInv(s, th)
    && match th
       case Publish(job, at) => PublishInv(s, job, at)
       case Unpublish(_, at) => UnpublishInv(s, at)
       case Check(name, _, at) => at.CkDelete? ==> Unreferenced(s, name)
       case Handle(name, snap, at) => HandleInv(s, name, snap, at)
  }

  ghost predicate ThreadInv(s: State) {
    forall tid | tid in s.threads :: LocalInv(s, s.threads[tid])
  }

  ghost predicate Inv(env: Env, s: State) {
    LockInv(env, s) && PodInv(s) && ThreadInv(s)
  }

  // ---------- frame: what a step of somebody else leaves alone ----------

  /** Pod `n` is as before, except that it may have started terminating, lost its finalizer or vanished. */
  ghost predicate Kept(s: State, s': State, n: Name) {
    n in s'.pods ==>
      && n in s.pods
      && s'.pods[n].annos == s.pods[n].annos
      && s'.pods[n].uid == s.pods[n].uid
      && s'.pods[n].labels == s.pods[n].labels
      && s'.pods[n].idleSince == s.pods[n].idleSince
      && (s.pods[n].terminating ==> s'.pods[n].terminating)
  }

  /** Operation `tid` holds the mutex that guards name `n`. */
  ghost predicate Owns(env: Env, s: State, tid: int, n: Name) {
    tid >= 0 && tid in s.threads && Locked(s.threads[tid]) && n in s.names
    && env.lockOf(HashOf(s.threads[tid])) == env.lockOf(s.names[n].hash)
  }

  /** The operation that performs the action; -1 for the environment. */
  function Actor(a: Action): int {
    match a
    case BeginPublish(tid, _) => tid
    case BeginUnpublish(tid, _) => tid
    case BeginCheck(tid, _) => tid
    case BeginHandler(tid, _) => tid
    case Act(tid, _) => tid
    case GiveUp(tid) => tid
    case _ => -1
  }

  ghost predicate Frame(env: Env, s: State, s': State, tid: int) {
    && (forall n | n in s.names :: n in s'.names && s'.names[n] == s.names[n])
    && (forall o | o in s'.threads && o != tid :: o in s.threads && s'.threads[o] == s.threads[o])
    && (forall i | i in s.locks && s.locks[i] != tid :: i in s'.locks && s'.locks[i] == s.locks[i])
    && (forall n | n in s'.pods :: Kept(s, s', n) || Owns(env, s, tid, n))
  }

  /** Which effects an operation may have at which point. */
  ghost predicate Allowed(env: Env, s: State, th: Thread, e: Effect) {
    match e
    case TakeLock(hash) => env.lockOf(hash) !in s.locks
    case Generate(n, _) => n !in s.names
    case CreatePod(n, labels, annos) =>
      && Locked(th) && Named(th) && NameOf(th) == n
      && n in s.names && n !in s.pods && s.names[n] == labels && WellFormed(annos)
    case PatchAnnos(n, annos) => Locked(th) && Named(th) && NameOf(th) == n && WellFormed(annos)
    case DeletePod(n) => Locked(th) && Named(th) && NameOf(th) == n && Unreferenced(s, n)
    case _ => true
  }

  lemma PlanAllowed(env: Env, s: State, th: Thread, pick: Name)
    requires PodInv(s) && LocalInv(s, th)
    ensures var o := Plan(env, s, th, pick); !o.Blocked? ==> Allowed(env, s, th, o.effect)
  {
  }

  lemma EffectFrame(env: Env, s: State, tid: Tid, e: Effect)
    requires tid in s.threads && NameInv(s, s.threads[tid])
    requires Allowed(env, s, s.threads[tid], e)
    ensures Frame(env, s, Apply(env, s, tid, e), tid)
  {
  }

  lemma EffectPods(env: Env, s: State, tid: Tid, e: Effect)
    requires PodInv(s) && tid in s.threads && NameInv(s, s.threads[tid])
    requires Allowed(env, s, s.threads[tid], e)
    ensures PodInv(Apply(env, s, tid, e))
  {
  }

  lemma PerformFrame(env: Env, s: State, tid: Tid, o: Outcome)
    requires PodInv(s) && tid in s.threads && NameInv(s, s.threads[tid])
    requires !o.Blocked? ==> Allowed(env, s, s.threads[tid], o.effect)
    ensures Frame(env, s, Perform(env, s, tid, o), tid)
    ensures PodInv(Perform(env, s, tid, o))
  {
    if !o.Blocked? {
      EffectFrame(env, s, tid, o.effect);
      EffectPods(env, s, tid, o.effect);
      ThenFrame(env, s, Apply(env, s, tid, o.effect), Perform(env, s, tid, o), tid);
    }
  }

  /** After the effect the operation moves or returns. */
  lemma ThenFrame(env: Env, s: State, s1: State, s2: State, tid: Tid)
    requires Frame(env, s, s1, tid) && PodInv(s1)
    requires (exists th :: s2 == Goto(s1, tid, th)) || s2 == Finish(s1, tid)
    ensures Frame(env, s, s2, tid) && PodInv(s2)
  {
  }

  lemma FinishFrame(env: Env, s: State, tid: Tid)
    ensures Frame(env, s, Finish(s, tid), tid)
  {
  }

  lemma TerminateFrame(env: Env, s: State, name: Name)
    ensures Frame(env, s, Terminate(s, name), -1)
  {
  }

  /** One operation moves; pods, names and locks stay. */
  lemma MoveFrame(env: Env, s: State, s': State, tid: Tid)
    requires s'.pods == s.pods && s'.names == s.names && s'.locks == s.locks
    requires s'.threads - {tid} == s.threads - {tid}
    ensures Frame(env, s, s', tid)
  {
    forall o | o in s'.threads && o != tid
      ensures o in s.threads && s'.threads[o] == s.threads[o]
    {
      assert o in s'.threads - {tid};
    }
  }

  lemma BeginFrame(env: Env, s: State, a: Action)
    requires a.BeginPublish? || a.BeginUnpublish? || a.BeginCheck? || a.BeginHandler?
    ensures Frame(env, s, Outside(s, a), a.tid)
  {
    var th := BeginShape(s, a);
    MoveFrame(env, s, s, a.tid);
    assert (s.threads[a.tid := th]) - {a.tid} == s.threads - {a.tid};
    MoveFrame(env, s, Goto(s, a.tid, th), a.tid);
  }

  /** Starting an operation adds its thread or does nothing. */
  lemma BeginShape(s: State, a: Action) returns (th: Thread)
    requires a.BeginPublish? || a.BeginUnpublish? || a.BeginCheck? || a.BeginHandler?
    ensures Outside(s, a) == s || Outside(s, a) == Goto(s, a.tid, th)
  {
    if Outside(s, a) == s {
      th := Unpublish(Target("", ""), UnFind);
    } else {
      th := Outside(s, a).threads[a.tid];
    }
  }

  /** What the environment does, and starting or abandoning an operation, leaves every pod kept. */
  lemma OutsideFrame(env: Env, s: State, a: Action)
    requires !a.Act?
    ensures Frame(env, s, Outside(s, a), Actor(a))
  {
    if a.ExternalDelete? {
      TerminateFrame(env, s, a.name);
    } else if a.GiveUp? {
      FinishFrame(env, s, a.tid);
    } else if a.BeginPublish? || a.BeginUnpublish? || a.BeginCheck? || a.BeginHandler? {
      BeginFrame(env, s, a);
    } else {
      WorldFrame(env, s, Outside(s, a));
    }
  }

  lemma WorldFrame(env: Env, s: State, s': State)
    requires s'.names == s.names && s'.threads == s.threads && s'.locks == s.locks
    requires forall n | n in s'.pods :: n in s.pods && s'.pods[n] == s.pods[n]
    ensures Frame(env, s, s', -1)
  {
  }

  lemma OutsidePods(s: State, a: Action)
    requires PodInv(s) && !a.Act?
    ensures PodInv(Outside(s, a))
  {
  }

  /** Only the holder of the hash lock creates a pod of that hash or writes its annotations. */
  lemma OnlyOwnerWrites(env: Env, s: State, a: Action)
    requires Inv(env, s)
    ensures Frame(env, s, Next(env, s, a), Actor(a))
    ensures PodInv(Next(env, s, a))
  {
    if !a.Act? {
      OutsideFrame(env, s, a);
      OutsidePods(s, a);
    } else if a.tid in s.threads {
      var th := s.threads[a.tid];
      assert LocalInv(s, th);
      PlanAllowed(env, s, th, a.pick);
      PerformFrame(env, s, a.tid, Plan(env, s, th, a.pick));
    }
  }

  /** Two operations never own one name. */
  lemma OneOwner(env: Env, s: State, o: Tid, tid: int, n: Name)
    requires LockInv(env, s)
    requires o in s.threads && o != tid && Owns(env, s, o, n)
    ensures !Owns(env, s, tid, n)
  {
  }

  /** Under a foreign step, what an operation holding its lock knows stays true. */
  lemma OthersKeep(env: Env, s: State, s': State, tid: int, o: Tid)
    requires Inv(env, s) && Frame(env, s, s', tid)
    requires o in s'.threads && o != tid
    ensures LocalInv(s', s'.threads[o])
    ensures HoldsLock(env, s', o)
    ensures Locked(s.threads[o]) && Named(s.threads[o]) ==> Kept(s, s', NameOf(s.threads[o]))
  {
  }

  // ---------- what the acting operation knows next ----------

  lemma PublishNext(env: Env, s: State, tid: Tid, job: Job, at: PubAt, pick: Name)
    requires LocalInv(s, Publish(job, at)) && PodInv(s)
    ensures var o := PlanPublish(env, s, job, at, pick); o.Go? ==> LocalInv(Apply(env, s, tid, o.effect), o.next)
  {
  }

  lemma UnpublishNext(env: Env, s: State, tid: Tid, t: Target, at: UnAt, pick: Name)
    requires LocalInv(s, Unpublish(t, at)) && PodInv(s)
    ensures var o := PlanUnpublish(env, s, t, at, pick); o.Go? ==> LocalInv(Apply(env, s, tid, o.effect), o.next)
  {
  }

  lemma CheckNext(env: Env, s: State, tid: Tid, name: Name, snap: Pod, at: CkAt)
    requires LocalInv(s, Check(name, snap, at))
    ensures var o := PlanCheck(env, s, name, snap, at); o.Go? ==> LocalInv(Apply(env, s, tid, o.effect), o.next)
  {
    var o := PlanCheck(env, s, name, snap, at);
    if o.Go? {
      assert o.next.Check? && o.next.name == name && o.next.snap == snap;
      assert !o.effect.Generate?;
      assert o.next.ck.CkDelete? ==> at.CkReget? && o.effect.Nothing?;
    }
  }

  lemma HandleNext(env: Env, s: State, tid: Tid, name: Name, snap: Pod, at: HdAt)
    requires LocalInv(s, Handle(name, snap, at))
    ensures var o := PlanHandle(env, s, name, snap, at); o.Go? ==> LocalInv(Apply(env, s, tid, o.effect), o.next)
  {
  }

  lemma PlanNext(env: Env, s: State, tid: Tid, th: Thread, pick: Name)
    requires PodInv(s) && LocalInv(s, th)
    ensures var o := Plan(env, s, th, pick); o.Go? ==> LocalInv(Apply(env, s, tid, o.effect), o.next)
  {
    match th
    case Publish(job, at) => PublishNext(env, s, tid, job, at, pick);
    case Unpublish(t, at) => UnpublishNext(env, s, tid, t, at, pick);
    case Check(name, snap, at) => CheckNext(env, s, tid, name, snap, at);
    case Handle(name, snap, at) => HandleNext(env, s, tid, name, snap, at);
  }

  /** The step needs the lock it had, or has just taken it. */
  predicate LockStep(th: Thread, o: Outcome) {
    o.Go? && Locked(o.next) ==>
      && HashOf(o.next) == HashOf(th)
      && (if Locked(th) then !o.effect.TakeLock? else o.effect == TakeLock(HashOf(th)))
  }

  lemma LockCarried(env: Env, s: State, th: Thread, pick: Name)
    ensures LockStep(th, Plan(env, s, th, pick))
  {
  }

  lemma PerformKeeps(env: Env, s: State, tid: Tid, o: Outcome)
    requires tid in s.threads && LocalInv(s, s.threads[tid]) && HoldsLock(env, s, tid)
    requires LockStep(s.threads[tid], o)
    requires o.Go? ==> LocalInv(Apply(env, s, tid, o.effect), o.next)
    ensures var s' := Perform(env, s, tid, o);
            && HoldsLock(env, s', tid)
            && (tid in s'.threads ==> LocalInv(s', s'.threads[tid]))
  {
  }

  lemma BeginKeeps(env: Env, s: State, a: Action)
    requires Inv(env, s) && !a.Act? && Actor(a) in Outside(s, a).threads
    ensures var s' := Outside(s, a); LocalInv(s', s'.threads[Actor(a)]) && HoldsLock(env, s', Actor(a))
  {
  }

  lemma ActorKeeps(env: Env, s: State, a: Action)
    requires Inv(env, s)
    ensures var s' := Next(env, s, a);
            HoldsLock(env, s', Actor(a)) && (Actor(a) in s'.threads ==> LocalInv(s', s'.threads[Actor(a)]))
  {
    if !a.Act? {
      if Actor(a) in Outside(s, a).threads {
        BeginKeeps(env, s, a);
      }
    } else if a.tid in s.threads {
      var th := s.threads[a.tid];
      assert LocalInv(s, th) && HoldsLock(env, s, a.tid);
      PlanNext(env, s, a.tid, th, a.pick);
      LockCarried(env, s, th, a.pick);
      PerformKeeps(env, s, a.tid, Plan(env, s, th, a.pick));
    }
  }

  lemma InvStep(env: Env, s: State, a: Action)
    requires Inv(env, s)
    ensures Inv(env, Next(env, s, a))
  {
    var s' := Next(env, s, a);
    OnlyOwnerWrites(env, s, a);
    ActorKeeps(env, s, a);
    forall o | o in s'.threads
      ensures LocalInv(s', s'.threads[o]) && HoldsLock(env, s', o)
    {
      if o != Actor(a) {
        OthersKeep(env, s, s', Actor(a), o);
      }
    }
  }

  /** Every reachable state satisfies the lock discipline. */
  lemma {:induction false} Reachable(env: Env, run: seq<Action>)
    ensures Inv(env, Run(env, Init, run))
    decreases |run|
  {
    if run != [] {
      Reachable(env, run[..|run| - 1]);
      InvStep(env, Run(env, Init, run[..|run| - 1]), run[|run| - 1]);
    }
  }
}
