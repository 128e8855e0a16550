/**
checkAnnotations never drops the reference of an app pod that still exists.

The pass reads the mount pod, then lists the labelled app pods, and only then takes the lock; it
drops the references whose app pod is not in the list. This is right because a publish labels its
app pod before it stores the reference. A publish that does not name its app pod breaks it.
*/
module AppReferences {
  import opened Annotations
  import opened Protocol
  import opened Locking
  import opened Deletion

  /** The app pod is deleted for good, or exists with the label that the pod list selects by. */
  predicate Settled(s: State, uid: string) {
    uid in s.gone || (uid in s.apps && s.apps[uid])
  }

  ghost predicate AllSettled(s: State, a: Annos) {
    forall k | k in Refs(a) :: Settled(s, k.target.uid)
  }

  /** The publish names its app pod. */
  predicate NamesApp(s: State, a: Action) {
    a.BeginPublish? ==> a.job.hasApp
  }

  /** References of the snapshot that are not in the list belong to app pods deleted before the list was made. */
  ghost predicate Listed(s: State, snap: Pod, alive: set<string>) {
    forall k | k in Refs(snap.annos) :: k.target.uid in alive || k.target.uid in s.gone
  }

  ghost predicate AppLocal(s: State, th: Thread) {
    match th
    case Publish(job, at) =>
      && job.hasApp && CleanBase(job.base)
      && (!at.PubLock? && !at.PubList? && !at.PubLabel? ==> Settled(s, job.target.uid))
      && (at.PubPatch? ==> AllSettled(s, at.annos))
    case Unpublish(_, _) => true
    case Check(_, snap, at) =>
      && AllSettled(s, snap.annos)
      && (at.CkLock? || at.CkGet? || at.CkDrop? || at.CkDecide? ==> Listed(s, snap, at.alive))
    case Handle(_, snap, at) =>
      && AllSettled(s, snap.annos)
      && (at.HdMerge? ==> AllSettled(s, at.annos))
  }

  ghost predicate AppInv(s: State) {
    && (forall u | u in s.gone :: u !in s.apps)
    && (forall n | n in s.pods :: AllSettled(s, s.pods[n].annos))
    && (forall tid | tid in s.threads :: AppLocal(s, s.threads[tid]))
  }

  /** Labels are not taken back and deleted app pods do not return. */
  ghost predicate Grows(s: State, s': State) {
    && s.gone <= s'.gone
    && forall u | Settled(s, u) :: Settled(s', u)
  }

  lemma OutsideGrows(s: State, a: Action)
    requires !a.Act?
    ensures Grows(s, Outside(s, a))
  {
  }

  lemma EffectGrows(env: Env, s: State, tid: Tid, e: Effect)
    ensures Grows(s, Apply(env, s, tid, e))
  {
  }

  lemma PerformGrows(env: Env, s: State, tid: Tid, o: Outcome)
    ensures Grows(s, Perform(env, s, tid, o))
  {
    if !o.Blocked? {
      EffectGrows(env, s, tid, o.effect);
      GrowsOn(s, Apply(env, s, tid, o.effect), Perform(env, s, tid, o));
    }
  }

  lemma GrowsOn(s: State, s1: State, s2: State)
    requires Grows(s, s1) && s2.apps == s1.apps && s2.gone == s1.gone
    ensures Grows(s, s2)
  {
  }

  lemma NextGrows(env: Env, s: State, a: Action)
    ensures Grows(s, Next(env, s, a))
  {
    if !a.Act? {
      OutsideGrows(s, a);
    } else if a.tid in s.threads {
      PerformGrows(env, s, a.tid, Plan(env, s, s.threads[a.tid], a.pick));
    }
  }

  lemma LocalGrows(s: State, s': State, th: Thread)
    requires AppLocal(s, th) && Grows(s, s')
    ensures AppLocal(s', th)
  {
  }

  /** Everything an operation stores is settled. */
  lemma PlanStores(env: Env, s: State, th: Thread, pick: Name)
    requires AppInv(s) && AppLocal(s, th)
    ensures var o := Plan(env, s, th, pick);
            !o.Blocked? && (o.effect.PatchAnnos? || o.effect.CreatePod?) ==> AllSettled(s, o.effect.annos)
  {
  }

  lemma PublishAppNext(env: Env, s: State, tid: Tid, job: Job, at: PubAt, pick: Name)
    requires AppInv(s) && AppLocal(s, Publish(job, at))
    ensures var o := PlanPublish(env, s, job, at, pick); o.Go? ==> AppLocal(Apply(env, s, tid, o.effect), o.next)
  {
  }

  lemma CheckAppNext(env: Env, s: State, tid: Tid, name: Name, snap: Pod, at: CkAt)
    requires AppInv(s) && AppLocal(s, Check(name, snap, at))
    ensures var o := PlanCheck(env, s, name, snap, at); o.Go? ==> AppLocal(Apply(env, s, tid, o.effect), o.next)
  {
  }

  lemma HandleAppNext(env: Env, s: State, tid: Tid, name: Name, snap: Pod, at: HdAt)
    requires AppInv(s) && AppLocal(s, Handle(name, snap, at))
    ensures var o := PlanHandle(env, s, name, snap, at); o.Go? ==> AppLocal(Apply(env, s, tid, o.effect), o.next)
  {
  }

  lemma PlanAppNext(env: Env, s: State, tid: Tid, th: Thread, pick: Name)
    requires AppInv(s) && AppLocal(s, th)
    ensures var o := Plan(env, s, th, pick); o.Go? ==> AppLocal(Apply(env, s, tid, o.effect), o.next)
  {
    match th
    case Publish(job, at) => PublishAppNext(env, s, tid, job, at, pick);
    case Unpublish(_, _) =>
    case Check(name, snap, at) => CheckAppNext(env, s, tid, name, snap, at);
    case Handle(name, snap, at) => HandleAppNext(env, s, tid, name, snap, at);
  }

  lemma EffectStores(env: Env, s: State, tid: Tid, e: Effect)
    requires AppInv(s)
    requires e.LabelApp? ==> e.uid in s.apps
    requires e.PatchAnnos? || e.CreatePod? ==> AllSettled(s, e.annos)
    ensures var s' := Apply(env, s, tid, e);
            && (forall u | u in s'.gone :: u !in s'.apps)
            && (forall n | n in s'.pods :: AllSettled(s', s'.pods[n].annos))
  {
  }

  lemma PlanLabels(env: Env, s: State, th: Thread, pick: Name)
    ensures var o := Plan(env, s, th, pick); !o.Blocked? && o.effect.LabelApp? ==> o.effect.uid in s.apps
  {
  }

  ghost predicate StoreInv(s: State) {
    && (forall u | u in s.gone :: u !in s.apps)
    && (forall n | n in s.pods :: AllSettled(s, s.pods[n].annos))
  }

  lemma OutsideStores(s: State, a: Action)
    requires StoreInv(s) && !a.Act?
    ensures StoreInv(Outside(s, a))
  {
  }

  lemma BeginLocal(s: State, a: Action)
    requires AppInv(s) && !a.Act? && NamesApp(s, a)
    requires Actor(a) in Outside(s, a).threads && Actor(a) !in s.threads
    ensures AppLocal(Outside(s, a), Outside(s, a).threads[Actor(a)])
  {
  }

  lemma PerformStores(env: Env, s: State, tid: Tid, th: Thread, pick: Name)
    requires AppInv(s) && AppLocal(s, th)
    ensures var o := Plan(env, s, th, pick);
            && StoreInv(Perform(env, s, tid, o))
            && (o.Go? ==> AppLocal(Perform(env, s, tid, o), o.next))
  {
    var o := Plan(env, s, th, pick);
    PlanStores(env, s, th, pick);
    PlanLabels(env, s, th, pick);
    PlanAppNext(env, s, tid, th, pick);
    if !o.Blocked? {
      EffectStores(env, s, tid, o.effect);
      SameApps(Apply(env, s, tid, o.effect), Perform(env, s, tid, o));
      if o.Go? {
        LocalGrows(Apply(env, s, tid, o.effect), Perform(env, s, tid, o), o.next);
      }
    }
  }

  lemma SameApps(s: State, s': State)
    requires StoreInv(s) && s'.pods == s.pods && s'.apps == s.apps && s'.gone == s.gone
    ensures StoreInv(s') && Grows(s, s')
  {
  }

  lemma EffectThreads(env: Env, s: State, tid: Tid, e: Effect)
    ensures Apply(env, s, tid, e).threads == s.threads
  {
  }

  lemma PerformMoves(env: Env, s: State, tid: Tid, out: Outcome, o: Tid)
    requires o in Perform(env, s, tid, out).threads && o != tid
    ensures o in s.threads && Perform(env, s, tid, out).threads[o] == s.threads[o]
  {
    if !out.Blocked? {
      EffectThreads(env, s, tid, out.effect);
    }
  }

  /** Only the acting operation moves. */
  lemma OnlyActorMoves(env: Env, s: State, a: Action, o: Tid)
    requires o in Next(env, s, a).threads && o != Actor(a)
    ensures o in s.threads && Next(env, s, a).threads[o] == s.threads[o]
  {
    if a.Act? && a.tid in s.threads {
      PerformMoves(env, s, a.tid, Plan(env, s, s.threads[a.tid], a.pick), o);
    }
  }

  lemma ActorLocal(env: Env, s: State, a: Action)
    requires AppInv(s) && NamesApp(s, a) && Actor(a) in Next(env, s, a).threads
    ensures AppLocal(Next(env, s, a), Next(env, s, a).threads[Actor(a)])
  {
    var s' := Next(env, s, a);
    if Actor(a) !in s.threads {
      BeginLocal(s, a);
    } else {
      var th := s.threads[Actor(a)];
      assert AppLocal(s, th);
      if a.Act? && Plan(env, s, th, a.pick).Go? {
        PerformStores(env, s, a.tid, th, a.pick);
      } else {
        NextGrows(env, s, a);
        LocalGrows(s, s', th);
      }
    }
  }

  lemma AppStep(env: Env, s: State, a: Action)
    requires AppInv(s) && NamesApp(s, a)
    ensures AppInv(Next(env, s, a))
  {
    var s' := Next(env, s, a);
    NextGrows(env, s, a);
    if !a.Act? {
      OutsideStores(s, a);
    } else if a.tid in s.threads {
      assert AppLocal(s, s.threads[a.tid]);
      PerformStores(env, s, a.tid, s.threads[a.tid], a.pick);
    }
    forall o | o in s'.threads
      ensures AppLocal(s', s'.threads[o])
    {
      if o == Actor(a) {
        ActorLocal(env, s, a);
      } else {
        OnlyActorMoves(env, s, a, o);
        assert AppLocal(s, s.threads[o]);
        LocalGrows(s, s', s.threads[o]);
      }
    }
  }

  lemma {:induction false} AppReachable(env: Env, run: seq<Action>)
    requires Always(env, NamesApp, run)
    ensures AppInv(Run(env, Init, run))
    decreases |run|
  {
    if run != [] {
      AppReachable(env, run[..|run| - 1]);
      AppStep(env, Run(env, Init, run[..|run| - 1]), run[|run| - 1]);
    }
  }

  // ---------- the promise ----------

  /** A patch takes away the unpublished target, or references whose app pod was not in the list. */
  lemma PlanTakes(env: Env, s: State, th: Thread, pick: Name, n: Name, k: Key)
    requires LocalInv(s, th) && PodInv(s) && AppLocal(s, th) && n in s.pods && k in Refs(s.pods[n].annos)
    requires var o := Plan(env, s, th, pick); !o.Blocked? && o.effect.PatchAnnos? && o.effect.name == n && k !in Refs(o.effect.annos)
    ensures (th.Unpublish? && k == RefKey(th.target)) || (th.Check? && k.target.uid in s.gone)
  {
  }

  /**
  A reference disappears from a stored pod only by the unpublish of its own target, or in a
  checkAnnotations pass after its app pod was deleted. In particular no pass, however stale its
  snapshot, removes the reference of an app pod that still exists.
  */
  lemma LiveReferencesStay(env: Env, run: seq<Action>, a: Action, n: Name, k: Key)
    requires Always(env, NamesApp, run)
    requires var s, s' := Run(env, Init, run), Next(env, Run(env, Init, run), a);
             n in s.pods && k in Refs(s.pods[n].annos) && n in s'.pods && k !in Refs(s'.pods[n].annos)
    ensures var s := Run(env, Init, run);
            && a.Act? && a.tid in s.threads
            && ((s.threads[a.tid].Unpublish? && k == RefKey(s.threads[a.tid].target))
                || (s.threads[a.tid].Check? && k.target.uid !in s.apps))
  {
    var s := Run(env, Init, run);
    Reachable(env, run);
    AppReachable(env, run);
    if a.Act? && a.tid in s.threads {
      ActOnPod(env, s, a.tid, a.pick, n);
      assert AppLocal(s, s.threads[a.tid]);
      PlanTakes(env, s, s.threads[a.tid], a.pick, n, k);
    } else if !a.Act? {
      OutsideAnnos(s, a, n);
    }
  }

  // ---------- the label is exactly what protects a reference ----------

  /** An undisturbed pass up to its lock. */
  lemma PassLocks(env: Env, s: State, c: Tid, n: Name, alive: set<string>)
    requires n in s.pods && c !in s.threads && env.lockOf(s.pods[n].labels.hash) !in s.locks
    requires alive == (set u | u in s.apps && s.apps[u]) && DropKeys(s.pods[n], alive) != {}
    ensures Run(env, s, [BeginCheck(c, n), Act(c, ""), Act(c, "")])
         == Goto(s.(locks := s.locks[env.lockOf(s.pods[n].labels.hash) := c]), c, Check(n, s.pods[n], CkGet(alive)))
  {
    var snap := s.pods[n];
    var s1 := Goto(s, c, Check(n, snap, CkList));
    assert Next(env, s, BeginCheck(c, n)) == s1;
    PassLists(env, s1, c, n, snap);
    var s2 := Goto(s, c, Check(n, snap, CkLock(alive)));
    assert s1.threads[c := Check(n, snap, CkLock(alive))] == s2.threads;
    PassTakes(env, s2, c, n, snap, alive);
    RunThree(env, s, BeginCheck(c, n), Act(c, ""), Act(c, ""));
    assert s2.threads[c := Check(n, snap, CkGet(alive))] == s.threads[c := Check(n, snap, CkGet(alive))];
  }

  lemma PassLists(env: Env, s: State, c: Tid, n: Name, snap: Pod)
    requires c in s.threads && s.threads[c] == Check(n, snap, CkList)
    ensures Next(env, s, Act(c, "")) == Goto(s, c, Check(n, snap, CkLock(set u | u in s.apps && s.apps[u])))
  {
  }

  lemma PassTakes(env: Env, s: State, c: Tid, n: Name, snap: Pod, alive: set<string>)
    requires c in s.threads && s.threads[c] == Check(n, snap, CkLock(alive)) && DropKeys(snap, alive) != {}
    requires env.lockOf(snap.labels.hash) !in s.locks
    ensures Next(env, s, Act(c, ""))
         == Goto(s.(locks := s.locks[env.lockOf(snap.labels.hash) := c]), c, Check(n, snap, CkGet(alive)))
  {
  }

  lemma DropKeysStored(snap: Pod, alive: set<string>)
    ensures DropKeys(snap, alive) <= snap.annos.Keys
  {
  }

  /** The rest of it: the stored references are as many as in the snapshot, so the patch goes out. */
  lemma PassDrops(env: Env, s: State, c: Tid, n: Name, alive: set<string>)
    requires n in s.pods && c in s.threads && s.threads[c] == Check(n, s.pods[n], CkGet(alive))
    ensures var f := Run(env, s, [Act(c, ""), Act(c, "")]);
            n in f.pods && f.pods[n].annos == s.pods[n].annos - DropKeys(s.pods[n], alive) && f.apps == s.apps
  {
    var snap := s.pods[n];
    var s1 := Next(env, s, Act(c, ""));
    assert s1 == Goto(s, c, Check(n, snap, CkDrop(alive)));
    DropKeysStored(snap, alive);
    RunTwo(env, s, Act(c, ""), Act(c, ""));
  }

  /**
  In any reachable state at all: the reference of an existing app pod without the label is dropped
  by the next pass that gets through undisturbed.
  */
  lemma UnlabelledIsDropped(env: Env, run: seq<Action>, c: Tid, n: Name, k: Key)
    requires var s := Run(env, Init, run);
             && n in s.pods && k in Refs(s.pods[n].annos) && k.target.uid in s.apps && !s.apps[k.target.uid]
             && c !in s.threads && env.lockOf(s.pods[n].labels.hash) !in s.locks
    ensures var s := Run(env, Init, run);
            var f := Run(env, s, [BeginCheck(c, n), Act(c, ""), Act(c, "")] + [Act(c, ""), Act(c, "")]);
            n in f.pods && k !in Refs(f.pods[n].annos) && k.target.uid in f.apps
  {
    var s := Run(env, Init, run);
    var alive := set u | u in s.apps && s.apps[u];
    assert k in DropKeys(s.pods[n], alive);
    PassLocks(env, s, c, n, alive);
    var s3 := Run(env, s, [BeginCheck(c, n), Act(c, ""), Act(c, "")]);
    PassDrops(env, s3, c, n, alive);
    RunAppend(env, s, [BeginCheck(c, n), Act(c, ""), Act(c, "")], [Act(c, ""), Act(c, "")]);
  }

  // ---------- over whole runs ----------

  /** The step is the unpublish of `k`, or a pass after the app pod of `k` was deleted. */
  predicate MayTake(s: State, a: Action, k: Key) {
    && a.Act? && a.tid in s.threads && k.RefKey?
    && ((s.threads[a.tid].Unpublish? && k == RefKey(s.threads[a.tid].target))
        || (s.threads[a.tid].Check? && k.target.uid !in s.apps))
  }

  /** No other step takes a reference away. */
  ghost predicate TakesOnlyDead(env: Env, s: State, a: Action) {
    var s' := Next(env, s, a);
    forall n, k | n in s.pods && k in Refs(s.pods[n].annos) && n in s'.pods && k !in Refs(s'.pods[n].annos) :: MayTake(s, a, k)
  }

  lemma TakesStep(env: Env, run: seq<Action>, a: Action)
    requires Always(env, NamesApp, run)
    ensures TakesOnlyDead(env, Run(env, Init, run), a)
  {
    var s, s' := Run(env, Init, run), Next(env, Run(env, Init, run), a);
    forall n, k | n in s.pods && k in Refs(s.pods[n].annos) && n in s'.pods && k !in Refs(s'.pods[n].annos)
      ensures MayTake(s, a, k)
    {
      LiveReferencesStay(env, run, a, n, k);
    }
  }

  /** In every run whose publishes name their app pods, no step takes the reference of a living app pod. */
  lemma {:induction false} LivingKeepReferences(env: Env, run: seq<Action>)
    requires Always(env, NamesApp, run)
    ensures Always(env, (s: State, a: Action) => TakesOnlyDead(env, s, a), run)
    decreases |run|
  {
    if run != [] {
      LivingKeepReferences(env, run[..|run| - 1]);
      TakesStep(env, run[..|run| - 1], run[|run| - 1]);
    }
  }
}
