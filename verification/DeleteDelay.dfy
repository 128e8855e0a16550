/**
The delete delay: a pod with delay `d` is not deleted for lack of use before its last reference
has been gone for `d`, up to the second that formatting truncates and the zone that parsing drops.

Two things must hold for it: checkAnnotations passes see the current annotations when they get the
lock, and podDeletedHandler merges only into a pod without a stamp.
*/
module DeleteDelay {
  import opened Annotations
  import opened Protocol
  import opened Locking
  import opened Deletion
  import opened Survival

  /** The pass is about to take its lock with a snapshot that is still current. */
  predicate FreshPass(s: State, a: Action) {
    a.Act? && a.tid in s.threads && s.threads[a.tid].Check? && s.threads[a.tid].ck.CkLock?
    && s.threads[a.tid].name in s.pods
    ==> s.pods[s.threads[a.tid].name].annos == s.threads[a.tid].snap.annos
  }

  /** The handler finds a replacement without a stamp. */
  predicate UnstampedMerge(s: State, a: Action) {
    a.Act? && a.tid in s.threads && s.threads[a.tid].Handle? && s.threads[a.tid].hd.HdGet?
    && s.threads[a.tid].name in s.pods
    ==> DelayAtKey !in s.pods[s.threads[a.tid].name].annos
  }

  predicate Orderly(s: State, a: Action) {
    FreshPass(s, a) && UnstampedMerge(s, a)
  }

  /** A stamp that lies at least the delay after the pod became idle, less the truncated second. */
  predicate StampOk(pod: Pod, second: int) {
    DelayTimeKey in pod.annos && pod.annos[DelayTimeKey].Duration? ==>
      second * SECOND > pod.idleSince + pod.annos[DelayTimeKey].nanos - SECOND
  }

  predicate Elapsed(env: Env, pod: Pod, now: int) {
    DelayTimeKey in pod.annos && pod.annos[DelayTimeKey].Duration? ==>
      now > pod.idleSince + pod.annos[DelayTimeKey].nanos + env.zone * SECOND - SECOND
  }

  predicate StampedIdle(a: Annos) {
    DelayAtKey in a ==> Refs(a) == {}
  }

  ghost predicate PodDelay(pod: Pod, now: int) {
    && pod.idleSince <= now
    && StampedIdle(pod.annos)
    && (DelayAtKey in pod.annos ==> pod.annos[DelayAtKey].Stamp? && StampOk(pod, pod.annos[DelayAtKey].second))
  }

  ghost predicate DelayLocal(env: Env, s: State, th: Thread) {
    match th
    case Publish(_, _) => true
    case Unpublish(_, at) =>
      && (at.UnStamp? && at.name in s.pods ==> StampOk(s.pods[at.name], at.second))
      && (at.UnDelete? && at.name in s.pods ==> Elapsed(env, s.pods[at.name], s.now))
    case Check(n, snap, at) =>
      n in s.pods ==>
        && (at.CkGet? || at.CkDrop? ==> s.pods[n].annos == snap.annos)
        && (at.CkDecide? ==> s.pods[n].annos == snap.annos - DropKeys(snap, at.alive))
        && (at.CkStamp? ==> Refs(s.pods[n].annos) == {} && StampOk(s.pods[n], at.second))
        && (at.CkReget? || at.CkDelete? ==> Elapsed(env, s.pods[n], s.now))
    case Handle(n, snap, at) =>
      && StampedIdle(snap.annos)
      && (at.HdLock? || at.HdGet? || at.HdCreate? ==> Refs(snap.annos) != {})
      && (at.HdMerge? && n in s.pods ==> DelayAtKey !in s.pods[n].annos)
  }

  ghost predicate StoreDelay(s: State) {
    forall n | n in s.pods :: PodDelay(s.pods[n], s.now)
  }

  ghost predicate DelayInv(env: Env, s: State) {
    && Inv(env, s)
    && StoreDelay(s)
    && forall tid | tid in s.threads :: DelayLocal(env, s, s.threads[tid])
  }

  // ---------- what operations store ----------

  /** The pod a patch leaves behind. */
  function Patched(s: State, n: Name, annos: Annos): Pod
    requires n in s.pods
  {
    s.pods[n].(annos := annos, idleSince := IdleSince(s.pods[n], annos, s.now))
  }

  lemma PlanStoresDelay(env: Env, s: State, th: Thread, pick: Name)
    requires LocalInv(s, th) && DelayLocal(env, s, th) && StoreDelay(s)
    ensures var o := Plan(env, s, th, pick);
            && (!o.Blocked? && o.effect.PatchAnnos? ==> o.effect.name in s.pods && PodDelay(Patched(s, o.effect.name, o.effect.annos), s.now))
            && (!o.Blocked? && o.effect.CreatePod? ==> DelayAtKey !in o.effect.annos)
  {
  }

  lemma EffectDelay(env: Env, s: State, tid: Tid, e: Effect)
    requires StoreDelay(s)
    requires e.PatchAnnos? ==> e.name in s.pods && PodDelay(Patched(s, e.name, e.annos), s.now)
    requires e.CreatePod? ==> DelayAtKey !in e.annos
    ensures StoreDelay(Apply(env, s, tid, e))
  {
  }

  lemma OutsideDelay(s: State, a: Action)
    requires StoreDelay(s) && !a.Act?
    ensures StoreDelay(Outside(s, a))
  {
  }

  // ---------- what operations know ----------

  lemma UnpublishKnows(env: Env, s: State, tid: Tid, t: Target, at: UnAt, pick: Name)
    requires LocalInv(s, Unpublish(t, at)) && DelayLocal(env, s, Unpublish(t, at)) && StoreDelay(s)
    ensures var o := PlanUnpublish(env, s, t, at, pick); o.Go? ==> DelayLocal(env, Apply(env, s, tid, o.effect), o.next)
  {
  }

  lemma CheckKnows(env: Env, s: State, tid: Tid, n: Name, snap: Pod, at: CkAt)
    requires DelayLocal(env, s, Check(n, snap, at)) && StoreDelay(s)
    requires at.CkLock? && n in s.pods ==> s.pods[n].annos == snap.annos
    ensures var o := PlanCheck(env, s, n, snap, at); o.Go? ==> DelayLocal(env, Apply(env, s, tid, o.effect), o.next)
  {
  }

  lemma HandleKnows(env: Env, s: State, tid: Tid, n: Name, snap: Pod, at: HdAt)
    requires DelayLocal(env, s, Handle(n, snap, at))
    requires at.HdGet? && n in s.pods ==> DelayAtKey !in s.pods[n].annos
    ensures var o := PlanHandle(env, s, n, snap, at); o.Go? ==> DelayLocal(env, Apply(env, s, tid, o.effect), o.next)
  {
  }

  lemma PublishKnows(env: Env, s: State, tid: Tid, job: Job, at: PubAt, pick: Name)
    ensures var o := PlanPublish(env, s, job, at, pick); o.Go? ==> DelayLocal(env, Apply(env, s, tid, o.effect), o.next)
  {
  }

  lemma PlanKnows(env: Env, s: State, tid: Tid, pick: Name)
    requires DelayInv(env, s) && tid in s.threads && Orderly(s, Act(tid, pick))
    ensures var o := Plan(env, s, s.threads[tid], pick); o.Go? ==> DelayLocal(env, Apply(env, s, tid, o.effect), o.next)
  {
    var th := s.threads[tid];
    assert LocalInv(s, th) && DelayLocal(env, s, th);
    match th
    case Publish(job, at) => PublishKnows(env, s, tid, job, at, pick);
    case Unpublish(t, at) => UnpublishKnows(env, s, tid, t, at, pick);
    case Check(n, snap, at) => CheckKnows(env, s, tid, n, snap, at);
    case Handle(n, snap, at) => HandleKnows(env, s, tid, n, snap, at);
  }

  /** Knowledge outlives steps that leave the pod alone, whatever the clock does. */
  lemma KnowledgeKept(env: Env, s: State, s': State, th: Thread)
    requires DelayLocal(env, s, th) && s.now <= s'.now
    requires Locked(th) && Named(th) ==> Kept(s, s', NameOf(th))
    ensures DelayLocal(env, s', th)
  {
  }

  lemma BeginKnows(env: Env, s: State, a: Action)
    requires StoreDelay(s) && !a.Act? && Actor(a) !in s.threads && Actor(a) in Outside(s, a).threads
    ensures DelayLocal(env, Outside(s, a), Outside(s, a).threads[Actor(a)])
  {
  }

  lemma ClockRuns(env: Env, s: State, a: Action)
    ensures s.now <= Next(env, s, a).now
  {
    if a.Act? && a.tid in s.threads {
      var o := Plan(env, s, s.threads[a.tid], a.pick);
      assert !o.Blocked? ==> Apply(env, s, a.tid, o.effect).now == s.now;
    }
  }

  lemma ActorKnows(env: Env, s: State, a: Action)
    requires DelayInv(env, s) && Orderly(s, a) && Actor(a) in Next(env, s, a).threads
    ensures DelayLocal(env, Next(env, s, a), Next(env, s, a).threads[Actor(a)])
  {
    var s' := Next(env, s, a);
    if Actor(a) !in s.threads {
      BeginKnows(env, s, a);
    } else {
      var th := s.threads[Actor(a)];
      assert DelayLocal(env, s, th);
      if a.Act? {
        PlanKnows(env, s, a.tid, a.pick);
        var o := Plan(env, s, th, a.pick);
        if o.Go? {
          KnowledgeKept(env, Apply(env, s, a.tid, o.effect), s', o.next);
        }
      }
    }
  }

  lemma StoreStep(env: Env, s: State, a: Action)
    requires DelayInv(env, s)
    ensures StoreDelay(Next(env, s, a))
  {
    if !a.Act? {
      OutsideDelay(s, a);
    } else if a.tid in s.threads {
      var th := s.threads[a.tid];
      assert LocalInv(s, th) && DelayLocal(env, s, th);
      var o := Plan(env, s, th, a.pick);
      PlanStoresDelay(env, s, th, a.pick);
      if !o.Blocked? {
        EffectDelay(env, s, a.tid, o.effect);
      }
    }
  }

  lemma DelayStep(env: Env, s: State, a: Action)
    requires DelayInv(env, s) && Orderly(s, a)
    ensures DelayInv(env, Next(env, s, a))
  {
    var s' := Next(env, s, a);
    InvStep(env, s, a);
    OnlyOwnerWrites(env, s, a);
    StoreStep(env, s, a);
    ClockRuns(env, s, a);
    forall o | o in s'.threads
      ensures DelayLocal(env, s', s'.threads[o])
    {
      if o == Actor(a) {
        ActorKnows(env, s, a);
      } else {
        OthersKeep(env, s, s', Actor(a), o);
        assert DelayLocal(env, s, s.threads[o]);
        KnowledgeKept(env, s, s', s.threads[o]);
      }
    }
  }

  lemma {:induction false} DelayReachable(env: Env, run: seq<Action>)
    requires Always(env, Orderly, run)
    ensures DelayInv(env, Run(env, Init, run))
    decreases |run|
  {
    if run != [] {
      DelayReachable(env, run[..|run| - 1]);
      DelayStep(env, Run(env, Init, run[..|run| - 1]), run[|run| - 1]);
    }
  }

  // ---------- the promises ----------

  /** The history field means what it says: it never lies before an instant at which the pod was in use. */
  ghost predicate IdleAfter(s: State, n: Name, uid: nat, t: int) {
    && t <= s.now && uid < s.nextUid
    && (n in s.pods && s.pods[n].uid == uid && Refs(s.pods[n].annos) == {} ==> t <= s.pods[n].idleSince)
  }

  lemma EffectIdle(env: Env, s: State, tid: Tid, e: Effect, n: Name, uid: nat, t: int)
    requires IdleAfter(s, n, uid, t)
    ensures IdleAfter(Apply(env, s, tid, e), n, uid, t)
  {
  }

  lemma NextIdle(env: Env, s: State, a: Action, n: Name, uid: nat, t: int)
    requires IdleAfter(s, n, uid, t)
    ensures IdleAfter(Next(env, s, a), n, uid, t)
  {
    if a.Act? && a.tid in s.threads {
      var o := Plan(env, s, s.threads[a.tid], a.pick);
      if !o.Blocked? {
        EffectIdle(env, s, a.tid, o.effect, n, uid, t);
      }
    }
  }

  lemma {:induction false} RunIdle(env: Env, s: State, run: seq<Action>, n: Name, uid: nat, t: int)
    requires IdleAfter(s, n, uid, t)
    ensures IdleAfter(Run(env, s, run), n, uid, t)
    decreases |run|
  {
    if run != [] {
      RunIdle(env, s, run[..|run| - 1], n, uid, t);
      NextIdle(env, Run(env, s, run[..|run| - 1]), run[|run| - 1], n, uid, t);
    }
  }

  /**
  If pod `n` was in use at some point of the run and a later step makes the same pod terminate for
  lack of use, then more than its delay lies between the two instants, less one second and shifted
  by the local zone; with a UTC clock the shift is zero.
  */
  lemma DelayHonoured(env: Env, before: seq<Action>, after: seq<Action>, a: Action, n: Name)
    requires Always(env, Orderly, before + after)
    requires var s0, s := Run(env, Init, before), Run(env, Init, before + after);
             && n in s0.pods && Refs(s0.pods[n].annos) != {}
             && n in s.pods && s.pods[n].uid == s0.pods[n].uid && !s.pods[n].terminating
             && DelayTimeKey in s.pods[n].annos && s.pods[n].annos[DelayTimeKey].Duration?
    requires var s' := Next(env, Run(env, Init, before + after), a); n in s'.pods && s'.pods[n].terminating
    requires a != ExternalDelete(n)
    ensures var s0, s := Run(env, Init, before), Run(env, Init, before + after);
            s.now - s0.now > s.pods[n].annos[DelayTimeKey].nanos + env.zone * SECOND - SECOND
  {
    var s0, s := Run(env, Init, before), Run(env, Init, before + after);
    UidReachable(env, before);
    RunAppend(env, Init, before, after);
    RunIdle(env, s0, after, n, s0.pods[n].uid, s0.now);
    DelayReachable(env, before + after);
    DeletedOnlyUnreferenced(env, before + after, a, n);
    DeleterWaited(env, s, a, n);
  }

  lemma DeleterKnows(env: Env, s: State, th: Thread, pick: Name, n: Name)
    requires DelayLocal(env, s, th) && n in s.pods
    requires var o := Plan(env, s, th, pick); !o.Blocked? && o.effect == DeletePod(n)
    ensures Elapsed(env, s.pods[n], s.now)
  {
  }

  // ---------- the two conditions are needed ----------

  /**
  In any state: a pass whose snapshot shows an idle pod with a delay stamps whatever is stored now,
  so the stamped pod is in use exactly when the snapshot was out of date about that.
  */
  lemma StalePassStamps(env: Env, s: State, c: Tid, n: Name, snap: Pod, alive: set<string>)
    requires c in s.threads && s.threads[c] == Check(n, snap, CkDecide(alive))
    requires Refs(snap.annos) == {} && !snap.terminating && n in s.pods
    requires ShouldDelay(env, snap.annos, s.now).StampAt?
    ensures var f := Run(env, s, [Act(c, ""), Act(c, "")]);
            && n in f.pods && DelayAtKey in f.pods[n].annos
            && (StampedIdle(f.pods[n].annos) <==> Refs(s.pods[n].annos) == {})
  {
    var sec := ShouldDelay(env, snap.annos, s.now).second;
    var s1 := Next(env, s, Act(c, ""));
    assert s1 == Goto(s, c, Check(n, snap, CkStamp(sec)));
    RunTwo(env, s, Act(c, ""), Act(c, ""));
    assert Refs(s.pods[n].annos[DelayAtKey := Stamp(sec)]) == Refs(s.pods[n].annos);
  }

  /** The stamp in these annotations is there and no longer in the future. */
  predicate StampPassed(env: Env, a: Annos, now: int) {
    DelayAtKey in a && !(a[DelayAtKey].Stamp? && now < (a[DelayAtKey].second + env.zone) * SECOND)
  }

  /**
  In any state: an undisturbed pass whose snapshot shows an unused pod with a delay deletes what is
  stored now if and only if the stamp of the snapshot has passed and nothing refers to the stored pod;
  the stamp that is stored does not matter. If that one has not passed, the snapshot was out of date.
  */
  lemma StalePassDeletesIff(env: Env, s: State, c: Tid, n: Name, snap: Pod, alive: set<string>)
    requires c in s.threads && s.threads[c] == Check(n, snap, CkDecide(alive)) && n in s.pods && !s.pods[n].terminating
    requires LiveRefs(snap, alive) == {} && !snap.terminating && DelayTimeKey in snap.annos && snap.annos[DelayTimeKey].Duration?
    ensures var f := Run(env, s, [Act(c, ""), Act(c, ""), Act(c, "")]);
            && n in f.pods
            && (f.pods[n].terminating <==> StampPassed(env, snap.annos, s.now) && Refs(s.pods[n].annos) == {})
            && (f.pods[n].terminating && !StampPassed(env, s.pods[n].annos, s.now) ==> snap.annos != s.pods[n].annos)
  {
    RunThree(env, s, Act(c, ""), Act(c, ""), Act(c, ""));
    if StampPassed(env, snap.annos, s.now) {
      PassRegets(env, s, c, n, snap, alive);
    } else {
      PassSpares(env, s, c, n, snap, alive);
    }
  }

  lemma PassRegets(env: Env, s: State, c: Tid, n: Name, snap: Pod, alive: set<string>)
    requires c in s.threads && s.threads[c] == Check(n, snap, CkDecide(alive)) && n in s.pods && !s.pods[n].terminating
    requires LiveRefs(snap, alive) == {} && !snap.terminating && ShouldDelay(env, snap.annos, s.now).DeleteNow?
    ensures var f := Next(env, Next(env, Next(env, s, Act(c, "")), Act(c, "")), Act(c, ""));
            n in f.pods && (f.pods[n].terminating <==> Refs(s.pods[n].annos) == {})
  {
    var s1 := Goto(s, c, Check(n, snap, CkReget));
    assert Next(env, s, Act(c, "")) == s1;
    if Refs(s.pods[n].annos) == {} {
      var s2 := Goto(s1, c, Check(n, snap, CkDelete));
      assert Next(env, s1, Act(c, "")) == s2;
    } else {
      assert Next(env, s1, Act(c, "")) == Finish(s1, c);
    }
  }

  lemma PassSpares(env: Env, s: State, c: Tid, n: Name, snap: Pod, alive: set<string>)
    requires c in s.threads && s.threads[c] == Check(n, snap, CkDecide(alive)) && n in s.pods && !s.pods[n].terminating
    requires LiveRefs(snap, alive) == {} && !snap.terminating && !ShouldDelay(env, snap.annos, s.now).DeleteNow?
    ensures var f := Next(env, Next(env, Next(env, s, Act(c, "")), Act(c, "")), Act(c, ""));
            n in f.pods && !f.pods[n].terminating
  {
    var v := ShouldDelay(env, snap.annos, s.now);
    if v.Wait? {
      assert Next(env, s, Act(c, "")) == Finish(s, c);
    } else {
      var s1 := Goto(s, c, Check(n, snap, CkStamp(v.second)));
      assert Next(env, s, Act(c, "")) == s1;
    }
  }

  /** In any reachable state: a merge leaves a stamp on a pod in use exactly when it found one. */
  lemma MergeKeepsStamp(env: Env, run: seq<Action>, tid: Tid, pick: Name)
    requires var s := Run(env, Init, run);
             && tid in s.threads && s.threads[tid].Handle? && s.threads[tid].hd.HdMerge?
             && s.threads[tid].name in s.pods && Refs(s.threads[tid].snap.annos) != {}
    ensures var s, s' := Run(env, Init, run), Next(env, Run(env, Init, run), Act(tid, pick));
            var n := s.threads[tid].name;
            n in s'.pods && (StampedIdle(s'.pods[n].annos) <==> DelayAtKey !in s.pods[n].annos)
  {
    var s := Run(env, Init, run);
    Reachable(env, run);
    var th := s.threads[tid];
    assert LocalInv(s, th);
    MergeRefsUnion(s.pods[th.name].annos, th.snap.annos);
  }

  // ---------- over whole runs ----------

  /** Stamped pods are unused, and the step makes a pod terminate for lack of use only when its delay has passed. */
  ghost predicate Waits(env: Env, s: State, a: Action) {
    var s' := Next(env, s, a);
    && (forall n | n in s.pods :: StampedIdle(s.pods[n].annos))
    && (forall n | n in s.pods && !s.pods[n].terminating && n in s'.pods && s'.pods[n].terminating && a != ExternalDelete(n) ::
          Refs(s.pods[n].annos) == {} && Elapsed(env, s.pods[n], s.now))
  }

  /** In every orderly run the delay counts from the instant the last reference went. */
  lemma {:induction false} DelaysAreWaited(env: Env, run: seq<Action>)
    requires Always(env, Orderly, run)
    ensures Always(env, (s: State, a: Action) => Waits(env, s, a), run)
    decreases |run|
  {
    if run != [] {
      var before, a := run[..|run| - 1], run[|run| - 1];
      DelaysAreWaited(env, before);
      DelayReachable(env, before);
      WaitsStep(env, before, a);
    }
  }

  lemma WaitsStep(env: Env, run: seq<Action>, a: Action)
    requires DelayInv(env, Run(env, Init, run))
    ensures Waits(env, Run(env, Init, run), a)
  {
    var s, s' := Run(env, Init, run), Next(env, Run(env, Init, run), a);
    forall n | n in s.pods
      ensures StampedIdle(s.pods[n].annos)
    {
      assert PodDelay(s.pods[n], s.now);
    }
    forall n | n in s.pods && !s.pods[n].terminating && n in s'.pods && s'.pods[n].terminating && a != ExternalDelete(n)
      ensures Refs(s.pods[n].annos) == {} && Elapsed(env, s.pods[n], s.now)
    {
      DeletedOnlyUnreferenced(env, run, a, n);
      DeleterWaited(env, s, a, n);
    }
  }

  lemma DeleterWaited(env: Env, s: State, a: Action, n: Name)
    requires DelayInv(env, s) && a != ExternalDelete(n)
    requires n in s.pods && !s.pods[n].terminating && n in Next(env, s, a).pods && Next(env, s, a).pods[n].terminating
    ensures Elapsed(env, s.pods[n], s.now)
  {
    if a.Act? && a.tid in s.threads {
      ActOnPod(env, s, a.tid, a.pick, n);
      assert DelayLocal(env, s, s.threads[a.tid]);
      DeleterKnows(env, s, s.threads[a.tid], a.pick, n);
    }
  }
}
