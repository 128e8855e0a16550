/**
References survive the replacement of a terminating mount pod by podDeletedHandler.

The handler works from a snapshot taken while the pod was already terminating, so the property
rests on references of a terminating pod never growing. That fails in exactly one situation: the
pod is deleted from outside between the read and the patch of somebody who adds a reference.
*/
module Survival {
  import opened Annotations
  import opened Protocol
  import opened Locking
  import opened Deletion

  /** The operation has read pod `n` and is about to patch references into it. */
  predicate AtWindow(th: Thread, n: Name) {
    || (th.Publish? && th.pub.PubPatch? && th.pub.name == n)
    || (th.Handle? && th.hd.HdMerge? && th.name == n)
  }

  predicate InWindow(s: State, n: Name) {
    exists tid | tid in s.threads :: AtWindow(s.threads[tid], n)
  }

  /** External deletions do not hit a pod inside such a window. */
  predicate Calm(s: State, a: Action) {
    a.ExternalDelete? ==> !InWindow(s, a.name)
  }

  ghost predicate UidInv(s: State) {
    && (forall n | n in s.pods :: s.pods[n].uid < s.nextUid && s.pods[n].uid !in s.vanished)
    && (forall n, m | n in s.pods && m in s.pods && s.pods[n].uid == s.pods[m].uid :: n == m)
    && (forall u | u in s.vanished :: u < s.nextUid)
  }

  /** The incarnation a handler looked at is still terminating or gone, with no more references than it saw. */
  ghost predicate SnapInv(s: State, name: Name, snap: Pod) {
    && snap.uid < s.nextUid
    && if snap.uid in s.vanished then Refs(s.vanished[snap.uid]) <= Refs(snap.annos)
       else && name in s.pods && s.pods[name].uid == snap.uid && s.pods[name].terminating
            && Refs(s.pods[name].annos) <= Refs(snap.annos)
  }

  ghost predicate WindowInv(s: State, th: Thread) {
    forall n | AtWindow(th, n) :: n in s.pods && !s.pods[n].terminating
  }

  ghost predicate HandlerInv(s: State, th: Thread) {
    th.Handle? ==>
      && SnapInv(s, th.name, th.snap)
      && (th.hd.HdCreate? || th.hd.HdMerge? ==> th.snap.uid in s.vanished)
  }

  ghost predicate SurvivalInv(env: Env, s: State) {
    && Inv(env, s)
    && UidInv(s)
    && forall tid | tid in s.threads :: WindowInv(s, s.threads[tid]) && HandlerInv(s, s.threads[tid])
  }

  /** Terminating pods stay terminating, lose references at most, and leave a record when they vanish. */
  ghost predicate Steady(s: State, s': State) {
    && s.nextUid <= s'.nextUid
    && (forall u | u in s.vanished :: u in s'.vanished && s'.vanished[u] == s.vanished[u])
    && (forall n | n in s.pods && s.pods[n].terminating ::
          if n in s'.pods
          then && s'.pods[n].uid == s.pods[n].uid && s'.pods[n].terminating
               && Refs(s'.pods[n].annos) <= Refs(s.pods[n].annos)
          else s.pods[n].uid in s'.vanished && s'.vanished[s.pods[n].uid] == s.pods[n].annos)
  }

  /** Only publishes and merges add references, and they do so inside their window. */
  lemma PlanShrinks(env: Env, s: State, th: Thread, pick: Name)
    requires LocalInv(s, th) && WindowInv(s, th)
    ensures var o := Plan(env, s, th, pick);
            !o.Blocked? && o.effect.PatchAnnos? && o.effect.name in s.pods && s.pods[o.effect.name].terminating ==>
              Refs(o.effect.annos) <= Refs(s.pods[o.effect.name].annos)
  {
  }

  lemma EffectSteady(env: Env, s: State, tid: Tid, e: Effect)
    requires e.CreatePod? ==> e.name !in s.pods
    requires e.PatchAnnos? && e.name in s.pods && s.pods[e.name].terminating ==> Refs(e.annos) <= Refs(s.pods[e.name].annos)
    ensures Steady(s, Apply(env, s, tid, e))
  {
  }

  lemma EffectUids(env: Env, s: State, tid: Tid, e: Effect)
    requires UidInv(s)
    requires e.CreatePod? ==> e.name !in s.pods
    ensures UidInv(Apply(env, s, tid, e))
  {
  }

  lemma SameSteady(s: State, s': State)
    requires s'.pods == s.pods && s'.vanished == s.vanished && s'.nextUid == s.nextUid
    ensures Steady(s, s')
  {
  }

  lemma TerminateSteady(s: State, name: Name)
    ensures Steady(s, Terminate(s, name))
  {
  }

  lemma VanishSteady(s: State, name: Name)
    requires UidInv(s)
    ensures Steady(s, Outside(s, Vanish(name)))
  {
  }

  lemma OutsideSteady(s: State, a: Action)
    requires UidInv(s) && !a.Act?
    ensures Steady(s, Outside(s, a))
  {
    if a.Vanish? {
      VanishSteady(s, a.name);
    } else if a.ExternalDelete? {
      TerminateSteady(s, a.name);
    } else {
      OutsideSame(s, a);
      SameSteady(s, Outside(s, a));
    }
  }

  lemma OutsideSame(s: State, a: Action)
    requires !a.Act? && !a.Vanish? && !a.ExternalDelete?
    ensures Outside(s, a).pods == s.pods && Outside(s, a).vanished == s.vanished && Outside(s, a).nextUid == s.nextUid
  {
  }

  lemma OutsideUids(s: State, a: Action)
    requires UidInv(s) && !a.Act?
    ensures UidInv(Outside(s, a))
  {
  }

  lemma PerformSteady(env: Env, s: State, tid: Tid, o: Outcome)
    requires UidInv(s)
    requires !o.Blocked? ==> Steady(s, Apply(env, s, tid, o.effect)) && UidInv(Apply(env, s, tid, o.effect))
    ensures var s' := Perform(env, s, tid, o); Steady(s, s') && UidInv(s')
  {
  }

  lemma NextSteady(env: Env, s: State, a: Action)
    requires SurvivalInv(env, s)
    ensures var s' := Next(env, s, a); Steady(s, s') && UidInv(s')
  {
    if !a.Act? {
      OutsideSteady(s, a);
      OutsideUids(s, a);
    } else if a.tid in s.threads {
      var th := s.threads[a.tid];
      var o := Plan(env, s, th, a.pick);
      assert LocalInv(s, th) && WindowInv(s, th);
      PlanAllowed(env, s, th, a.pick);
      PlanShrinks(env, s, th, a.pick);
      if !o.Blocked? {
        EffectSteady(env, s, a.tid, o.effect);
        EffectUids(env, s, a.tid, o.effect);
      }
      PerformSteady(env, s, a.tid, o);
    }
  }

  /** A handler's knowledge survives any step. */
  lemma SnapKept(s: State, s': State, name: Name, snap: Pod)
    requires SnapInv(s, name, snap) && Steady(s, s') && UidInv(s')
    ensures SnapInv(s', name, snap)
    ensures snap.uid in s.vanished ==> snap.uid in s'.vanished
  {
  }

  /** Whoever deletes a pod for lack of use holds its lock. */
  lemma DeleterOwns(env: Env, s: State, tid: Tid, pick: Name, n: Name)
    requires Inv(env, s) && tid in s.threads
    requires n in s.pods && n in Next(env, s, Act(tid, pick)).pods
    requires !s.pods[n].terminating && Next(env, s, Act(tid, pick)).pods[n].terminating
    ensures Owns(env, s, tid, n)
  {
    ActOnPod(env, s, tid, pick, n);
  }

  lemma OutsideTerminates(s: State, a: Action, n: Name)
    requires !a.Act? && n in s.pods && n in Outside(s, a).pods && !s.pods[n].terminating
    ensures Outside(s, a).pods[n].terminating ==> a == ExternalDelete(n)
  {
  }

  /** While an operation is in its window, only an external deletion can make the pod terminate. */
  lemma WindowKept(env: Env, s: State, a: Action, o: Tid, n: Name)
    requires SurvivalInv(env, s) && Calm(s, a)
    requires o in s.threads && o != Actor(a) && AtWindow(s.threads[o], n)
    ensures var s' := Next(env, s, a); n in s'.pods && !s'.pods[n].terminating
  {
    var s' := Next(env, s, a);
    var th := s.threads[o];
    assert LocalInv(s, th) && WindowInv(s, th) && Owns(env, s, o, n);
    OneOwner(env, s, o, Actor(a), n);
    OnlyOwnerWrites(env, s, a);
    if n !in s'.pods {
      LeavesByVanish(env, s, a, n);
    }
    assert Kept(s, s', n);
    if !a.Act? {
      OutsideTerminates(s, a, n);
    } else if s'.pods[n].terminating && a.tid in s.threads {
      DeleterOwns(env, s, a.tid, a.pick, n);
    }
  }

  /** A pod leaves the store only after its deletion. */
  lemma LeavesByVanish(env: Env, s: State, a: Action, n: Name)
    requires n in s.pods && n !in Next(env, s, a).pods
    ensures a == Vanish(n) && s.pods[n].terminating && !s.pods[n].finalizer
  {
    if a.Act? {
      ActKeepsPods(env, s, a, n);
    }
  }

  lemma ActKeepsPods(env: Env, s: State, a: Action, n: Name)
    requires n in s.pods && a.Act?
    ensures n in Next(env, s, a).pods
  {
    if a.tid in s.threads {
      var o := Plan(env, s, s.threads[a.tid], a.pick);
      PerformPods(env, s, a.tid, o);
      if !o.Blocked? {
        EffectKeepsPods(env, s, a.tid, o.effect, n);
      }
    }
  }

  lemma EffectKeepsPods(env: Env, s: State, tid: Tid, e: Effect, n: Name)
    requires n in s.pods
    ensures n in Apply(env, s, tid, e).pods
  {
  }

  lemma PlanWindow(env: Env, s: State, tid: Tid, th: Thread, pick: Name)
    requires WindowInv(s, th)
    ensures var o := Plan(env, s, th, pick); o.Go? ==> WindowInv(Apply(env, s, tid, o.effect), o.next)
  {
  }

  /** The acting operation enters a window only after seeing the pod not terminating. */
  lemma ActorWindow(env: Env, s: State, a: Action)
    requires SurvivalInv(env, s) && Actor(a) in Next(env, s, a).threads
    ensures WindowInv(Next(env, s, a), Next(env, s, a).threads[Actor(a)])
  {
    if Actor(a) in s.threads {
      assert WindowInv(s, s.threads[Actor(a)]);
      if a.Act? {
        PlanWindow(env, s, a.tid, s.threads[a.tid], a.pick);
        PerformPods(env, s, a.tid, Plan(env, s, s.threads[a.tid], a.pick));
      }
    }
  }

  /** It reaches its create or merge step only once the incarnation it saw has vanished. */
  lemma PlanHandler(env: Env, s: State, th: Thread, pick: Name)
    requires HandlerInv(s, th)
    ensures var o := Plan(env, s, th, pick);
            o.Go? && o.next.Handle? ==>
              && th.Handle? && o.next.name == th.name && o.next.snap == th.snap
              && (o.next.hd.HdCreate? || o.next.hd.HdMerge? ==> th.snap.uid in s.vanished)
  {
  }

  lemma BeginHandlerInv(s: State, a: Action)
    requires UidInv(s) && !a.Act? && Actor(a) !in s.threads && Actor(a) in Outside(s, a).threads
    ensures HandlerInv(Outside(s, a), Outside(s, a).threads[Actor(a)])
  {
  }

  lemma ActorHandler(env: Env, s: State, a: Action)
    requires SurvivalInv(env, s) && Actor(a) in Next(env, s, a).threads
    ensures HandlerInv(Next(env, s, a), Next(env, s, a).threads[Actor(a)])
  {
    var s' := Next(env, s, a);
    if Actor(a) !in s.threads {
      BeginHandlerInv(s, a);
    } else {
      var th := s.threads[Actor(a)];
      assert HandlerInv(s, th);
      NextSteady(env, s, a);
      if a.Act? {
        PlanHandler(env, s, th, a.pick);
      }
      if th.Handle? {
        SnapKept(s, s', th.name, th.snap);
      }
    }
  }

  lemma SurvivalStep(env: Env, s: State, a: Action)
    requires SurvivalInv(env, s) && Calm(s, a)
    ensures SurvivalInv(env, Next(env, s, a))
  {
    var s' := Next(env, s, a);
    InvStep(env, s, a);
    OnlyOwnerWrites(env, s, a);
    NextSteady(env, s, a);
    forall o | o in s'.threads
      ensures WindowInv(s', s'.threads[o]) && HandlerInv(s', s'.threads[o])
    {
      if o == Actor(a) {
        ActorWindow(env, s, a);
        ActorHandler(env, s, a);
      } else {
        var th := s.threads[o];
        assert WindowInv(s, th) && HandlerInv(s, th);
        if th.Handle? {
          SnapKept(s, s', th.name, th.snap);
        }
        forall n | AtWindow(th, n)
          ensures n in s'.pods && !s'.pods[n].terminating
        {
          WindowKept(env, s, a, o, n);
        }
      }
    }
  }

  lemma {:induction false} SurvivalReachable(env: Env, run: seq<Action>)
    requires Always(env, Calm, run)
    ensures SurvivalInv(env, Run(env, Init, run))
    decreases |run|
  {
    if run != [] {
      SurvivalReachable(env, run[..|run| - 1]);
      SurvivalStep(env, Run(env, Init, run[..|run| - 1]), run[|run| - 1]);
    }
  }

  lemma {:induction false} UidReachable(env: Env, run: seq<Action>)
    ensures UidInv(Run(env, Init, run))
    decreases |run|
  {
    if run != [] {
      var s, a := Run(env, Init, run[..|run| - 1]), run[|run| - 1];
      UidReachable(env, run[..|run| - 1]);
      Reachable(env, run[..|run| - 1]);
      if !a.Act? {
        OutsideUids(s, a);
      } else if a.tid in s.threads {
        var o := Plan(env, s, s.threads[a.tid], a.pick);
        assert LocalInv(s, s.threads[a.tid]);
        PlanAllowed(env, s, s.threads[a.tid], a.pick);
        if !o.Blocked? {
          EffectUids(env, s, a.tid, o.effect);
        }
      }
    }
  }

  // ---------- the promises ----------

  /** References on a terminating pod never grow. */
  lemma TerminatingNeverGrows(env: Env, run: seq<Action>, a: Action, n: Name)
    requires Always(env, Calm, run)
    requires var s, s' := Run(env, Init, run), Next(env, Run(env, Init, run), a);
             n in s.pods && s.pods[n].terminating && n in s'.pods
    ensures var s, s' := Run(env, Init, run), Next(env, Run(env, Init, run), a);
            s'.pods[n].uid == s.pods[n].uid && Refs(s'.pods[n].annos) <= Refs(s.pods[n].annos)
  {
    SurvivalReachable(env, run);
    NextSteady(env, Run(env, Init, run), a);
  }

  /**
  When podDeletedHandler creates the replacement, the new pod holds every reference the old one
  still had when it vanished.
  */
  lemma CreateKeepsReferences(env: Env, run: seq<Action>, tid: Tid, pick: Name)
    requires Always(env, Calm, run)
    requires var s := Run(env, Init, run);
             tid in s.threads && s.threads[tid].Handle? && s.threads[tid].hd.HdCreate?
    ensures var s, s' := Run(env, Init, run), Next(env, Run(env, Init, run), Act(tid, pick));
            var name, snap := s.threads[tid].name, s.threads[tid].snap;
            && snap.uid in s.vanished && name !in s.pods && name in s'.pods
            && s'.pods[name].uid != snap.uid && !s'.pods[name].terminating
            && Refs(s.vanished[snap.uid]) <= Refs(s'.pods[name].annos)
  {
    var s := Run(env, Init, run);
    SurvivalReachable(env, run);
    assert LocalInv(s, s.threads[tid]) && HandlerInv(s, s.threads[tid]);
  }

  lemma MergeRefsUnion(onto: Annos, from: Annos)
    requires WellFormed(onto)
    ensures Refs(MergeRefs(onto, from)) == Refs(onto) + Refs(from)
  {
  }

  /**
  When the name was taken in the meantime, the merge leaves the pod with every reference it had
  gathered and every reference the old one still had when it vanished.
  */
  lemma MergeKeepsReferences(env: Env, run: seq<Action>, tid: Tid, pick: Name)
    requires Always(env, Calm, run)
    requires var s := Run(env, Init, run);
             && tid in s.threads && s.threads[tid].Handle? && s.threads[tid].hd.HdMerge?
             && s.threads[tid].name in s.pods
    ensures var s, s' := Run(env, Init, run), Next(env, Run(env, Init, run), Act(tid, pick));
            var name, snap := s.threads[tid].name, s.threads[tid].snap;
            && snap.uid in s.vanished && name in s'.pods && s'.pods[name].uid == s.pods[name].uid != snap.uid
            && Refs(s.vanished[snap.uid]) + Refs(s.pods[name].annos) <= Refs(s'.pods[name].annos)
            && Refs(s'.pods[name].annos) == Refs(s.pods[name].annos) + Refs(snap.annos)
  {
    var s := Run(env, Init, run);
    SurvivalReachable(env, run);
    var th := s.threads[tid];
    assert LocalInv(s, th) && HandlerInv(s, th);
    MergeRefsUnion(s.pods[th.name].annos, th.snap.annos);
  }

  // ---------- the window is exactly what can go wrong ----------

  /** The annotations an operation in its window is about to store. */
  function WindowAnnos(th: Thread): Annos
    requires exists n :: AtWindow(th, n)
  {
    if th.Publish? then th.pub.annos else th.hd.annos
  }

  /** In any run at all, references of a terminating pod grow exactly when such a patch lands on it. */
  lemma GrowthIsWindow(env: Env, run: seq<Action>, a: Action, n: Name)
    requires var s, s' := Run(env, Init, run), Next(env, Run(env, Init, run), a);
             n in s.pods && s.pods[n].terminating && n in s'.pods
    ensures var s, s' := Run(env, Init, run), Next(env, Run(env, Init, run), a);
            !(Refs(s'.pods[n].annos) <= Refs(s.pods[n].annos)) <==>
              (a.Act? && a.tid in s.threads && AtWindow(s.threads[a.tid], n)
               && !(Refs(WindowAnnos(s.threads[a.tid])) <= Refs(s.pods[n].annos)))
  {
    var s := Run(env, Init, run);
    Reachable(env, run);
    if a.Act? && a.tid in s.threads {
      GrowthOfAct(env, s, a.tid, a.pick, n);
    } else if !a.Act? {
      OutsideAnnos(s, a, n);
    }
  }

  lemma GrowthOfAct(env: Env, s: State, tid: Tid, pick: Name, n: Name)
    requires Inv(env, s) && n in s.pods && s.pods[n].terminating && tid in s.threads
    ensures var s', th := Perform(env, s, tid, Plan(env, s, s.threads[tid], pick)), s.threads[tid];
            n in s'.pods &&
            (!(Refs(s'.pods[n].annos) <= Refs(s.pods[n].annos)) <==>
             AtWindow(th, n) && !(Refs(WindowAnnos(th)) <= Refs(s.pods[n].annos)))
  {
    var th := s.threads[tid];
    assert LocalInv(s, th);
    var o := Plan(env, s, th, pick);
    PlanAllowed(env, s, th, pick);
    PerformPods(env, s, tid, o);
    PlanGrowth(env, s, th, pick, n);
  }

  lemma PlanGrowth(env: Env, s: State, th: Thread, pick: Name, n: Name)
    requires LocalInv(s, th) && n in s.pods
    ensures var o := Plan(env, s, th, pick);
            && (AtWindow(th, n) ==> !o.Blocked? && o.effect == PatchAnnos(n, WindowAnnos(th)))
            && (!AtWindow(th, n) && !o.Blocked? && o.effect.PatchAnnos? && o.effect.name == n ==>
                Refs(o.effect.annos) <= Refs(s.pods[n].annos))
  {
  }

  /** The runs that lose a reference: delete, snapshot and late patch; gone; recreate from the snapshot. */
  function LosingRun(s: State, p: Tid, h: Tid, n: Name): seq<Action>
    requires n in s.pods
  {
    if !s.pods[n].finalizer then [ExternalDelete(n), Act(p, ""), Vanish(n)]
    else
      [ExternalDelete(n), BeginHandler(h, n), Act(p, "")] +
      if Refs(s.pods[n].annos) == {} then [Act(h, ""), Vanish(n)]
      else [Act(h, ""), Vanish(n), Act(h, "")] + [Act(h, ""), Act(h, "")]
  }

  /** After an external deletion in the window, the late patch puts its reference on the doomed pod. */
  lemma LatePatch(env: Env, s: State, p: Tid, n: Name, k: Key)
    requires Inv(env, s) && p in s.threads && AtWindow(s.threads[p], n)
    requires n in s.pods
    requires k in Refs(WindowAnnos(s.threads[p]))
    ensures var s' := Next(env, s, Act(p, ""));
            && n in s'.pods && s'.pods[n] == s.pods[n].(annos := WindowAnnos(s.threads[p]), idleSince := s'.pods[n].idleSince)
            && k in Refs(s'.pods[n].annos)
            && s'.threads == s.threads - {p}
            && s'.names == s.names && s'.vanished == s.vanished
            && env.lockOf(s.names[n].hash) !in s'.locks
            && s'.pods.Keys == s.pods.Keys
  {
    var th := s.threads[p];
    assert LocalInv(s, th) && HoldsLock(env, s, p);
  }

  /** What a run starting at `s` must reach for reference `k` of pod `n` to be lost. */
  ghost predicate Lost(s: State, f: State, p: Tid, n: Name, k: Key)
    requires n in s.pods
  {
    var uid := s.pods[n].uid;
    && p !in f.threads
    && uid in f.vanished && k in Refs(f.vanished[uid])
    && (n in f.pods ==> f.pods[n].uid != uid && k !in f.pods[n].annos)
  }

  /** The handler's finalizer step. */
  lemma Unfinalizes(env: Env, s: State, h: Tid, n: Name, snap: Pod)
    requires h in s.threads && s.threads[h] == Handle(n, snap, HdUnfinalize) && n in s.pods
    ensures var s1 := s.(pods := s.pods[n := s.pods[n].(finalizer := false)]);
            Next(env, s, Act(h, "")) == if Refs(snap.annos) == {} then Finish(s1, h) else Goto(s1, h, Handle(n, snap, HdLock))
  {
  }

  /** The handler takes its lock when it is free ... */
  lemma HandlerLocks(env: Env, s: State, h: Tid, n: Name, snap: Pod)
    requires h in s.threads && s.threads[h] == Handle(n, snap, HdLock) && env.lockOf(snap.labels.hash) !in s.locks
    ensures Next(env, s, Act(h, ""))
         == s.(locks := s.locks[env.lockOf(snap.labels.hash) := h], threads := s.threads[h := Handle(n, snap, HdGet)])
  {
  }

  /** ... and finds the name free once the pod has vanished. */
  lemma HandlerFinds(env: Env, s: State, h: Tid, n: Name, snap: Pod)
    requires h in s.threads && s.threads[h] == Handle(n, snap, HdGet) && n !in s.pods
    ensures Next(env, s, Act(h, "")) == s.(threads := s.threads[h := Handle(n, snap, HdCreate)])
  {
  }

  /** The pod is deleted and a handler takes its snapshot. */
  lemma DeletedAndSeen(env: Env, s: State, h: Tid, n: Name) returns (s2: State)
    requires Inv(env, s) && UidInv(s) && n in s.pods && s.pods[n].finalizer && h !in s.threads
    ensures s2 == Next(env, Next(env, s, ExternalDelete(n)), BeginHandler(h, n))
    ensures Inv(env, s2) && UidInv(s2)
    ensures var snap := s.pods[n].(terminating := true);
            && s2.pods == s.pods[n := snap] && s2.threads == s.threads[h := Handle(n, snap, HdUnfinalize)]
            && s2.names == s.names
  {
    var snap := s.pods[n].(terminating := true);
    var s1 := s.(pods := s.pods[n := snap]);
    assert Next(env, s, ExternalDelete(n)) == s1;
    s2 := Goto(s1, h, Handle(n, snap, HdUnfinalize));
    assert Next(env, s1, BeginHandler(h, n)) == s2;
    InvStep(env, s, ExternalDelete(n));
    InvStep(env, s1, BeginHandler(h, n));
    OutsideUids(s, ExternalDelete(n));
    OutsideUids(s1, BeginHandler(h, n));
  }

  /** First part: deletion, snapshot, and only then the patch. */
  lemma LosesAtPatch(env: Env, s: State, p: Tid, h: Tid, n: Name, k: Key) returns (s3: State)
    requires Inv(env, s) && UidInv(s) && p in s.threads && AtWindow(s.threads[p], n)
    requires n in s.pods && s.pods[n].finalizer && h !in s.threads
    requires k in Refs(WindowAnnos(s.threads[p]))
    ensures s3 == Run(env, s, [ExternalDelete(n), BeginHandler(h, n), Act(p, "")])
    ensures UidInv(s3)
    ensures var snap := s.pods[n].(terminating := true);
            && n in s3.pods && s3.pods[n].uid == snap.uid && s3.pods[n].terminating && s3.pods[n].finalizer
            && k in Refs(s3.pods[n].annos) && p !in s3.threads
            && h in s3.threads && s3.threads[h] == Handle(n, snap, HdUnfinalize)
            && env.lockOf(snap.labels.hash) !in s3.locks
  {
    assert LocalInv(s, s.threads[p]);
    var s2 := DeletedAndSeen(env, s, h, n);
    LatePatch(env, s2, p, n, k);
    s3 := Next(env, s2, Act(p, ""));
    RunThree(env, s, ExternalDelete(n), BeginHandler(h, n), Act(p, ""));
    UidsAfterPatch(env, s2, p, n);
  }

  lemma UidsAfterPatch(env: Env, s: State, p: Tid, n: Name)
    requires UidInv(s) && p in s.threads && AtWindow(s.threads[p], n) && n in s.pods
    ensures UidInv(Next(env, s, Act(p, "")))
  {
    EffectUids(env, s, p, PatchAnnos(n, WindowAnnos(s.threads[p])));
  }

  /** Second part, when the snapshot had no reference: the handler leaves and the pod is gone. */
  lemma LosesWithoutRefs(env: Env, s: State, h: Tid, n: Name, snap: Pod)
    requires UidInv(s) && n in s.pods && s.pods[n].terminating && s.pods[n].finalizer
    requires h in s.threads && s.threads[h] == Handle(n, snap, HdUnfinalize) && Refs(snap.annos) == {}
    ensures var f := Run(env, s, [Act(h, ""), Vanish(n)]);
            && n !in f.pods && f.threads == s.threads - {h}
            && f.vanished == s.vanished[s.pods[n].uid := s.pods[n].annos]
  {
    Unfinalizes(env, s, h, n, snap);
    RunTwo(env, s, Act(h, ""), Vanish(n));
  }

  /** Second part, when it had some: the handler waits for the pod to vanish ... */
  lemma WaitsForVanish(env: Env, s: State, h: Tid, n: Name, snap: Pod) returns (s3: State)
    requires n in s.pods && s.pods[n].terminating && s.pods[n].finalizer
    requires h in s.threads && s.threads[h] == Handle(n, snap, HdUnfinalize) && Refs(snap.annos) != {}
    requires env.lockOf(snap.labels.hash) !in s.locks
    ensures s3 == Run(env, s, [Act(h, ""), Vanish(n), Act(h, "")])
    ensures n !in s3.pods && s3.threads == s.threads[h := Handle(n, snap, HdGet)] && s3.nextUid == s.nextUid
    ensures s3.vanished == s.vanished[s.pods[n].uid := s.pods[n].annos]
  {
    Unfinalizes(env, s, h, n, snap);
    var s1 := Goto(s.(pods := s.pods[n := s.pods[n].(finalizer := false)]), h, Handle(n, snap, HdLock));
    var s2 := s1.(pods := s1.pods - {n}, vanished := s1.vanished[s.pods[n].uid := s.pods[n].annos]);
    Vanishes(env, s1, n);
    HandlerLocks(env, s2, h, n, snap);
    s3 := Next(env, s2, Act(h, ""));
    RunThree(env, s, Act(h, ""), Vanish(n), Act(h, ""));
    assert s2.threads[h := Handle(n, snap, HdGet)] == s.threads[h := Handle(n, snap, HdGet)];
  }

  /** ... and recreates the snapshot. */
  lemma LosesWithRefs(env: Env, s: State, h: Tid, n: Name, snap: Pod)
    requires n in s.pods && s.pods[n].terminating && s.pods[n].finalizer
    requires h in s.threads && s.threads[h] == Handle(n, snap, HdUnfinalize) && Refs(snap.annos) != {}
    requires env.lockOf(snap.labels.hash) !in s.locks
    ensures var f := Run(env, s, [Act(h, ""), Vanish(n), Act(h, "")] + [Act(h, ""), Act(h, "")]);
            && n in f.pods && f.pods[n].annos == snap.annos && f.pods[n].uid == s.nextUid
            && !f.pods[n].terminating && f.pods[n].finalizer && f.pods[n].labels == snap.labels
            && (forall i | i in f.locks :: f.locks[i] != h)
            && f.threads == s.threads - {h}
            && f.vanished == s.vanished[s.pods[n].uid := s.pods[n].annos]
  {
    var s3 := WaitsForVanish(env, s, h, n, snap);
    RunAppend(env, s, [Act(h, ""), Vanish(n), Act(h, "")], [Act(h, ""), Act(h, "")]);
    Recreates(env, s3, h, n, snap);
    assert s3.threads - {h} == s.threads - {h};
  }

  /** A handler that finds the name free recreates its snapshot. */
  lemma Recreates(env: Env, s: State, h: Tid, n: Name, snap: Pod)
    requires h in s.threads && s.threads[h] == Handle(n, snap, HdGet) && n !in s.pods
    ensures var f := Run(env, s, [Act(h, ""), Act(h, "")]);
            && n in f.pods && f.pods[n].annos == snap.annos && f.pods[n].uid == s.nextUid
            && !f.pods[n].terminating && f.pods[n].finalizer && f.pods[n].labels == snap.labels
            && (forall i | i in f.locks :: f.locks[i] != h)
            && f.vanished == s.vanished && f.threads == s.threads - {h}
  {
    var s1 := Next(env, s, Act(h, ""));
    HandlerFinds(env, s, h, n, snap);
    var s2 := Next(env, s1, Act(h, ""));
    RunTwo(env, s, Act(h, ""), Act(h, ""));
    assert s2.threads == s.threads - {h};
  }

  /** Without a finalizer nobody recreates the pod. */
  lemma LosesOutright(env: Env, s: State, p: Tid, n: Name, k: Key)
    requires Inv(env, s) && UidInv(s) && p in s.threads && AtWindow(s.threads[p], n)
    requires n in s.pods && !s.pods[n].finalizer
    requires k in Refs(WindowAnnos(s.threads[p]))
    ensures Lost(s, Run(env, s, [ExternalDelete(n), Act(p, ""), Vanish(n)]), p, n, k)
  {
    var s1 := s.(pods := s.pods[n := s.pods[n].(terminating := true)]);
    assert Next(env, s, ExternalDelete(n)) == s1;
    InvStep(env, s, ExternalDelete(n));
    LatePatch(env, s1, p, n, k);
    var s2 := Next(env, s1, Act(p, ""));
    Vanishes(env, s2, n);
    RunThree(env, s, ExternalDelete(n), Act(p, ""), Vanish(n));
  }

  lemma Vanishes(env: Env, s: State, n: Name)
    requires n in s.pods && s.pods[n].terminating && !s.pods[n].finalizer
    ensures Next(env, s, Vanish(n)) == s.(pods := s.pods - {n}, vanished := s.vanished[s.pods[n].uid := s.pods[n].annos])
  {
  }

  /**
  Every window can lose its reference: from any reachable state in which an operation is about to
  patch a new reference into `n`, deleting `n` now lets a run follow after which that operation has
  returned, the reference was on the vanished pod, and the pod recreated from it does not have it.
  */
  lemma WindowLoses(env: Env, run: seq<Action>, p: Tid, h: Tid, n: Name, k: Key)
    requires var s := Run(env, Init, run);
             && p in s.threads && AtWindow(s.threads[p], n) && n in s.pods && h !in s.threads
             && k in Refs(WindowAnnos(s.threads[p])) && k !in s.pods[n].annos
    ensures var s := Run(env, Init, run); Lost(s, Run(env, s, LosingRun(s, p, h, n)), p, n, k)
  {
    var s := Run(env, Init, run);
    Reachable(env, run);
    UidReachable(env, run);
    if !s.pods[n].finalizer {
      LosesOutright(env, s, p, n, k);
    } else {
      var snap := s.pods[n].(terminating := true);
      var first := [ExternalDelete(n), BeginHandler(h, n), Act(p, "")];
      var s3 := LosesAtPatch(env, s, p, h, n, k);
      if Refs(snap.annos) == {} {
        LosesWithoutRefs(env, s3, h, n, snap);
        RunAppend(env, s, first, [Act(h, ""), Vanish(n)]);
      } else {
        LosesWithRefs(env, s3, h, n, snap);
        RunAppend(env, s, first, [Act(h, ""), Vanish(n), Act(h, "")] + [Act(h, ""), Act(h, "")]);
      }
    }
  }

  // ---------- over whole runs ----------

  /** The step adds no reference to a terminating pod. */
  ghost predicate NeverGrows(env: Env, s: State, a: Action) {
    var s' := Next(env, s, a);
    forall n | n in s.pods && s.pods[n].terminating && n in s'.pods ::
      s'.pods[n].uid == s.pods[n].uid && Refs(s'.pods[n].annos) <= Refs(s.pods[n].annos)
  }

  /** If the step is a handler's create or merge, the pod then holds what the old one had and what the new one has gathered. */
  ghost predicate Inherits(env: Env, s: State, a: Action) {
    var s' := Next(env, s, a);
    a.Act? && a.tid in s.threads && s.threads[a.tid].Handle? ==>
      var name, snap, hd := s.threads[a.tid].name, s.threads[a.tid].snap, s.threads[a.tid].hd;
      && (hd.HdCreate? ==>
            && snap.uid in s.vanished && name in s'.pods && s'.pods[name].uid != snap.uid && !s'.pods[name].terminating
            && Refs(s.vanished[snap.uid]) <= Refs(s'.pods[name].annos))
      && (hd.HdMerge? && name in s.pods ==>
            && snap.uid in s.vanished && name in s'.pods && s'.pods[name].uid == s.pods[name].uid != snap.uid
            && Refs(s.vanished[snap.uid]) + Refs(s.pods[name].annos) <= Refs(s'.pods[name].annos))
  }

  /** In every calm run references survive the replacement of their pod. */
  lemma {:induction false} ReferencesSurvive(env: Env, run: seq<Action>)
    requires Always(env, Calm, run)
    ensures Always(env, (s: State, a: Action) => NeverGrows(env, s, a) && Inherits(env, s, a), run)
    decreases |run|
  {
    if run != [] {
      var before, a := run[..|run| - 1], run[|run| - 1];
      var s, s' := Run(env, Init, before), Next(env, Run(env, Init, before), a);
      ReferencesSurvive(env, before);
      forall n | n in s.pods && s.pods[n].terminating && n in s'.pods
        ensures s'.pods[n].uid == s.pods[n].uid && Refs(s'.pods[n].annos) <= Refs(s.pods[n].annos)
      {
        TerminatingNeverGrows(env, before, a, n);
      }
      InheritsStep(env, before, a);
    }
  }

  lemma InheritsStep(env: Env, run: seq<Action>, a: Action)
    requires Always(env, Calm, run)
    ensures Inherits(env, Run(env, Init, run), a)
  {
    var s := Run(env, Init, run);
    if a.Act? && a.tid in s.threads && s.threads[a.tid].Handle? {
      if s.threads[a.tid].hd.HdCreate? {
        CreateKeepsReferences(env, run, a.tid, a.pick);
      } else if s.threads[a.tid].hd.HdMerge? && s.threads[a.tid].name in s.pods {
        MergeKeepsReferences(env, run, a.tid, a.pick);
      }
    }
  }

  /** References of a terminating pod grow in this step exactly when a late patch brings a new one. */
  ghost predicate GrowsByWindow(env: Env, s: State, a: Action) {
    var s' := Next(env, s, a);
    forall n | n in s.pods && s.pods[n].terminating && n in s'.pods ::
      !(Refs(s'.pods[n].annos) <= Refs(s.pods[n].annos)) <==>
        (a.Act? && a.tid in s.threads && AtWindow(s.threads[a.tid], n)
         && !(Refs(WindowAnnos(s.threads[a.tid])) <= Refs(s.pods[n].annos)))
  }

  /** In every run, calm or not. */
  lemma {:induction false} OnlyWindowsGrow(env: Env, run: seq<Action>)
    ensures Always(env, (s: State, a: Action) => GrowsByWindow(env, s, a), run)
    decreases |run|
  {
    if run != [] {
      var before, a := run[..|run| - 1], run[|run| - 1];
      OnlyWindowsGrow(env, before);
      GrowsStep(env, before, a);
    }
  }

  lemma GrowsStep(env: Env, run: seq<Action>, a: Action)
    ensures GrowsByWindow(env, Run(env, Init, run), a)
  {
    var s, s' := Run(env, Init, run), Next(env, Run(env, Init, run), a);
    forall n | n in s.pods && s.pods[n].terminating && n in s'.pods
      ensures !(Refs(s'.pods[n].annos) <= Refs(s.pods[n].annos)) <==>
                (a.Act? && a.tid in s.threads && AtWindow(s.threads[a.tid], n)
                 && !(Refs(WindowAnnos(s.threads[a.tid])) <= Refs(s.pods[n].annos)))
    {
      GrowthIsWindow(env, run, a, n);
    }
  }
}
