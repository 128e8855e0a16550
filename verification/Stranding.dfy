/**
No reference is stranded: a pod that vanishes with references leaves a handler that carries them
until they are on a living pod. This holds as long as no handler ends between its finalizer step and
its create or merge, and each takes the finalizer off the incarnation it saw; the latter follows from
one handler per pod. The mount controller, which only takes finalizers off, is a handler that ends there.
*/
module Stranding {
  import opened Annotations
  import opened Protocol
  import opened Locking
  import opened Deletion
  import opened Survival
  import AppReferences
  import opened Undisturbed

  /** A handler past its finalizer step, working for incarnation `uid` of pod `n`. */
  predicate Carries(th: Thread, n: Name, uid: nat) {
    th.Handle? && th.name == n && th.snap.uid == uid && !th.hd.HdUnfinalize?
  }

  ghost predicate Carried(s: State, n: Name, uid: nat) {
    exists tid :: tid in s.threads && Carries(s.threads[tid], n, uid)
  }

  /** A pod that may vanish is carried, or is terminating without references. */
  ghost predicate Covered(s: State, n: Name) {
    n in s.pods && !s.pods[n].finalizer ==>
      Carried(s, n, s.pods[n].uid) || (s.pods[n].terminating && Refs(s.pods[n].annos) == {})
  }

  /** A handler that takes a finalizer off takes it off the incarnation it saw. */
  predicate Own(s: State, a: Action) {
    a.Act? && a.tid in s.threads && s.threads[a.tid].Handle? && s.threads[a.tid].hd.HdUnfinalize?
    && s.threads[a.tid].name in s.pods
    ==> s.pods[s.threads[a.tid].name].uid == s.threads[a.tid].snap.uid
  }

  /** No handler ends between its finalizer step and its create or merge; every other operation may end at any point. */
  predicate CarriersFinish(s: State, a: Action) {
    a.GiveUp? && a.tid in s.threads && s.threads[a.tid].Handle? ==> s.threads[a.tid].hd.HdUnfinalize?
  }

  predicate Finishing(s: State, a: Action) {
    Calm(s, a) && CarriersFinish(s, a) && Own(s, a)
  }

  ghost predicate StrandInv(env: Env, s: State) {
    SurvivalInv(env, s) && forall n | n in s.pods :: Covered(s, n)
  }

  // ---------- carriers stay until they deliver ----------

  lemma OthersRemain(env: Env, s: State, a: Action, o: Tid)
    requires o in s.threads && (a.GiveUp? || a.Act? ==> o != a.tid)
    ensures o in Next(env, s, a).threads && Next(env, s, a).threads[o] == s.threads[o]
  {
    if a.Act? && a.tid in s.threads {
      var out := Plan(env, s, s.threads[a.tid], a.pick);
      if !out.Blocked? {
        AppReferences.EffectThreads(env, s, a.tid, out.effect);
      }
    }
  }

  /** What the step of a carrier does: it goes on carrying, or it returns with a pod created or patched. */
  lemma PlanCarries(env: Env, s: State, th: Thread, pick: Name, n: Name, uid: nat)
    requires Carries(th, n, uid) && LocalInv(s, th) && WindowInv(s, th)
    ensures var o := Plan(env, s, th, pick);
            && (o.Go? ==> Carries(o.next, n, uid))
            && (o.Return? ==> th.hd.HdCreate? || (th.hd.HdMerge? && n in s.pods))
  {
    assert th.hd.HdMerge? ==> AtWindow(th, n);
  }

  /** The references that a carrier works for are on a living pod of that name. */
  ghost predicate Delivered(s: State, s': State, n: Name, uid: nat) {
    && uid in s.vanished && n in s'.pods && !s'.pods[n].terminating
    && Refs(s.vanished[uid]) <= Refs(s'.pods[n].annos)
  }

  ghost predicate StillCarries(s': State, tid: Tid, n: Name, uid: nat) {
    tid in s'.threads && Carries(s'.threads[tid], n, uid)
  }

  lemma CarrierStep(env: Env, run: seq<Action>, a: Action, tid: Tid, n: Name, uid: nat)
    requires Always(env, Calm, run) && CarriersFinish(Run(env, Init, run), a)
    requires var s := Run(env, Init, run); tid in s.threads && Carries(s.threads[tid], n, uid)
    ensures var s, s' := Run(env, Init, run), Next(env, Run(env, Init, run), a);
            StillCarries(s', tid, n, uid) || Delivered(s, s', n, uid)
  {
    var s := Run(env, Init, run);
    SurvivalReachable(env, run);
    var th := s.threads[tid];
    assert LocalInv(s, th) && WindowInv(s, th);
    if a.Act? && a.tid == tid {
      PlanCarries(env, s, th, a.pick, n, uid);
      if Plan(env, s, th, a.pick).Return? {
        if th.hd.HdCreate? {
          CreateKeepsReferences(env, run, tid, a.pick);
        } else {
          MergeKeepsReferences(env, run, tid, a.pick);
          MergeLives(env, s, tid, a.pick);
        }
      }
    } else {
      OthersRemain(env, s, a, tid);
    }
  }

  lemma MergeLives(env: Env, s: State, tid: Tid, pick: Name)
    requires tid in s.threads && s.threads[tid].Handle? && s.threads[tid].hd.HdMerge? && WindowInv(s, s.threads[tid])
    ensures var n, s' := s.threads[tid].name, Next(env, s, Act(tid, pick)); n in s'.pods && !s'.pods[n].terminating
  {
    assert AtWindow(s.threads[tid], s.threads[tid].name);
  }

  // ---------- pods without a finalizer are covered ----------

  lemma EffectFinalizer(env: Env, s: State, tid: Tid, e: Effect, n: Name)
    requires n in Apply(env, s, tid, e).pods && !Apply(env, s, tid, e).pods[n].finalizer
    ensures n in s.pods && Apply(env, s, tid, e).pods[n].uid == s.pods[n].uid
    ensures s.pods[n].finalizer ==> e == DropFinalizer(n)
  {
  }

  lemma PlanFinalizer(env: Env, s: State, th: Thread, pick: Name)
    ensures var o := Plan(env, s, th, pick);
            !o.Blocked? && o.effect.DropFinalizer? ==> th.Handle? && th.hd.HdUnfinalize? && o.effect.name == th.name
  {
  }

  lemma OutsideFinalizer(s: State, a: Action, n: Name)
    requires !a.Act? && n in Outside(s, a).pods
    ensures n in s.pods && Outside(s, a).pods[n].uid == s.pods[n].uid && Outside(s, a).pods[n].finalizer == s.pods[n].finalizer
  {
  }

  /** The handler in thread `tid` is about to take a finalizer off pod `n`. */
  predicate Unfinalizing(s: State, tid: Tid, n: Name) {
    tid in s.threads && s.threads[tid].Handle? && s.threads[tid].hd.HdUnfinalize? && s.threads[tid].name == n
  }

  /** A pod without finalizer was there before, and only a handler's step by name took the finalizer off. */
  lemma FinalizerGoes(env: Env, s: State, a: Action, n: Name)
    requires n in Next(env, s, a).pods && !Next(env, s, a).pods[n].finalizer
    ensures n in s.pods && Next(env, s, a).pods[n].uid == s.pods[n].uid
    ensures s.pods[n].finalizer ==> a.Act? && Unfinalizing(s, a.tid, n)
  {
    if !a.Act? {
      OutsideFinalizer(s, a, n);
    } else if a.tid in s.threads {
      var o := Plan(env, s, s.threads[a.tid], a.pick);
      PerformPods(env, s, a.tid, o);
      PlanFinalizer(env, s, s.threads[a.tid], a.pick);
      if !o.Blocked? {
        EffectFinalizer(env, s, a.tid, o.effect, n);
      }
    }
  }

  /** A handler's finalizer step, whatever the pod of that name is. */
  lemma FinalizerStep(env: Env, s: State, tid: Tid, pick: Name, n: Name)
    requires Unfinalizing(s, tid, n) && n in s.pods
    ensures var s1 := s.(pods := s.pods[n := s.pods[n].(finalizer := false)]);
            var snap := s.threads[tid].snap;
            Next(env, s, Act(tid, pick)) == if Refs(snap.annos) == {} then Finish(s1, tid) else Goto(s1, tid, Handle(n, snap, HdLock))
  {
  }

  lemma CarrierKept(env: Env, s: State, a: Action, n: Name)
    requires SurvivalInv(env, s) && CarriersFinish(s, a) && n in s.pods && Carried(s, n, s.pods[n].uid)
    ensures Carried(Next(env, s, a), n, s.pods[n].uid)
  {
    var uid := s.pods[n].uid;
    var tid :| tid in s.threads && Carries(s.threads[tid], n, uid);
    var th := s.threads[tid];
    assert LocalInv(s, th) && WindowInv(s, th) && HandlerInv(s, th);
    if a.Act? && a.tid == tid {
      PlanCarries(env, s, th, a.pick, n, uid);
      assert Carries(Next(env, s, a).threads[tid], n, uid);
    } else {
      OthersRemain(env, s, a, tid);
    }
  }

  lemma UnfinalizedCovered(env: Env, s: State, tid: Tid, pick: Name, n: Name)
    requires SurvivalInv(env, s) && Unfinalizing(s, tid, n) && n in s.pods && s.pods[n].uid == s.threads[tid].snap.uid
    ensures Covered(Next(env, s, Act(tid, pick)), n)
  {
    FinalizerStep(env, s, tid, pick, n);
    assert HandlerInv(s, s.threads[tid]);
    var s', snap := Next(env, s, Act(tid, pick)), s.threads[tid].snap;
    if Refs(snap.annos) != {} {
      assert tid in s'.threads && Carries(s'.threads[tid], n, snap.uid);
    }
  }

  lemma NextCovered(env: Env, s: State, a: Action, n: Name)
    requires StrandInv(env, s) && Finishing(s, a)
    ensures Covered(Next(env, s, a), n)
  {
    var s' := Next(env, s, a);
    if n in s'.pods && !s'.pods[n].finalizer {
      FinalizerGoes(env, s, a, n);
      if s.pods[n].finalizer {
        UnfinalizedCovered(env, s, a.tid, a.pick, n);
      } else if Carried(s, n, s.pods[n].uid) {
        CarrierKept(env, s, a, n);
      } else {
        NextSteady(env, s, a);
      }
    }
  }

  lemma {:induction false} CoveredReachable(env: Env, run: seq<Action>)
    requires Always(env, Finishing, run)
    ensures Always(env, Calm, run) && StrandInv(env, Run(env, Init, run))
    decreases |run|
  {
    if run != [] {
      var s, a := Run(env, Init, run[..|run| - 1]), run[|run| - 1];
      CoveredReachable(env, run[..|run| - 1]);
      SurvivalReachable(env, run);
      forall n | n in Next(env, s, a).pods
        ensures Covered(Next(env, s, a), n)
      {
        NextCovered(env, s, a, n);
      }
    }
  }

  // ---------- over whole runs ----------

  /** A pod that leaves the store in this step with references is carried by a handler that saw them all. */
  ghost predicate VanishesCarried(env: Env, s: State, a: Action) {
    var s' := Next(env, s, a);
    forall n | n in s.pods && n !in s'.pods && Refs(s.pods[n].annos) != {} ::
      exists tid :: && tid in s'.threads && Carries(s'.threads[tid], n, s.pods[n].uid)
                    && Refs(s.pods[n].annos) <= Refs(s'.threads[tid].snap.annos)
  }

  /** Every carrier goes on, or has brought all references of the vanished pod to a living one. */
  ghost predicate CarriersDeliver(env: Env, s: State, a: Action) {
    var s' := Next(env, s, a);
    forall tid, n, uid | tid in s.threads && Carries(s.threads[tid], n, uid) ::
      StillCarries(s', tid, n, uid) || Delivered(s, s', n, uid)
  }

  lemma VanishStep(env: Env, s: State, a: Action)
    requires StrandInv(env, s)
    ensures VanishesCarried(env, s, a)
  {
    var s' := Next(env, s, a);
    forall n | n in s.pods && n !in s'.pods && Refs(s.pods[n].annos) != {}
      ensures exists tid :: && tid in s'.threads && Carries(s'.threads[tid], n, s.pods[n].uid)
                            && Refs(s.pods[n].annos) <= Refs(s'.threads[tid].snap.annos)
    {
      LeavesByVanish(env, s, a, n);
      assert Covered(s, n);
      var tid :| tid in s.threads && Carries(s.threads[tid], n, s.pods[n].uid);
      assert HandlerInv(s, s.threads[tid]);
      OthersRemain(env, s, a, tid);
      assert tid in s'.threads && Carries(s'.threads[tid], n, s.pods[n].uid);
    }
  }

  lemma DeliverStep(env: Env, run: seq<Action>, a: Action)
    requires Always(env, Calm, run) && CarriersFinish(Run(env, Init, run), a)
    ensures CarriersDeliver(env, Run(env, Init, run), a)
  {
    var s, s' := Run(env, Init, run), Next(env, Run(env, Init, run), a);
    forall tid, n, uid | tid in s.threads && Carries(s.threads[tid], n, uid)
      ensures StillCarries(s', tid, n, uid) || Delivered(s, s', n, uid)
    {
      CarrierStep(env, run, a, tid, n, uid);
    }
  }

  /** In every finishing run no reference is stranded. */
  lemma {:induction false} NothingStranded(env: Env, run: seq<Action>)
    requires Always(env, Finishing, run)
    ensures Always(env, (s: State, a: Action) => VanishesCarried(env, s, a) && CarriersDeliver(env, s, a), run)
    decreases |run|
  {
    if run != [] {
      var before, a := run[..|run| - 1], run[|run| - 1];
      NothingStranded(env, before);
      CoveredReachable(env, before);
      VanishStep(env, Run(env, Init, before), a);
      DeliverStep(env, before, a);
    }
  }

  // ---------- one handler per pod ----------

  /** A handler begins only when no handler of that pod is in flight. */
  predicate OneHandler(s: State, a: Action) {
    a.BeginHandler? ==> forall o | o in s.threads :: !(s.threads[o].Handle? && s.threads[o].name == a.name)
  }

  predicate SameHandler(x: Thread, y: Thread) {
    x.Handle? && y.Handle? && x.name == y.name
  }

  /** Handlers of one pod are one, and before its finalizer step it still finds the incarnation it saw, finalizer and all. */
  ghost predicate FirstInv(s: State) {
    && (forall i, j | i in s.threads && j in s.threads && SameHandler(s.threads[i], s.threads[j]) :: i == j)
    && (forall tid, n | Unfinalizing(s, tid, n) :: n in s.pods && s.pods[n].finalizer && s.pods[n].uid == s.threads[tid].snap.uid)
  }

  /** A handler of the next state was one of this pod before, or has just begun. */
  lemma HandlerBefore(env: Env, s: State, a: Action, tid: Tid)
    requires tid in Next(env, s, a).threads && Next(env, s, a).threads[tid].Handle?
    ensures var th := Next(env, s, a).threads[tid];
            || (tid in s.threads && SameHandler(s.threads[tid], th) && th.snap == s.threads[tid].snap
                && (th.hd.HdUnfinalize? ==> th == s.threads[tid] && !(a.Act? && a.tid == tid && th.name in s.pods)))
            || (a == BeginHandler(tid, th.name) && tid !in s.threads && th.name in s.pods && s.pods[th.name].finalizer
                && th.snap == s.pods[th.name])
  {
    if !a.Act? {
      OutsideHandler(s, a, tid);
    } else if a.tid in s.threads {
      if a.tid == tid {
        PlanHandles(env, s, s.threads[tid], a.pick);
      } else {
        OthersBefore(env, s, a, tid);
      }
    }
  }

  lemma PlanHandles(env: Env, s: State, th: Thread, pick: Name)
    ensures var o := Plan(env, s, th, pick);
            && (o.Go? && o.next.Handle? ==> SameHandler(th, o.next) && o.next.snap == th.snap && !o.next.hd.HdUnfinalize?)
            && (o.Blocked? && th.Handle? ==> !th.hd.HdUnfinalize?)
  {
  }

  lemma OutsideHandler(s: State, a: Action, tid: Tid)
    requires !a.Act? && tid in Outside(s, a).threads && Outside(s, a).threads[tid].Handle?
    ensures var th := Outside(s, a).threads[tid];
            || (tid in s.threads && th == s.threads[tid])
            || (a == BeginHandler(tid, th.name) && tid !in s.threads && th.name in s.pods && s.pods[th.name].finalizer
                && th.snap == s.pods[th.name])
  {
  }

  lemma OthersBefore(env: Env, s: State, a: Action, o: Tid)
    requires a.Act? && a.tid in s.threads && o != a.tid && o in Next(env, s, a).threads
    ensures o in s.threads && Next(env, s, a).threads[o] == s.threads[o]
  {
    AppReferences.PerformMoves(env, s, a.tid, Plan(env, s, s.threads[a.tid], a.pick), o);
  }

  /** A stored pod keeps its incarnation. */
  lemma UidKept(env: Env, s: State, a: Action, n: Name)
    requires Inv(env, s) && n in s.pods && n in Next(env, s, a).pods
    ensures Next(env, s, a).pods[n].uid == s.pods[n].uid
  {
    if a.Act? && a.tid in s.threads {
      var o := Plan(env, s, s.threads[a.tid], a.pick);
      assert LocalInv(s, s.threads[a.tid]);
      PlanAllowed(env, s, s.threads[a.tid], a.pick);
      PerformPods(env, s, a.tid, o);
      if !o.Blocked? {
        EffectUid(env, s, a.tid, o.effect, n);
      }
    } else if !a.Act? {
      OutsideFinalizer(s, a, n);
    }
  }

  lemma EffectUid(env: Env, s: State, tid: Tid, e: Effect, n: Name)
    requires n in s.pods && (e.CreatePod? ==> e.name !in s.pods)
    ensures n in Apply(env, s, tid, e).pods && Apply(env, s, tid, e).pods[n].uid == s.pods[n].uid
  {
  }

  lemma FirstOne(env: Env, s: State, a: Action, i: Tid, j: Tid)
    requires FirstInv(s) && OneHandler(s, a)
    requires var s' := Next(env, s, a); i in s'.threads && j in s'.threads && SameHandler(s'.threads[i], s'.threads[j])
    ensures i == j
  {
    HandlerBefore(env, s, a, i);
    HandlerBefore(env, s, a, j);
  }

  lemma FirstFinds(env: Env, s: State, a: Action, tid: Tid, n: Name)
    requires Inv(env, s) && FirstInv(s) && OneHandler(s, a) && Unfinalizing(Next(env, s, a), tid, n)
    ensures var s' := Next(env, s, a); n in s'.pods && s'.pods[n].finalizer && s'.pods[n].uid == s'.threads[tid].snap.uid
  {
    var s' := Next(env, s, a);
    HandlerBefore(env, s, a, tid);
    if a == BeginHandler(tid, n) && tid !in s.threads {
      assert s'.pods == s.pods;
    } else {
      assert Unfinalizing(s, tid, n);
      if n !in s'.pods {
        LeavesByVanish(env, s, a, n);
      }
      UidKept(env, s, a, n);
      if !s'.pods[n].finalizer {
        FinalizerGoes(env, s, a, n);
        assert SameHandler(s.threads[a.tid], s.threads[tid]);
      }
    }
  }

  lemma {:induction false} FirstReachable(env: Env, run: seq<Action>)
    requires Always(env, OneHandler, run)
    ensures FirstInv(Run(env, Init, run))
    decreases |run|
  {
    if run != [] {
      var s, a := Run(env, Init, run[..|run| - 1]), run[|run| - 1];
      FirstReachable(env, run[..|run| - 1]);
      Reachable(env, run[..|run| - 1]);
      forall i, j | i in Next(env, s, a).threads && j in Next(env, s, a).threads && SameHandler(Next(env, s, a).threads[i], Next(env, s, a).threads[j])
        ensures i == j
      {
        FirstOne(env, s, a, i, j);
      }
      forall tid, n | Unfinalizing(Next(env, s, a), tid, n)
        ensures var s' := Next(env, s, a); n in s'.pods && s'.pods[n].finalizer && s'.pods[n].uid == s'.threads[tid].snap.uid
      {
        FirstFinds(env, s, a, tid, n);
      }
    }
  }

  /** With at most one handler of a pod in flight, every handler takes the finalizer off the incarnation it saw. */
  lemma {:induction false} OneHandlerOwns(env: Env, run: seq<Action>)
    requires Always(env, OneHandler, run)
    ensures Always(env, Own, run)
    decreases |run|
  {
    if run != [] {
      var s, a := Run(env, Init, run[..|run| - 1]), run[|run| - 1];
      OneHandlerOwns(env, run[..|run| - 1]);
      FirstReachable(env, run[..|run| - 1]);
      assert a.Act? && a.tid in s.threads && s.threads[a.tid].Handle? && s.threads[a.tid].hd.HdUnfinalize?
             ==> Unfinalizing(s, a.tid, s.threads[a.tid].name);
    }
  }

  predicate OneByOne(s: State, a: Action) {
    Calm(s, a) && CarriersFinish(s, a) && OneHandler(s, a)
  }

  /** In every calm run with one handler per pod, each of which finishes, no reference is stranded. */
  lemma NothingStrandedByOne(env: Env, run: seq<Action>)
    requires Always(env, OneByOne, run)
    ensures Always(env, (s: State, a: Action) => VanishesCarried(env, s, a) && CarriersDeliver(env, s, a), run)
  {
    AlwaysBoth(env, OneByOne, OneByOne, OneHandler, run);
    OneHandlerOwns(env, run);
    AlwaysBoth(env, OneByOne, Own, Finishing, run);
    NothingStranded(env, run);
  }

  // ---------- a handler that ends early ----------

  /** Ending an operation leaves pod `n` covered if and only if it has its finalizer, another carrier, or no references while terminating. */
  lemma GiveUpCoversIff(env: Env, s: State, tid: Tid, n: Name)
    requires n in s.pods
    ensures Covered(Next(env, s, GiveUp(tid)), n) <==>
              || s.pods[n].finalizer
              || (exists o :: o != tid && o in s.threads && Carries(s.threads[o], n, s.pods[n].uid))
              || (s.pods[n].terminating && Refs(s.pods[n].annos) == {})
  {
    var s', uid := Next(env, s, GiveUp(tid)), s.pods[n].uid;
    if o :| o != tid && o in s.threads && Carries(s.threads[o], n, uid) {
      assert o in s'.threads && Carries(s'.threads[o], n, uid);
    }
    if o :| o in s'.threads && Carries(s'.threads[o], n, uid) {
      assert o != tid && o in s.threads && Carries(s.threads[o], n, uid);
    }
  }

  function GiveUpRun(h: Tid, n: Name): seq<Action> {
    [ExternalDelete(n), BeginHandler(h, n), Act(h, "")] + [GiveUp(h)] + [Vanish(n)]
  }

  /** A finalizer step and the end of its handler: only the finalizer of the stored pod is gone. */
  lemma StripAndEnd(env: Env, s: State, h: Tid, n: Name)
    requires Unfinalizing(s, h, n) && n in s.pods
    ensures var s2 := Next(env, Next(env, s, Act(h, "")), GiveUp(h));
            && s2.threads == s.threads - {h} && s2.vanished == s.vanished
            && s2.pods == s.pods[n := s.pods[n].(finalizer := false)]
  {
    FinalizerStep(env, s, h, "", n);
  }

  lemma EndsAfterStrip(env: Env, s: State, h: Tid, n: Name)
    requires n in s.pods && s.pods[n].finalizer && h !in s.threads
    ensures var s4 := Run(env, s, [ExternalDelete(n), BeginHandler(h, n), Act(h, "")] + [GiveUp(h)]);
            && s4.threads == s.threads && s4.vanished == s.vanished
            && s4.pods == s.pods[n := s.pods[n].(terminating := true, finalizer := false)]
  {
    var snap := s.pods[n].(terminating := true);
    RunThree(env, s, ExternalDelete(n), BeginHandler(h, n), Act(h, ""));
    RunSnoc(env, s, [ExternalDelete(n), BeginHandler(h, n), Act(h, "")], GiveUp(h));
    var s1 := s.(pods := s.pods[n := snap]);
    assert Next(env, s, ExternalDelete(n)) == s1;
    var s2 := Goto(s1, h, Handle(n, snap, HdUnfinalize));
    assert Next(env, s1, BeginHandler(h, n)) == s2;
    StripAndEnd(env, s2, h, n);
    assert s2.threads - {h} == s.threads;
  }

  /** From every state: a handler that ends right after its finalizer step strands the references of its pod. */
  lemma GiveUpStrands(env: Env, s: State, h: Tid, n: Name)
    requires n in s.pods && s.pods[n].finalizer && h !in s.threads
    requires Refs(s.pods[n].annos) != {} && !Carried(s, n, s.pods[n].uid)
    ensures Stranded(Run(env, s, GiveUpRun(h, n)), n, s.pods[n].uid)
  {
    var four := [ExternalDelete(n), BeginHandler(h, n), Act(h, "")] + [GiveUp(h)];
    EndsAfterStrip(env, s, h, n);
    RunSnoc(env, s, four, Vanish(n));
    Vanishes(env, Run(env, s, four), n);
  }

  // ---------- the finalizer of a replacement ----------

  /** A finalizer step leaves its pod covered if and only if the pod is the incarnation it saw, or was covered without a finalizer. */
  lemma StripCoversIff(env: Env, run: seq<Action>, tid: Tid, pick: Name, n: Name)
    requires Always(env, Finishing, run)
    requires var s := Run(env, Init, run); Unfinalizing(s, tid, n) && n in s.pods
    ensures var s := Run(env, Init, run);
            Covered(Next(env, s, Act(tid, pick)), n) <==>
              || s.pods[n].uid == s.threads[tid].snap.uid
              || Carried(s, n, s.pods[n].uid)
              || (s.pods[n].terminating && Refs(s.pods[n].annos) == {})
  {
    var s := Run(env, Init, run);
    var s', uid := Next(env, s, Act(tid, pick)), s.pods[n].uid;
    CoveredReachable(env, run);
    FinalizerStep(env, s, tid, pick, n);
    if uid == s.threads[tid].snap.uid {
      UnfinalizedCovered(env, s, tid, pick, n);
    } else if Carried(s, n, uid) {
      CarrierKept(env, s, Act(tid, pick), n);
    }
  }

  function StripRun(h: Tid, n: Name): seq<Action> {
    [Act(h, ""), GiveUp(h)] + [ExternalDelete(n), Vanish(n)]
  }

  /** Incarnation `uid` of pod `n` is gone with references, and nobody carries them. */
  ghost predicate Stranded(s: State, n: Name, uid: nat) {
    uid in s.vanished && Refs(s.vanished[uid]) != {} && n !in s.pods && !Carried(s, n, uid)
  }

  /**
  From every state: whoever strips another incarnation than the one it read, and returns, strands its
  references at the next deletion. The mount controller of another process does so when it reads the pod,
  finds no driver on the node, and patches after a restarted driver has replaced the pod.
  */
  lemma StripStrands(env: Env, s: State, h: Tid, n: Name)
    requires Unfinalizing(s, h, n) && n in s.pods && s.pods[n].uid != s.threads[h].snap.uid
    requires Refs(s.pods[n].annos) != {} && !Carried(s, n, s.pods[n].uid)
    ensures Stranded(Run(env, s, StripRun(h, n)), n, s.pods[n].uid)
  {
    StripStep(env, s, h, n);
    RunTwo(env, s, Act(h, ""), GiveUp(h));
    var s2 := Run(env, s, [Act(h, ""), GiveUp(h)]);
    RunTwo(env, s2, ExternalDelete(n), Vanish(n));
    RunAppend(env, s, [Act(h, ""), GiveUp(h)], [ExternalDelete(n), Vanish(n)]);
    GoesAtOnce(env, s2, n);
  }

  lemma StripStep(env: Env, s: State, h: Tid, n: Name)
    requires Unfinalizing(s, h, n) && n in s.pods && s.pods[n].uid != s.threads[h].snap.uid && !Carried(s, n, s.pods[n].uid)
    ensures var s2 := Next(env, Next(env, s, Act(h, "")), GiveUp(h));
            && n in s2.pods && s2.pods[n] == s.pods[n].(finalizer := false) && !Carried(s2, n, s.pods[n].uid)
  {
    StripAndEnd(env, s, h, n);
  }

  /** A pod without finalizer is gone as soon as it is deleted. */
  lemma GoesAtOnce(env: Env, s: State, n: Name)
    requires n in s.pods && !s.pods[n].finalizer
    ensures Next(env, Next(env, s, ExternalDelete(n)), Vanish(n))
         == s.(pods := s.pods - {n}, vanished := s.vanished[s.pods[n].uid := s.pods[n].annos])
  {
    var s1 := s.(pods := s.pods[n := s.pods[n].(terminating := true)]);
    assert Next(env, s, ExternalDelete(n)) == s1;
    assert s1.pods - {n} == s.pods - {n};
    Vanishes(env, s1, n);
  }

  /** `g` (the mount controller) and `h` (the handler) see the deletion; the pod is replaced before `g` takes the finalizer off. */
  function LateRun(g: Tid, h: Tid, n: Name): seq<Action> {
    [ExternalDelete(n), BeginHandler(g, n), BeginHandler(h, n)]
    + ([Act(h, ""), Vanish(n), Act(h, "")] + [Act(h, ""), Act(h, "")])
  }

  lemma TwoHandlers(env: Env, s: State, g: Tid, h: Tid, n: Name)
    requires n in s.pods && s.pods[n].finalizer && g !in s.threads && h !in s.threads && g != h
    ensures var snap := s.pods[n].(terminating := true);
            Run(env, s, [ExternalDelete(n), BeginHandler(g, n), BeginHandler(h, n)])
            == s.(pods := s.pods[n := snap], threads := s.threads[g := Handle(n, snap, HdUnfinalize)][h := Handle(n, snap, HdUnfinalize)])
  {
    RunThree(env, s, ExternalDelete(n), BeginHandler(g, n), BeginHandler(h, n));
    var snap := s.pods[n].(terminating := true);
    var s1 := s.(pods := s.pods[n := snap]);
    assert Next(env, s, ExternalDelete(n)) == s1;
    var s2 := Goto(s1, g, Handle(n, snap, HdUnfinalize));
    assert Next(env, s1, BeginHandler(g, n)) == s2;
  }

  /** From every state with a referenced pod whose lock is free. */
  lemma LateHandlerStrands(env: Env, s: State, g: Tid, h: Tid, n: Name)
    requires n in s.pods && s.pods[n].finalizer && Refs(s.pods[n].annos) != {} && s.pods[n].uid < s.nextUid
    requires g !in s.threads && h !in s.threads && g != h && env.lockOf(s.pods[n].labels.hash) !in s.locks
    requires forall o | o in s.threads && s.threads[o].Handle? :: s.threads[o].snap.uid < s.nextUid
    ensures Stranded(Run(env, s, LateRun(g, h, n) + StripRun(g, n)), n, s.nextUid)
  {
    var snap := s.pods[n].(terminating := true);
    var two := [ExternalDelete(n), BeginHandler(g, n), BeginHandler(h, n)];
    TwoHandlers(env, s, g, h, n);
    var s2 := Run(env, s, two);
    LosesWithRefs(env, s2, h, n, snap);
    RunAppend(env, s, two, [Act(h, ""), Vanish(n), Act(h, "")] + [Act(h, ""), Act(h, "")]);
    var f := Run(env, s, LateRun(g, h, n));
    assert f.threads == s.threads[g := Handle(n, snap, HdUnfinalize)];
    StripStrands(env, f, g, n);
    RunAppend(env, s, LateRun(g, h, n), StripRun(g, n));
  }

  /** From the initial state: the reference of an app pod that still exists is stranded by one handler that ends early, ... */
  lemma StrandingOccurs(env: Env)
    ensures var f := Run(env, Init, FirstRun() + GiveUpRun(2, "pod-1")); Stranded(f, "pod-1", 0) && "app-1" in f.apps
  {
    ReachesOneServed(env);
    var s := OneServed();
    assert RefKey(FIRST.target) in Refs(s.pods["pod-1"].annos);
    GiveUpStrands(env, s, 2, "pod-1");
    RunAppend(env, Init, FirstRun(), GiveUpRun(2, "pod-1"));
    AppsStay(env, s, GiveUpRun(2, "pod-1"), "app-1");
  }

  /** ... and by a late patch of the mount controller. */
  lemma LateStripOccurs(env: Env)
    ensures var f := Run(env, Init, FirstRun() + (LateRun(2, 3, "pod-1") + StripRun(2, "pod-1")));
            Stranded(f, "pod-1", 1) && "app-1" in f.apps
  {
    ReachesOneServed(env);
    var s := OneServed();
    assert RefKey(FIRST.target) in Refs(s.pods["pod-1"].annos);
    LateHandlerStrands(env, s, 2, 3, "pod-1");
    RunAppend(env, Init, FirstRun(), LateRun(2, 3, "pod-1") + StripRun(2, "pod-1"));
    AppsStay(env, s, LateRun(2, 3, "pod-1") + StripRun(2, "pod-1"), "app-1");
  }

  lemma {:induction false} AppsStay(env: Env, s: State, run: seq<Action>, u: string)
    requires u in s.apps && forall i | 0 <= i < |run| :: !run[i].AppDeleted?
    ensures u in Run(env, s, run).apps
    decreases |run|
  {
    if run != [] {
      AppsStay(env, s, run[..|run| - 1], u);
      AppStays(env, Run(env, s, run[..|run| - 1]), run[|run| - 1], u);
    }
  }

  lemma AppStays(env: Env, s: State, a: Action, u: string)
    requires u in s.apps && !a.AppDeleted?
    ensures u in Next(env, s, a).apps
  {
    if a.Act? && a.tid in s.threads {
      var o := Plan(env, s, s.threads[a.tid], a.pick);
      assert !o.Blocked? ==> u in Apply(env, s, a.tid, o.effect).apps;
    }
  }
}
