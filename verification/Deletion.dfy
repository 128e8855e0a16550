/**
Nobody deletes a mount pod that is in use, and no patch overwrites a reference it has not seen.
*/
module Deletion {
  import opened Annotations
  import opened Protocol
  import opened Locking

  /** What one effect does to one stored pod. */
  lemma EffectOnPod(env: Env, s: State, tid: Tid, e: Effect, n: Name)
    requires n in s.pods && n in Apply(env, s, tid, e).pods && !e.CreatePod?
    ensures var before, after := s.pods[n], Apply(env, s, tid, e).pods[n];
            && after.annos == (if e.PatchAnnos? && e.name == n then e.annos else before.annos)
            && after.terminating == (before.terminating || e == DeletePod(n))
  {
  }

  lemma PerformPods(env: Env, s: State, tid: Tid, o: Outcome)
    ensures Perform(env, s, tid, o).pods == if o.Blocked? then s.pods else Apply(env, s, tid, o.effect).pods
  {
  }

  /** A stored pod changes only by the effect the operation planned. */
  lemma ActOnPod(env: Env, s: State, tid: Tid, pick: Name, n: Name)
    requires Inv(env, s) && tid in s.threads
    requires n in s.pods && n in Next(env, s, Act(tid, pick)).pods
    requires s.pods[n] != Next(env, s, Act(tid, pick)).pods[n]
    ensures var th, o := s.threads[tid], Plan(env, s, s.threads[tid], pick);
            var before, after := s.pods[n], Next(env, s, Act(tid, pick)).pods[n];
            && LocalInv(s, th) && !o.Blocked? && Allowed(env, s, th, o.effect)
            && after.annos == (if o.effect.PatchAnnos? && o.effect.name == n then o.effect.annos else before.annos)
            && after.terminating == (before.terminating || o.effect == DeletePod(n))
  {
    var th := s.threads[tid];
    var o := Plan(env, s, th, pick);
    assert LocalInv(s, th);
    PlanAllowed(env, s, th, pick);
    PerformPods(env, s, tid, o);
    if !o.Blocked? && !o.effect.CreatePod? {
      EffectOnPod(env, s, tid, o.effect, n);
    }
  }

  /**
  In every interleaving, a pod that starts terminating without an external deletion holds no
  reference at that moment, however stale the snapshots of the passes were.
  */
  lemma DeletedOnlyUnreferenced(env: Env, run: seq<Action>, a: Action, n: Name)
    requires var s, s' := Run(env, Init, run), Next(env, Run(env, Init, run), a);
             n in s.pods && !s.pods[n].terminating && n in s'.pods && s'.pods[n].terminating
    requires a != ExternalDelete(n)
    ensures Refs(Run(env, Init, run).pods[n].annos) == {}
  {
    var s := Run(env, Init, run);
    Reachable(env, run);
    if a.Act? && a.tid in s.threads {
      ActOnPod(env, s, a.tid, a.pick, n);
    }
  }

  lemma OutsideAnnos(s: State, a: Action, n: Name)
    requires !a.Act? && n in s.pods && n in Outside(s, a).pods
    ensures Outside(s, a).pods[n].annos == s.pods[n].annos
  {
  }

  /** The five ways in which stored annotations change. */
  ghost predicate PatchOf(before: Annos, after: Annos, th: Thread) {
    match th
    case Publish(job, _) => after == AddRef(before, job.target)
    case Unpublish(t, _) =>
      || after == before - {RefKey(t)}
      || (Refs(before) == {} && exists sec :: after == before[DelayAtKey := Stamp(sec)])
    case Check(_, snap, _) =>
      || (exists alive :: after == before - DropKeys(snap, alive))
      || (exists sec :: after == before[DelayAtKey := Stamp(sec)])
    case Handle(_, snap, _) => after == MergeRefs(before, snap.annos)
  }

  lemma PlanPatches(env: Env, s: State, th: Thread, pick: Name)
    requires LocalInv(s, th)
    ensures var o := Plan(env, s, th, pick);
            !o.Blocked? && o.effect.PatchAnnos? && o.effect.name in s.pods ==>
              PatchOf(s.pods[o.effect.name].annos, o.effect.annos, th)
  {
  }

  /**
  No lost update: although patches replace the whole map from an earlier read, each one acts on
  the annotations stored at the moment it lands.
  */
  lemma PatchesAreAtomic(env: Env, run: seq<Action>, a: Action, n: Name)
    requires var s, s' := Run(env, Init, run), Next(env, Run(env, Init, run), a);
             n in s.pods && n in s'.pods && s'.pods[n].annos != s.pods[n].annos
    ensures var s, s' := Run(env, Init, run), Next(env, Run(env, Init, run), a);
            a.Act? && a.tid in s.threads && PatchOf(s.pods[n].annos, s'.pods[n].annos, s.threads[a.tid])
  {
    var s := Run(env, Init, run);
    Reachable(env, run);
    if a.Act? && a.tid in s.threads {
      ActOnPod(env, s, a.tid, a.pick, n);
      PlanPatches(env, s, s.threads[a.tid], a.pick);
    }
  }

  // ---------- over whole runs ----------

  /** The step makes a pod terminate for lack of use only if the pod has no stored reference. */
  ghost predicate DeletesUnused(env: Env, s: State, a: Action) {
    var s' := Next(env, s, a);
    forall n | n in s.pods && !s.pods[n].terminating && n in s'.pods && s'.pods[n].terminating && a != ExternalDelete(n) ::
      Refs(s.pods[n].annos) == {}
  }

  /** What the step stores is one of the five changes, applied to what is stored. */
  ghost predicate PatchesCurrent(env: Env, s: State, a: Action) {
    var s' := Next(env, s, a);
    forall n | n in s.pods && n in s'.pods && s'.pods[n].annos != s.pods[n].annos ::
      a.Act? && a.tid in s.threads && PatchOf(s.pods[n].annos, s'.pods[n].annos, s.threads[a.tid])
  }

  /** Every step of every run deletes only unused pods and patches only what is current. */
  lemma {:induction false} DeletionIsSafe(env: Env, run: seq<Action>)
    ensures Always(env, (s: State, a: Action) => DeletesUnused(env, s, a) && PatchesCurrent(env, s, a), run)
    decreases |run|
  {
    if run != [] {
      var before, a := run[..|run| - 1], run[|run| - 1];
      var s, s' := Run(env, Init, before), Next(env, Run(env, Init, before), a);
      DeletionIsSafe(env, before);
      forall n | n in s.pods && !s.pods[n].terminating && n in s'.pods && s'.pods[n].terminating && a != ExternalDelete(n)
        ensures Refs(s.pods[n].annos) == {}
      {
        DeletedOnlyUnreferenced(env, before, a, n);
      }
      forall n | n in s.pods && n in s'.pods && s'.pods[n].annos != s.pods[n].annos
        ensures a.Act? && a.tid in s.threads && PatchOf(s.pods[n].annos, s'.pods[n].annos, s.threads[a.tid])
      {
        PatchesAreAtomic(env, before, a, n);
      }
    }
  }
}
