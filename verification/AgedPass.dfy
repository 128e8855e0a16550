/**
A third way to break the delete delay, with no stamp on a pod in use: a pass whose snapshot holds an
old stamp deletes a pod that was used again and is idle again, although its new stamp lies ahead.
*/
module AgedPass {
  import opened Annotations
  import opened Protocol
  import opened Locking
  import opened DeleteDelay
  import opened Undisturbed
  import opened DelayScenarios

  /** The pod becomes idle and stamped, a pass takes its snapshot, and the clock passes the stamp. */
  function AgeRun(u: Tid, c: Tid, t: Target, n: Name, wait: nat): seq<Action> {
    IdleRun(u, t, n) + [BeginCheck(c, n)] + [Tick(wait)]
  }

  lemma Ages(env: Env, s: State, u: Tid, c: Tid, t: Target, n: Name) returns (snap: Pod, wait: nat)
    requires Delayed(s, n, t) && NewOp(s, u) && NewOp(s, c) && env.lockOf(s.pods[n].labels.hash) !in s.locks
    ensures var g := Run(env, s, AgeRun(u, c, t, n, wait));
            && g.threads == s.threads[c := Check(n, snap, CkList)] && g.locks == s.locks && g.apps == s.apps
            && n in g.pods && g.pods[n] == snap && Expired(env, g, n)
    ensures snap == s.pods[n].(annos := snap.annos, idleSince := snap.idleSince)
    ensures Refs(snap.annos) == {} && snap.annos.Keys == s.pods[n].annos.Keys - {RefKey(t)} + {DelayAtKey}
    ensures snap.annos[DelayTimeKey] == s.pods[n].annos[DelayTimeKey]
  {
    UnpublishAlone(env, s, u, t, n);
    var f := Run(env, s, IdleRun(u, t, n));
    snap := f.pods[n];
    CheckBegins(env, f, c, n);
    RunSnoc(env, s, IdleRun(u, t, n), BeginCheck(c, n));
    var b := Goto(f, c, Check(n, snap, CkList));
    wait := WaitsOut(env, b, n);
    RunSnoc(env, s, IdleRun(u, t, n) + [BeginCheck(c, n)], Tick(wait));
  }

  /** The pod is used again ... */
  lemma UsedAgain(env: Env, s: State, p: Tid, job: Job, n: Name)
    requires CanStart(env, s, p, job) && Serves(s, n, job.labels) && RefKey(job.target) !in s.pods[n].annos
    requires Refs(s.pods[n].annos) == {} && DelayTimeKey in s.pods[n].annos && s.pods[n].annos[DelayTimeKey].Duration?
    ensures var f := Run(env, s, AddRun(p, job, n));
            && f.threads == s.threads && f.locks == s.locks && Delayed(f, n, job.target)
            && f.pods[n].annos[DelayTimeKey] == s.pods[n].annos[DelayTimeKey]
            && f.pods[n] == s.pods[n].(annos := f.pods[n].annos, idleSince := f.pods[n].idleSince)
  {
    PublishAloneAdds(env, s, p, job, n);
  }

  /** ... and the pass, which decides by its snapshot, finds no references and is about to delete. */
  lemma PassComesToDelete(env: Env, s: State, c: Tid, n: Name, snap: Pod)
    requires c in s.threads && s.threads[c] == Check(n, snap, CkList) && !snap.terminating
    requires Refs(snap.annos) == {} && ShouldDelay(env, snap.annos, s.now).DeleteNow?
    requires env.lockOf(snap.labels.hash) !in s.locks && n in s.pods && Refs(s.pods[n].annos) == {}
    ensures Run(env, s, [Act(c, ""), Act(c, "")] + [Act(c, ""), Act(c, "")])
         == Goto(s.(locks := s.locks[env.lockOf(snap.labels.hash) := c]), c, Check(n, snap, CkDelete))
  {
    var alive := set u | u in s.apps && s.apps[u];
    var s1 := Goto(s.(locks := s.locks[env.lockOf(snap.labels.hash) := c]), c, Check(n, snap, CkDecide(alive)));
    PassComesToDecide(env, s, c, n, snap, alive);
    PassRereads(env, s1, c, n, snap, alive);
    RunAppend(env, s, [Act(c, ""), Act(c, "")], [Act(c, ""), Act(c, "")]);
    assert s1.threads[c := Check(n, snap, CkDelete)] == s.threads[c := Check(n, snap, CkDelete)];
  }

  lemma PassComesToDecide(env: Env, s: State, c: Tid, n: Name, snap: Pod, alive: set<string>)
    requires c in s.threads && s.threads[c] == Check(n, snap, CkList) && Refs(snap.annos) == {}
    requires env.lockOf(snap.labels.hash) !in s.locks && alive == (set u | u in s.apps && s.apps[u])
    ensures Run(env, s, [Act(c, ""), Act(c, "")])
         == Goto(s.(locks := s.locks[env.lockOf(snap.labels.hash) := c]), c, Check(n, snap, CkDecide(alive)))
  {
    PassDecides(env, s, c, n, snap, alive);
    RunTwo(env, s, Act(c, ""), Act(c, ""));
  }

  lemma PassRereads(env: Env, s: State, c: Tid, n: Name, snap: Pod, alive: set<string>)
    requires c in s.threads && s.threads[c] == Check(n, snap, CkDecide(alive)) && n in s.pods && Refs(s.pods[n].annos) == {}
    requires Refs(snap.annos) == {} && !snap.terminating && ShouldDelay(env, snap.annos, s.now).DeleteNow?
    ensures Run(env, s, [Act(c, ""), Act(c, "")]) == Goto(s, c, Check(n, snap, CkDelete))
  {
    RunTwo(env, s, Act(c, ""), Act(c, ""));
    assert LiveRefs(snap, alive) == {};
    var s1 := Goto(s, c, Check(n, snap, CkReget));
    assert Next(env, s, Act(c, "")) == s1;
    assert s1.threads[c := Check(n, snap, CkDelete)] == s.threads[c := Check(n, snap, CkDelete)];
  }

  lemma PassDeletes(env: Env, s: State, c: Tid, n: Name, snap: Pod)
    requires c in s.threads && s.threads[c] == Check(n, snap, CkDelete) && n in s.pods
    ensures var s' := Next(env, s, Act(c, "")); n in s'.pods && s'.pods[n].terminating
  {
  }

  /** Idle again, stamped again, and the old pass goes through. */
  function PassRun(v: Tid, c: Tid, t: Target, n: Name): seq<Action> {
    IdleRun(v, t, n) + ([Act(c, ""), Act(c, "")] + [Act(c, ""), Act(c, "")])
  }

  /**
  From every state in which a pass holds such a snapshot of a pod that is now in use: after an
  undisturbed unpublish the pass deletes it at the same instant, while the stamp just stored says wait.
  */
  lemma OldSnapshotDeletes(env: Env, s: State, v: Tid, c: Tid, t: Target, n: Name, snap: Pod)
    requires Delayed(s, n, t) && !s.pods[n].terminating && NewOp(s, v) && env.lockOf(s.pods[n].labels.hash) !in s.locks
    requires c in s.threads && s.threads[c] == Check(n, snap, CkList) && snap.labels == s.pods[n].labels && !snap.terminating
    requires Refs(snap.annos) == {} && ShouldDelay(env, snap.annos, s.now).DeleteNow?
    ensures var m := Run(env, s, PassRun(v, c, t, n));
            && m.now == s.now && n in m.pods && m.pods[n].uid == s.pods[n].uid && !m.pods[n].terminating
            && DelayTimeKey in m.pods[n].annos && m.pods[n].annos[DelayTimeKey] == s.pods[n].annos[DelayTimeKey]
            && (s.pods[n].annos[DelayTimeKey].nanos + env.zone * SECOND >= SECOND ==> ShouldDelay(env, m.pods[n].annos, m.now) == Wait)
            && var s' := Next(env, m, Act(c, "")); n in s'.pods && s'.pods[n].terminating
  {
    UnpublishAlone(env, s, v, t, n);
    var f := Run(env, s, IdleRun(v, t, n));
    PassComesToDelete(env, f, c, n, snap);
    RunAppend(env, s, IdleRun(v, t, n), [Act(c, ""), Act(c, "")] + [Act(c, ""), Act(c, "")]);
    PassDeletes(env, Run(env, s, PassRun(v, c, t, n)), c, n, snap);
  }

  /** Everything before the pod is in use again. */
  function UseRun(u: Tid, c: Tid, p: Tid, t: Target, job: Job, n: Name, wait: nat): seq<Action> {
    AgeRun(u, c, t, n, wait) + AddRun(p, job, n)
  }

  lemma AgedAndUsed(env: Env, s: State, u: Tid, c: Tid, p: Tid, t: Target, job: Job, n: Name) returns (snap: Pod, wait: nat)
    requires Delayed(s, n, t) && !s.pods[n].terminating && NewOp(s, u) && NewOp(s, c) && p != c
    requires CanStart(env, s, p, job) && s.pods[n].labels == job.labels && RefKey(job.target) !in s.pods[n].annos
    ensures var f := Run(env, s, UseRun(u, c, p, t, job, n, wait));
            && f.threads == s.threads[c := Check(n, snap, CkList)] && f.locks == s.locks
            && Delayed(f, n, job.target) && !f.pods[n].terminating && f.pods[n].labels == job.labels
            && f.pods[n].annos[DelayTimeKey] == s.pods[n].annos[DelayTimeKey]
            && ShouldDelay(env, snap.annos, f.now).DeleteNow?
    ensures Refs(snap.annos) == {} && !snap.terminating && snap.labels == job.labels
  {
    snap, wait := Ages(env, s, u, c, t, n);
    var g := Run(env, s, AgeRun(u, c, t, n, wait));
    UsedAgain(env, g, p, job, n);
    PublishAloneAdds(env, g, p, job, n);
    RunAppend(env, s, AgeRun(u, c, t, n, wait), AddRun(p, job, n));
  }

  function AgedFromStart(d: int, wait: nat): seq<Action> {
    Start1(d) + UseRun(3, 4, 1, FIRST.target, WithDelay(SECOND_JOB, d), "pod-1", wait)
  }

  /** From the initial state, for every delay: the pod is deleted at the instant its last reference goes. */
  lemma OldSnapshotBreaksDelay(env: Env, d: int) returns (wait: nat)
    requires d + env.zone * SECOND >= SECOND
    ensures DelayBroken(env, AgedFromStart(d, wait), PassRun(3, 4, SECOND_JOB.target, "pod-1"), Act(4, ""), "pod-1")
  {
    var snap;
    var s, job := Served1(d), WithDelay(SECOND_JOB, d);
    ReachesServed1(env, d);
    snap, wait := AgedAndUsed(env, s, 3, 4, 1, FIRST.target, job, "pod-1");
    RunAppend(env, Init, Start1(d), UseRun(3, 4, 1, FIRST.target, job, "pod-1", wait));
    var f := Run(env, Init, AgedFromStart(d, wait));
    OldSnapshotDeletes(env, f, 3, 4, job.target, "pod-1", snap);
    RunAppend(env, Init, AgedFromStart(d, wait), PassRun(3, 4, job.target, "pod-1"));
  }
}
