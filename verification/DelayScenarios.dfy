/**
Two ways to break the delete delay go through a pod in use that carries a delete-at stamp: a pass
that works from a stale snapshot, and a handler that merges into a stamped replacement. Both runs go
on to a deletion at the instant the last reference goes.
*/
module DelayScenarios {
  import opened Annotations
  import opened Protocol
  import opened Locking
  import opened Survival
  import opened AppReferences
  import opened DeleteDelay
  import opened Undisturbed

  // ---------- an unpublish that runs alone, in two halves ----------

  function Waiting(env: Env, s: State, tid: Tid, t: Target, n: Name, hash: string): State {
    Goto(s.(locks := s.locks[env.lockOf(hash) := tid]), tid, Unpublish(t, UnGet(n, hash)))
  }

  lemma UnpublishEnters(env: Env, s: State, tid: Tid, t: Target, n: Name)
    requires tid !in s.threads && n in s.pods && RefKey(t) in s.pods[n].annos
    requires env.lockOf(s.pods[n].labels.hash) !in s.locks
    ensures Run(env, s, [BeginUnpublish(tid, t), Act(tid, n), Act(tid, "")]) == Waiting(env, s, tid, t, n, s.pods[n].labels.hash)
  {
    var hash := s.pods[n].labels.hash;
    RunThree(env, s, BeginUnpublish(tid, t), Act(tid, n), Act(tid, ""));
    var s1 := Goto(s, tid, Unpublish(t, UnFind));
    assert Next(env, s, BeginUnpublish(tid, t)) == s1;
    var s2 := Goto(s, tid, Unpublish(t, UnLock(n, hash)));
    assert s1.threads[tid := Unpublish(t, UnLock(n, hash))] == s2.threads;
    assert Next(env, s1, Act(tid, n)) == s2;
    assert s2.threads[tid := Unpublish(t, UnGet(n, hash))] == s.threads[tid := Unpublish(t, UnGet(n, hash))];
  }

  function Dropped(s: State, n: Name, t: Target): State
    requires n in s.pods
  {
    s.(pods := s.pods[n := Patched(s, n, s.pods[n].annos - {RefKey(t)})])
  }

  lemma UnpublishPatches(env: Env, s: State, tid: Tid, t: Target, n: Name, hash: string)
    requires tid in s.threads && s.threads[tid] == Unpublish(t, UnGet(n, hash))
    requires n in s.pods && RefKey(t) in s.pods[n].annos
    ensures Run(env, s, [Act(tid, ""), Act(tid, ""), Act(tid, "")]) == Goto(Dropped(s, n, t), tid, Unpublish(t, UnCount(n, hash)))
  {
    RunThree(env, s, Act(tid, ""), Act(tid, ""), Act(tid, ""));
    var s1 := Goto(s, tid, Unpublish(t, UnReget(n, hash)));
    assert Next(env, s, Act(tid, "")) == s1;
    var s2 := Goto(s, tid, Unpublish(t, UnDrop(n, hash)));
    assert s1.threads[tid := Unpublish(t, UnDrop(n, hash))] == s2.threads;
    assert Next(env, s1, Act(tid, "")) == s2;
    assert s2.threads[tid := Unpublish(t, UnCount(n, hash))] == s.threads[tid := Unpublish(t, UnCount(n, hash))];
  }

  function DropRun(tid: Tid, t: Target, n: Name): seq<Action> {
    [BeginUnpublish(tid, t), Act(tid, n), Act(tid, "")] + [Act(tid, ""), Act(tid, ""), Act(tid, "")]
  }

  /** The pod without the reference; the unpublish still holds the lock. */
  function Half(env: Env, s: State, tid: Tid, t: Target, n: Name): State
    requires n in s.pods
  {
    var hash := s.pods[n].labels.hash;
    Goto(Dropped(s, n, t).(locks := s.locks[env.lockOf(hash) := tid]), tid, Unpublish(t, UnCount(n, hash)))
  }

  lemma UnpublishDrops(env: Env, s: State, tid: Tid, t: Target, n: Name)
    requires tid !in s.threads && n in s.pods && RefKey(t) in s.pods[n].annos
    requires env.lockOf(s.pods[n].labels.hash) !in s.locks
    ensures Run(env, s, DropRun(tid, t, n)) == Half(env, s, tid, t, n)
  {
    var hash := s.pods[n].labels.hash;
    var w := Waiting(env, s, tid, t, n, hash);
    UnpublishEnters(env, s, tid, t, n);
    UnpublishPatches(env, w, tid, t, n, hash);
    RunAppend(env, s, [BeginUnpublish(tid, t), Act(tid, n), Act(tid, "")], [Act(tid, ""), Act(tid, ""), Act(tid, "")]);
    HalfIs(env, s, tid, t, n);
  }

  lemma HalfIs(env: Env, s: State, tid: Tid, t: Target, n: Name)
    requires n in s.pods
    ensures var hash := s.pods[n].labels.hash;
            Goto(Dropped(Waiting(env, s, tid, t, n, hash), n, t), tid, Unpublish(t, UnCount(n, hash))) == Half(env, s, tid, t, n)
  {
  }

  function Stamped(s: State, n: Name, second: int): State
    requires n in s.pods
  {
    s.(pods := s.pods[n := Patched(s, n, s.pods[n].annos[DelayAtKey := Stamp(second)])])
  }

  /** No references are left: the unpublish comes to evaluate the annotations it has read. */
  lemma UnpublishReads(env: Env, s: State, tid: Tid, t: Target, n: Name, hash: string)
    requires tid in s.threads && s.threads[tid] == Unpublish(t, UnCount(n, hash))
    requires n in s.pods && Refs(s.pods[n].annos) == {}
    ensures Next(env, Next(env, s, Act(tid, "")), Act(tid, "")) == Goto(s, tid, Unpublish(t, UnEval(n, hash, s.pods[n].annos)))
  {
    var annos := s.pods[n].annos;
    var s1 := Goto(s, tid, Unpublish(t, UnRead(n, hash)));
    assert Next(env, s, Act(tid, "")) == s1;
    assert s1.threads[tid := Unpublish(t, UnEval(n, hash, annos))] == s.threads[tid := Unpublish(t, UnEval(n, hash, annos))];
  }

  /** The second half: the pod is stamped and the lock released. */
  lemma UnpublishStamps(env: Env, s: State, tid: Tid, t: Target, n: Name, hash: string, second: int)
    requires tid in s.threads && s.threads[tid] == Unpublish(t, UnCount(n, hash))
    requires n in s.pods && Refs(s.pods[n].annos) == {} && ShouldDelay(env, s.pods[n].annos, s.now) == StampAt(second)
    ensures Run(env, s, [Act(tid, ""), Act(tid, ""), Act(tid, "")] + [Act(tid, "")]) == Finish(Stamped(s, n, second), tid)
  {
    RunThree(env, s, Act(tid, ""), Act(tid, ""), Act(tid, ""));
    RunSnoc(env, s, [Act(tid, ""), Act(tid, ""), Act(tid, "")], Act(tid, ""));
    UnpublishReads(env, s, tid, t, n, hash);
    StampPlanned(env, s, Goto(s, tid, Unpublish(t, UnEval(n, hash, s.pods[n].annos))), tid, t, n, hash, second);
  }

  lemma StampPlanned(env: Env, s: State, s2: State, tid: Tid, t: Target, n: Name, hash: string, second: int)
    requires n in s.pods && ShouldDelay(env, s.pods[n].annos, s.now) == StampAt(second)
    requires tid in s.threads && s2 == Goto(s, tid, Unpublish(t, UnEval(n, hash, s.pods[n].annos)))
    ensures Next(env, Next(env, s2, Act(tid, "")), Act(tid, "")) == Finish(Stamped(s, n, second), tid)
  {
    var s3 := Goto(s, tid, Unpublish(t, UnStamp(n, hash, second)));
    assert s2.threads[tid := Unpublish(t, UnStamp(n, hash, second))] == s3.threads;
    assert Next(env, s2, Act(tid, "")) == s3;
    StampStep(env, s3, tid, t, n, hash, second);
    assert s3.threads - {tid} == s.threads - {tid};
  }

  lemma StampStep(env: Env, s: State, tid: Tid, t: Target, n: Name, hash: string, second: int)
    requires n in s.pods && tid in s.threads && s.threads[tid] == Unpublish(t, UnStamp(n, hash, second))
    ensures Next(env, s, Act(tid, "")) == Finish(Stamped(s, n, second), tid)
  {
  }

  // ---------- a stale pass ----------

  /** Pod `n` has one reference and a delay, and is not stamped. */
  predicate Delayed(s: State, n: Name, t: Target) {
    && n in s.pods && Refs(s.pods[n].annos) == {RefKey(t)} && DelayAtKey !in s.pods[n].annos
    && DelayTimeKey in s.pods[n].annos && s.pods[n].annos[DelayTimeKey].Duration?
  }

  predicate NewOp(s: State, tid: Tid) {
    tid !in s.threads && forall i | i in s.locks :: s.locks[i] != tid
  }

  /** The reference is dropped and, before the stamp, a pass takes its snapshot. */
  function SnapRun(u: Tid, c: Tid, t: Target, n: Name): seq<Action> {
    DropRun(u, t, n) + [BeginCheck(c, n)] + ([Act(u, ""), Act(u, ""), Act(u, "")] + [Act(u, "")])
  }

  lemma HalfDelayed(env: Env, s: State, u: Tid, t: Target, n: Name) returns (second: int)
    requires Delayed(s, n, t)
    ensures var h := Half(env, s, u, t, n);
            && Refs(h.pods[n].annos) == {} && DelayAtKey !in h.pods[n].annos
            && ShouldDelay(env, h.pods[n].annos, h.now) == StampAt(second)
            && h.now == s.now && second == (s.now + s.pods[n].annos[DelayTimeKey].nanos) / SECOND
  {
    RemoveRefs(s.pods[n].annos, {RefKey(t)});
    second := (s.now + s.pods[n].annos[DelayTimeKey].nanos) / SECOND;
  }

  /** The state it leaves. */
  function Snapped(env: Env, s: State, u: Tid, c: Tid, t: Target, n: Name, second: int): State
    requires n in s.pods
  {
    var h := Half(env, s, u, t, n);
    Finish(Stamped(Goto(h, c, Check(n, h.pods[n], CkList)), n, second), u)
  }

  lemma SnapRuns(env: Env, s: State, u: Tid, c: Tid, t: Target, n: Name, second: int)
    requires Delayed(s, n, t) && NewOp(s, u) && NewOp(s, c) && u != c && env.lockOf(s.pods[n].labels.hash) !in s.locks
    requires var h := Half(env, s, u, t, n); Refs(h.pods[n].annos) == {} && ShouldDelay(env, h.pods[n].annos, h.now) == StampAt(second)
    ensures Run(env, s, SnapRun(u, c, t, n)) == Snapped(env, s, u, c, t, n, second)
  {
    var h := Half(env, s, u, t, n);
    UnpublishDrops(env, s, u, t, n);
    CheckBegins(env, h, c, n);
    RunSnoc(env, s, DropRun(u, t, n), BeginCheck(c, n));
    UnpublishStamps(env, Goto(h, c, Check(n, h.pods[n], CkList)), u, t, n, s.pods[n].labels.hash, second);
    RunAppend(env, s, DropRun(u, t, n) + [BeginCheck(c, n)], [Act(u, ""), Act(u, ""), Act(u, "")] + [Act(u, "")]);
  }

  lemma SnapEnds(env: Env, s: State, u: Tid, c: Tid, t: Target, n: Name, second: int)
    requires Delayed(s, n, t) && NewOp(s, u) && NewOp(s, c) && u != c && env.lockOf(s.pods[n].labels.hash) !in s.locks
    ensures var f, snap := Snapped(env, s, u, c, t, n, second), Half(env, s, u, t, n).pods[n];
            && f.threads == s.threads[c := Check(n, snap, CkList)] && f.locks == s.locks && f.apps == s.apps
            && n in f.pods && f.pods[n].labels == s.pods[n].labels && f.pods[n].terminating == s.pods[n].terminating
            && f.pods[n].annos == snap.annos[DelayAtKey := Stamp(second)]
            && snap.annos == s.pods[n].annos - {RefKey(t)}
  {
  }

  lemma SnapTaken(env: Env, s: State, u: Tid, c: Tid, t: Target, n: Name) returns (snap: Pod, second: int)
    requires Delayed(s, n, t) && NewOp(s, u) && NewOp(s, c) && u != c && env.lockOf(s.pods[n].labels.hash) !in s.locks
    ensures var f := Run(env, s, SnapRun(u, c, t, n));
            && f.threads == s.threads[c := Check(n, snap, CkList)] && f.locks == s.locks && f.apps == s.apps
            && n in f.pods && f.pods[n].labels == s.pods[n].labels && f.pods[n].terminating == s.pods[n].terminating
            && f.pods[n].annos == snap.annos[DelayAtKey := Stamp(second)]
    ensures Refs(snap.annos) == {} && snap.annos == s.pods[n].annos - {RefKey(t)}
    ensures snap.labels == s.pods[n].labels && snap.terminating == s.pods[n].terminating
  {
    second := HalfDelayed(env, s, u, t, n);
    snap := Half(env, s, u, t, n).pods[n];
    SnapRuns(env, s, u, c, t, n, second);
    SnapEnds(env, s, u, c, t, n, second);
  }

  lemma CheckBegins(env: Env, s: State, c: Tid, n: Name)
    requires c !in s.threads && n in s.pods
    ensures Next(env, s, BeginCheck(c, n)) == Goto(s, c, Check(n, s.pods[n], CkList))
  {
  }

  /** An undisturbed pass whose snapshot has no references goes straight to its decision. */
  lemma PassDecides(env: Env, s: State, c: Tid, n: Name, snap: Pod, alive: set<string>)
    requires c in s.threads && s.threads[c] == Check(n, snap, CkList) && Refs(snap.annos) == {}
    requires env.lockOf(snap.labels.hash) !in s.locks && alive == (set u | u in s.apps && s.apps[u])
    ensures Next(env, Next(env, s, Act(c, "")), Act(c, ""))
         == Goto(s.(locks := s.locks[env.lockOf(snap.labels.hash) := c]), c, Check(n, snap, CkDecide(alive)))
  {
  }

  function AddRun(p: Tid, job: Job, n: Name): seq<Action> {
    PublishRun(p, job, n) + [Act(p, "")] + [Act(p, "")]
  }

  function StaleRun(u: Tid, c: Tid, p: Tid, t: Target, job: Job, n: Name): seq<Action> {
    SnapRun(u, c, t, n) + AddRun(p, job, n) + [Act(c, ""), Act(c, "")] + [Act(c, ""), Act(c, "")]
  }

  /** Pod `n` is in use by `t` alone, has delay `d`, and carries a stamp all the same. */
  ghost predicate InUseStamped(s: State, n: Name, t: Target, d: int) {
    && n in s.pods && !s.pods[n].terminating && Refs(s.pods[n].annos) == {RefKey(t)}
    && DelayTimeKey in s.pods[n].annos && s.pods[n].annos[DelayTimeKey] == Duration(d)
    && DelayAtKey in s.pods[n].annos && s.pods[n].annos[DelayAtKey].Stamp?
  }

  lemma StampsStored(env: Env, s: State, c: Tid, n: Name, snap: Pod, alive: set<string>, second: int)
    requires c in s.threads && s.threads[c] == Check(n, snap, CkDecide(alive)) && n in s.pods
    requires Refs(snap.annos) == {} && !snap.terminating && ShouldDelay(env, snap.annos, s.now) == StampAt(second)
    ensures Next(env, Next(env, s, Act(c, "")), Act(c, "")) == Finish(Stamped(s, n, second), c)
  {
    assert LiveRefs(snap, alive) == {};
    var s1 := Goto(s, c, Check(n, snap, CkStamp(second)));
    assert Next(env, s, Act(c, "")) == s1;
    assert s1.threads - {c} == s.threads - {c};
  }

  /** The last part: the pass stamps the pod that it meets, whatever has been published to it. */
  lemma PassStamps(env: Env, s: State, c: Tid, n: Name, snap: Pod) returns (second: int)
    requires c in s.threads && s.threads[c] == Check(n, snap, CkList) && Refs(snap.annos) == {} && !snap.terminating
    requires DelayTimeKey in snap.annos && snap.annos[DelayTimeKey].Duration? && DelayAtKey !in snap.annos
    requires env.lockOf(snap.labels.hash) !in s.locks && n in s.pods && forall i | i in s.locks :: s.locks[i] != c
    ensures var f := Run(env, s, [Act(c, ""), Act(c, "")] + [Act(c, ""), Act(c, "")]);
            && f.threads == s.threads - {c} && f.locks == s.locks && n in f.pods
            && f.pods[n] == s.pods[n].(annos := s.pods[n].annos[DelayAtKey := Stamp(second)], idleSince := f.pods[n].idleSince)
  {
    var alive := set u | u in s.apps && s.apps[u];
    second := (s.now + snap.annos[DelayTimeKey].nanos) / SECOND;
    PassDecides(env, s, c, n, snap, alive);
    RunTwo(env, s, Act(c, ""), Act(c, ""));
    var s1 := Goto(s.(locks := s.locks[env.lockOf(snap.labels.hash) := c]), c, Check(n, snap, CkDecide(alive)));
    StampsStored(env, s1, c, n, snap, alive, second);
    RunTwo(env, s1, Act(c, ""), Act(c, ""));
    RunAppend(env, s, [Act(c, ""), Act(c, "")], [Act(c, ""), Act(c, "")]);
    PassEnds(env, s, c, n, snap, alive, second);
  }

  lemma PassEnds(env: Env, s: State, c: Tid, n: Name, snap: Pod, alive: set<string>, second: int)
    requires n in s.pods && env.lockOf(snap.labels.hash) !in s.locks && forall i | i in s.locks :: s.locks[i] != c
    ensures var s1 := Goto(s.(locks := s.locks[env.lockOf(snap.labels.hash) := c]), c, Check(n, snap, CkDecide(alive)));
            var f := Finish(Stamped(s1, n, second), c);
            f.threads == s.threads - {c} && f.locks == s.locks
  {
  }

  /** The middle: the reference goes, the pass takes its snapshot, the pod is published again. */
  lemma StaleInUse(env: Env, s: State, u: Tid, c: Tid, p: Tid, t: Target, job: Job, n: Name) returns (snap: Pod)
    requires Delayed(s, n, t) && !s.pods[n].terminating && NewOp(s, u) && NewOp(s, c) && u != c && p != c
    requires CanStart(env, s, p, job) && s.pods[n].labels == job.labels && RefKey(job.target) !in s.pods[n].annos
    ensures var g := Run(env, s, SnapRun(u, c, t, n) + AddRun(p, job, n));
            && g.threads == s.threads[c := Check(n, snap, CkList)] && g.locks == s.locks
            && n in g.pods && !g.pods[n].terminating && g.pods[n].labels == job.labels
            && Refs(g.pods[n].annos) == {RefKey(job.target)} && DelayTimeKey in g.pods[n].annos
            && g.pods[n].annos[DelayTimeKey] == s.pods[n].annos[DelayTimeKey]
    ensures Refs(snap.annos) == {} && DelayAtKey !in snap.annos && !snap.terminating
    ensures snap.labels == s.pods[n].labels && snap.annos == s.pods[n].annos - {RefKey(t)}
  {
    var second;
    snap, second := SnapTaken(env, s, u, c, t, n);
    var f := Run(env, s, SnapRun(u, c, t, n));
    StampKeepsRefs(snap.annos, second);
    RunAppend(env, s, SnapRun(u, c, t, n), AddRun(p, job, n));
    PublishAloneAdds(env, f, p, job, n);
  }

  /** From every state with an idle-able delayed pod: a pass that saw it idle stamps it after it is in use again. */
  lemma StaleStamp(env: Env, s: State, u: Tid, c: Tid, p: Tid, t: Target, job: Job, n: Name)
    requires Delayed(s, n, t) && !s.pods[n].terminating && NewOp(s, u) && NewOp(s, c) && u != c && p != c
    requires CanStart(env, s, p, job) && s.pods[n].labels == job.labels && RefKey(job.target) !in s.pods[n].annos
    ensures var f := Run(env, s, StaleRun(u, c, p, t, job, n));
            && InUseStamped(f, n, job.target, s.pods[n].annos[DelayTimeKey].nanos)
            && f.threads == s.threads && f.locks == s.locks && f.pods[n].labels == job.labels
  {
    var snap := StaleInUse(env, s, u, c, p, t, job, n);
    var g := Run(env, s, SnapRun(u, c, t, n) + AddRun(p, job, n));
    var second := PassStamps(env, g, c, n, snap);
    var last := [Act(c, ""), Act(c, "")] + [Act(c, ""), Act(c, "")];
    RunAppend(env, s, SnapRun(u, c, t, n) + AddRun(p, job, n), last);
    assert StaleRun(u, c, p, t, job, n) == SnapRun(u, c, t, n) + AddRun(p, job, n) + last;
    assert g.threads - {c} == s.threads;
    StampKeepsRefs(g.pods[n].annos, second);
  }

  lemma StampKeepsRefs(annos: Annos, second: int)
    ensures Refs(annos[DelayAtKey := Stamp(second)]) == Refs(annos)
  {
  }

  // ---------- a merge into a stamped pod ----------

  /** The pod is deleted and its handler has removed the finalizer; then it vanishes. */
  function DoomRun(h: Tid, n: Name): seq<Action> {
    [ExternalDelete(n), BeginHandler(h, n), Act(h, "")] + [Vanish(n)]
  }

  function Gone(s: State, h: Tid, n: Name): State
    requires n in s.pods
  {
    var snap := s.pods[n].(terminating := true);
    Goto(s.(pods := s.pods - {n}, vanished := s.vanished[snap.uid := snap.annos]), h, Handle(n, snap, HdLock))
  }

  lemma Dooms(env: Env, s: State, h: Tid, n: Name)
    requires n in s.pods && s.pods[n].finalizer && h !in s.threads && Refs(s.pods[n].annos) != {}
    ensures Run(env, s, DoomRun(h, n)) == Gone(s, h, n)
  {
    var snap := s.pods[n].(terminating := true);
    RunThree(env, s, ExternalDelete(n), BeginHandler(h, n), Act(h, ""));
    RunSnoc(env, s, [ExternalDelete(n), BeginHandler(h, n), Act(h, "")], Vanish(n));
    var s1 := s.(pods := s.pods[n := snap]);
    assert Next(env, s, ExternalDelete(n)) == s1;
    var s2 := Goto(s1, h, Handle(n, snap, HdUnfinalize));
    assert Next(env, s1, BeginHandler(h, n)) == s2;
    Unfinalizes(env, s2, h, n, snap);
    var s3 := Goto(s.(pods := s.pods[n := snap.(finalizer := false)]), h, Handle(n, snap, HdLock));
    assert s2.threads[h := Handle(n, snap, HdLock)] == s3.threads && s2.pods[n := snap.(finalizer := false)] == s3.pods;
    assert s3.pods - {n} == s.pods - {n};
    Vanishes(env, s3, n);
  }

  /** A publish that has chosen pod `n` finds it gone and creates it anew. */
  lemma RecreatesChosen(env: Env, s: State, p: Tid, job: Job, n: Name)
    requires p in s.threads && s.threads[p] == Publish(job, PubLabel(n)) && (job.hasApp ==> job.target.uid in s.apps) && n !in s.pods
    ensures Run(env, s, [Act(p, ""), Act(p, ""), Act(p, "")])
         == Finish(s.(apps := Labelled(s, job),
                      pods := s.pods[n := Pod(s.nextUid, job.labels, Fresh(job), false, true, s.now)], nextUid := s.nextUid + 1), p)
  {
    RunThree(env, s, Act(p, ""), Act(p, ""), Act(p, ""));
    LabelStep(env, s, p, job, n);
    var s1 := Goto(s.(apps := Labelled(s, job)), p, Publish(job, PubGet(n)));
    GetStep(env, s1, p, job, n);
    var s2 := Goto(s.(apps := Labelled(s, job)), p, Publish(job, PubCreate(n)));
    assert s1.threads[p := Publish(job, PubCreate(n))] == s2.threads;
    CreateStep(env, s2, p, job, n);
    assert s2.threads - {p} == s.threads - {p};
  }

  function IdleRun(u: Tid, t: Target, n: Name): seq<Action> {
    DropRun(u, t, n) + ([Act(u, ""), Act(u, ""), Act(u, "")] + [Act(u, "")])
  }

  /** An unpublish of the last reference of a delayed pod, alone, leaves it stamped. */
  lemma UnpublishAlone(env: Env, s: State, u: Tid, t: Target, n: Name)
    requires Delayed(s, n, t) && NewOp(s, u) && env.lockOf(s.pods[n].labels.hash) !in s.locks
    ensures var f := Run(env, s, IdleRun(u, t, n));
            var second := (s.now + s.pods[n].annos[DelayTimeKey].nanos) / SECOND;
            && f.threads == s.threads && f.locks == s.locks && f.now == s.now && f.apps == s.apps
            && n in f.pods && f.pods[n].annos == (s.pods[n].annos - {RefKey(t)})[DelayAtKey := Stamp(second)]
            && Refs(f.pods[n].annos) == {}
            && f.pods[n] == s.pods[n].(annos := f.pods[n].annos, idleSince := f.pods[n].idleSince)
  {
    var h := Half(env, s, u, t, n);
    var second := HalfDelayed(env, s, u, t, n);
    UnpublishDrops(env, s, u, t, n);
    UnpublishStamps(env, h, u, t, n, s.pods[n].labels.hash, second);
    RunAppend(env, s, DropRun(u, t, n), [Act(u, ""), Act(u, ""), Act(u, "")] + [Act(u, "")]);
    AloneEnds(env, s, u, t, n, second);
    StampKeepsRefs(s.pods[n].annos - {RefKey(t)}, second);
  }

  lemma AloneEnds(env: Env, s: State, u: Tid, t: Target, n: Name, second: int)
    requires Delayed(s, n, t) && NewOp(s, u) && env.lockOf(s.pods[n].labels.hash) !in s.locks
    ensures var f := Finish(Stamped(Half(env, s, u, t, n), n, second), u);
            && f.threads == s.threads && f.locks == s.locks && f.now == s.now && f.apps == s.apps
            && n in f.pods && f.pods[n].annos == (s.pods[n].annos - {RefKey(t)})[DelayAtKey := Stamp(second)]
            && f.pods[n] == s.pods[n].(annos := f.pods[n].annos, idleSince := f.pods[n].idleSince)
  {
  }

  /** The handler merges its references into the stamped pod. */
  lemma MergeStamps(env: Env, s: State, h: Tid, n: Name, snap: Pod)
    requires h in s.threads && s.threads[h] == Handle(n, snap, HdLock) && env.lockOf(snap.labels.hash) !in s.locks
    requires n in s.pods && !s.pods[n].terminating && forall i | i in s.locks :: s.locks[i] != h
    ensures var f := Run(env, s, [Act(h, ""), Act(h, ""), Act(h, "")]);
            && f.threads == s.threads - {h} && f.locks == s.locks && n in f.pods
            && f.pods[n] == s.pods[n].(annos := MergeRefs(s.pods[n].annos, snap.annos), idleSince := f.pods[n].idleSince)
  {
    RunThree(env, s, Act(h, ""), Act(h, ""), Act(h, ""));
    HandlerLocks(env, s, h, n, snap);
    var s1 := Goto(s.(locks := s.locks[env.lockOf(snap.labels.hash) := h]), h, Handle(n, snap, HdGet));
    var annos := MergeRefs(s.pods[n].annos, snap.annos);
    MergeFinds(env, s1, h, n, snap);
    MergeEnds(env, Goto(s1, h, Handle(n, snap, HdMerge(annos))), h, n, snap, annos);
    MergedState(env, s, h, n, snap, annos);
  }

  lemma MergeFinds(env: Env, s: State, h: Tid, n: Name, snap: Pod)
    requires h in s.threads && s.threads[h] == Handle(n, snap, HdGet) && n in s.pods && !s.pods[n].terminating
    ensures Next(env, s, Act(h, "")) == Goto(s, h, Handle(n, snap, HdMerge(MergeRefs(s.pods[n].annos, snap.annos))))
  {
  }

  lemma MergedState(env: Env, s: State, h: Tid, n: Name, snap: Pod, annos: Annos)
    requires h in s.threads && n in s.pods && env.lockOf(snap.labels.hash) !in s.locks && forall i | i in s.locks :: s.locks[i] != h
    ensures var s1 := Goto(s.(locks := s.locks[env.lockOf(snap.labels.hash) := h]), h, Handle(n, snap, HdGet));
            var s2 := Goto(s1, h, Handle(n, snap, HdMerge(annos)));
            var f := Finish(s2.(pods := s2.pods[n := Patched(s2, n, annos)]), h);
            && f.threads == s.threads - {h} && f.locks == s.locks && n in f.pods
            && f.pods[n] == s.pods[n].(annos := annos, idleSince := f.pods[n].idleSince)
  {
  }

  lemma MergeEnds(env: Env, s: State, h: Tid, n: Name, snap: Pod, annos: Annos)
    requires h in s.threads && s.threads[h] == Handle(n, snap, HdMerge(annos)) && n in s.pods
    ensures Next(env, s, Act(h, "")) == Finish(s.(pods := s.pods[n := Patched(s, n, annos)]), h)
  {
  }

  function ChooseRun(p: Tid, job: Job, n: Name): seq<Action> {
    [BeginPublish(p, job), Act(p, "")] + [Act(p, n)]
  }

  lemma Chooses(env: Env, s: State, p: Tid, job: Job, n: Name)
    requires CanStart(env, s, p, job) && Serves(s, n, job.labels)
    ensures Run(env, s, ChooseRun(p, job, n)) == Inside(env, s, p, job, PubLabel(n))
  {
    EntersLock(env, s, p, job);
    RunSnoc(env, s, [BeginPublish(p, job), Act(p, "")], Act(p, n));
    var s1 := Inside(env, s, p, job, PubList);
    assert Serves(s1, n, job.labels);
    assert s1.threads[p := Publish(job, PubLabel(n))] == s.threads[p := Publish(job, PubLabel(n))];
  }

  function ReplaceRun(p: Tid, h: Tid, job: Job, n: Name): seq<Action> {
    ChooseRun(p, job, n) + DoomRun(h, n) + [Act(p, ""), Act(p, ""), Act(p, "")]
  }

  /** The pod of the publish, created under the old name, and the handler of the old pod still waiting. */
  function Replaced(s: State, h: Tid, job: Job, n: Name): State
    requires n in s.pods
  {
    var g := Gone(s, h, n);
    g.(apps := Labelled(s, job),
       pods := g.pods[n := Pod(s.nextUid, job.labels, Fresh(job), false, true, s.now)], nextUid := s.nextUid + 1)
  }

  lemma Replaces(env: Env, s: State, p: Tid, h: Tid, job: Job, n: Name)
    requires CanStart(env, s, p, job) && Serves(s, n, job.labels)
    requires s.pods[n].finalizer && NewOp(s, h) && h != p && Refs(s.pods[n].annos) != {}
    ensures Run(env, s, ReplaceRun(p, h, job, n)) == Replaced(s, h, job, n)
  {
    var i := Inside(env, s, p, job, PubLabel(n));
    Chooses(env, s, p, job, n);
    Dooms(env, i, h, n);
    RunAppend(env, s, ChooseRun(p, job, n), DoomRun(h, n));
    RecreatesChosen(env, Gone(i, h, n), p, job, n);
    RunAppend(env, s, ChooseRun(p, job, n) + DoomRun(h, n), [Act(p, ""), Act(p, ""), Act(p, "")]);
    ReplacedEnds(env, s, p, h, job, n);
  }

  lemma ReplacedEnds(env: Env, s: State, p: Tid, h: Tid, job: Job, n: Name)
    requires CanStart(env, s, p, job) && n in s.pods && NewOp(s, h) && h != p
    ensures var g := Gone(Inside(env, s, p, job, PubLabel(n)), h, n);
            Finish(g.(apps := Labelled(s, job),
                      pods := g.pods[n := Pod(s.nextUid, job.labels, Fresh(job), false, true, s.now)], nextUid := s.nextUid + 1), p)
            == Replaced(s, h, job, n)
  {
    var th := Handle(n, s.pods[n].(terminating := true), HdLock);
    assert s.threads[p := Publish(job, PubLabel(n))][h := th] == s.threads[h := th][p := Publish(job, PubLabel(n))];
    FinishInside(env, Replaced(s, h, job, n), p, job, PubLabel(n));
  }

  function MergedRun(p: Tid, h: Tid, u: Tid, job: Job, n: Name): seq<Action> {
    ReplaceRun(p, h, job, n) + IdleRun(u, job.target, n) + [Act(h, ""), Act(h, ""), Act(h, "")]
  }

  /** The first part of it: the old pod is gone, its replacement is idle and stamped, and the handler waits. */
  lemma ReplacedIdle(env: Env, s: State, p: Tid, h: Tid, u: Tid, job: Job, n: Name)
    requires CanStart(env, s, p, job) && Serves(s, n, job.labels)
    requires s.pods[n].finalizer && NewOp(s, h) && NewOp(s, u) && h != p && u != h && Refs(s.pods[n].annos) != {}
    requires DelayTimeKey in job.base && job.base[DelayTimeKey].Duration?
    ensures var f := Run(env, s, ReplaceRun(p, h, job, n) + IdleRun(u, job.target, n));
            && f.threads == s.threads[h := Handle(n, s.pods[n].(terminating := true), HdLock)] && f.locks == s.locks
            && n in f.pods && !f.pods[n].terminating && f.pods[n].labels == job.labels && Refs(f.pods[n].annos) == {}
            && DelayAtKey in f.pods[n].annos && f.pods[n].annos[DelayAtKey].Stamp?
            && DelayTimeKey in f.pods[n].annos && f.pods[n].annos[DelayTimeKey] == job.base[DelayTimeKey]
  {
    Replaces(env, s, p, h, job, n);
    FreshDelayed(job);
    UnpublishAlone(env, Replaced(s, h, job, n), u, job.target, n);
    RunAppend(env, s, ReplaceRun(p, h, job, n), IdleRun(u, job.target, n));
  }

  /** From every state with a referenced pod: its replacement is stamped before the handler's merge brings the references back. */
  lemma MergedStamp(env: Env, s: State, p: Tid, h: Tid, u: Tid, t: Target, job: Job, n: Name)
    requires CanStart(env, s, p, job) && Serves(s, n, job.labels)
    requires s.pods[n].finalizer && NewOp(s, h) && NewOp(s, u) && h != p && u != h && Refs(s.pods[n].annos) == {RefKey(t)}
    requires DelayTimeKey in job.base && job.base[DelayTimeKey].Duration?
    ensures var f := Run(env, s, MergedRun(p, h, u, job, n));
            && InUseStamped(f, n, t, job.base[DelayTimeKey].nanos)
            && f.threads == s.threads && f.locks == s.locks && f.pods[n].labels == job.labels
  {
    var idle, snap := ReplaceRun(p, h, job, n) + IdleRun(u, job.target, n), s.pods[n].(terminating := true);
    ReplacedIdle(env, s, p, h, u, job, n);
    var f := Run(env, s, idle);
    MergeStamps(env, f, h, n, snap);
    RunAppend(env, s, idle, [Act(h, ""), Act(h, ""), Act(h, "")]);
    assert f.threads - {h} == s.threads;
    MergedRefs(f.pods[n].annos, snap.annos, t);
  }

  lemma MergedRefs(onto: Annos, from: Annos, t: Target)
    requires Refs(onto) == {} && Refs(from) == {RefKey(t)}
    ensures Refs(MergeRefs(onto, from)) == {RefKey(t)}
    ensures forall k: Key | k != RefKey(t) && k in onto :: k in MergeRefs(onto, from) && MergeRefs(onto, from)[k] == onto[k]
  {
  }

  lemma FreshDelayed(job: Job)
    requires CleanBase(job.base) && DelayTimeKey in job.base && job.base[DelayTimeKey].Duration?
    ensures Refs(Fresh(job)) == {RefKey(job.target)} && DelayAtKey !in Fresh(job)
    ensures DelayTimeKey in Fresh(job) && Fresh(job)[DelayTimeKey] == job.base[DelayTimeKey]
  {
  }

  // ---------- a stamp on a pod in use breaks the delay ----------

  lemma UnpublishDecides(env: Env, s: State, u: Tid, t: Target, n: Name, hash: string)
    requires u in s.threads && s.threads[u] == Unpublish(t, UnCount(n, hash))
    requires n in s.pods && Refs(s.pods[n].annos) == {} && ShouldDelay(env, s.pods[n].annos, s.now).DeleteNow?
    ensures Run(env, s, [Act(u, ""), Act(u, ""), Act(u, "")]) == Goto(s, u, Unpublish(t, UnDelete(n, hash)))
  {
    RunThree(env, s, Act(u, ""), Act(u, ""), Act(u, ""));
    UnpublishReads(env, s, u, t, n, hash);
    DecideStep(env, Goto(s, u, Unpublish(t, UnEval(n, hash, s.pods[n].annos))), u, t, n, hash, s.pods[n].annos);
    assert s.threads[u := Unpublish(t, UnEval(n, hash, s.pods[n].annos))][u := Unpublish(t, UnDelete(n, hash))]
        == s.threads[u := Unpublish(t, UnDelete(n, hash))];
  }

  lemma DecideStep(env: Env, s: State, u: Tid, t: Target, n: Name, hash: string, annos: Annos)
    requires u in s.threads && s.threads[u] == Unpublish(t, UnEval(n, hash, annos)) && ShouldDelay(env, annos, s.now).DeleteNow?
    ensures Next(env, s, Act(u, "")) == Goto(s, u, Unpublish(t, UnDelete(n, hash)))
  {
  }

  lemma DeleteStep(env: Env, s: State, u: Tid, t: Target, n: Name, hash: string)
    requires u in s.threads && s.threads[u] == Unpublish(t, UnDelete(n, hash)) && n in s.pods
    ensures var s' := Next(env, s, Act(u, "")); n in s'.pods && s'.pods[n].terminating
  {
  }

  /** The stamp of pod `n` lies in the past. */
  predicate Expired(env: Env, s: State, n: Name) {
    n in s.pods && DelayAtKey in s.pods[n].annos && s.pods[n].annos[DelayAtKey].Stamp?
    && (s.pods[n].annos[DelayAtKey].second + env.zone) * SECOND <= s.now
  }

  function QuitRun(u: Tid, t: Target, n: Name): seq<Action> {
    DropRun(u, t, n) + [Act(u, ""), Act(u, ""), Act(u, "")]
  }

  lemma HalfExpired(env: Env, s: State, u: Tid, t: Target, n: Name, d: int)
    requires InUseStamped(s, n, t, d) && Expired(env, s, n)
    ensures var h := Half(env, s, u, t, n);
            && Refs(h.pods[n].annos) == {} && ShouldDelay(env, h.pods[n].annos, h.now).DeleteNow? && h.now == s.now
            && h.pods[n].annos[DelayTimeKey] == Duration(d)
  {
    RemoveRefs(s.pods[n].annos, {RefKey(t)});
  }

  /** From every state: an undisturbed unpublish of the last reference of a pod with an expired stamp deletes the pod at once. */
  lemma DeletesAtOnce(env: Env, s: State, u: Tid, t: Target, n: Name, d: int)
    requires InUseStamped(s, n, t, d) && Expired(env, s, n)
    requires NewOp(s, u) && env.lockOf(s.pods[n].labels.hash) !in s.locks
    ensures var m := Run(env, s, QuitRun(u, t, n));
            && m.now == s.now && n in m.pods && m.pods[n].uid == s.pods[n].uid && !m.pods[n].terminating
            && DelayTimeKey in m.pods[n].annos && m.pods[n].annos[DelayTimeKey] == Duration(d)
            && var s' := Next(env, m, Act(u, "")); n in s'.pods && s'.pods[n].terminating
  {
    var h, hash := Half(env, s, u, t, n), s.pods[n].labels.hash;
    UnpublishDrops(env, s, u, t, n);
    HalfExpired(env, s, u, t, n, d);
    UnpublishDecides(env, h, u, t, n, hash);
    RunAppend(env, s, DropRun(u, t, n), [Act(u, ""), Act(u, ""), Act(u, "")]);
    DeleteStep(env, Goto(h, u, Unpublish(t, UnDelete(n, hash))), u, t, n, hash);
  }

  /**
  Pod `n` with delay `d` is in use after `before`, and after `before + after` action `a` deletes it
  for lack of use, although no more than the delay (less one second, shifted by the zone) has passed.
  */
  ghost predicate DelayBroken(env: Env, before: seq<Action>, after: seq<Action>, a: Action, n: Name) {
    var s0, s := Run(env, Init, before), Run(env, Init, before + after);
    && n in s0.pods && Refs(s0.pods[n].annos) != {}
    && n in s.pods && s.pods[n].uid == s0.pods[n].uid && !s.pods[n].terminating
    && DelayTimeKey in s.pods[n].annos && s.pods[n].annos[DelayTimeKey].Duration?
    && a != ExternalDelete(n) && n in Next(env, s, a).pods && Next(env, s, a).pods[n].terminating
    && s.now - s0.now <= s.pods[n].annos[DelayTimeKey].nanos + env.zone * SECOND - SECOND
  }

  /** Every run that leaves a stamp on a pod in use can go on to break the delay. */
  lemma StampBreaksDelay(env: Env, run: seq<Action>, u: Tid, t: Target, n: Name, d: int) returns (wait: nat)
    requires var s := Run(env, Init, run);
             InUseStamped(s, n, t, d) && NewOp(s, u) && env.lockOf(s.pods[n].labels.hash) !in s.locks
    requires d + env.zone * SECOND >= SECOND
    ensures DelayBroken(env, run + [Tick(wait)], QuitRun(u, t, n), Act(u, ""), n)
  {
    var s := Run(env, Init, run);
    wait := WaitsOut(env, s, n);
    RunSnoc(env, Init, run, Tick(wait));
    var s0 := s.(now := s.now + wait);
    DeletesAtOnce(env, s0, u, t, n, d);
    RunAppend(env, Init, run + [Tick(wait)], QuitRun(u, t, n));
  }

  lemma WaitsOut(env: Env, s: State, n: Name) returns (wait: nat)
    requires n in s.pods && DelayAtKey in s.pods[n].annos && s.pods[n].annos[DelayAtKey].Stamp?
    ensures Next(env, s, Tick(wait)) == s.(now := s.now + wait) && Expired(env, s.(now := s.now + wait), n)
  {
    var due := (s.pods[n].annos[DelayAtKey].second + env.zone) * SECOND - s.now;
    wait := if due > 0 then due else 0;
  }

  // ---------- from the initial state ----------

  /** The two jobs of the scenarios, with delay `d`. */
  function WithDelay(job: Job, d: int): Job {
    job.(base := map[DelayTimeKey := Duration(d)])
  }

  function Served1(d: int): State {
    Created(Init.(apps := map["app-1" := false, "app-2" := false]), WithDelay(FIRST, d), "pod-1")
  }

  function Start1(d: int): seq<Action> {
    [AppCreated("app-1"), AppCreated("app-2")] + (PublishRun(0, WithDelay(FIRST, d), "pod-1") + [Act(0, "")])
  }

  lemma ReachesServed1(env: Env, d: int)
    ensures Run(env, Init, Start1(d)) == Served1(d) && Delayed(Served1(d), "pod-1", FIRST.target)
    ensures Served1(d).pods["pod-1"].annos[DelayTimeKey] == Duration(d)
  {
    var s, job := Init.(apps := map["app-1" := false, "app-2" := false]), WithDelay(FIRST, d);
    RunTwo(env, Init, AppCreated("app-1"), AppCreated("app-2"));
    assert Run(env, Init, [AppCreated("app-1"), AppCreated("app-2")]) == s;
    PublishAloneCreates(env, s, 0, job, "pod-1");
    RunAppend(env, Init, [AppCreated("app-1"), AppCreated("app-2")], PublishRun(0, job, "pod-1") + [Act(0, "")]);
    FreshDelayed(job);
  }

  function StaleFromStart(d: int): seq<Action> {
    Start1(d) + StaleRun(3, 4, 1, FIRST.target, WithDelay(SECOND_JOB, d), "pod-1")
  }

  /** For every delay there is a run after which a stale pass has stamped a pod in use, ... */
  lemma StaleStampOccurs(env: Env, d: int)
    ensures var f := Run(env, Init, StaleFromStart(d));
            InUseStamped(f, "pod-1", SECOND_JOB.target, d) && f.threads == map[] && f.locks == map[]
  {
    ReachesServed1(env, d);
    StaleStamp(env, Served1(d), 3, 4, 1, FIRST.target, WithDelay(SECOND_JOB, d), "pod-1");
    RunAppend(env, Init, Start1(d), StaleRun(3, 4, 1, FIRST.target, WithDelay(SECOND_JOB, d), "pod-1"));
  }

  function MergedFromStart(d: int): seq<Action> {
    Start1(d) + MergedRun(1, 2, 3, WithDelay(SECOND_JOB, d), "pod-1")
  }

  /** ... and one after which a merge has put references on a stamped pod. */
  lemma MergedStampOccurs(env: Env, d: int)
    ensures var f := Run(env, Init, MergedFromStart(d));
            InUseStamped(f, "pod-1", FIRST.target, d) && f.threads == map[] && f.locks == map[]
  {
    ReachesServed1(env, d);
    MergedStamp(env, Served1(d), 1, 2, 3, FIRST.target, WithDelay(SECOND_JOB, d), "pod-1");
    RunAppend(env, Init, Start1(d), MergedRun(1, 2, 3, WithDelay(SECOND_JOB, d), "pod-1"));
  }

  /** Both go on to a deletion at the instant the last reference goes: the delay is not honoured. */
  lemma DelayBreaks(env: Env, d: int) returns (stale: nat, merged: nat)
    requires d + env.zone * SECOND >= SECOND
    ensures DelayBroken(env, StaleFromStart(d) + [Tick(stale)], QuitRun(5, SECOND_JOB.target, "pod-1"), Act(5, ""), "pod-1")
    ensures DelayBroken(env, MergedFromStart(d) + [Tick(merged)], QuitRun(5, FIRST.target, "pod-1"), Act(5, ""), "pod-1")
  {
    StaleStampOccurs(env, d);
    stale := StampBreaksDelay(env, StaleFromStart(d), 5, SECOND_JOB.target, "pod-1", d);
    MergedStampOccurs(env, d);
    merged := StampBreaksDelay(env, MergedFromStart(d), 5, FIRST.target, "pod-1", d);
  }
}
