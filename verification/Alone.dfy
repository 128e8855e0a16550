/**
What an unpublish and a pass do when nothing disturbs them, in every case: which references stay,
when the pod is stamped, and exactly when it is deleted.
*/
module Alone {
  import opened Annotations
  import opened Protocol
  import opened Locking
  import opened Survival
  import opened DeleteDelay
  import opened DelayScenarios
  import AppReferences

  // ---------- when an unused pod goes ----------

  /** No delay, a delay that cannot be read and was never stamped, or a stamp that has passed or cannot be read. */
  predicate Due(env: Env, a: Annos, now: int) {
    || DelayTimeKey !in a
    || (DelayAtKey !in a && !a[DelayTimeKey].Duration?)
    || (DelayAtKey in a && (!a[DelayAtKey].Stamp? || (a[DelayAtKey].second + env.zone) * SECOND <= now))
  }

  /** A delay that has not begun to run. */
  predicate Unstamped(a: Annos) {
    DelayTimeKey in a && a[DelayTimeKey].Duration? && DelayAtKey !in a
  }

  /** The second at which the delay ends if it begins now. */
  function EndOfDelay(a: Annos, now: int): int
    requires Unstamped(a)
  {
    (now + a[DelayTimeKey].nanos) / SECOND
  }

  lemma VerdictIs(env: Env, a: Annos, now: int)
    ensures ShouldDelay(env, a, now)
         == if Due(env, a, now) then DeleteNow else if Unstamped(a) then StampAt(EndOfDelay(a, now)) else Wait
  {
  }

  lemma {:induction false} NobodyActs(env: Env, s: State, run: seq<Action>, u: Tid)
    requires u !in s.threads && forall i | 0 <= i < |run| :: run[i] == Act(u, "")
    ensures Run(env, s, run) == s
    decreases |run|
  {
    if run != [] {
      NobodyActs(env, s, run[..|run| - 1], u);
    }
  }

  // ---------- the unpublish ----------

  /** What the rest of an unpublish makes of pod `n`, once the reference is dropped. */
  function Settled(env: Env, s: State, n: Name, a: Annos): State
    requires n in s.pods
  {
    if Due(env, a, s.now) then Terminate(s, n)
    else if Unstamped(a) then Stamped(s, n, EndOfDelay(a, s.now))
    else s
  }

  lemma DeleteEnds(env: Env, s: State, u: Tid, t: Target, n: Name, hash: string)
    requires u in s.threads && s.threads[u] == Unpublish(t, UnDelete(n, hash))
    ensures Next(env, s, Act(u, "")) == Finish(Terminate(s, n), u)
  {
  }

  lemma WaitEnds(env: Env, s: State, u: Tid, t: Target, n: Name, hash: string, annos: Annos)
    requires u in s.threads && s.threads[u] == Unpublish(t, UnEval(n, hash, annos)) && ShouldDelay(env, annos, s.now).Wait?
    ensures Next(env, s, Act(u, "")) == Finish(s, u)
  {
  }

  lemma CountEnds(env: Env, s: State, u: Tid, t: Target, n: Name, hash: string)
    requires u in s.threads && s.threads[u] == Unpublish(t, UnCount(n, hash)) && n in s.pods && Refs(s.pods[n].annos) != {}
    ensures Next(env, s, Act(u, "")) == Finish(s, u)
  {
  }

  lemma EvaluationEnds(env: Env, s: State, u: Tid, t: Target, n: Name, hash: string)
    requires u in s.threads && n in s.pods
    requires s.threads[u] == Unpublish(t, UnEval(n, hash, s.pods[n].annos))
    ensures Next(env, Next(env, s, Act(u, "")), Act(u, "")) == Finish(Settled(env, s, n, s.pods[n].annos), u)
  {
    var a := s.pods[n].annos;
    VerdictIs(env, a, s.now);
    if Due(env, a, s.now) {
      DecideStep(env, s, u, t, n, hash, a);
      var s1 := Goto(s, u, Unpublish(t, UnDelete(n, hash)));
      DeleteEnds(env, s1, u, t, n, hash);
      assert s1.threads - {u} == s.threads - {u};
    } else if Unstamped(a) {
      StampPlanned(env, s, s, u, t, n, hash, EndOfDelay(a, s.now));
    } else {
      WaitEnds(env, s, u, t, n, hash, a);
    }
  }

  function Rest(u: Tid): seq<Action> {
    [Act(u, ""), Act(u, ""), Act(u, "")] + [Act(u, "")]
  }

  lemma UnpublishSettles(env: Env, s: State, u: Tid, t: Target, n: Name, hash: string)
    requires u in s.threads && s.threads[u] == Unpublish(t, UnCount(n, hash)) && n in s.pods
    ensures Run(env, s, Rest(u))
         == Finish(if Refs(s.pods[n].annos) == {} then Settled(env, s, n, s.pods[n].annos) else s, u)
  {
    RunThree(env, s, Act(u, ""), Act(u, ""), Act(u, ""));
    RunSnoc(env, s, [Act(u, ""), Act(u, ""), Act(u, "")], Act(u, ""));
    if Refs(s.pods[n].annos) == {} {
      UnpublishReads(env, s, u, t, n, hash);
      var s2 := Goto(s, u, Unpublish(t, UnEval(n, hash, s.pods[n].annos)));
      EvaluationEnds(env, s2, u, t, n, hash);
      SettledEnds(env, s, s2, u, n, s.pods[n].annos);
    } else {
      CountEnds(env, s, u, t, n, hash);
    }
  }

  /** Where the ending thread stood does not matter. */
  lemma SettledEnds(env: Env, s: State, s2: State, u: Tid, n: Name, a: Annos)
    requires n in s.pods && u in s.threads && exists th :: s2 == Goto(s, u, th)
    ensures Finish(Settled(env, s2, n, a), u) == Finish(Settled(env, s, n, a), u)
  {
    assert s2.threads - {u} == s.threads - {u};
  }

  /** What is left of the annotations after an unpublish of `t` that runs alone at `now`. */
  function AfterUnpublish(a: Annos, t: Target, now: int): Annos {
    var left := a - {RefKey(t)};
    if Refs(left) == {} && Unstamped(left) then left[DelayAtKey := Stamp(EndOfDelay(left, now))] else left
  }

  /**
  From every state: an unpublish that runs alone drops exactly its reference. It deletes the pod if and
  only if that was the last one and the pod has no delay, an unreadable one that was never stamped, or
  a stamp that has passed or cannot be read; it stamps the pod if it was the last one and the delay begins to run. It
  leaves every other pod alone and holds no lock.
  */
  lemma UnpublishRunsAlone(env: Env, s: State, u: Tid, t: Target, n: Name)
    requires n in s.pods && RefKey(t) in s.pods[n].annos && NewOp(s, u) && env.lockOf(s.pods[n].labels.hash) !in s.locks
    ensures var f := Run(env, s, IdleRun(u, t, n));
            var left := s.pods[n].annos - {RefKey(t)};
            && f.threads == s.threads && f.locks == s.locks && f.now == s.now && f.apps == s.apps
            && f.pods.Keys == s.pods.Keys && (forall m | m in s.pods && m != n :: f.pods[m] == s.pods[m])
            && f.pods[n].uid == s.pods[n].uid && f.pods[n].labels == s.pods[n].labels
            && f.pods[n].annos == AfterUnpublish(s.pods[n].annos, t, s.now)
            && (f.pods[n].terminating <==> s.pods[n].terminating || (Refs(left) == {} && Due(env, left, s.now)))
  {
    var h := Half(env, s, u, t, n);
    UnpublishDrops(env, s, u, t, n);
    UnpublishSettles(env, h, u, t, n, s.pods[n].labels.hash);
    RunAppend(env, s, DropRun(u, t, n), Rest(u));
    AloneState(env, s, u, t, n);
  }

  lemma AloneState(env: Env, s: State, u: Tid, t: Target, n: Name)
    requires n in s.pods && NewOp(s, u) && env.lockOf(s.pods[n].labels.hash) !in s.locks
    ensures var h, left := Half(env, s, u, t, n), s.pods[n].annos - {RefKey(t)};
            var f := Finish(if Refs(left) == {} then Settled(env, h, n, left) else h, u);
            && f.threads == s.threads && f.locks == s.locks && f.now == s.now && f.apps == s.apps
            && f.pods.Keys == s.pods.Keys && (forall m | m in s.pods && m != n :: f.pods[m] == s.pods[m])
            && f.pods[n].uid == s.pods[n].uid && f.pods[n].labels == s.pods[n].labels
            && f.pods[n].annos == AfterUnpublish(s.pods[n].annos, t, s.now)
            && (f.pods[n].terminating <==> s.pods[n].terminating || (Refs(left) == {} && Due(env, left, s.now)))
  {
    var h, left := Half(env, s, u, t, n), s.pods[n].annos - {RefKey(t)};
    SettledPods(env, h, n, left);
    ReleasesHalf(env, s, u, t, n, if Refs(left) == {} then Settled(env, h, n, left) else h);
  }

  /** Settling changes stamp and termination of one pod, and nothing else. */
  lemma SettledPods(env: Env, s: State, n: Name, a: Annos)
    requires n in s.pods
    ensures var f := Settled(env, s, n, a);
            && f == s.(pods := f.pods)
            && f.pods.Keys == s.pods.Keys && (forall m | m in s.pods && m != n :: f.pods[m] == s.pods[m])
            && f.pods[n].uid == s.pods[n].uid && f.pods[n].labels == s.pods[n].labels
            && f.pods[n].annos == (if Unstamped(a) then s.pods[n].annos[DelayAtKey := Stamp(EndOfDelay(a, s.now))] else s.pods[n].annos)
            && (f.pods[n].terminating <==> s.pods[n].terminating || Due(env, a, s.now))
  {
  }

  lemma ReleasesHalf(env: Env, s: State, u: Tid, t: Target, n: Name, x: State)
    requires n in s.pods && NewOp(s, u) && env.lockOf(s.pods[n].labels.hash) !in s.locks
    requires var h := Half(env, s, u, t, n); x == h.(pods := x.pods)
    ensures var f := Finish(x, u); f.threads == s.threads && f.locks == s.locks && f.pods == x.pods && f.now == s.now && f.apps == s.apps
  {
  }

  // ---------- the pass ----------

  /** What the decision of a pass with snapshot `snap` makes of pod `n`. */
  function Decided(env: Env, s: State, n: Name, snap: Pod, alive: set<string>): State
    requires n in s.pods
  {
    if LiveRefs(snap, alive) != {} || snap.terminating || (Due(env, snap.annos, s.now) && Refs(s.pods[n].annos) != {}) then s
    else Settled(env, s, n, snap.annos)
  }

  lemma DecideSkips(env: Env, s: State, c: Tid, n: Name, snap: Pod, alive: set<string>)
    requires c in s.threads && s.threads[c] == Check(n, snap, CkDecide(alive))
    requires LiveRefs(snap, alive) != {} || snap.terminating || ShouldDelay(env, snap.annos, s.now).Wait?
    ensures Next(env, s, Act(c, "")) == Finish(s, c)
  {
  }

  lemma DecideGoes(env: Env, s: State, c: Tid, n: Name, snap: Pod, alive: set<string>)
    requires c in s.threads && s.threads[c] == Check(n, snap, CkDecide(alive))
    requires LiveRefs(snap, alive) == {} && !snap.terminating && !ShouldDelay(env, snap.annos, s.now).Wait?
    ensures var v := ShouldDelay(env, snap.annos, s.now);
            Next(env, s, Act(c, "")) == Goto(s, c, Check(n, snap, if v.DeleteNow? then CkReget else CkStamp(v.second)))
  {
  }

  lemma RegetEnds(env: Env, s: State, c: Tid, n: Name, snap: Pod)
    requires c in s.threads && s.threads[c] == Check(n, snap, CkReget) && n in s.pods
    ensures Next(env, Next(env, s, Act(c, "")), Act(c, "")) == Finish(if Refs(s.pods[n].annos) == {} then Terminate(s, n) else s, c)
  {
    if Refs(s.pods[n].annos) == {} {
      var s1 := Goto(s, c, Check(n, snap, CkDelete));
      assert Next(env, s, Act(c, "")) == s1;
      assert s1.threads - {c} == s.threads - {c};
    } else {
      assert Next(env, s, Act(c, "")) == Finish(s, c);
    }
  }

  lemma StampEnds(env: Env, s: State, c: Tid, n: Name, snap: Pod, second: int)
    requires c in s.threads && s.threads[c] == Check(n, snap, CkStamp(second)) && n in s.pods
    ensures Next(env, s, Act(c, "")) == Finish(Stamped(s, n, second), c)
  {
  }

  lemma DecisionEnds(env: Env, s: State, c: Tid, n: Name, snap: Pod, alive: set<string>)
    requires c in s.threads && s.threads[c] == Check(n, snap, CkDecide(alive)) && n in s.pods
    ensures Next(env, Next(env, Next(env, s, Act(c, "")), Act(c, "")), Act(c, "")) == Finish(Decided(env, s, n, snap, alive), c)
  {
    VerdictIs(env, snap.annos, s.now);
    var v := ShouldDelay(env, snap.annos, s.now);
    if LiveRefs(snap, alive) != {} || snap.terminating || v.Wait? {
      DecideSkips(env, s, c, n, snap, alive);
    } else {
      DecideGoes(env, s, c, n, snap, alive);
      var s1 := Goto(s, c, Check(n, snap, if v.DeleteNow? then CkReget else CkStamp(v.second)));
      SettledEnds(env, s, s1, c, n, snap.annos);
      if v.DeleteNow? {
        RegetEnds(env, s1, c, n, snap);
        assert s1.threads - {c} == s.threads - {c};
      } else {
        StampEnds(env, s1, c, n, snap, v.second);
      }
    }
  }

  /** The pass holds its lock and stands at `at`; `annos` are stored. */
  function Passing(env: Env, s: State, c: Tid, n: Name, annos: Annos, at: CkAt): State
    requires n in s.pods
  {
    Goto(s.(pods := s.pods[n := Patched(s, n, annos)], locks := s.locks[env.lockOf(s.pods[n].labels.hash) := c]), c, Check(n, s.pods[n], at))
  }

  lemma PassEnters(env: Env, s: State, c: Tid, n: Name, alive: set<string>)
    requires n in s.pods && c !in s.threads && env.lockOf(s.pods[n].labels.hash) !in s.locks
    requires alive == (set u | u in s.apps && s.apps[u])
    ensures Run(env, s, [BeginCheck(c, n), Act(c, ""), Act(c, "")])
         == Passing(env, s, c, n, s.pods[n].annos, if DropKeys(s.pods[n], alive) != {} then CkGet(alive) else CkDecide(alive))
  {
    var snap := s.pods[n];
    var s2 := Goto(s, c, Check(n, snap, CkLock(alive)));
    RunThree(env, s, BeginCheck(c, n), Act(c, ""), Act(c, ""));
    PassBegins(env, s, c, n, alive);
    LockStep(env, s2, c, n, snap, alive);
    var at := if DropKeys(snap, alive) != {} then CkGet(alive) else CkDecide(alive);
    assert s2.threads[c := Check(n, snap, at)] == s.threads[c := Check(n, snap, at)];
    assert s.pods[n := Patched(s, n, s.pods[n].annos)] == s.pods;
  }

  lemma PassBegins(env: Env, s: State, c: Tid, n: Name, alive: set<string>)
    requires n in s.pods && c !in s.threads && alive == (set u | u in s.apps && s.apps[u])
    ensures Next(env, Next(env, s, BeginCheck(c, n)), Act(c, "")) == Goto(s, c, Check(n, s.pods[n], CkLock(alive)))
  {
    var snap := s.pods[n];
    var s1 := Goto(s, c, Check(n, snap, CkList));
    CheckBegins(env, s, c, n);
    AppReferences.PassLists(env, s1, c, n, snap);
    assert s1.threads[c := Check(n, snap, CkLock(alive))] == s.threads[c := Check(n, snap, CkLock(alive))];
  }

  lemma LockStep(env: Env, s: State, c: Tid, n: Name, snap: Pod, alive: set<string>)
    requires c in s.threads && s.threads[c] == Check(n, snap, CkLock(alive)) && env.lockOf(snap.labels.hash) !in s.locks
    ensures Next(env, s, Act(c, ""))
         == Goto(s.(locks := s.locks[env.lockOf(snap.labels.hash) := c]), c,
                 Check(n, snap, if DropKeys(snap, alive) != {} then CkGet(alive) else CkDecide(alive)))
  {
  }

  lemma GetStep(env: Env, s: State, c: Tid, n: Name, snap: Pod, alive: set<string>)
    requires c in s.threads && s.threads[c] == Check(n, snap, CkGet(alive)) && n in s.pods && s.pods[n].annos == snap.annos
    ensures Next(env, s, Act(c, "")) == Goto(s, c, Check(n, snap, CkDrop(alive)))
  {
  }

  lemma DropStep(env: Env, s: State, c: Tid, n: Name, snap: Pod, alive: set<string>)
    requires c in s.threads && s.threads[c] == Check(n, snap, CkDrop(alive)) && n in s.pods && s.pods[n].annos == snap.annos
    ensures Next(env, s, Act(c, ""))
         == Goto(s.(pods := s.pods[n := Patched(s, n, snap.annos - DropKeys(snap, alive))]), c, Check(n, snap, CkDecide(alive)))
  {
    AppReferences.DropKeysStored(snap, alive);
  }

  lemma PassDropsAll(env: Env, s: State, c: Tid, n: Name, alive: set<string>)
    requires n in s.pods
    ensures Next(env, Next(env, Passing(env, s, c, n, s.pods[n].annos, CkGet(alive)), Act(c, "")), Act(c, ""))
         == Passing(env, s, c, n, s.pods[n].annos - DropKeys(s.pods[n], alive), CkDecide(alive))
  {
    var snap := s.pods[n];
    var s1 := Passing(env, s, c, n, snap.annos, CkGet(alive));
    GetStep(env, s1, c, n, snap, alive);
    var s2 := Passing(env, s, c, n, snap.annos, CkDrop(alive));
    assert s1.threads[c := Check(n, snap, CkDrop(alive))] == s2.threads;
    DropStep(env, s2, c, n, snap, alive);
    assert s2.threads[c := Check(n, snap, CkDecide(alive))] == s.threads[c := Check(n, snap, CkDecide(alive))];
    var annos := snap.annos - DropKeys(snap, alive);
    assert s2.pods == s.pods;
    assert Patched(s2, n, annos) == Patched(s, n, annos);
  }

  function PassRun(c: Tid, n: Name): seq<Action> {
    [BeginCheck(c, n), Act(c, ""), Act(c, "")] + ([Act(c, ""), Act(c, "")] + [Act(c, ""), Act(c, ""), Act(c, "")])
  }

  lemma PassRuns(env: Env, s: State, c: Tid, n: Name, alive: set<string>)
    requires n in s.pods && c !in s.threads && env.lockOf(s.pods[n].labels.hash) !in s.locks
    requires alive == (set u | u in s.apps && s.apps[u])
    ensures var d := Passing(env, s, c, n, s.pods[n].annos - DropKeys(s.pods[n], alive), CkDecide(alive));
            Run(env, s, PassRun(c, n)) == Finish(Decided(env, d, n, s.pods[n], alive), c)
  {
    var two, three := [Act(c, ""), Act(c, "")], [Act(c, ""), Act(c, ""), Act(c, "")];
    var d := Passing(env, s, c, n, s.pods[n].annos - DropKeys(s.pods[n], alive), CkDecide(alive));
    var s3 := Run(env, s, [BeginCheck(c, n), Act(c, ""), Act(c, "")]);
    PassEnters(env, s, c, n, alive);
    RunAppend(env, s, [BeginCheck(c, n), Act(c, ""), Act(c, "")], two + three);
    DecisionRuns(env, d, c, n, s.pods[n], alive);
    if DropKeys(s.pods[n], alive) != {} {
      RunTwo(env, s3, Act(c, ""), Act(c, ""));
      PassDropsAll(env, s, c, n, alive);
      RunAppend(env, s3, two, three);
    } else {
      assert s.pods[n].annos - DropKeys(s.pods[n], alive) == s.pods[n].annos;
    }
  }

  /** Three steps decide, and two more find nobody. */
  lemma DecisionRuns(env: Env, s: State, c: Tid, n: Name, snap: Pod, alive: set<string>)
    requires c in s.threads && s.threads[c] == Check(n, snap, CkDecide(alive)) && n in s.pods
    ensures var two, three := [Act(c, ""), Act(c, "")], [Act(c, ""), Act(c, ""), Act(c, "")];
            && Run(env, s, three) == Finish(Decided(env, s, n, snap, alive), c)
            && Run(env, s, two + three) == Finish(Decided(env, s, n, snap, alive), c)
  {
    var two, three := [Act(c, ""), Act(c, "")], [Act(c, ""), Act(c, ""), Act(c, "")];
    RunThree(env, s, Act(c, ""), Act(c, ""), Act(c, ""));
    DecisionEnds(env, s, c, n, snap, alive);
    assert two + three == three + two;
    RunAppend(env, s, three, two);
    NobodyActs(env, Finish(Decided(env, s, n, snap, alive), c), two, c);
  }

  /** The references whose app pod exists and carries its label. */
  function Living(s: State, a: Annos): set<Key> {
    set k | k in Refs(a) && k.target.uid in s.apps && s.apps[k.target.uid]
  }

  /** What a pass that runs alone at `now` leaves of the annotations. */
  function AfterPass(a: Annos, living: set<Key>, terminating: bool, now: int): Annos {
    var kept := a - (Refs(a) - living);
    if living != {} then
      if DelayAtKey in a && a[DelayAtKey] != Text("") then kept - {DelayAtKey} else kept
    else if !terminating && Unstamped(a) then kept[DelayAtKey := Stamp(EndOfDelay(a, now))]
    else kept
  }

  lemma DropKeysAre(s: State, pod: Pod, alive: set<string>)
    requires alive == (set u | u in s.apps && s.apps[u])
    ensures LiveRefs(pod, alive) == Living(s, pod.annos)
    ensures var living := Living(s, pod.annos);
            DropKeys(pod, alive) == (Refs(pod.annos) - living)
              + (if living != {} && DelayAtKey in pod.annos && pod.annos[DelayAtKey] != Text("") then {DelayAtKey} else {})
  {
  }

  lemma PassState(env: Env, s: State, c: Tid, n: Name, alive: set<string>)
    requires n in s.pods && NewOp(s, c) && env.lockOf(s.pods[n].labels.hash) !in s.locks
    requires alive == (set u | u in s.apps && s.apps[u])
    ensures var pod, living := s.pods[n], Living(s, s.pods[n].annos);
            var d := Passing(env, s, c, n, pod.annos - DropKeys(pod, alive), CkDecide(alive));
            var f := Decided(env, d, n, pod, alive);
            && f == d.(pods := f.pods) && f.pods.Keys == s.pods.Keys
            && (forall m | m in s.pods && m != n :: f.pods[m] == s.pods[m])
            && f.pods[n].uid == pod.uid && f.pods[n].labels == pod.labels
            && f.pods[n].annos == AfterPass(pod.annos, living, pod.terminating, s.now)
            && (f.pods[n].terminating <==> pod.terminating || (living == {} && Due(env, pod.annos, s.now)))
  {
    var pod, living := s.pods[n], Living(s, s.pods[n].annos);
    var left := pod.annos - DropKeys(pod, alive);
    var d := Passing(env, s, c, n, left, CkDecide(alive));
    DropKeysAre(s, pod, alive);
    RemoveRefs(pod.annos, DropKeys(pod, alive));
    SettledPods(env, d, n, pod.annos);
    if living != {} && DelayAtKey in pod.annos && pod.annos[DelayAtKey] != Text("") {
      assert left == pod.annos - (Refs(pod.annos) - living) - {DelayAtKey};
    } else {
      assert left == pod.annos - (Refs(pod.annos) - living);
    }
  }

  lemma ReleasesPass(env: Env, s: State, c: Tid, n: Name, annos: Annos, at: CkAt, x: State)
    requires n in s.pods && NewOp(s, c) && env.lockOf(s.pods[n].labels.hash) !in s.locks
    requires x == Passing(env, s, c, n, annos, at).(pods := x.pods)
    ensures var f := Finish(x, c); f.threads == s.threads && f.locks == s.locks && f.pods == x.pods && f.now == s.now && f.apps == s.apps
  {
  }

  /**
  From every state: a pass that runs alone keeps exactly the references of existing labelled app pods.
  If there are some it takes a delete-at stamp off; if there are none it deletes the pod if and only if
  the pod has no delay, an unreadable one that was never stamped, or a stamp that has passed, and stamps
  it if the delay begins to run. It leaves every other pod alone and holds no lock.
  */
  lemma PassRunsAlone(env: Env, s: State, c: Tid, n: Name)
    requires n in s.pods && NewOp(s, c) && env.lockOf(s.pods[n].labels.hash) !in s.locks
    ensures var f, pod := Run(env, s, PassRun(c, n)), s.pods[n];
            var living := Living(s, pod.annos);
            && f.threads == s.threads && f.locks == s.locks && f.now == s.now && f.apps == s.apps
            && f.pods.Keys == s.pods.Keys && (forall m | m in s.pods && m != n :: f.pods[m] == s.pods[m])
            && f.pods[n].uid == pod.uid && f.pods[n].labels == pod.labels
            && f.pods[n].annos == AfterPass(pod.annos, living, pod.terminating, s.now) && Refs(f.pods[n].annos) == living
            && (f.pods[n].terminating <==> pod.terminating || (living == {} && Due(env, pod.annos, s.now)))
  {
    var alive := set u | u in s.apps && s.apps[u];
    var pod := s.pods[n];
    var left := pod.annos - DropKeys(pod, alive);
    PassRuns(env, s, c, n, alive);
    PassState(env, s, c, n, alive);
    ReleasesPass(env, s, c, n, left, CkDecide(alive), Decided(env, Passing(env, s, c, n, left, CkDecide(alive)), n, pod, alive));
    AfterPassRefs(pod.annos, Living(s, pod.annos), pod.terminating, s.now);
  }

  lemma AfterPassRefs(a: Annos, living: set<Key>, terminating: bool, now: int)
    requires living <= Refs(a)
    ensures Refs(AfterPass(a, living, terminating, now)) == living
  {
  }

  /** The repair: a pass alone over a pod in use that carries a stamp takes the stamp off and keeps the reference. */
  lemma PassRepairs(env: Env, s: State, c: Tid, n: Name, t: Target, d: int)
    requires InUseStamped(s, n, t, d) && t.uid in s.apps && s.apps[t.uid]
    requires NewOp(s, c) && env.lockOf(s.pods[n].labels.hash) !in s.locks
    ensures var f := Run(env, s, PassRun(c, n));
            && Delayed(f, n, t) && !f.pods[n].terminating && f.pods[n].annos == s.pods[n].annos - {DelayAtKey}
  {
    PassRunsAlone(env, s, c, n);
    assert Living(s, s.pods[n].annos) == {RefKey(t)};
  }

  /** A pass whose snapshot has another number of references than are stored now changes nothing and returns. */
  lemma ConflictReturns(env: Env, s: State, c: Tid, n: Name, snap: Pod, alive: set<string>)
    requires c in s.threads && s.threads[c] == Check(n, snap, CkGet(alive)) && n in s.pods
    ensures var s' := Next(env, s, Act(c, ""));
            && s'.pods == s.pods
            && (c in s'.threads <==> |Refs(s.pods[n].annos)| == |Refs(snap.annos)|)
            && (c !in s'.threads ==> forall i | i in s'.locks :: s'.locks[i] != c)
  {
  }

  // ---------- the handler ----------

  function HandlerRun(h: Tid, n: Name, refs: bool): seq<Action> {
    [BeginHandler(h, n)] +
    if refs then [Act(h, ""), Vanish(n), Act(h, "")] + [Act(h, ""), Act(h, "")] else [Act(h, ""), Vanish(n)]
  }

  /**
  From every state: a handler that runs alone over a terminating pod lets it go. If the pod had
  references it stands again under its name, with the same annotations and labels, as a new incarnation
  with a finalizer; if it had none it does not. The handler is done and holds no lock.
  */
  lemma HandlerRunsAlone(env: Env, s: State, h: Tid, n: Name)
    requires n in s.pods && s.pods[n].terminating && s.pods[n].finalizer && h !in s.threads
    requires UidInv(s) && env.lockOf(s.pods[n].labels.hash) !in s.locks
    ensures var pod := s.pods[n];
            var f := Run(env, s, HandlerRun(h, n, Refs(pod.annos) != {}));
            && f.threads == s.threads && f.vanished == s.vanished[pod.uid := pod.annos]
            && (n in f.pods <==> Refs(pod.annos) != {})
            && (n in f.pods ==>
                  && f.pods[n].annos == pod.annos && f.pods[n].labels == pod.labels && f.pods[n].uid == s.nextUid != pod.uid
                  && !f.pods[n].terminating && f.pods[n].finalizer && forall i | i in f.locks :: f.locks[i] != h)
  {
    var pod := s.pods[n];
    var s1 := Goto(s, h, Handle(n, pod, HdUnfinalize));
    HandlerBegins(env, s, h, n);
    assert s1.threads - {h} == s.threads;
    if Refs(pod.annos) == {} {
      LosesWithoutRefs(env, s1, h, n, pod);
      RunAppend(env, s, [BeginHandler(h, n)], [Act(h, ""), Vanish(n)]);
    } else {
      LosesWithRefs(env, s1, h, n, pod);
      RunAppend(env, s, [BeginHandler(h, n)], [Act(h, ""), Vanish(n), Act(h, "")] + [Act(h, ""), Act(h, "")]);
    }
  }

  lemma HandlerBegins(env: Env, s: State, h: Tid, n: Name)
    requires n in s.pods && s.pods[n].terminating && s.pods[n].finalizer && h !in s.threads
    ensures Run(env, s, [BeginHandler(h, n)]) == Goto(s, h, Handle(n, s.pods[n], HdUnfinalize))
  {
    RunSnoc(env, s, [], BeginHandler(h, n));
    assert [] + [BeginHandler(h, n)] == [BeginHandler(h, n)];
  }

  /** What a merge stores: the references of the snapshot with their values, and everything else as the replacement has it. */
  lemma MergeStores(onto: Annos, from: Annos, k: Key)
    ensures k in MergeRefs(onto, from) <==> k in onto || k in Refs(from)
    ensures k in Refs(from) ==> k in from && MergeRefs(onto, from)[k] == from[k]
    ensures k in onto && k !in Refs(from) ==> MergeRefs(onto, from)[k] == onto[k]
  {
  }

  // ---------- waiting ----------

  /** A publish and a handler that find their pod terminating wait; a publish that sees it only when it reads gives up, without a patch. */
  lemma OldPodIsWaitedFor(env: Env, s: State, tid: Tid, pick: Name, n: Name)
    requires tid in s.threads && n in s.pods && s.pods[n].terminating
    ensures (exists job :: s.threads[tid] == Publish(job, PubGet(n))) || (exists snap :: s.threads[tid] == Handle(n, snap, HdGet)) ==>
              Next(env, s, Act(tid, pick)) == s
    ensures (exists job :: s.threads[tid] == Publish(job, PubRead(n))) ==> Next(env, s, Act(tid, pick)) == Finish(s, tid)
  {
  }
}
