/**
Operations that run alone do their job, and the situations that the other modules reason about
do occur: a reachable window for a lost reference, and a reachable clash of two serving pods.
*/
module Undisturbed {
  import opened Annotations
  import opened Protocol
  import opened Locking
  import opened Survival
  import opened Uniqueness
  import AppReferences

  /** The annotations of a pod created for this job. */
  function Fresh(job: Job): Annos {
    job.base[RefKey(job.target) := Path(job.target)]
  }

  /** The job can start: its app pod, if named, exists, the operation is new and nobody holds the lock. */
  predicate CanStart(env: Env, s: State, tid: Tid, job: Job) {
    && tid !in s.threads && CleanBase(job.base) && (job.hasApp ==> job.target.uid in s.apps)
    && env.lockOf(job.labels.hash) !in s.locks
    && forall i | i in s.locks :: s.locks[i] != tid
  }

  /** The app pods after SetMountLabel, which needs the name of the app pod. */
  function Labelled(s: State, job: Job): map<string, bool> {
    if job.hasApp then s.apps[job.target.uid := true] else s.apps
  }

  /** The state of a publish that runs alone, at point `at`, holding its lock. */
  function Inside(env: Env, s: State, tid: Tid, job: Job, at: PubAt): State {
    s.(locks := s.locks[env.lockOf(job.labels.hash) := tid], threads := s.threads[tid := Publish(job, at)])
  }

  lemma EntersLock(env: Env, s: State, tid: Tid, job: Job)
    requires CanStart(env, s, tid, job)
    ensures Run(env, s, [BeginPublish(tid, job), Act(tid, "")]) == Inside(env, s, tid, job, PubList)
  {
    RunTwo(env, s, BeginPublish(tid, job), Act(tid, ""));
    var s1 := Next(env, s, BeginPublish(tid, job));
    assert s1.threads[tid := Publish(job, PubList)] == s.threads[tid := Publish(job, PubList)];
  }

  lemma SameServed(env: Env, s: State, tid: Tid, job: Job, at: PubAt)
    ensures Served(Inside(env, s, tid, job, at), job.labels) == Served(s, job.labels)
  {
  }

  lemma LabelStep(env: Env, s: State, tid: Tid, job: Job, name: Name)
    requires tid in s.threads && s.threads[tid] == Publish(job, PubLabel(name)) && (job.hasApp ==> job.target.uid in s.apps)
    ensures Next(env, s, Act(tid, "")) == Goto(s.(apps := Labelled(s, job)), tid, Publish(job, PubGet(name)))
  {
  }

  lemma GetStep(env: Env, s: State, tid: Tid, job: Job, name: Name)
    requires tid in s.threads && s.threads[tid] == Publish(job, PubGet(name)) && (name in s.pods ==> !s.pods[name].terminating)
    ensures Next(env, s, Act(tid, ""))
         == Goto(s, tid, Publish(job, if name in s.pods then PubRead(name) else PubCreate(name)))
  {
  }

  lemma ListStep(env: Env, s: State, tid: Tid, job: Job, name: Name)
    requires tid in s.threads && s.threads[tid] == Publish(job, PubList)
    requires Serves(s, name, job.labels) || (!Served(s, job.labels) && name !in s.names)
    ensures var s1 := if Serves(s, name, job.labels) then s else s.(names := s.names[name := job.labels]);
            Next(env, s, Act(tid, name)) == Goto(s1, tid, Publish(job, PubLabel(name)))
  {
  }

  /** The app pod is labelled and the chosen pod looked at. */
  lemma LabelsAndGets(env: Env, s: State, tid: Tid, job: Job, name: Name)
    requires (job.hasApp ==> job.target.uid in s.apps) && (name in s.pods ==> !s.pods[name].terminating)
    ensures Next(env, Next(env, Inside(env, s, tid, job, PubLabel(name)), Act(tid, "")), Act(tid, ""))
         == Inside(env, s.(apps := Labelled(s, job)), tid, job, if name in s.pods then PubRead(name) else PubCreate(name))
  {
    var s1 := Inside(env, s, tid, job, PubLabel(name));
    LabelStep(env, s1, tid, job, name);
    var s2 := Inside(env, s.(apps := Labelled(s, job)), tid, job, PubGet(name));
    assert s1.threads[tid := Publish(job, PubGet(name))] == s2.threads;
    GetStep(env, s2, tid, job, name);
    var at := if name in s.pods then PubRead(name) else PubCreate(name);
    assert s2.threads[tid := Publish(job, at)] == s.threads[tid := Publish(job, at)];
  }

  /** No pod serves: take a fresh name, label the app pod, see that the name is free. */
  lemma ChoosesFresh(env: Env, s: State, tid: Tid, job: Job, name: Name)
    requires job.hasApp ==> job.target.uid in s.apps
    requires !Served(s, job.labels) && name !in s.names && name !in s.pods
    ensures Run(env, Inside(env, s, tid, job, PubList), [Act(tid, name), Act(tid, ""), Act(tid, "")])
         == Inside(env, s.(names := s.names[name := job.labels], apps := Labelled(s, job)), tid, job, PubCreate(name))
  {
    var s0, s1 := Inside(env, s, tid, job, PubList), s.(names := s.names[name := job.labels]);
    SameServed(env, s, tid, job, PubList);
    RunThree(env, s0, Act(tid, name), Act(tid, ""), Act(tid, ""));
    ListStep(env, s0, tid, job, name);
    assert s0.threads[tid := Publish(job, PubLabel(name))] == s.threads[tid := Publish(job, PubLabel(name))];
    LabelsAndGets(env, s1, tid, job, name);
  }

  /** A pod serves: label the app pod, see that the pod is not terminating. */
  lemma ChoosesServing(env: Env, s: State, tid: Tid, job: Job, name: Name)
    requires (job.hasApp ==> job.target.uid in s.apps) && Serves(s, name, job.labels)
    ensures Run(env, Inside(env, s, tid, job, PubList), [Act(tid, name), Act(tid, ""), Act(tid, "")])
         == Inside(env, s.(apps := Labelled(s, job)), tid, job, PubRead(name))
  {
    var s0 := Inside(env, s, tid, job, PubList);
    RunThree(env, s0, Act(tid, name), Act(tid, ""), Act(tid, ""));
    ListStep(env, s0, tid, job, name);
    assert s0.threads[tid := Publish(job, PubLabel(name))] == s.threads[tid := Publish(job, PubLabel(name))];
    LabelsAndGets(env, s, tid, job, name);
  }

  lemma FinishInside(env: Env, s: State, tid: Tid, job: Job, at: PubAt)
    requires CanStart(env, s, tid, job)
    ensures Finish(Inside(env, s, tid, job, at), tid) == s
  {
  }

  function PublishRun(tid: Tid, job: Job, name: Name): seq<Action> {
    [BeginPublish(tid, job), Act(tid, "")] + [Act(tid, name), Act(tid, ""), Act(tid, "")]
  }

  function Created(s: State, job: Job, name: Name): State {
    s.(names := s.names[name := job.labels], apps := Labelled(s, job),
       pods := s.pods[name := Pod(s.nextUid, job.labels, Fresh(job), false, true, s.now)], nextUid := s.nextUid + 1)
  }

  lemma RunsToCreate(env: Env, s: State, tid: Tid, job: Job, name: Name)
    requires CanStart(env, s, tid, job) && !Served(s, job.labels) && name !in s.names && name !in s.pods
    ensures Run(env, s, PublishRun(tid, job, name))
         == Inside(env, s.(names := s.names[name := job.labels], apps := Labelled(s, job)), tid, job, PubCreate(name))
  {
    EntersLock(env, s, tid, job);
    ChoosesFresh(env, s, tid, job, name);
    RunAppend(env, s, [BeginPublish(tid, job), Act(tid, "")], [Act(tid, name), Act(tid, ""), Act(tid, "")]);
  }

  lemma CreateStep(env: Env, s: State, tid: Tid, job: Job, name: Name)
    requires tid in s.threads && s.threads[tid] == Publish(job, PubCreate(name)) && name !in s.pods
    ensures Next(env, s, Act(tid, ""))
         == Finish(s.(pods := s.pods[name := Pod(s.nextUid, job.labels, Fresh(job), false, true, s.now)], nextUid := s.nextUid + 1), tid)
  {
  }

  /** A publish that runs alone where nothing serves creates a pod holding exactly its reference. */
  lemma PublishAloneCreates(env: Env, s: State, tid: Tid, job: Job, name: Name)
    requires CanStart(env, s, tid, job) && !Served(s, job.labels) && name !in s.names && name !in s.pods
    ensures Run(env, s, PublishRun(tid, job, name) + [Act(tid, "")]) == Created(s, job, name)
    ensures Refs(Created(s, job, name).pods[name].annos) == {RefKey(job.target)}
  {
    RunsToCreate(env, s, tid, job, name);
    CreatesInside(env, s, tid, job, name);
    RunSnoc(env, s, PublishRun(tid, job, name), Act(tid, ""));
  }

  lemma CreatesInside(env: Env, s: State, tid: Tid, job: Job, name: Name)
    requires CanStart(env, s, tid, job) && name !in s.pods
    ensures var s1 := s.(names := s.names[name := job.labels], apps := Labelled(s, job));
            Next(env, Inside(env, s1, tid, job, PubCreate(name)), Act(tid, "")) == Created(s, job, name)
  {
    var s1 := s.(names := s.names[name := job.labels], apps := Labelled(s, job));
    CreateStep(env, Inside(env, s1, tid, job, PubCreate(name)), tid, job, name);
    FinishInside(env, Created(s, job, name), tid, job, PubCreate(name));
  }

  lemma RunsToRead(env: Env, s: State, tid: Tid, job: Job, name: Name)
    requires CanStart(env, s, tid, job) && Serves(s, name, job.labels)
    ensures Run(env, s, PublishRun(tid, job, name))
         == Inside(env, s.(apps := Labelled(s, job)), tid, job, PubRead(name))
  {
    EntersLock(env, s, tid, job);
    ChoosesServing(env, s, tid, job, name);
    RunAppend(env, s, [BeginPublish(tid, job), Act(tid, "")], [Act(tid, name), Act(tid, ""), Act(tid, "")]);
  }

  /** Where a pod serves, it comes to the point of adding its reference to that pod ... */
  lemma PublishAloneReads(env: Env, s: State, tid: Tid, job: Job, name: Name)
    requires CanStart(env, s, tid, job) && Serves(s, name, job.labels) && RefKey(job.target) !in s.pods[name].annos
    ensures Run(env, s, PublishRun(tid, job, name) + [Act(tid, "")])
         == Inside(env, s.(apps := Labelled(s, job)), tid, job, PubPatch(name, AddRef(s.pods[name].annos, job.target)))
  {
    RunsToRead(env, s, tid, job, name);
    RunSnoc(env, s, PublishRun(tid, job, name), Act(tid, ""));
  }

  /** ... and adds it, keeping all others. */
  lemma PublishAloneAdds(env: Env, s: State, tid: Tid, job: Job, name: Name)
    requires CanStart(env, s, tid, job) && Serves(s, name, job.labels) && RefKey(job.target) !in s.pods[name].annos
    ensures var f := Run(env, s, PublishRun(tid, job, name) + [Act(tid, "")] + [Act(tid, "")]);
            && f.threads == s.threads && f.locks == s.locks
            && f.pods.Keys == s.pods.Keys && f.now == s.now
            && Refs(f.pods[name].annos) == Refs(s.pods[name].annos) + {RefKey(job.target)}
            && f.pods[name] == s.pods[name].(annos := AddRef(s.pods[name].annos, job.target), idleSince := f.pods[name].idleSince)
            && forall n | n in s.pods && n != name :: f.pods[n] == s.pods[n]
  {
    PublishAloneReads(env, s, tid, job, name);
    RunSnoc(env, s, PublishRun(tid, job, name) + [Act(tid, "")], Act(tid, ""));
    AddRefRefs(s.pods[name].annos, job.target);
    FinishInside(env, s, tid, job, PubPatch(name, AddRef(s.pods[name].annos, job.target)));
  }

  /** A publish alone whose reference is there already changes nothing but the label of its app pod. */
  lemma PublishAloneKeeps(env: Env, s: State, tid: Tid, job: Job, name: Name)
    requires CanStart(env, s, tid, job) && Serves(s, name, job.labels) && RefKey(job.target) in s.pods[name].annos
    ensures Run(env, s, PublishRun(tid, job, name) + [Act(tid, "")]) == s.(apps := Labelled(s, job))
  {
    RunsToRead(env, s, tid, job, name);
    RunSnoc(env, s, PublishRun(tid, job, name), Act(tid, ""));
    ReadEnds(env, Inside(env, s.(apps := Labelled(s, job)), tid, job, PubRead(name)), tid, job, name);
    FinishInside(env, s.(apps := Labelled(s, job)), tid, job, PubRead(name));
  }

  lemma ReadEnds(env: Env, s: State, tid: Tid, job: Job, name: Name)
    requires tid in s.threads && s.threads[tid] == Publish(job, PubRead(name)) && name in s.pods && RefKey(job.target) in s.pods[name].annos
    ensures Next(env, s, Act(tid, "")) == Finish(s, tid)
  {
  }

  // ---------- the troublesome situations occur ----------

  const LABELS := Labels("pv", "hash")
  const FIRST := Job(Target("app-1", "pv"), LABELS, map[], true)
  const SECOND_JOB := Job(Target("app-2", "pv"), LABELS, map[], true)

  /** Two app pods exist and the first has published. */
  function OneServed(): State {
    Created(Init.(apps := map["app-1" := false, "app-2" := false]), FIRST, "pod-1")
  }

  function FirstRun(): seq<Action> {
    [AppCreated("app-1"), AppCreated("app-2")] + (PublishRun(0, FIRST, "pod-1") + [Act(0, "")])
  }

  lemma ReachesOneServed(env: Env)
    ensures Run(env, Init, FirstRun()) == OneServed()
  {
    var s := Init.(apps := map["app-1" := false, "app-2" := false]);
    RunTwo(env, Init, AppCreated("app-1"), AppCreated("app-2"));
    assert Run(env, Init, [AppCreated("app-1"), AppCreated("app-2")]) == s;
    PublishAloneCreates(env, s, 0, FIRST, "pod-1");
    RunAppend(env, Init, [AppCreated("app-1"), AppCreated("app-2")], PublishRun(0, FIRST, "pod-1") + [Act(0, "")]);
  }

  lemma {:induction false} QuietIsCalm(env: Env, run: seq<Action>)
    requires forall i | 0 <= i < |run| :: !run[i].ExternalDelete?
    ensures Always(env, Calm, run)
    decreases |run|
  {
    if run != [] {
      QuietIsCalm(env, run[..|run| - 1]);
    }
  }

  function SecondRun(): seq<Action> {
    PublishRun(1, SECOND_JOB, "pod-1") + [Act(1, "")]
  }

  lemma ReachesWindow(env: Env)
    ensures Run(env, Init, FirstRun() + SecondRun())
         == Inside(env, OneServed().(apps := OneServed().apps["app-2" := true]), 1, SECOND_JOB,
                   PubPatch("pod-1", AddRef(OneServed().pods["pod-1"].annos, SECOND_JOB.target)))
  {
    ReachesOneServed(env);
    PublishAloneReads(env, OneServed(), 1, SECOND_JOB, "pod-1");
    RunAppend(env, Init, FirstRun(), SecondRun());
  }

  /** The premises of `WindowLoses` are reachable, so a reference really can be lost. */
  lemma WindowOccurs(env: Env)
    ensures var run := FirstRun() + SecondRun();
            var s := Run(env, Init, run);
            && Always(env, Calm, run)
            && 1 in s.threads && AtWindow(s.threads[1], "pod-1") && "pod-1" in s.pods
            && Lost(s, Run(env, s, LosingRun(s, 1, 2, "pod-1")), 1, "pod-1", RefKey(SECOND_JOB.target))
  {
    ReachesWindow(env);
    QuietIsCalm(env, FirstRun() + SecondRun());
    AddRefRefs(OneServed().pods["pod-1"].annos, SECOND_JOB.target);
    WindowLoses(env, FirstRun() + SecondRun(), 1, 2, "pod-1", RefKey(SECOND_JOB.target));
  }

  /** The first pod is deleted from outside and its handler has removed the finalizer. */
  function Doomed(): State {
    var s := OneServed();
    var pod := s.pods["pod-1"].(terminating := true);
    s.(pods := s.pods["pod-1" := pod.(finalizer := false)],
       threads := map[2 := Handle("pod-1", pod, HdLock)])
  }

  lemma ReachesDoomed(env: Env)
    ensures Run(env, OneServed(), [ExternalDelete("pod-1"), BeginHandler(2, "pod-1"), Act(2, "")]) == Doomed()
  {
    var s := OneServed();
    var pod := s.pods["pod-1"].(terminating := true);
    assert RefKey(FIRST.target) in Refs(pod.annos);
    RunThree(env, s, ExternalDelete("pod-1"), BeginHandler(2, "pod-1"), Act(2, ""));
    var s1 := s.(pods := s.pods["pod-1" := pod]);
    assert Next(env, s, ExternalDelete("pod-1")) == s1;
    var s2 := s1.(threads := s1.threads[2 := Handle("pod-1", pod, HdUnfinalize)]);
    assert Next(env, s1, BeginHandler(2, "pod-1")) == s2;
    Unfinalizes(env, s2, 2, "pod-1", pod);
  }

  /** The second publish has created its own pod, and the first pod has vanished. */
  function TwoHandled(env: Env): State {
    var d := Created(Doomed(), SECOND_JOB, "pod-2");
    var snap := OneServed().pods["pod-1"].(terminating := true);
    d.(pods := map["pod-2" := d.pods["pod-2"]],
       vanished := map[0 := snap.annos],
       locks := map[env.lockOf("hash") := 2],
       threads := map[2 := Handle("pod-1", snap, HdCreate)])
  }

  lemma ReachesTwoHandled(env: Env)
    ensures Run(env, Created(Doomed(), SECOND_JOB, "pod-2"), [Vanish("pod-1"), Act(2, ""), Act(2, "")]) == TwoHandled(env)
  {
    var c := Created(Doomed(), SECOND_JOB, "pod-2");
    var snap := OneServed().pods["pod-1"].(terminating := true);
    var s1 := c.(pods := map["pod-2" := c.pods["pod-2"]], vanished := map[0 := snap.annos]);
    assert c.pods - {"pod-1"} == s1.pods && c.pods["pod-1"].uid == 0;
    RunThree(env, c, Vanish("pod-1"), Act(2, ""), Act(2, ""));
    assert Next(env, c, Vanish("pod-1")) == s1;
    HandlerTakes(env, s1, 2, "pod-1", snap);
  }

  lemma HandlerTakes(env: Env, s: State, h: Tid, n: Name, snap: Pod)
    requires h in s.threads && s.threads[h] == Handle(n, snap, HdLock)
    requires env.lockOf(snap.labels.hash) !in s.locks && n !in s.pods
    ensures Next(env, Next(env, s, Act(h, "")), Act(h, ""))
         == s.(locks := s.locks[env.lockOf(snap.labels.hash) := h], threads := s.threads[h := Handle(n, snap, HdCreate)])
  {
  }

  function ClashRun(): seq<Action> {
    FirstRun() + [ExternalDelete("pod-1"), BeginHandler(2, "pod-1"), Act(2, "")]
    + (PublishRun(1, SECOND_JOB, "pod-2") + [Act(1, "")])
    + [Vanish("pod-1"), Act(2, ""), Act(2, "")]
  }

  lemma ReachesClash(env: Env)
    ensures Run(env, Init, ClashRun()) == TwoHandled(env)
  {
    var r1 := [ExternalDelete("pod-1"), BeginHandler(2, "pod-1"), Act(2, "")];
    var r2 := PublishRun(1, SECOND_JOB, "pod-2") + [Act(1, "")];
    var r3 := [Vanish("pod-1"), Act(2, ""), Act(2, "")];
    ReachesOneServed(env);
    ReachesDoomed(env);
    assert !Served(Doomed(), LABELS);
    PublishAloneCreates(env, Doomed(), 1, SECOND_JOB, "pod-2");
    ReachesTwoHandled(env);
    RunAppend(env, Init, FirstRun(), r1);
    RunAppend(env, Init, FirstRun() + r1, r2);
    RunAppend(env, Init, FirstRun() + r1 + r2, r3);
  }

  /**
  A clash is reachable: the second app's publish finds only a terminating pod and creates another
  one; then the first pod vanishes and its handler recreates it next to the new one.
  */
  lemma ClashOccurs(env: Env)
    ensures var s := Run(env, Init, ClashRun()); Unique(s) && !Unique(Next(env, s, Act(2, "")))
  {
    ReachesClash(env);
    var s' := Next(env, TwoHandled(env), Act(2, ""));
    assert "pod-1" in s'.pods && "pod-2" in s'.pods && s'.pods["pod-1"].labels == s'.pods["pod-2"].labels;
  }

  // ---------- an app pod without a label ----------

  const ANONYMOUS := FIRST.(hasApp := false)

  function AnonymousRun(): seq<Action> {
    [AppCreated("app-1"), AppCreated("app-2")] + (PublishRun(0, ANONYMOUS, "pod-1") + [Act(0, "")])
  }

  /** A publish that does not name its app pod, and then one pass: the reference of the existing app pod is gone. */
  lemma UnlabelledOccurs(env: Env)
    ensures var s := Run(env, Init, AnonymousRun());
            var f := Run(env, s, [BeginCheck(1, "pod-1"), Act(1, ""), Act(1, "")] + [Act(1, ""), Act(1, "")]);
            && "pod-1" in s.pods && Refs(s.pods["pod-1"].annos) == {RefKey(ANONYMOUS.target)}
            && "pod-1" in f.pods && RefKey(ANONYMOUS.target) !in Refs(f.pods["pod-1"].annos) && "app-1" in f.apps
  {
    var s := Init.(apps := map["app-1" := false, "app-2" := false]);
    RunTwo(env, Init, AppCreated("app-1"), AppCreated("app-2"));
    assert Run(env, Init, [AppCreated("app-1"), AppCreated("app-2")]) == s;
    PublishAloneCreates(env, s, 0, ANONYMOUS, "pod-1");
    RunAppend(env, Init, [AppCreated("app-1"), AppCreated("app-2")], PublishRun(0, ANONYMOUS, "pod-1") + [Act(0, "")]);
    AppReferences.UnlabelledIsDropped(env, AnonymousRun(), 1, "pod-1", RefKey(ANONYMOUS.target));
  }
}
