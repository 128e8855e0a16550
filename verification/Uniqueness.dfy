/**
At most one mount pod that is not terminating serves a volume id and setting hash on the node.

Publishes look for such a pod and create one only if there is none, all under the lock of the
hash. Recreation by podDeletedHandler does not look, and breaks this exactly when another pod serves.
*/
module Uniqueness {
  import opened Annotations
  import opened Protocol
  import opened Locking

  ghost predicate Unique(s: State) {
    forall n, m | n in s.pods && m in s.pods && !s.pods[n].terminating && !s.pods[m].terminating
                  && s.pods[n].labels == s.pods[m].labels :: n == m
  }

  /** No pod but `name` serves these labels. */
  ghost predicate OnlyName(s: State, name: Name, labels: Labels) {
    forall n | n in s.pods && Serves(s, n, labels) :: n == name
  }

  ghost predicate Chosen(s: State, th: Thread) {
    th.Publish? && Named(th) ==> OnlyName(s, th.pub.name, th.job.labels)
  }

  /** A handler does not recreate its pod while another one serves the same labels. */
  predicate NoClash(s: State, a: Action) {
    a.Act? && a.tid in s.threads && s.threads[a.tid].Handle? && s.threads[a.tid].hd.HdCreate?
    ==> !Served(s, s.threads[a.tid].snap.labels)
  }

  ghost predicate UniqueInv(env: Env, s: State) {
    && Inv(env, s) && Unique(s)
    && forall tid | tid in s.threads :: Chosen(s, s.threads[tid])
  }

  lemma EffectUnique(env: Env, s: State, tid: Tid, e: Effect)
    requires Unique(s)
    requires e.CreatePod? ==> OnlyName(s, e.name, e.labels)
    ensures Unique(Apply(env, s, tid, e))
  {
  }

  lemma OutsideUnique(s: State, a: Action)
    requires Unique(s) && !a.Act?
    ensures Unique(Outside(s, a))
  {
  }

  lemma PerformUnique(env: Env, s: State, tid: Tid, o: Outcome)
    requires Unique(s) && (!o.Blocked? ==> Unique(Apply(env, s, tid, o.effect)))
    ensures Unique(Perform(env, s, tid, o))
  {
  }

  /** Whoever creates a pod knows that nothing else serves. */
  lemma PlanCreates(env: Env, s: State, tid: Tid, pick: Name)
    requires UniqueInv(env, s) && tid in s.threads && NoClash(s, Act(tid, pick))
    ensures var o := Plan(env, s, s.threads[tid], pick);
            !o.Blocked? && o.effect.CreatePod? ==> OnlyName(s, o.effect.name, o.effect.labels)
  {
  }

  lemma PlanChosen(env: Env, s: State, tid: Tid, th: Thread, pick: Name)
    requires Unique(s) && Chosen(s, th)
    ensures var o := Plan(env, s, th, pick); o.Go? ==> Chosen(Apply(env, s, tid, o.effect), o.next)
  {
  }

  /** Nobody else creates a pod for the labels of an operation that holds their lock. */
  lemma ChosenKept(env: Env, s: State, s': State, tid: int, o: Tid)
    requires Inv(env, s) && Frame(env, s, s', tid) && PodInv(s')
    requires o in s'.threads && o != tid && Chosen(s, s.threads[o])
    ensures Chosen(s', s'.threads[o])
  {
  }

  lemma ActorChosen(env: Env, s: State, a: Action)
    requires UniqueInv(env, s) && Actor(a) in Next(env, s, a).threads
    ensures Chosen(Next(env, s, a), Next(env, s, a).threads[Actor(a)])
  {
    if Actor(a) in s.threads {
      var th := s.threads[Actor(a)];
      assert Chosen(s, th);
      if a.Act? {
        PlanChosen(env, s, a.tid, th, a.pick);
        var o := Plan(env, s, th, a.pick);
        if o.Go? {
          ChosenPods(Apply(env, s, a.tid, o.effect), Next(env, s, a), o.next);
        }
      }
    }
  }

  lemma ChosenPods(s: State, s': State, th: Thread)
    requires Chosen(s, th) && s'.pods == s.pods
    ensures Chosen(s', th)
  {
  }

  lemma UniqueStep(env: Env, s: State, a: Action)
    requires UniqueInv(env, s) && NoClash(s, a)
    ensures UniqueInv(env, Next(env, s, a))
  {
    var s' := Next(env, s, a);
    InvStep(env, s, a);
    OnlyOwnerWrites(env, s, a);
    if !a.Act? {
      OutsideUnique(s, a);
    } else if a.tid in s.threads {
      PlanCreates(env, s, a.tid, a.pick);
      var o := Plan(env, s, s.threads[a.tid], a.pick);
      if !o.Blocked? {
        EffectUnique(env, s, a.tid, o.effect);
      }
      PerformUnique(env, s, a.tid, o);
    }
    forall o | o in s'.threads
      ensures Chosen(s', s'.threads[o])
    {
      if o == Actor(a) {
        ActorChosen(env, s, a);
      } else {
        assert Chosen(s, s.threads[o]);
        ChosenKept(env, s, s', Actor(a), o);
      }
    }
  }

  /**
  In every run of publishes, unpublishes, passes and external deletions, and of handlers that do
  not recreate next to a serving pod, at most one pod serves each volume id and setting hash.
  */
  lemma {:induction false} OnePodPerSetting(env: Env, run: seq<Action>)
    requires Always(env, NoClash, run)
    ensures Unique(Run(env, Init, run))
    ensures UniqueInv(env, Run(env, Init, run))
    decreases |run|
  {
    if run != [] {
      OnePodPerSetting(env, run[..|run| - 1]);
      UniqueStep(env, Run(env, Init, run[..|run| - 1]), run[|run| - 1]);
    }
  }

  /** Recreation keeps uniqueness if and only if no other pod serves the labels. */
  lemma RecreationClashes(env: Env, run: seq<Action>, tid: Tid, pick: Name)
    requires Always(env, NoClash, run)
    requires var s := Run(env, Init, run); tid in s.threads && s.threads[tid].Handle? && s.threads[tid].hd.HdCreate?
    ensures var s := Run(env, Init, run);
            Unique(Next(env, s, Act(tid, pick))) <==> !Served(s, s.threads[tid].snap.labels)
  {
    var s := Run(env, Init, run);
    var s' := Next(env, s, Act(tid, pick));
    OnePodPerSetting(env, run);
    var th := s.threads[tid];
    assert LocalInv(s, th);
    if Served(s, th.snap.labels) {
      var n :| n in s.pods && Serves(s, n, th.snap.labels);
      assert n != th.name && s'.pods[n] == s.pods[n];
      assert !s'.pods[th.name].terminating && s'.pods[th.name].labels == th.snap.labels;
    } else {
      UniqueStep(env, s, Act(tid, pick));
    }
  }
}
