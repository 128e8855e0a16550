/**
The annotation map of one mount pod as a reference counter: the loops that read it, the operations
that change it, and the set of targets they implement.
*/
module PodRecord {
  import opened Wrappers
  import opened Annotations
  import opened Protocol

  // ---------- the operations on values ----------

  datatype Op = Add(target: Target) | Drop(target: Target)

  /** AddRefOfMount on a pod that is not terminating. */
  function AddOnce(a: Annos, t: Target): Annos {
    if RefKey(t) in a then a else AddRef(a, t)
  }

  /** The annotation part of UmountTarget. */
  function DropRef(a: Annos, t: Target): Annos {
    a - {RefKey(t)}
  }

  function Replay(a: Annos, ops: seq<Op>): Annos {
    if ops == [] then a
    else
      var b := Replay(a, ops[..|ops| - 1]);
      match ops[|ops| - 1]
      case Add(t) => AddOnce(b, t)
      case Drop(t) => DropRef(b, t)
  }

  /** What it is meant to be: a set of targets. */
  function ReplayTargets(ts: set<Target>, ops: seq<Op>): set<Target> {
    if ops == [] then ts
    else
      var us := ReplayTargets(ts, ops[..|ops| - 1]);
      match ops[|ops| - 1]
      case Add(t) => us + {t}
      case Drop(t) => us - {t}
  }

  /** The targets a map refers to. */
  function Targets(a: Annos): set<Target> {
    set k | k in Refs(a) :: k.target
  }

  /** Counting keys and counting targets is the same. */
  lemma {:induction false} CountTargets(a: Annos)
    ensures |Targets(a)| == |Refs(a)|
    decreases |a|
  {
    if Refs(a) == {} {
      assert Targets(a) == {};
    } else {
      var k :| k in Refs(a);
      var b := a - {k};
      assert Refs(b) == Refs(a) - {k};
      assert Targets(b) == Targets(a) - {k.target};
      assert a.Keys == b.Keys + {k};
      CountTargets(b);
    }
  }

  lemma AddOnceTargets(a: Annos, t: Target)
    requires WellFormed(a)
    ensures WellFormed(AddOnce(a, t)) && Targets(AddOnce(a, t)) == Targets(a) + {t}
  {
  }

  lemma DropRefTargets(a: Annos, t: Target)
    requires WellFormed(a)
    ensures WellFormed(DropRef(a, t)) && Targets(DropRef(a, t)) == Targets(a) - {t}
  {
  }

  /** The value under a key, if any. */
  function Lookup(a: Annos, k: Key): seq<Value> {
    if k in a then [a[k]] else []
  }

  /**
  Any sequence of publishes and unpublishes leaves exactly the references of the set-level replay;
  their number is the size of that set, and no annotation except references and delete-at changes.
  */
  lemma {:induction false} ReplayRefinesSet(a: Annos, ops: seq<Op>)
    requires WellFormed(a)
    ensures WellFormed(Replay(a, ops))
    ensures Targets(Replay(a, ops)) == ReplayTargets(Targets(a), ops)
    ensures |Refs(Replay(a, ops))| == |ReplayTargets(Targets(a), ops)|
    ensures forall k: Key | !k.RefKey? && k != DelayAtKey :: Lookup(Replay(a, ops), k) == Lookup(a, k)
    decreases |ops|
  {
    if ops != [] {
      ReplayRefinesSet(a, ops[..|ops| - 1]);
      var b := Replay(a, ops[..|ops| - 1]);
      match ops[|ops| - 1] {
        case Add(t) => AddOnceTargets(b, t);
        case Drop(t) => DropRefTargets(b, t);
      }
    }
    CountTargets(Replay(a, ops));
  }

  /** Repeated publishes of one target count once, and one unpublish undoes them. */
  lemma PublishTwiceDropOnce(a: Annos, t: Target)
    requires WellFormed(a) && RefKey(t) !in a
    ensures AddOnce(AddOnce(a, t), t) == AddOnce(a, t)
    ensures Refs(DropRef(AddOnce(AddOnce(a, t), t), t)) == Refs(a)
  {
  }

  // ---------- the stored pod, changed in place ----------

  class MountPod {
    var annos: Annos
    var terminating: bool
    var finalizers: seq<string>

    constructor (annos: Annos)
      ensures this.annos == annos && !terminating && finalizers == []
    {
      this.annos := annos;
      terminating := false;
      finalizers := [];
    }

    method AddRefOfMount(t: Target) returns (r: Result)
      modifies this`annos
      ensures terminating ==> r.Failure? && annos == old(annos)
      ensures !terminating ==> r.Success? && annos == AddOnce(old(annos), t)
    {
      if terminating {
        return Failure("mount pod has been deleted");
      }
      if RefKey(t) in annos {
        return Success;
      }
      var annotation := annos[RefKey(t) := Path(t)];
      annos := annotation - {DelayAtKey};
      return Success;
    }

    /** The JSON patch: all keys are removed, or one is missing (or removed twice) and nothing happens. */
    method DelPodAnnotation(keys: seq<Key>) returns (r: Result)
      modifies this`annos
      ensures r.Success? <==> (forall k | k in keys :: k in old(annos)) && (forall i, j | 0 <= i < j < |keys| :: keys[i] != keys[j])
      ensures annos == if r.Success? then old(annos) - (set k | k in keys) else old(annos)
    {
      var patched := annos;
      var i := 0;
      while i < |keys|
        invariant 0 <= i <= |keys|
        invariant annos == old(annos)
        invariant patched == annos - (set k | k in keys[..i])
        invariant forall k | k in keys[..i] :: k in annos
        invariant forall j, k | 0 <= j < k < i :: keys[j] != keys[k]
      {
        if keys[i] !in patched {
          return Failure("remove: key is missing");
        }
        patched := patched - {keys[i]};
        assert keys[..i + 1] == keys[..i] + [keys[i]];
        i := i + 1;
      }
      assert keys[..i] == keys;
      annos := patched;
      return Success;
    }

    method UmountTarget(t: Target) returns (r: Result)
      modifies this`annos
      ensures r.Success? && annos == DropRef(old(annos), t)
    {
      if RefKey(t) !in annos {
        return Success;
      }
      r := DelPodAnnotation([RefKey(t)]);
    }

    method GetRef() returns (res: nat)
      ensures res == |Refs(annos)|
      ensures res == |set k | k in annos && annos[k].Path? && k == RefKey(annos[k].target)|
    {
      res := 0;
      var todo := annos.Keys;
      ghost var counted: set<Key> := {};
      while todo != {}
        invariant todo <= annos.Keys
        invariant counted == (set k | k in Refs(annos) && k !in todo)
        invariant res == |counted|
        decreases todo
      {
        var k :| k in todo;
        todo := todo - {k};
        if IsRef(k, annos[k]) {
          res := res + 1;
          counted := counted + {k};
        }
      }
      assert counted == Refs(annos);
      assert Refs(annos) == set k | k in annos && annos[k].Path? && k == RefKey(annos[k].target);
    }

    method GetAllRefKeys() returns (refs: Annos)
      ensures refs.Keys == Refs(annos) && |refs| == |Refs(annos)|
      ensures forall k | k in refs :: refs[k] == annos[k]
    {
      refs := map[];
      var todo := annos.Keys;
      while todo != {}
        invariant todo <= annos.Keys
        invariant refs.Keys == (set k | k in Refs(annos) && k !in todo)
        invariant forall k | k in refs :: refs[k] == annos[k]
        decreases todo
      {
        var k :| k in todo;
        todo := todo - {k};
        if IsRef(k, annos[k]) {
          refs := refs[k := annos[k]];
        }
      }
      assert |refs| == |refs.Keys|;
    }

    /** RemoveFinalizer edits the slice it walks over. */
    method RemoveFinalizer(finalizer: string)
      modifies this`finalizers
      ensures finalizers == Without(old(finalizers), finalizer)
    {
      var f := finalizers;
      var i := 0;
      while i < |f|
        invariant 0 <= i <= |f|
        invariant finalizer !in f[..i]
        invariant f[..i] + Without(f[i..], finalizer) == Without(old(finalizers), finalizer)
        decreases |f| - i
      {
        ghost var g := f;
        if f[i] == finalizer {
          f := f[..i] + f[i + 1..];
          assert f[..i] == g[..i] && f[i..] == g[i..][1..];
        } else {
          assert g[..i + 1] == g[..i] + [g[i]] && g[i + 1..] == g[i..][1..];
          i := i + 1;
        }
      }
      assert f[..i] == f;
      finalizers := f;
    }
  }

  function Without(f: seq<string>, x: string): (r: seq<string>)
    ensures x !in r && multiset(r) == multiset(f)[x := 0]
  {
    if f == [] then []
    else
      assert f == [f[0]] + f[1..];
      if f[0] == x then Without(f[1..], x) else [f[0]] + Without(f[1..], x)
  }

  /** The first loop of checkAnnotations over the snapshot. */
  method CollectDead(annos: Annos, alive: set<string>) returns (del: seq<Key>, existTargets: nat)
    ensures forall k :: k in del <==> k in Refs(annos) && k.target.uid !in alive
    ensures existTargets == |set k | k in Refs(annos) && k.target.uid in alive|
    ensures forall i, j | 0 <= i < j < |del| :: del[i] != del[j]
  {
    del, existTargets := [], 0;
    var todo := annos.Keys;
    ghost var live: set<Key> := {};
    while todo != {}
      invariant todo <= annos.Keys
      invariant forall k | k in annos.Keys - todo :: k in del <==> IsRef(k, annos[k]) && k.target.uid !in alive
      invariant forall k | k in annos.Keys - todo :: k in live <==> IsRef(k, annos[k]) && k.target.uid in alive
      invariant forall k | k in del || k in live :: k in annos.Keys - todo
      invariant existTargets == |live|
      invariant forall i, j | 0 <= i < j < |del| :: del[i] != del[j]
      decreases todo
    {
      var k :| k in todo;
      todo := todo - {k};
      if IsRef(k, annos[k]) {
        if k.target.uid !in alive {
          del := del + [k];
        } else {
          existTargets := existTargets + 1;
          live := live + {k};
        }
      }
    }
    assert live == set k | k in Refs(annos) && k.target.uid in alive;
  }

  /** And the delete-at entry appended after it when references remain. */
  method CollectDropKeys(snap: Pod, alive: set<string>) returns (del: seq<Key>, existTargets: nat)
    ensures (set k | k in del) == DropKeys(snap, alive)
    ensures existTargets == |LiveRefs(snap, alive)|
    ensures DelayAtKey in del <==>
              && DelayAtKey in snap.annos && snap.annos[DelayAtKey] != Text("")
              && exists k :: k in Refs(snap.annos) && k.target.uid in alive
    ensures forall k | k != DelayAtKey :: k in del <==> k in Refs(snap.annos) && k.target.uid !in alive
    ensures forall i, j | 0 <= i < j < |del| :: del[i] != del[j]
  {
    del, existTargets := CollectDead(snap.annos, alive);
    assert LiveRefs(snap, alive) == set k | k in Refs(snap.annos) && k.target.uid in alive;
    assert existTargets != 0 <==> exists k :: k in LiveRefs(snap, alive);
    if existTargets != 0 && DelayAtKey in snap.annos && snap.annos[DelayAtKey] != Text("") {
      del := del + [DelayAtKey];
    }
  }
}
