/**
The mount table of the node: what /proc/self/mountinfo lists. Entries with one mount point form a
stack whose top is the last one; `umount` pops one entry and a bind mount pushes one that carries
the device minor of its source.
*/
module MountTable {
  import opened Wrappers
  import opened Strings

  datatype MountInfo = MountInfo(mountPoint: string, root: string, minor: int)

  /** The stack at mount point `p`, bottom first. */
  function Stack(es: seq<MountInfo>, p: string): seq<MountInfo> {
    if es == [] then []
    else
      var e := es[|es| - 1];
      var rest := Stack(es[..|es| - 1], p);
      if e.mountPoint == p then rest + [e] else rest
  }

  /** All entries of other mount points. */
  function Elsewhere(es: seq<MountInfo>, p: string): seq<MountInfo> {
    if es == [] then []
    else
      var e := es[|es| - 1];
      var rest := Elsewhere(es[..|es| - 1], p);
      if e.mountPoint == p then rest else rest + [e]
  }

  function Count(es: seq<MountInfo>, p: string): nat {
    |Stack(es, p)|
  }

  /** What one `umount` leaves. */
  function Pop(es: seq<MountInfo>, p: string): seq<MountInfo> {
    if es == [] then []
    else
      var e := es[|es| - 1];
      if e.mountPoint == p then es[..|es| - 1] else Pop(es[..|es| - 1], p) + [e]
  }

  lemma StackSnoc(es: seq<MountInfo>, e: MountInfo, p: string)
    ensures Stack(es + [e], p) == if e.mountPoint == p then Stack(es, p) + [e] else Stack(es, p)
    ensures Elsewhere(es + [e], p) == if e.mountPoint == p then Elsewhere(es, p) else Elsewhere(es, p) + [e]
  {
  }

  lemma {:induction false} PopStack(es: seq<MountInfo>, p: string)
    ensures Count(es, p) > 0 ==> Stack(Pop(es, p), p) == Stack(es, p)[..Count(es, p) - 1]
    ensures Count(es, p) == 0 ==> Pop(es, p) == es
    ensures Elsewhere(Pop(es, p), p) == Elsewhere(es, p)
    decreases |es|
  {
    if es != [] {
      var e, init := es[|es| - 1], es[..|es| - 1];
      if e.mountPoint != p {
        PopStack(init, p);
        StackSnoc(Pop(init, p), e, p);
      }
    }
  }

  /** Another stack is a part of what is elsewhere, so it depends on nothing else. */
  lemma {:induction false} StackElsewhere(es: seq<MountInfo>, p: string, q: string)
    requires p != q
    ensures Stack(es, q) == Stack(Elsewhere(es, p), q)
    decreases |es|
  {
    if es != [] {
      var e, init := es[|es| - 1], es[..|es| - 1];
      StackElsewhere(init, p, q);
      if e.mountPoint != p {
        StackSnoc(Elsewhere(init, p), e, q);
      }
    }
  }

  predicate Mounted(es: seq<MountInfo>, p: string) {
    Count(es, p) > 0
  }

  function Top(es: seq<MountInfo>, p: string): MountInfo
    requires Mounted(es, p)
  {
    Stack(es, p)[Count(es, p) - 1]
  }

  // ---------- BindTarget ----------

  /** The table after BindTarget: a target already on the right device stays, otherwise one entry is replaced or added. */
  function Bound(es: seq<MountInfo>, mountPath: string, root: string, target: string): seq<MountInfo>
    requires Mounted(es, mountPath)
  {
    var minor := Top(es, mountPath).minor;
    if Mounted(es, target) && Top(es, target).minor == minor then es
    else Pop(es, target) + [MountInfo(target, root, minor)]
  }

  /** After it, the target's top has the mount path's minor; its depth grows only from nothing; all else is as before. */
  lemma BoundOnDevice(es: seq<MountInfo>, mountPath: string, root: string, target: string)
    requires Mounted(es, mountPath)
    ensures var es' := Bound(es, mountPath, root, target);
            && Mounted(es', target) && Mounted(es', mountPath)
            && Top(es', target).minor == Top(es', mountPath).minor == Top(es, mountPath).minor
            && Elsewhere(es', target) == Elsewhere(es, target)
            && (es' == es || Top(es', target).root == root)
            && Count(es', target) == (if Mounted(es, target) then Count(es, target) else 1)
            && forall i | 0 <= i < Count(es, target) - 1 :: Stack(es', target)[i] == Stack(es, target)[i]
  {
    var es' := Bound(es, mountPath, root, target);
    var entry := MountInfo(target, root, Top(es, mountPath).minor);
    PopStack(es, target);
    StackSnoc(Pop(es, target), entry, target);
    if mountPath != target {
      StackElsewhere(es, target, mountPath);
      StackElsewhere(es', target, mountPath);
      if es' != es {
        StackSnoc(Pop(es, target), entry, target);
      }
    }
  }

  /** A second call changes nothing. */
  lemma BindIdempotent(es: seq<MountInfo>, mountPath: string, root: string, target: string)
    requires Mounted(es, mountPath)
    ensures var es' := Bound(es, mountPath, root, target);
            Mounted(es', mountPath) && Bound(es', mountPath, root, target) == es'
  {
    BoundOnDevice(es, mountPath, root, target);
  }

  class Table {
    var entries: seq<MountInfo>

    constructor (entries: seq<MountInfo>)
      ensures this.entries == entries
    {
      this.entries := entries;
    }

    /** `umount -l path`, whose failure is only logged. */
    method UmountPath(path: string)
      modifies this
      ensures entries == Pop(old(entries), path)
    {
      var i := |entries|;
      assert entries[..i] == entries && entries[i..] == [];
      while i > 0 && entries[i - 1].mountPoint != path
        invariant 0 <= i <= |entries| && entries == old(entries)
        invariant Pop(entries, path) == Pop(entries[..i], path) + entries[i..]
      {
        assert entries[..i][..i - 1] == entries[..i - 1] && entries[i - 1..] == [entries[i - 1]] + entries[i..];
        i := i - 1;
      }
      if i > 0 {
        assert entries[..i][..i - 1] == entries[..i - 1];
        entries := entries[..i - 1] + entries[i..];
      } else {
        assert entries[..0] == [] && entries[0..] == entries;
      }
    }

    /** The scan of BindTarget keeps the last match of each path. */
    method LastMinors(mountPath: string, target: string) returns (mountMinor: Option<int>, targetMinor: Option<int>)
      ensures mountMinor == if Mounted(entries, mountPath) then Some(Top(entries, mountPath).minor) else None
      ensures targetMinor == if Mounted(entries, target) then Some(Top(entries, target).minor) else None
    {
      mountMinor, targetMinor := None, None;
      var i := 0;
      while i < |entries|
        invariant 0 <= i <= |entries|
        invariant mountMinor == if Mounted(entries[..i], mountPath) then Some(Top(entries[..i], mountPath).minor) else None
        invariant targetMinor == if Mounted(entries[..i], target) then Some(Top(entries[..i], target).minor) else None
      {
        var mi := entries[i];
        assert entries[..i + 1] == entries[..i] + [mi];
        StackSnoc(entries[..i], mi, mountPath);
        StackSnoc(entries[..i], mi, target);
        if mi.mountPoint == mountPath {
          mountMinor := Some(mi.minor);
        }
        if mi.mountPoint == target {
          targetMinor := Some(mi.minor);
        }
        i := i + 1;
      }
      assert entries[..i] == entries;
    }

    method BindTarget(mountPath: string, bindRoot: string, target: string, mountOk: bool) returns (r: Result)
      modifies this
      ensures r.Success? <==>
                Mounted(old(entries), mountPath) && (mountOk || Bound(old(entries), mountPath, bindRoot, target) == old(entries))
      ensures r.Success? ==> entries == Bound(old(entries), mountPath, bindRoot, target)
      ensures r.Failure? ==> entries == if Mounted(old(entries), mountPath) then Pop(old(entries), target) else old(entries)
    {
      var mountMinor, targetMinor := LastMinors(mountPath, target);
      if mountMinor.None? {
        return Failure("mount path not mounted");
      }
      PopStack(entries, target);
      if targetMinor.Some? {
        if targetMinor.value == mountMinor.value {
          return Success;
        }
        UmountPath(target);
      }
      if !mountOk {
        BoundChanges(old(entries), mountPath, bindRoot, target);
        return Failure("mount failed");
      }
      entries := entries + [MountInfo(target, bindRoot, mountMinor.value)];
      return Success;
    }

    /**
    The unmount loop of UmountTarget: until `umount` reports that nothing is mounted. `fails(i)`
    tells whether attempt `i` fails for another reason.
    */
    method UmountTarget(target: string, fails: nat -> bool) returns (r: Result, popped: nat)
      modifies this
      ensures Elsewhere(entries, target) == Elsewhere(old(entries), target)
      ensures popped <= Count(old(entries), target)
      ensures Stack(entries, target) == Stack(old(entries), target)[..Count(old(entries), target) - popped]
      ensures r.Success? ==> !Mounted(entries, target)
      ensures r.Success? <==> forall i: nat | i <= Count(old(entries), target) :: !fails(i)
    {
      popped := 0;
      while true
        invariant popped <= Count(old(entries), target)
        invariant Elsewhere(entries, target) == Elsewhere(old(entries), target)
        invariant Stack(entries, target) == Stack(old(entries), target)[..Count(old(entries), target) - popped]
        invariant forall i: nat | i < popped :: !fails(i)
        decreases Count(entries, target)
      {
        if fails(popped) {
          return Failure("could not lazy unmount"), popped;
        }
        if Count(entries, target) == 0 {
          return Success, popped;
        }
        PopStack(entries, target);
        UmountPath(target);
        popped := popped + 1;
      }
    }

    /** The loop of umountTargetUntilRemain; each turn parses the table again. */
    method UmountTargetUntilRemain(base: string, target: string)
      requires CanEnd(entries, base, target)
      modifies this
      ensures entries == PopTo(old(entries), target, REMAIN - 1)
    {
      while true
        invariant CanEnd(entries, base, target)
        invariant PopTo(entries, target, REMAIN - 1) == PopTo(old(entries), target, REMAIN - 1)
        decreases Count(entries, target)
      {
        var count := Count(entries, base);
        if base != target && Mounted(entries, target) {
          count := Count(entries, target);
        }
        if count < REMAIN {
          return;
        }
        PopStack(entries, target);
        UmountPath(target);
      }
    }

    /** recoverTarget. `sourceMinor` is the device at the mount path, `statOk` the check of the sub path. */
    method RecoverTarget(base: string, ti: TargetItem, podDeleted: bool, sourceMinor: int, statOk: bool, mountOk: bool)
        returns (r: Result)
      requires ti.status.TargetCorrupt? && !ti.inconsistent && !podDeleted ==> CanEnd(entries, base, ti.target)
      modifies this
      ensures entries == Recovered(old(entries), ti, podDeleted, sourceMinor, statOk, mountOk)
      ensures Elsewhere(entries, ti.target) == Elsewhere(old(entries), ti.target)
      ensures var before, after := Stack(old(entries), ti.target), Stack(entries, ti.target);
              if ti.status.TargetCorrupt? && !ti.inconsistent && !podDeleted
              then after == before[..Min(|before|, 4)]
                            + if (ti.subpath == "" || statOk) && mountOk then [MountInfo(ti.target, ti.subpath, sourceMinor)] else []
              else if ti.status.TargetNotExist? && podDeleted then after == before[..|before| - Min(|before|, ti.count)]
              else entries == old(entries)
      ensures r.Failure? <==>
                || ti.status.TargetUnexpect?
                || (ti.status.TargetCorrupt? && !ti.inconsistent && !podDeleted && (ti.subpath == "" || statOk) && !mountOk)
    {
      RecoveredStack(entries, ti, podDeleted, sourceMinor, statOk, mountOk);
      match ti.status
      case TargetNotExist =>
        if ti.count > 0 && podDeleted {
          var i := 0;
          while i < ti.count
            invariant 0 <= i <= ti.count
            invariant entries == PopTimes(old(entries), ti.target, i)
          {
            UmountPath(ti.target);
            i := i + 1;
          }
        }
        r := Success;
      case TargetMounted => r := Success;
      case TargetNotMount => r := Success;
      case TargetCorrupt =>
        if ti.inconsistent || podDeleted {
          return Success;
        }
        UmountTargetUntilRemain(base, ti.target);
        if ti.subpath != "" && !statOk {
          return Success;
        }
        if !mountOk {
          return Failure("bind mount error");
        }
        entries := entries + [MountInfo(ti.target, ti.subpath, sourceMinor)];
        r := Success;
      case TargetUnexpect => r := Failure("resolve error");
    }
  }

  lemma BoundChanges(es: seq<MountInfo>, mountPath: string, root: string, target: string)
    requires Mounted(es, mountPath)
    requires !(Mounted(es, target) && Top(es, target).minor == Top(es, mountPath).minor)
    ensures Bound(es, mountPath, root, target) != es
  {
  }

  // ---------- recovery ----------

  /** defaultTargetMountCounts */
  const REMAIN: nat := 5

  datatype TargetStatus = TargetNotExist | TargetMounted | TargetNotMount | TargetCorrupt | TargetUnexpect

  datatype TargetItem = TargetItem(target: string, subpath: string, count: nat, inconsistent: bool, status: TargetStatus)

  /** Unmount until at most `n` are left. */
  function PopTo(es: seq<MountInfo>, p: string, n: nat): seq<MountInfo>
    decreases |es|
  {
    if Count(es, p) <= n then es
    else
      PopShrinks(es, p);
      PopTo(Pop(es, p), p, n)
  }

  function Recovered(es: seq<MountInfo>, ti: TargetItem, podDeleted: bool, sourceMinor: int, statOk: bool, mountOk: bool): seq<MountInfo> {
    match ti.status
    case TargetNotExist => if podDeleted then PopTimes(es, ti.target, ti.count) else es
    case TargetMounted => es
    case TargetNotMount => es
    case TargetCorrupt =>
      if ti.inconsistent || podDeleted then es
      else PopTo(es, ti.target, REMAIN - 1)
           + if (ti.subpath == "" || statOk) && mountOk then [MountInfo(ti.target, ti.subpath, sourceMinor)] else []
    case TargetUnexpect => es
  }

  lemma {:induction false} PopShrinks(es: seq<MountInfo>, p: string)
    requires Mounted(es, p)
    ensures |Pop(es, p)| == |es| - 1
    decreases |es|
  {
    if es[|es| - 1].mountPoint != p {
      PopShrinks(es[..|es| - 1], p);
    }
  }

  /** The loop leaves exactly the lower part of the stack, `min(c, n)` entries of `c`, and nothing else changes. */
  lemma {:induction false} PopToStack(es: seq<MountInfo>, p: string, n: nat)
    ensures Stack(PopTo(es, p, n), p) == if Count(es, p) <= n then Stack(es, p) else Stack(es, p)[..n]
    ensures Elsewhere(PopTo(es, p, n), p) == Elsewhere(es, p)
    decreases |es|
  {
    if Count(es, p) > n {
      PopShrinks(es, p);
      PopStack(es, p);
      PopToStack(Pop(es, p), p, n);
    }
  }

  /** The loop of umountTarget. */
  function PopTimes(es: seq<MountInfo>, p: string, k: nat): seq<MountInfo> {
    if k == 0 then es else Pop(PopTimes(es, p, k - 1), p)
  }

  /** It leaves what `k` unmounts leave of the stack, nothing if the count was right, and all else. */
  lemma {:induction false} PopTimesStack(es: seq<MountInfo>, p: string, k: nat)
    ensures Stack(PopTimes(es, p, k), p) == if k <= Count(es, p) then Stack(es, p)[..Count(es, p) - k] else []
    ensures Elsewhere(PopTimes(es, p, k), p) == Elsewhere(es, p)
  {
    if k > 0 {
      PopTimesStack(es, p, k - 1);
      PopStack(PopTimes(es, p, k - 1), p);
    }
  }

  // ---------- when umountTargetUntilRemain ends ----------

  /** The count that one turn looks at: the target's if it is found below the base target, otherwise the base target's. */
  function SeenCount(es: seq<MountInfo>, base: string, target: string): nat {
    if base != target && Mounted(es, target) then Count(es, target) else Count(es, base)
  }

  predicate Stops(es: seq<MountInfo>, base: string, target: string) {
    SeenCount(es, base, target) < REMAIN
  }

  /** The table after `k` turns of the loop. */
  function Turns(es: seq<MountInfo>, base: string, target: string, k: nat): seq<MountInfo> {
    if k == 0 then es
    else
      var before := Turns(es, base, target, k - 1);
      if Stops(before, base, target) then before else Pop(before, target)
  }

  ghost predicate Ends(es: seq<MountInfo>, base: string, target: string) {
    exists k: nat :: Stops(Turns(es, base, target, k), base, target)
  }

  /** The target is there, or the base target has few mounts. */
  predicate CanEnd(es: seq<MountInfo>, base: string, target: string) {
    target == base || Mounted(es, target) || Count(es, base) < REMAIN
  }

  lemma {:induction false} TurnsShift(es: seq<MountInfo>, base: string, target: string, k: nat)
    requires !Stops(es, base, target)
    ensures Turns(es, base, target, k + 1) == Turns(Pop(es, target), base, target, k)
  {
    if k > 0 {
      TurnsShift(es, base, target, k - 1);
    } else {
      assert Turns(es, base, target, 0) == es;
    }
  }

  lemma {:induction false} EndsIfItCan(es: seq<MountInfo>, base: string, target: string) returns (k: nat)
    requires CanEnd(es, base, target)
    ensures Stops(Turns(es, base, target, k), base, target)
    decreases |es|
  {
    if Stops(es, base, target) {
      k := 0;
    } else {
      PopStack(es, target);
      PopShrinks(es, target);
      k := EndsIfItCan(Pop(es, target), base, target);
      TurnsShift(es, base, target, k);
      k := k + 1;
    }
  }

  lemma {:induction false} TurnsPop(es: seq<MountInfo>, base: string, target: string, k: nat)
    requires CanEnd(es, base, target)
    ensures var after := Turns(es, base, target, k);
            CanEnd(after, base, target) && PopTo(after, target, REMAIN - 1) == PopTo(es, target, REMAIN - 1)
  {
    if k > 0 {
      TurnsPop(es, base, target, k - 1);
      PopStack(Turns(es, base, target, k - 1), target);
    }
  }

  lemma {:induction false} TurnsStay(es: seq<MountInfo>, base: string, target: string, k: nat)
    requires !CanEnd(es, base, target)
    ensures Turns(es, base, target, k) == es
  {
    PopStack(es, target);
    if k > 0 {
      TurnsStay(es, base, target, k - 1);
    }
  }

  /**
  The loop ends if and only if the target is the base target, is mounted, or the base target has
  fewer than five mounts. It then leaves the target popped to four; otherwise no turn changes anything.
  */
  lemma LoopEndsIff(es: seq<MountInfo>, base: string, target: string)
    ensures Ends(es, base, target) <==> CanEnd(es, base, target)
    ensures forall k: nat | Stops(Turns(es, base, target, k), base, target) ::
              Turns(es, base, target, k) == PopTo(es, target, REMAIN - 1)
    ensures !CanEnd(es, base, target) ==> forall k: nat :: Turns(es, base, target, k) == es
  {
    if CanEnd(es, base, target) {
      var k := EndsIfItCan(es, base, target);
      forall k: nat | Stops(Turns(es, base, target, k), base, target)
        ensures Turns(es, base, target, k) == PopTo(es, target, REMAIN - 1)
      {
        TurnsPop(es, base, target, k);
      }
    } else {
      forall k: nat
        ensures Turns(es, base, target, k) == es
      {
        TurnsStay(es, base, target, k);
      }
    }
  }

  function Copies(e: MountInfo, n: nat): seq<MountInfo> {
    if n == 0 then [] else Copies(e, n - 1) + [e]
  }

  lemma {:induction false} CopiesStack(e: MountInfo, n: nat, p: string)
    ensures Count(Copies(e, n), p) == if p == e.mountPoint then n else 0
  {
    if n > 0 {
      CopiesStack(e, n - 1, p);
      StackSnoc(Copies(e, n - 1), e, p);
    }
  }

  /** A sub path target that is gone while its base target has five mounts: the loop never returns. */
  lemma NeverReturns()
    ensures !Ends(Copies(MountInfo("base", "", 0), 5), "base", "sub")
  {
    var e := MountInfo("base", "", 0);
    CopiesStack(e, 5, "base");
    assert "sub" != "base" by {
      assert |"sub"| != |"base"|;
    }
    CopiesStack(e, 5, "sub");
    LoopEndsIff(Copies(e, 5), "base", "sub");
  }

  /** What is mounted again: one entry with the sub path and the device of the mount path, if the sub path is there and the mount works. */
  function Bind(ti: TargetItem, sourceMinor: int, statOk: bool, mountOk: bool): seq<MountInfo> {
    if (ti.subpath == "" || statOk) && mountOk then [MountInfo(ti.target, ti.subpath, sourceMinor)] else []
  }

  /**
  A recovery of a corrupt target keeps the lowest four of its mounts and binds it once more; for a
  deleted app pod the counted mounts go; every other target, and every other status, is left alone.
  */
  lemma RecoveredStack(es: seq<MountInfo>, ti: TargetItem, podDeleted: bool, sourceMinor: int, statOk: bool, mountOk: bool)
    ensures var es' := Recovered(es, ti, podDeleted, sourceMinor, statOk, mountOk);
            var before, after := Stack(es, ti.target), Stack(es', ti.target);
            && Elsewhere(es', ti.target) == Elsewhere(es, ti.target)
            && if ti.status.TargetCorrupt? && !ti.inconsistent && !podDeleted
               then after == before[..Min(|before|, 4)] + Bind(ti, sourceMinor, statOk, mountOk)
               else if ti.status.TargetNotExist? && podDeleted then after == before[..|before| - Min(|before|, ti.count)]
               else es' == es
  {
    if ti.status.TargetCorrupt? && !ti.inconsistent && !podDeleted {
      var left := PopTo(es, ti.target, REMAIN - 1);
      PopToStack(es, ti.target, REMAIN - 1);
      StackSnoc(left, MountInfo(ti.target, ti.subpath, sourceMinor), ti.target);
      assert left + [] == left;
    } else if ti.status.TargetNotExist? && podDeleted {
      PopTimesStack(es, ti.target, ti.count);
    }
  }

  datatype Recovery = Recovery(item: TargetItem, podDeleted: bool, sourceMinor: int, statOk: bool, mountOk: bool)

  function RecoverAll(es: seq<MountInfo>, rs: seq<Recovery>): seq<MountInfo> {
    if rs == [] then es
    else
      var r := rs[|rs| - 1];
      Recovered(RecoverAll(es, rs[..|rs| - 1]), r.item, r.podDeleted, r.sourceMinor, r.statOk, r.mountOk)
  }

  /** The recovery really works on target `p`. */
  predicate Acts(r: Recovery, p: string) {
    r.item.target == p && r.item.status.TargetCorrupt? && !r.item.inconsistent && !r.podDeleted
  }

  /** It is not the clean-up of a deleted app pod. */
  predicate AppStays(r: Recovery) {
    !(r.item.status.TargetNotExist? && r.podDeleted)
  }

  function Min(a: nat, b: nat): nat {
    if a < b then a else b
  }

  /** One recovery leaves `min(c, 4)` of the target's mounts and adds at most one. */
  lemma RecoveredCount(es: seq<MountInfo>, r: Recovery, p: string)
    requires AppStays(r)
    ensures var es' := Recovered(es, r.item, r.podDeleted, r.sourceMinor, r.statOk, r.mountOk);
            if !Acts(r, p) then Stack(es', p) == Stack(es, p)
            else Count(es', p) == Min(Count(es, p), 4) + |Bind(r.item, r.sourceMinor, r.statOk, r.mountOk)|
  {
    if Acts(r, r.item.target) {
      var t := r.item.target;
      var left := PopTo(es, t, REMAIN - 1);
      PopToStack(es, t, REMAIN - 1);
      StackSnoc(left, MountInfo(t, r.item.subpath, r.sourceMinor), p);
      assert left + [] == left;
      if t != p {
        StackElsewhere(es, t, p);
        StackElsewhere(left, t, p);
      }
    }
  }

  /**
  Over any number of recoveries of any targets: once a target has been recovered it has at most
  five mounts, one that was never recovered keeps its stack, and none loses its last mount.
  */
  lemma {:induction false} RecoveriesBounded(es: seq<MountInfo>, rs: seq<Recovery>, p: string)
    requires forall i | 0 <= i < |rs| :: AppStays(rs[i])
    ensures Mounted(es, p) ==> Mounted(RecoverAll(es, rs), p)
    ensures if exists i | 0 <= i < |rs| :: Acts(rs[i], p) then Count(RecoverAll(es, rs), p) <= REMAIN
            else Stack(RecoverAll(es, rs), p) == Stack(es, p)
    decreases |rs|
  {
    if rs != [] {
      var n := |rs| - 1;
      RecoveriesBounded(es, rs[..n], p);
      RecoveredCount(RecoverAll(es, rs[..n]), rs[n], p);
      assert forall i | 0 <= i < n :: rs[..n][i] == rs[i];
    }
  }

  // ---------- resolveTargetItem ----------

  predicate Matches(e: MountInfo, path: string, isPrefix: bool) {
    if isPrefix then HasPrefix(e.mountPoint, path) else path == e.mountPoint
  }

  /** The sub path an entry binds: its root without the deleted marker and outer slashes. */
  function SubPath(e: MountInfo): string {
    Trim(TrimSuffix(e.root, "//deleted"), '/')
  }

  /** A root gives its sub path without outer slashes, whether or not the source was deleted. */
  lemma {:induction false} SubPathOf(core: string, minor: int, p: string)
    requires core != "" && core[0] != '/' && core[|core| - 1] != '/'
    ensures SubPath(MountInfo(p, "/" + core + "//deleted", minor)) == core
    ensures !HasSuffix("/" + core, "//deleted") ==> SubPath(MountInfo(p, "/" + core, minor)) == core
    ensures SubPath(MountInfo(p, "/", minor)) == ""
  {
    var root := "/" + core;
    assert (root + "//deleted")[..|root|] == root;
    assert root[1..] == core;
    assert TrimLeft(core, '/') == core && TrimRight(core, '/') == core;
    assert TrimLeft(root, '/') == TrimLeft(root[1..], '/');
    assert TrimLeft("/", '/') == TrimLeft("/"[1..], '/') == "";
    assert |"//deleted"| == 9;
  }

  function Matching(es: seq<MountInfo>, path: string, isPrefix: bool): seq<MountInfo> {
    if es == [] then []
    else
      var rest := Matching(es[..|es| - 1], path, isPrefix);
      if Matches(es[|es| - 1], path, isPrefix) then rest + [es[|es| - 1]] else rest
  }

  datatype Stat = StatOk | StatNotExist | StatCorrupted | StatOther

  /** targetItem.check */
  function CheckStatus(stat: Stat, mounted: bool): TargetStatus {
    match stat
    case StatOk => if mounted then TargetMounted else TargetNotMount
    case StatNotExist => TargetNotExist
    case StatCorrupted => TargetCorrupt
    case StatOther => TargetUnexpect
  }

  /** A target that can be looked at is mounted or not as the table says; errors tell missing, corrupt and other targets apart. */
  lemma StatusSays(stat: Stat, mounted: bool)
    ensures CheckStatus(stat, mounted).TargetMounted? <==> stat.StatOk? && mounted
    ensures CheckStatus(stat, mounted).TargetNotMount? <==> stat.StatOk? && !mounted
    ensures CheckStatus(stat, mounted).TargetNotExist? <==> stat.StatNotExist?
    ensures CheckStatus(stat, mounted).TargetCorrupt? <==> stat.StatCorrupted?
  {
  }

  /** Record `ti` summarises the non-empty stack of its target. */
  ghost predicate Summarises(ti: TargetItem, stack: seq<MountInfo>) {
    && stack != []
    && ti.count == |stack|
    && ti.subpath == SubPath(stack[0])
    && (ti.inconsistent <==> exists i, j | 0 <= i < j < |stack| :: SubPath(stack[i]) != SubPath(stack[j]))
  }

  lemma SummarisesSnoc(ti: TargetItem, stack: seq<MountInfo>, e: MountInfo)
    requires Summarises(ti, stack)
    ensures Summarises(ti.(count := ti.count + 1, inconsistent := ti.inconsistent || ti.subpath != SubPath(e)), stack + [e])
  {
    var stack' := stack + [e];
    if ti.inconsistent {
      var i, j :| 0 <= i < j < |stack| && SubPath(stack[i]) != SubPath(stack[j]);
      assert SubPath(stack'[i]) != SubPath(stack'[j]);
    } else if ti.subpath != SubPath(e) {
      assert SubPath(stack'[0]) != SubPath(stack'[|stack|]);
    } else {
      forall i, j | 0 <= i < j < |stack'|
        ensures SubPath(stack'[i]) == SubPath(stack'[j])
      {
        assert i > 0 ==> SubPath(stack[0]) == SubPath(stack[i]);
      }
    }
  }

  function SumCounts(items: seq<TargetItem>): nat {
    if items == [] then 0 else SumCounts(items[..|items| - 1]) + items[|items| - 1].count
  }

  /** Does mount point `p` match? */
  predicate PointMatches(p: string, path: string, isPrefix: bool) {
    Matches(MountInfo(p, "", 0), path, isPrefix)
  }

  ghost predicate Groups(records: map<string, TargetItem>, es: seq<MountInfo>, path: string, isPrefix: bool) {
    && (forall p | p in records :: records[p].target == p && PointMatches(p, path, isPrefix))
    && (forall p | p in records :: Summarises(records[p], Stack(es, p)))
    && (forall e | e in es && Matches(e, path, isPrefix) :: e.mountPoint in records)
  }

  /** What one entry does to the records. */
  function Grouped(records: map<string, TargetItem>, mi: MountInfo): map<string, TargetItem> {
    var subpath := SubPath(mi);
    if mi.mountPoint in records then
      var record := records[mi.mountPoint];
      records[mi.mountPoint := record.(count := record.count + 1, inconsistent := record.inconsistent || record.subpath != subpath)]
    else records[mi.mountPoint := TargetItem(mi.mountPoint, subpath, 1, false, TargetUnexpect)]
  }

  lemma GroupsSnoc(records: map<string, TargetItem>, es: seq<MountInfo>, mi: MountInfo, path: string, isPrefix: bool)
    requires Groups(records, es, path, isPrefix)
    ensures Groups(if Matches(mi, path, isPrefix) then Grouped(records, mi) else records, es + [mi], path, isPrefix)
  {
    var records' := if Matches(mi, path, isPrefix) then Grouped(records, mi) else records;
    forall p | p in records'
      ensures Summarises(records'[p], Stack(es + [mi], p))
    {
      StackSnoc(es, mi, p);
      if p == mi.mountPoint {
        if p !in records {
          Unseen(es, p);
        }
        GroupedPoint(records, Stack(es, p), mi);
      }
    }
  }

  /** The record of the entry's own mount point. */
  lemma GroupedPoint(records: map<string, TargetItem>, stack: seq<MountInfo>, mi: MountInfo)
    requires if mi.mountPoint in records then Summarises(records[mi.mountPoint], stack) else stack == []
    ensures Summarises(Grouped(records, mi)[mi.mountPoint], stack + [mi])
  {
    if mi.mountPoint in records {
      SummarisesSnoc(records[mi.mountPoint], stack, mi);
    }
  }

  method AddMount(records: map<string, TargetItem>, mi: MountInfo) returns (records': map<string, TargetItem>)
    ensures records' == Grouped(records, mi)
  {
    if mi.mountPoint !in records {
      records' := records[mi.mountPoint := TargetItem(mi.mountPoint, SubPath(mi), 1, false, TargetUnexpect)];
    } else {
      var record := records[mi.mountPoint];
      if record.subpath != SubPath(mi) {
        record := record.(inconsistent := true);
      }
      records' := records[mi.mountPoint := record.(count := record.count + 1)];
    }
  }

  /** The grouping loop over the table. */
  method GroupMounts(es: seq<MountInfo>, path: string, isPrefix: bool) returns (records: map<string, TargetItem>)
    ensures Groups(records, es, path, isPrefix)
  {
    records := map[];
    var n := 0;
    while n < |es|
      invariant 0 <= n <= |es|
      invariant Groups(records, es[..n], path, isPrefix)
    {
      var mi := es[n];
      GroupsSnoc(records, es[..n], mi, path, isPrefix);
      assert es[..n + 1] == es[..n] + [mi];
      if Matches(mi, path, isPrefix) {
        records := AddMount(records, mi);
      }
      n := n + 1;
    }
    assert es[..n] == es;
  }

  function Targets(items: seq<TargetItem>): set<string> {
    set i | 0 <= i < |items| :: items[i].target
  }

  predicate Distinct(items: seq<TargetItem>) {
    forall i, j | 0 <= i < j < |items| :: items[i].target != items[j].target
  }

  /** The second loop: the records in any order, each with the state of its target. */
  method ListRecords(records: map<string, TargetItem>, stat: string -> Stat) returns (res: seq<TargetItem>)
    requires forall p | p in records :: records[p].target == p
    ensures Distinct(res) && Targets(res) == records.Keys
    ensures forall i | 0 <= i < |res| ::
              && res[i].target in records
              && res[i] == records[res[i].target].(status := CheckStatus(stat(res[i].target), true))
  {
    res := [];
    var todo := records.Keys;
    while todo != {}
      invariant todo <= records.Keys
      invariant Targets(res) == records.Keys - todo
      invariant Distinct(res)
      invariant forall i | 0 <= i < |res| ::
                  && res[i].target in records.Keys - todo
                  && res[i] == records[res[i].target].(status := CheckStatus(stat(res[i].target), true))
      decreases todo
    {
      var p :| p in todo;
      todo := todo - {p};
      TargetsSnoc(res, records[p].(status := CheckStatus(stat(p), true)));
      res := res + [records[p].(status := CheckStatus(stat(p), true))];
    }
  }

  lemma TargetsSnoc(items: seq<TargetItem>, ti: TargetItem)
    ensures Targets(items + [ti]) == Targets(items) + {ti.target}
  {
    var items' := items + [ti];
    assert items'[|items|] == ti;
    assert forall i | 0 <= i < |items| :: items'[i] == items[i];
  }

  /** One record per distinct matching mount point, each summing up its stack, no entry uncounted. */
  method ResolveTargetItem(es: seq<MountInfo>, path: string, isPrefix: bool, stat: string -> Stat) returns (res: seq<TargetItem>)
    ensures forall i | 0 <= i < |res| :: Summarises(res[i], Stack(es, res[i].target))
    ensures forall i | 0 <= i < |res| :: res[i].status == CheckStatus(stat(res[i].target), true)
    ensures Distinct(res)
    ensures forall e | e in es :: Matches(e, path, isPrefix) <==> e.mountPoint in Targets(res)
    ensures SumCounts(res) == |Matching(es, path, isPrefix)|
    ensures !isPrefix ==> |res| <= 1
  {
    var records := GroupMounts(es, path, isPrefix);
    res := ListRecords(records, stat);
    CountsSum(es, res, path, isPrefix);
    assert forall i | 0 <= i < |res| :: !isPrefix ==> res[i].target == path;
  }

  /** A mount point that matches and has no record yet has no earlier entry. */
  lemma {:induction false} Unseen(es: seq<MountInfo>, p: string)
    requires forall e | e in es :: e.mountPoint != p
    ensures Stack(es, p) == []
    decreases |es|
  {
    if es != [] {
      Unseen(es[..|es| - 1], p);
    }
  }

  /** Taking one matching mount point out takes its stack out of the matches. */
  lemma {:induction false} MatchingSplits(es: seq<MountInfo>, p: string, path: string, isPrefix: bool)
    requires Matches(MountInfo(p, "", 0), path, isPrefix)
    ensures |Matching(es, path, isPrefix)| == Count(es, p) + |Matching(Elsewhere(es, p), path, isPrefix)|
    decreases |es|
  {
    if es != [] {
      var e, init := es[|es| - 1], es[..|es| - 1];
      MatchingSplits(init, p, path, isPrefix);
      if e.mountPoint != p {
        assert (Elsewhere(init, p) + [e])[..|Elsewhere(init, p)|] == Elsewhere(init, p);
      }
    }
  }

  lemma {:induction false} ElsewhereMember(es: seq<MountInfo>, p: string, e: MountInfo)
    requires e in Elsewhere(es, p)
    ensures e in es && e.mountPoint != p
    decreases |es|
  {
    var init := es[..|es| - 1];
    if e in Elsewhere(init, p) {
      ElsewhereMember(init, p, e);
    }
  }

  lemma {:induction false} NoMatches(es: seq<MountInfo>, path: string, isPrefix: bool)
    requires forall e | e in es :: !Matches(e, path, isPrefix)
    ensures Matching(es, path, isPrefix) == []
    decreases |es|
  {
    if es != [] {
      NoMatches(es[..|es| - 1], path, isPrefix);
    }
  }

  /** One record per matching mount point with its multiplicity: the counts add up to the matching entries. */
  lemma {:induction false} CountsSum(es: seq<MountInfo>, res: seq<TargetItem>, path: string, isPrefix: bool)
    requires forall i | 0 <= i < |res| :: res[i].count == Count(es, res[i].target)
    requires forall i | 0 <= i < |res| :: PointMatches(res[i].target, path, isPrefix)
    requires Distinct(res)
    requires forall e | e in es && Matches(e, path, isPrefix) :: e.mountPoint in Targets(res)
    ensures SumCounts(res) == |Matching(es, path, isPrefix)|
    decreases |res|
  {
    if res == [] {
      NoMatches(es, path, isPrefix);
    } else {
      var n := |res| - 1;
      var p, rest := res[n].target, res[..n];
      var es' := Elsewhere(es, p);
      MatchingSplits(es, p, path, isPrefix);
      forall i | 0 <= i < n
        ensures rest[i].count == Count(es', rest[i].target)
      {
        StackElsewhere(es, p, rest[i].target);
      }
      TargetsSnoc(rest, res[n]);
      assert res == rest + [res[n]];
      forall e | e in es' && Matches(e, path, isPrefix)
        ensures e.mountPoint in Targets(rest)
      {
        ElsewhereMember(es, p, e);
      }
      CountsSum(es', rest, path, isPrefix);
    }
  }
}
