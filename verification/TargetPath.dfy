/** The target paths that the kubelet builds for CSI volumes, and the functions that take them apart. */
module TargetPath {
  import opened Strings

  const MARKER: string := "volumes/kubernetes.io~csi"

  const SUBPATHS: string := "volume-subpaths"

  /** The target path of volume `pv` in the pod `uid`. */
  function Target(root: string, uid: string, pv: string): string {
    root + "/pods/" + uid + "/" + MARKER + "/" + pv + "/mount"
  }

  function GetPodUid(target: string): string {
    var pair := Split(target, MARKER);
    if |pair| != 2 then ""
    else
      var podDir := TrimSuffix(pair[0], "/");
      var index := LastIndexOf(podDir, '/');
      if index <= 0 then "" else podDir[index + 1..]
  }

  function GetPVName(target: string): string {
    var pair := Split(target, MARKER);
    if |pair| != 2 then ""
    else
      var pvName := TrimPrefix(pair[1], "/");
      var index := Index(pvName, "/");
      if index <= 0 then "" else pvName[..index]
  }

  function PodDir(target: string): string {
    TrimSuffix(Split(target, MARKER)[0], "/")
  }

  // ---------- occurrences of the marker ----------

  function Position(root: string, uid: string): nat {
    |root| + |"/pods/"| + |uid| + 1
  }

  /** Where the slashes of a target path are, and the letters beside them. */
  lemma Slashes(root: string, uid: string, pv: string, k: nat)
    requires '/' !in uid && '/' !in pv
    requires k < |Target(root, uid, pv)| && Target(root, uid, pv)[k] == '/' && k >= |root|
    ensures var t, p := Target(root, uid, pv), Position(root, uid);
            || (k == |root| && t[k + 1] == 'p')
            || (k == |root| + 5 && t[k - 2] == 'd')
            || (k == p - 1 && t[k + 1] == 'v')
            || k == p + 7
            || (k == p + 25 && t[k - 1] == 'i')
            || (k == p + 26 + |pv| && t[k + 1] == 'm')
  {
  }

  /** An occurrence shows a slash between known letters, and none in the 17 places after it. */
  lemma MarkerLetters(t: string, i: int)
    requires OccursAt(t, MARKER, i)
    ensures i + 25 <= |t| && t[i + 5] == 'e' && t[i + 6] == 's' && t[i + 7] == '/' && t[i + 8] == 'k'
    ensures forall k | i + 7 < k < i + 25 :: t[k] != '/'
  {
  }

  /** The marker occurs where it was put, before that only inside the root, and never after. */
  lemma OccursOnce(root: string, uid: string, pv: string, i: int)
    requires '/' !in uid && '/' !in pv
    ensures OccursAt(Target(root, uid, pv), MARKER, i) <==> i == Position(root, uid) || OccursAt(root, MARKER, i)
  {
    var t, p := Target(root, uid, pv), Position(root, uid);
    assert |MARKER| == 25;
    assert OccursAt(t, MARKER, p) by {
      assert t[p..p + 25] == MARKER;
    }
    if OccursAt(root, MARKER, i) {
      assert t[i..i + 25] == root[i..i + 25];
    }
    assert t[|root|] == '/';
    if OccursAt(t, MARKER, i) && i != p {
      MarkerLetters(t, i);
      if i + 7 >= |root| {
        Slashes(root, uid, pv, i + 7);
        assert false;
      } else if i + 25 > |root| {
        assert false;
      } else {
        assert t[i..i + 25] == root[i..i + 25];
      }
    }
  }

  // ---------- round trip ----------

  lemma {:induction false} SplitTwo(s: string, sep: string, p: int)
    requires sep != [] && OccursAt(s, sep, p)
    requires forall i | OccursAt(s, sep, i) :: i == p
    ensures Split(s, sep) == [s[..p], s[p + |sep|..]]
  {
    var rest := s[p + |sep|..];
    assert Index(s, sep) == p;
    forall i | OccursAt(rest, sep, i)
      ensures false
    {
      assert s[p + |sep| + i..p + |sep| + i + |sep|] == rest[i..i + |sep|];
      assert OccursAt(s, sep, p + |sep| + i);
    }
    assert Index(rest, sep) == -1;
    assert Split(rest, sep) == [rest];
  }

  lemma {:induction false} SplitMore(s: string, sep: string, i: int, j: int)
    requires sep != [] && OccursAt(s, sep, i) && OccursAt(s, sep, j) && i + |sep| <= j
    ensures |Split(s, sep)| >= 3
  {
    var f := Index(s, sep);
    assert 0 <= f <= i;
    OccursAfter(s, sep, f + |sep|, j);
    SplitSome(s[f + |sep|..], sep, j - f - |sep|);
    SplitCut(s, sep);
  }

  lemma {:induction false} SplitSome(s: string, sep: string, i: int)
    requires sep != [] && OccursAt(s, sep, i)
    ensures |Split(s, sep)| >= 2
  {
  }

  lemma OccursAfter(s: string, sep: string, m: nat, j: int)
    requires m <= j && OccursAt(s, sep, j)
    ensures OccursAt(s[m..], sep, j - m)
  {
  }

  lemma {:induction false} TargetSplit(root: string, uid: string, pv: string)
    requires '/' !in uid && '/' !in pv && !Contains(root, MARKER)
    ensures Split(Target(root, uid, pv), MARKER) == [root + "/pods/" + uid + "/", "/" + pv + "/mount"]
  {
    var t, p := Target(root, uid, pv), Position(root, uid);
    assert |MARKER| == 25;
    OccursOnce(root, uid, pv, p);
    forall i | OccursAt(t, MARKER, i)
      ensures i == p
    {
      OccursOnce(root, uid, pv, i);
    }
    SplitTwo(t, MARKER, p);
    assert t[..p] == root + "/pods/" + uid + "/";
    assert t[p + 25..] == "/" + pv + "/mount";
  }

  lemma UidOfDir(root: string, uid: string)
    requires '/' !in uid
    ensures TrimSuffix(root + "/pods/" + uid + "/", "/") == root + "/pods/" + uid
    ensures LastIndexOf(root + "/pods/" + uid, '/') == |root| + 5
  {
    var dir := root + "/pods/" + uid;
    assert dir + "/" == root + "/pods/" + uid + "/";
    assert (dir + "/")[..|dir|] == dir;
    assert dir[|root| + 5] == '/';
    assert dir[|root| + 6..] == uid;
    LastIndexIs(dir, '/', |root| + 5);
  }

  lemma LastIndexIs(s: string, c: char, k: nat)
    requires k < |s| && s[k] == c && c !in s[k + 1..]
    ensures LastIndexOf(s, c) == k
  {
  }

  lemma NameOfRest(pv: string)
    requires '/' !in pv
    ensures TrimPrefix("/" + pv + "/mount", "/") == pv + "/mount"
    ensures Index(pv + "/mount", "/") == |pv|
  {
    var rest := pv + "/mount";
    assert "/" + pv + "/mount" == "/" + rest;
    assert ("/" + rest)[1..] == rest;
    assert rest == pv + ['/'] + "mount";
    SplitAt(pv, '/', "mount");
  }

  /** The uid and the volume name of a target path are read back whatever the root is, if it has no marker. */
  lemma RoundTrip(root: string, uid: string, pv: string)
    requires '/' !in uid && '/' !in pv && !Contains(root, MARKER)
    ensures GetPodUid(Target(root, uid, pv)) == uid
    ensures GetPVName(Target(root, uid, pv)) == pv
    ensures PodDir(Target(root, uid, pv)) == root + "/pods/" + uid
  {
    TargetSplit(root, uid, pv);
    UidOfDir(root, uid);
    NameOfRest(pv);
    assert (root + "/pods/" + uid)[|root| + 6..] == uid;
    assert (pv + "/mount")[..|pv|] == pv;
  }

  /** With a marker in the root neither is read back, so the condition is exact. */
  lemma ReadBackIff(root: string, uid: string, pv: string)
    requires '/' !in uid && '/' !in pv && uid != "" && pv != ""
    ensures GetPodUid(Target(root, uid, pv)) == uid <==> !Contains(root, MARKER)
    ensures GetPVName(Target(root, uid, pv)) == pv <==> !Contains(root, MARKER)
  {
    if Contains(root, MARKER) {
      var i :| 0 <= i <= |root| && OccursAt(root, MARKER, i);
      OccursOnce(root, uid, pv, i);
      OccursOnce(root, uid, pv, Position(root, uid));
      SplitMore(Target(root, uid, pv), MARKER, i, Position(root, uid));
    } else {
      RoundTrip(root, uid, pv);
    }
  }

  // ---------- sub path mounts ----------

  function SubPathPrefix(podDir: string, pv: string): string {
    Join([podDir, SUBPATHS, pv], "/")
  }

  /** A sub path mount of volume `other`, as the kubelet builds it. */
  function SubPathMount(podDir: string, other: string, rest: string): string {
    podDir + "/" + SUBPATHS + "/" + other + "/" + rest
  }

  /**
  The prefix has no slash at its end, so it takes the sub path mounts of exactly those volumes of
  the pod whose names begin with the volume's name, not only its own.
  */
  lemma PrefixTakes(podDir: string, pv: string, other: string, rest: string)
    requires '/' !in pv
    ensures HasPrefix(SubPathMount(podDir, other, rest), SubPathPrefix(podDir, pv)) <==> HasPrefix(other, pv)
  {
    var base := podDir + "/" + SUBPATHS + "/";
    assert [podDir, SUBPATHS, pv][1..] == [SUBPATHS, pv] && [SUBPATHS, pv][1..] == [pv];
    assert Join([SUBPATHS, pv], "/") == SUBPATHS + "/" + Join([pv], "/");
    assert SubPathPrefix(podDir, pv) == base + pv;
    var mount := SubPathMount(podDir, other, rest);
    assert mount == base + (other + "/" + rest);
    var tail := other + "/" + rest;
    assert tail[|other|] == '/';
    if HasPrefix(other, pv) {
      assert tail[..|pv|] == other[..|pv|];
      assert mount[..|base + pv|] == base + pv;
    }
    if HasPrefix(mount, base + pv) {
      assert forall k | 0 <= k < |pv| :: tail[k] == mount[|base| + k] == mount[..|base + pv|][|base| + k] == pv[k];
      assert |pv| <= |other|;
      assert other[..|pv|] == pv;
    }
  }
}
