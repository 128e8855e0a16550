/**
The volumes of a mount pod. Five loops and a few branches append volumes and mounts whose names are
printed from families and counters; a pod is only valid if the names of its volumes differ and every
mount names a volume.
*/
module PodVolumes {
  import opened Wrappers
  import opened Strings

  // ---------- names ----------

  function Digit(d: nat): char
    requires d < 10
  {
    "0123456789"[d]
  }

  /** The decimal form of a number. */
  function Decimal(n: nat): string {
    if n < 10 then [Digit(n)] else Decimal(n / 10) + [Digit(n % 10)]
  }

  /** The families of volume names; the counter is what the name prints. */
  datatype Tag =
    | RsaKey
    | InitConfig
    | Config(n: nat)
    | ConfigVolume
    | DfsDir
    | FuseFd
    | UpdateDB
    | CacheDir(n: nat)
    | CachePvc(n: nat)
    | CacheEmptyDir
    | CacheInline(n: nat)
    | HostPathDir(n: nat)

  function Print(t: Tag): string {
    match t
    case RsaKey => "rsa-key"
    case InitConfig => "init-config"
    case Config(n) => "config-" + Decimal(n)
    case ConfigVolume => "config-volume"
    case DfsDir => "dfs-dir"
    case FuseFd => "dfs-fuse-fd"
    case UpdateDB => "updatedb"
    case CacheDir(n) => "cachedir-" + Decimal(n)
    case CachePvc(n) => "cachedir-pvc-" + Decimal(n)
    case CacheEmptyDir => "cachedir-empty-dir"
    case CacheInline(n) => "cachedir-inline-volume-" + Decimal(n)
    case HostPathDir(n) => "hostpath-" + Decimal(n)
  }

  const DISK := "dingofs-disk"

  /** The place of a family in the pod; disks of the CSI pod come first. */
  function Kind(t: Tag): nat {
    match t
    case RsaKey => 1
    case InitConfig => 2
    case Config(_) => 3
    case ConfigVolume => 4
    case DfsDir => 5
    case FuseFd => 6
    case UpdateDB => 7
    case CacheDir(_) => 8
    case CachePvc(_) => 9
    case CacheEmptyDir => 10
    case CacheInline(_) => 11
    case HostPathDir(_) => 12
  }

  function Counter(t: Tag): nat {
    match t
    case Config(n) => n
    case CacheDir(n) => n
    case CachePvc(n) => n
    case CacheInline(n) => n
    case HostPathDir(n) => n
    case _ => 0
  }

  /** Reads the family off a name. */
  function KindOfName(s: string): nat {
    if |s| < 7 then 0
    else if s[0] == 'r' then 1
    else if s[0] == 'i' then 2
    else if s[0] == 'u' then 7
    else if s[0] == 'h' then 12
    else if s[0] == 'd' then
      if s[1] == 'i' then 0 else if s[4] == 'd' then 5 else 6
    else if s[1] == 'o' then
      if |s| > 7 && s[7] == 'v' then 4 else 3
    else if |s| < 10 then 0
    else if s[9] == 'p' then 9
    else if s[9] == 'e' then 10
    else if s[9] == 'i' then 11
    else 8
  }

  lemma {:induction false} DecimalDigits(n: nat)
    ensures Decimal(n) != [] && Decimal(n)[0] in "0123456789" && (n > 0 ==> Decimal(n)[0] != '0')
    decreases n
  {
    if n >= 10 {
      DecimalDigits(n / 10);
    }
  }

  lemma DigitInjective(a: nat, b: nat)
    requires a < 10 && b < 10 && Digit(a) == Digit(b)
    ensures a == b
  {
  }

  /** Different numbers print differently. */
  lemma {:induction false} DecimalInjective(a: nat, b: nat)
    requires Decimal(a) == Decimal(b)
    ensures a == b
    decreases a
  {
    var s := Decimal(a);
    if a < 10 && b < 10 {
      DigitInjective(a, b);
    } else if a >= 10 && b >= 10 {
      assert s[..|s| - 1] == Decimal(a / 10) && s[..|s| - 1] == Decimal(b / 10);
      assert s[|s| - 1] == Digit(a % 10) && s[|s| - 1] == Digit(b % 10);
      DecimalInjective(a / 10, b / 10);
      DigitInjective(a % 10, b % 10);
    } else {
      DecimalDigits(a / 10);
      DecimalDigits(b / 10);
    }
  }

  lemma KindCounted(p: string, d: string)
    requires d != [] && d[0] in "0123456789"
    ensures p == "config-" ==> KindOfName(p + d) == 3
    ensures p == "cachedir-" ==> KindOfName(p + d) == 8
  {
  }

  lemma KindOfPrefix(p: string, d: string)
    requires |p| >= 7 && (p[0] == 'h' || (|p| >= 10 && p[0] == 'c' && p[1] == 'a'))
    ensures KindOfName(p + d) == KindOfName(p)
  {
  }

  /** The number that a text of digits stands for. */
  function Value(s: string): int {
    if s == [] then 0 else 10 * Value(s[..|s| - 1]) + (s[|s| - 1] as int - '0' as int)
  }

  lemma DigitValue(d: nat)
    requires d < 10
    ensures Digit(d) as int - '0' as int == d
  {
    var s := "0123456789";
    assert s[0] == '0' && s[1] == '1' && s[2] == '2' && s[3] == '3' && s[4] == '4';
    assert s[5] == '5' && s[6] == '6' && s[7] == '7' && s[8] == '8' && s[9] == '9';
  }

  /** The decimal form reads back as the number. */
  lemma {:induction false} DecimalReadsBack(n: nat)
    ensures Value(Decimal(n)) == n
  {
    if n < 10 {
      DigitValue(n);
      assert [Digit(n)][..0] == [];
      assert Value([Digit(n)]) == 10 * Value([]) + n;
    } else {
      DecimalReadsBack(n / 10);
      DigitValue(n % 10);
      var s := Decimal(n);
      assert s[..|s| - 1] == Decimal(n / 10);
    }
  }

  /** A printed name shows its family. */
  lemma KindPrinted(t: Tag)
    ensures KindOfName(Print(t)) == Kind(t)
  {
    DecimalDigits(Counter(t));
    match t
    case Config(n) => KindCounted("config-", Decimal(n));
    case CacheDir(n) => KindCounted("cachedir-", Decimal(n));
    case CachePvc(n) => KindOfPrefix("cachedir-pvc-", Decimal(n));
    case CacheInline(n) => KindOfPrefix("cachedir-inline-volume-", Decimal(n));
    case HostPathDir(n) => KindOfPrefix("hostpath-", Decimal(n));
    case _ => KindFixed(t);
  }

  lemma KindFixed(t: Tag)
    requires Prefix(t) == ""
    ensures KindOfName(Print(t)) == Kind(t)
  {
  }

  lemma KindOfDisk(s: string)
    requires HasPrefix(s, DISK)
    ensures KindOfName(s) == 0
  {
  }

  function Prefix(t: Tag): string {
    match t
    case Config(_) => "config-"
    case CacheDir(_) => "cachedir-"
    case CachePvc(_) => "cachedir-pvc-"
    case CacheInline(_) => "cachedir-inline-volume-"
    case HostPathDir(_) => "hostpath-"
    case _ => ""
  }

  /** Printing is injective over all families and counters. */
  lemma PrintInjective(t: Tag, u: Tag)
    requires Print(t) == Print(u)
    ensures t == u
  {
    KindPrinted(t);
    KindPrinted(u);
    if Prefix(t) != "" {
      assert Print(t)[|Prefix(t)|..] == Decimal(Counter(t));
      assert Print(u)[|Prefix(t)|..] == Decimal(Counter(u));
      DecimalInjective(Counter(t), Counter(u));
    }
  }

  // ---------- the setting and the pod ----------

  datatype Source =
    | HostPath(path: string)
    | SecretSource(secret: string)
    | ConfigMapSource(configMap: string)
    | Claim(claim: string)
    | EmptyDir(medium: string)
    | Inline(csi: string)
    | Disk(device: string)

  datatype Volume = Volume(name: string, source: Source)

  datatype Mount = Mount(name: string, path: string)

  datatype Cache = Cache(ref: string, path: string)

  /** What the builder reads; `configs` is the map of configurations in the order of its iteration. */
  datatype Setting = Setting(
    secretName: string,
    encryptRsaKey: string,
    initConfig: string,
    configs: seq<Cache>,
    hashVal: string,
    cacheDirs: seq<string>,
    cachePVCs: seq<Cache>,
    cacheEmptyDir: Option<Cache>,
    cacheInlineVolumes: seq<Cache>,
    hostPaths: seq<string>,
    volumes: seq<Volume>,
    volumeMounts: seq<Mount>)

  datatype Csi = Csi(volumes: seq<Volume>, mounts: seq<Mount>)

  /** A volume with its mount. */
  datatype Entry = Entry(tag: Tag, source: Source, path: string)

  function VolumesOf(es: seq<Entry>): seq<Volume> {
    seq(|es|, i requires 0 <= i < |es| => Volume(Print(es[i].tag), es[i].source))
  }

  function MountsOf(es: seq<Entry>): seq<Mount> {
    seq(|es|, i requires 0 <= i < |es| => Mount(Print(es[i].tag), es[i].path))
  }

  lemma OfAppend(a: seq<Entry>, b: seq<Entry>)
    ensures VolumesOf(a + b) == VolumesOf(a) + VolumesOf(b)
    ensures MountsOf(a + b) == MountsOf(a) + MountsOf(b)
  {
  }

  // ---------- what each part of the builder adds ----------

  function When(c: bool, e: Entry): seq<Entry> {
    if c then [e] else []
  }

  function ConfigEntries(configs: seq<Cache>): seq<Entry> {
    seq(|configs|, i requires 0 <= i < |configs| => Entry(Config(i + 1), SecretSource(configs[i].ref), configs[i].path))
  }

  function CacheDirEntries(dirs: seq<string>): seq<Entry> {
    seq(|dirs|, i requires 0 <= i < |dirs| => Entry(CacheDir(i), HostPath(dirs[i]), dirs[i]))
  }

  function CachePvcEntries(pvcs: seq<Cache>): seq<Entry> {
    seq(|pvcs|, i requires 0 <= i < |pvcs| => Entry(CachePvc(i), Claim(pvcs[i].ref), pvcs[i].path))
  }

  function CacheInlineEntries(vs: seq<Cache>): seq<Entry> {
    seq(|vs|, i requires 0 <= i < |vs| => Entry(CacheInline(i), Inline(vs[i].ref), vs[i].path))
  }

  function HostPathEntries(paths: seq<string>): seq<Entry> {
    seq(|paths|, i requires 0 <= i < |paths| => Entry(HostPathDir(i), HostPath(paths[i]), paths[i]))
  }

  function SecretEntries(s: Setting): seq<Entry> {
    When(s.encryptRsaKey != "", Entry(RsaKey, SecretSource(s.secretName), "/root/.rsa"))
    + When(s.initConfig != "", Entry(InitConfig, SecretSource(s.secretName), "/etc/dingofs"))
  }

  function DfsEntries(s: Setting): seq<Entry> {
    SecretEntries(s) + ConfigEntries(s.configs)
  }

  const FUSE_CONFIG := Entry(ConfigVolume, ConfigMapSource("dingo-fuse-config"), "/scripts")

  function PodEntries(s: Setting, immutable: bool, mountPoint: string): seq<Entry> {
    [Entry(DfsDir, HostPath(mountPoint), "/dfs"), Entry(FuseFd, HostPath("/var/run/dingofs-csi/" + s.hashVal), "/tmp")]
    + When(!immutable, Entry(UpdateDB, HostPath("/etc/updatedb.conf"), "/etc/updatedb.conf"))
  }

  function EmptyDirEntries(dir: Option<Cache>): seq<Entry> {
    match dir
    case Some(c) => [Entry(CacheEmptyDir, EmptyDir(c.ref), c.path)]
    case None => []
  }

  function CacheEntries(s: Setting): seq<Entry> {
    CacheDirEntries(s.cacheDirs) + CachePvcEntries(s.cachePVCs) + EmptyDirEntries(s.cacheEmptyDir) + CacheInlineEntries(s.cacheInlineVolumes)
  }

  function AllEntries(s: Setting, immutable: bool, mountPoint: string): seq<Entry> {
    DfsEntries(s) + [FUSE_CONFIG] + PodEntries(s, immutable, mountPoint) + CacheEntries(s) + HostPathEntries(s.hostPaths)
  }

  // ---------- order ----------

  predicate Less(a: Tag, b: Tag) {
    Kind(a) < Kind(b) || (Kind(a) == Kind(b) && Counter(a) < Counter(b))
  }

  predicate Increasing(es: seq<Entry>) {
    forall i, j | 0 <= i < j < |es| :: Less(es[i].tag, es[j].tag)
  }

  predicate Within(es: seq<Entry>, lo: nat, hi: nat) {
    forall i | 0 <= i < |es| :: lo <= Kind(es[i].tag) <= hi
  }

  lemma Chain(a: seq<Entry>, b: seq<Entry>, lo: nat, mid: nat, next: nat, hi: nat)
    requires Increasing(a) && Increasing(b) && Within(a, lo, mid) && Within(b, next, hi) && lo <= mid < next <= hi
    ensures Increasing(a + b) && Within(a + b, lo, hi)
  {
  }

  lemma DfsIncreasing(s: Setting)
    ensures Increasing(DfsEntries(s)) && Within(DfsEntries(s), 1, 3)
  {
  }

  lemma CacheIncreasing(s: Setting)
    ensures Increasing(CacheEntries(s)) && Within(CacheEntries(s), 8, 11)
  {
    var a, b := CacheDirEntries(s.cacheDirs), CachePvcEntries(s.cachePVCs);
    var c, d := EmptyDirEntries(s.cacheEmptyDir), CacheInlineEntries(s.cacheInlineVolumes);
    Chain(a, b, 8, 8, 9, 9);
    Chain(a + b, c, 8, 9, 10, 10);
    Chain(a + b + c, d, 8, 10, 11, 11);
  }

  lemma FrontIncreasing(s: Setting, immutable: bool, mountPoint: string)
    ensures var front := DfsEntries(s) + [FUSE_CONFIG] + PodEntries(s, immutable, mountPoint);
            Increasing(front) && Within(front, 1, 7)
  {
    DfsIncreasing(s);
    PodIncreasing(s, immutable, mountPoint);
    Chain(DfsEntries(s), [FUSE_CONFIG], 1, 3, 4, 4);
    Chain(DfsEntries(s) + [FUSE_CONFIG], PodEntries(s, immutable, mountPoint), 1, 4, 5, 7);
  }

  lemma PodIncreasing(s: Setting, immutable: bool, mountPoint: string)
    ensures Increasing(PodEntries(s, immutable, mountPoint)) && Within(PodEntries(s, immutable, mountPoint), 5, 7)
  {
  }

  /** The parts follow one another in the order of the families, each with its counter rising. */
  lemma AllIncreasing(s: Setting, immutable: bool, mountPoint: string)
    ensures Increasing(AllEntries(s, immutable, mountPoint)) && Within(AllEntries(s, immutable, mountPoint), 1, 12)
  {
    var front := DfsEntries(s) + [FUSE_CONFIG] + PodEntries(s, immutable, mountPoint);
    FrontIncreasing(s, immutable, mountPoint);
    CacheIncreasing(s);
    Chain(front, CacheEntries(s), 1, 7, 8, 11);
    Chain(front + CacheEntries(s), HostPathEntries(s.hostPaths), 1, 11, 12, 12);
  }

  // ---------- distinct names, mounts with a volume ----------

  predicate DistinctNames(vs: seq<Volume>) {
    forall i, j | 0 <= i < j < |vs| :: vs[i].name != vs[j].name
  }

  predicate Named(vs: seq<Volume>, name: string) {
    exists i | 0 <= i < |vs| :: vs[i].name == name
  }

  predicate AllNamed(ms: seq<Mount>, vs: seq<Volume>) {
    forall i | 0 <= i < |ms| :: Named(vs, ms[i].name)
  }

  /** A valid CSI pod. */
  predicate WellFormed(csi: Csi) {
    DistinctNames(csi.volumes) && AllNamed(csi.mounts, csi.volumes)
  }

  function DiskVolumes(vs: seq<Volume>): seq<Volume> {
    if vs == [] then []
    else
      var rest := DiskVolumes(vs[..|vs| - 1]);
      if HasPrefix(vs[|vs| - 1].name, DISK) then rest + [vs[|vs| - 1]] else rest
  }

  function DiskMounts(ms: seq<Mount>): seq<Mount> {
    if ms == [] then []
    else
      var rest := DiskMounts(ms[..|ms| - 1]);
      if HasPrefix(ms[|ms| - 1].name, DISK) then rest + [ms[|ms| - 1]] else rest
  }

  function PodVolumes(csi: Csi, s: Setting, immutable: bool, mountPoint: string): seq<Volume> {
    DiskVolumes(csi.volumes) + VolumesOf(AllEntries(s, immutable, mountPoint))
  }

  function PodMounts(csi: Csi, s: Setting, immutable: bool, mountPoint: string): seq<Mount> {
    DiskMounts(csi.mounts) + MountsOf(AllEntries(s, immutable, mountPoint))
  }

  lemma {:induction false} DisksOf(vs: seq<Volume>, name: string)
    ensures Named(DiskVolumes(vs), name) <==> Named(vs, name) && HasPrefix(name, DISK)
    ensures DistinctNames(vs) ==> DistinctNames(DiskVolumes(vs))
    decreases |vs|
  {
    if vs != [] {
      var init, v := vs[..|vs| - 1], vs[|vs| - 1];
      DisksOf(init, name);
      DisksOf(init, v.name);
      NamedSnoc(init, v, name);
      NamedSnoc(DiskVolumes(init), v, name);
      assert vs == init + [v];
      if DistinctNames(vs) && HasPrefix(v.name, DISK) {
        assert !Named(init, v.name);
        DistinctSnoc(DiskVolumes(init), v);
      }
    }
  }

  lemma NamedSnoc(vs: seq<Volume>, v: Volume, name: string)
    ensures Named(vs + [v], name) <==> Named(vs, name) || v.name == name
  {
    NamedAppend(vs, [v], name);
    if v.name == name {
      assert [v][0].name == name;
    }
  }

  lemma NamedAppend(a: seq<Volume>, b: seq<Volume>, name: string)
    ensures Named(a + b, name) <==> Named(a, name) || Named(b, name)
  {
    var all := a + b;
    if Named(a, name) {
      var i :| 0 <= i < |a| && a[i].name == name;
      assert all[i].name == name;
    }
    if Named(b, name) {
      var i :| 0 <= i < |b| && b[i].name == name;
      assert all[|a| + i].name == name;
    }
  }

  lemma DistinctSnoc(vs: seq<Volume>, v: Volume)
    requires DistinctNames(vs) && !Named(vs, v.name)
    ensures DistinctNames(vs + [v])
  {
  }

  predicate Apart(a: seq<Volume>, b: seq<Volume>) {
    forall i, j | 0 <= i < |a| && 0 <= j < |b| :: a[i].name != b[j].name
  }

  lemma DistinctAppend(a: seq<Volume>, b: seq<Volume>)
    ensures DistinctNames(a + b) <==> DistinctNames(a) && DistinctNames(b) && Apart(a, b)
  {
    var all := a + b;
    if DistinctNames(all) {
      forall i, j | 0 <= i < j < |a|
        ensures a[i].name != a[j].name
      {
        assert all[i].name != all[j].name;
      }
      forall i, j | 0 <= i < j < |b|
        ensures b[i].name != b[j].name
      {
        assert all[|a| + i].name != all[|a| + j].name;
      }
      forall i, j | 0 <= i < |a| && 0 <= j < |b|
        ensures a[i].name != b[j].name
      {
        assert all[i].name != all[|a| + j].name;
      }
    }
  }

  lemma {:induction false} DiskAt(vs: seq<Volume>, i: nat)
    requires i < |DiskVolumes(vs)|
    ensures HasPrefix(DiskVolumes(vs)[i].name, DISK)
    decreases |vs|
  {
    var init := vs[..|vs| - 1];
    if i < |DiskVolumes(init)| {
      DiskAt(init, i);
    }
  }

  lemma {:induction false} DiskMountAt(ms: seq<Mount>, i: nat)
    requires i < |DiskMounts(ms)|
    ensures DiskMounts(ms)[i] in ms && HasPrefix(DiskMounts(ms)[i].name, DISK)
    decreases |ms|
  {
    var init := ms[..|ms| - 1];
    if i < |DiskMounts(init)| {
      DiskMountAt(init, i);
    }
  }

  lemma EntriesDistinct(es: seq<Entry>)
    requires Increasing(es)
    ensures DistinctNames(VolumesOf(es)) && AllNamed(MountsOf(es), VolumesOf(es))
  {
    forall i, j | 0 <= i < j < |es|
      ensures Print(es[i].tag) != Print(es[j].tag)
    {
      assert Less(es[i].tag, es[j].tag);
      if Print(es[i].tag) == Print(es[j].tag) {
        PrintInjective(es[i].tag, es[j].tag);
      }
    }
    forall i | 0 <= i < |es|
      ensures Named(VolumesOf(es), MountsOf(es)[i].name)
    {
      assert VolumesOf(es)[i].name == MountsOf(es)[i].name;
    }
  }

  lemma DisksApart(vs: seq<Volume>, es: seq<Entry>)
    requires Within(es, 1, 12)
    ensures Apart(DiskVolumes(vs), VolumesOf(es))
  {
    forall i, j | 0 <= i < |DiskVolumes(vs)| && 0 <= j < |es|
      ensures DiskVolumes(vs)[i].name != Print(es[j].tag)
    {
      DiskAt(vs, i);
      KindOfDisk(DiskVolumes(vs)[i].name);
      KindPrinted(es[j].tag);
    }
  }

  lemma DisksNamed(csi: Csi)
    requires WellFormed(csi)
    ensures AllNamed(DiskMounts(csi.mounts), DiskVolumes(csi.volumes))
  {
    forall i | 0 <= i < |DiskMounts(csi.mounts)|
      ensures Named(DiskVolumes(csi.volumes), DiskMounts(csi.mounts)[i].name)
    {
      DiskMountAt(csi.mounts, i);
      DisksOf(csi.volumes, DiskMounts(csi.mounts)[i].name);
    }
  }

  lemma NamedMore(ms: seq<Mount>, ns: seq<Mount>, a: seq<Volume>, b: seq<Volume>)
    requires AllNamed(ms, a) && AllNamed(ns, b)
    ensures AllNamed(ms + ns, a + b)
  {
    var all := ms + ns;
    forall i | 0 <= i < |all|
      ensures Named(a + b, all[i].name)
    {
      NamedAppend(a, b, all[i].name);
      assert all[i] == if i < |ms| then ms[i] else ns[i - |ms|];
    }
  }

  /** For every setting: the volumes of the pod have different names, and every mount names one of them. */
  lemma PodIsWellFormed(csi: Csi, s: Setting, immutable: bool, mountPoint: string)
    requires WellFormed(csi)
    ensures WellFormed(Csi(PodVolumes(csi, s, immutable, mountPoint), PodMounts(csi, s, immutable, mountPoint)))
  {
    var es := AllEntries(s, immutable, mountPoint);
    AllIncreasing(s, immutable, mountPoint);
    EntriesDistinct(es);
    DisksApart(csi.volumes, es);
    DisksOf(csi.volumes, "");
    DisksNamed(csi);
    DistinctAppend(DiskVolumes(csi.volumes), VolumesOf(es));
    NamedMore(DiskMounts(csi.mounts), MountsOf(es), DiskVolumes(csi.volumes), VolumesOf(es));
  }

  /** With custom volumes: exactly when these differ among themselves and from the builder's own. */
  lemma CustomVolumesIff(csi: Csi, s: Setting, immutable: bool, mountPoint: string)
    requires WellFormed(csi)
    ensures var own := PodVolumes(csi, s, immutable, mountPoint);
            DistinctNames(own + s.volumes) <==> DistinctNames(s.volumes) && Apart(own, s.volumes)
  {
    PodIsWellFormed(csi, s, immutable, mountPoint);
    DistinctAppend(PodVolumes(csi, s, immutable, mountPoint), s.volumes);
  }

  function SourceOf(vs: seq<Volume>, name: string): Option<Source> {
    if vs == [] then None
    else if vs[0].name == name then Some(vs[0].source) else SourceOf(vs[1..], name)
  }

  lemma {:induction false} SourceFound(vs: seq<Volume>, i: nat)
    requires DistinctNames(vs) && i < |vs|
    ensures SourceOf(vs, vs[i].name) == Some(vs[i].source)
    decreases |vs|
  {
    if i > 0 {
      assert vs[0].name != vs[i].name;
      SourceFound(vs[1..], i - 1);
    }
  }

  /** Looking a mount up by its name finds the source it was made for: no family shadows another. */
  lemma MountFindsItsSource(csi: Csi, s: Setting, immutable: bool, mountPoint: string, i: nat)
    requires WellFormed(csi) && i < |AllEntries(s, immutable, mountPoint)|
    ensures var e := AllEntries(s, immutable, mountPoint)[i];
            && Mount(Print(e.tag), e.path) in PodMounts(csi, s, immutable, mountPoint)
            && SourceOf(PodVolumes(csi, s, immutable, mountPoint), Print(e.tag)) == Some(e.source)
  {
    PodIsWellFormed(csi, s, immutable, mountPoint);
    FindsIn(DiskVolumes(csi.volumes), DiskMounts(csi.mounts), AllEntries(s, immutable, mountPoint), i);
  }

  lemma FindsIn(vs: seq<Volume>, ms: seq<Mount>, es: seq<Entry>, i: nat)
    requires i < |es| && DistinctNames(vs + VolumesOf(es))
    ensures Mount(Print(es[i].tag), es[i].path) in ms + MountsOf(es)
    ensures SourceOf(vs + VolumesOf(es), Print(es[i].tag)) == Some(es[i].source)
  {
    var all := vs + VolumesOf(es);
    assert all[|vs| + i] == Volume(Print(es[i].tag), es[i].source);
    SourceFound(all, |vs| + i);
    assert (ms + MountsOf(es))[|ms| + i] == Mount(Print(es[i].tag), es[i].path);
  }

  // ---------- what is mounted where ----------

  /** The pod mounts volume `name` at `path`, and looking the name up finds `source`. */
  predicate Provides(vs: seq<Volume>, ms: seq<Mount>, name: string, source: Source, path: string) {
    Mount(name, path) in ms && SourceOf(vs, name) == Some(source)
  }

  predicate ProvidesAll(vs: seq<Volume>, ms: seq<Mount>, es: seq<Entry>) {
    forall e | e in es :: Provides(vs, ms, Print(e.tag), e.source, e.path)
  }

  lemma AllProvided(csi: Csi, s: Setting, immutable: bool, mountPoint: string)
    requires WellFormed(csi)
    ensures ProvidesAll(PodVolumes(csi, s, immutable, mountPoint), PodMounts(csi, s, immutable, mountPoint), AllEntries(s, immutable, mountPoint))
  {
    var es := AllEntries(s, immutable, mountPoint);
    forall e | e in es
      ensures Provides(PodVolumes(csi, s, immutable, mountPoint), PodMounts(csi, s, immutable, mountPoint), Print(e.tag), e.source, e.path)
    {
      var i :| 0 <= i < |es| && es[i] == e;
      MountFindsItsSource(csi, s, immutable, mountPoint, i);
    }
  }

  /** What holds of all entries holds of each part. */
  lemma PartsProvided(vs: seq<Volume>, ms: seq<Mount>, a: seq<Entry>, b: seq<Entry>, c: seq<Entry>, d: seq<Entry>, e: seq<Entry>)
    requires ProvidesAll(vs, ms, a + b + c + d + e)
    ensures ProvidesAll(vs, ms, a) && ProvidesAll(vs, ms, b) && ProvidesAll(vs, ms, c) && ProvidesAll(vs, ms, d) && ProvidesAll(vs, ms, e)
  {
  }

  lemma SettingProvided(csi: Csi, s: Setting, immutable: bool, mountPoint: string)
    requires WellFormed(csi)
    ensures var vs, ms := PodVolumes(csi, s, immutable, mountPoint), PodMounts(csi, s, immutable, mountPoint);
            && ProvidesAll(vs, ms, DfsEntries(s)) && ProvidesAll(vs, ms, [FUSE_CONFIG]) && ProvidesAll(vs, ms, PodEntries(s, immutable, mountPoint))
            && ProvidesAll(vs, ms, CacheEntries(s)) && ProvidesAll(vs, ms, HostPathEntries(s.hostPaths))
  {
    AllProvided(csi, s, immutable, mountPoint);
    PartsProvided(PodVolumes(csi, s, immutable, mountPoint), PodMounts(csi, s, immutable, mountPoint),
                  DfsEntries(s), [FUSE_CONFIG], PodEntries(s, immutable, mountPoint), CacheEntries(s), HostPathEntries(s.hostPaths));
  }

  /** The fixed volumes: mount point, descriptor socket, scripts, and updatedb unless the node is immutable. */
  predicate FixedMounted(vs: seq<Volume>, ms: seq<Mount>, s: Setting, immutable: bool, mountPoint: string) {
    && Provides(vs, ms, "dfs-dir", HostPath(mountPoint), "/dfs")
    && Provides(vs, ms, "dfs-fuse-fd", HostPath("/var/run/dingofs-csi/" + s.hashVal), "/tmp")
    && Provides(vs, ms, "config-volume", ConfigMapSource("dingo-fuse-config"), "/scripts")
    && (!immutable ==> Provides(vs, ms, "updatedb", HostPath("/etc/updatedb.conf"), "/etc/updatedb.conf"))
  }

  lemma FixedFrom(vs: seq<Volume>, ms: seq<Mount>, s: Setting, immutable: bool, mountPoint: string)
    requires ProvidesAll(vs, ms, [FUSE_CONFIG]) && ProvidesAll(vs, ms, PodEntries(s, immutable, mountPoint))
    ensures FixedMounted(vs, ms, s, immutable, mountPoint)
  {
    var es := PodEntries(s, immutable, mountPoint);
    assert FUSE_CONFIG in [FUSE_CONFIG];
    assert es[0] in es && es[1] in es;
    assert !immutable ==> es[2] in es;
  }

  /** Secrets and configurations of the setting are mounted where it says. */
  predicate ConfigsMounted(vs: seq<Volume>, ms: seq<Mount>, s: Setting) {
    && (s.encryptRsaKey != "" ==> Provides(vs, ms, "rsa-key", SecretSource(s.secretName), "/root/.rsa"))
    && (s.initConfig != "" ==> Provides(vs, ms, "init-config", SecretSource(s.secretName), "/etc/dingofs"))
    && (forall i | 0 <= i < |s.configs| ::
          Provides(vs, ms, "config-" + Decimal(i + 1), SecretSource(s.configs[i].ref), s.configs[i].path))
  }

  lemma ConfigsFrom(vs: seq<Volume>, ms: seq<Mount>, s: Setting)
    requires ProvidesAll(vs, ms, DfsEntries(s))
    ensures ConfigsMounted(vs, ms, s)
  {
    var es := DfsEntries(s);
    assert s.encryptRsaKey != "" ==> es[0] in es;
    assert s.initConfig != "" ==> es[|SecretEntries(s)| - 1] in es;
    forall i | 0 <= i < |s.configs|
      ensures Provides(vs, ms, "config-" + Decimal(i + 1), SecretSource(s.configs[i].ref), s.configs[i].path)
    {
      assert ConfigEntries(s.configs)[i] in es by {
        assert es[|SecretEntries(s)| + i] == ConfigEntries(s.configs)[i];
      }
    }
  }

  /** So are its caches, in four families, and its host paths. */
  predicate CachesMounted(vs: seq<Volume>, ms: seq<Mount>, s: Setting) {
    && (forall i | 0 <= i < |s.cacheDirs| :: Provides(vs, ms, "cachedir-" + Decimal(i), HostPath(s.cacheDirs[i]), s.cacheDirs[i]))
    && (forall i | 0 <= i < |s.cachePVCs| ::
          Provides(vs, ms, "cachedir-pvc-" + Decimal(i), Claim(s.cachePVCs[i].ref), s.cachePVCs[i].path))
    && (s.cacheEmptyDir.Some? ==> Provides(vs, ms, "cachedir-empty-dir", EmptyDir(s.cacheEmptyDir.value.ref), s.cacheEmptyDir.value.path))
    && (forall i | 0 <= i < |s.cacheInlineVolumes| ::
          Provides(vs, ms, "cachedir-inline-volume-" + Decimal(i), Inline(s.cacheInlineVolumes[i].ref), s.cacheInlineVolumes[i].path))
    && (forall i | 0 <= i < |s.hostPaths| :: Provides(vs, ms, "hostpath-" + Decimal(i), HostPath(s.hostPaths[i]), s.hostPaths[i]))
  }

  lemma ProvidedAt(vs: seq<Volume>, ms: seq<Mount>, es: seq<Entry>, i: nat)
    requires ProvidesAll(vs, ms, es) && i < |es|
    ensures Provides(vs, ms, Print(es[i].tag), es[i].source, es[i].path)
  {
  }

  lemma CachesFrom(vs: seq<Volume>, ms: seq<Mount>, s: Setting)
    requires ProvidesAll(vs, ms, CacheEntries(s)) && ProvidesAll(vs, ms, HostPathEntries(s.hostPaths))
    ensures CachesMounted(vs, ms, s)
  {
    var none: seq<Entry> := [];
    var dirs, pvcs := CacheDirEntries(s.cacheDirs), CachePvcEntries(s.cachePVCs);
    var empty, inline := EmptyDirEntries(s.cacheEmptyDir), CacheInlineEntries(s.cacheInlineVolumes);
    assert dirs + pvcs + empty + inline + none == CacheEntries(s);
    PartsProvided(vs, ms, dirs, pvcs, empty, inline, none);
    forall i | 0 <= i < |s.cacheDirs| ensures Provides(vs, ms, "cachedir-" + Decimal(i), HostPath(s.cacheDirs[i]), s.cacheDirs[i]) {
      ProvidedAt(vs, ms, dirs, i);
    }
    forall i | 0 <= i < |s.cachePVCs| ensures Provides(vs, ms, "cachedir-pvc-" + Decimal(i), Claim(s.cachePVCs[i].ref), s.cachePVCs[i].path) {
      ProvidedAt(vs, ms, pvcs, i);
    }
    if s.cacheEmptyDir.Some? {
      ProvidedAt(vs, ms, empty, 0);
    }
    forall i | 0 <= i < |s.cacheInlineVolumes|
      ensures Provides(vs, ms, "cachedir-inline-volume-" + Decimal(i), Inline(s.cacheInlineVolumes[i].ref), s.cacheInlineVolumes[i].path)
    {
      ProvidedAt(vs, ms, inline, i);
    }
    forall i | 0 <= i < |s.hostPaths| ensures Provides(vs, ms, "hostpath-" + Decimal(i), HostPath(s.hostPaths[i]), s.hostPaths[i]) {
      ProvidedAt(vs, ms, HostPathEntries(s.hostPaths), i);
    }
  }

  /** Everything that the setting names is mounted under its name, from its source, where the setting says. */
  lemma EverythingMounted(csi: Csi, s: Setting, immutable: bool, mountPoint: string)
    requires WellFormed(csi)
    ensures var vs, ms := PodVolumes(csi, s, immutable, mountPoint), PodMounts(csi, s, immutable, mountPoint);
            FixedMounted(vs, ms, s, immutable, mountPoint) && ConfigsMounted(vs, ms, s) && CachesMounted(vs, ms, s)
  {
    var vs, ms := PodVolumes(csi, s, immutable, mountPoint), PodMounts(csi, s, immutable, mountPoint);
    SettingProvided(csi, s, immutable, mountPoint);
    FixedFrom(vs, ms, s, immutable, mountPoint);
    ConfigsFrom(vs, ms, s);
    CachesFrom(vs, ms, s);
  }

  function Bit(c: bool): nat {
    if c then 1 else 0
  }

  /** And nothing else is: so many mounts besides the disks of the CSI pod, which are those named dingofs-disk. */
  lemma NothingElseMounted(csi: Csi, s: Setting, immutable: bool, mountPoint: string, name: string)
    ensures |PodMounts(csi, s, immutable, mountPoint)| == |DiskMounts(csi.mounts)|
              + Bit(s.encryptRsaKey != "") + Bit(s.initConfig != "") + |s.configs| + 3 + Bit(!immutable)
              + |s.cacheDirs| + |s.cachePVCs| + Bit(s.cacheEmptyDir.Some?) + |s.cacheInlineVolumes| + |s.hostPaths|
    ensures Named(DiskVolumes(csi.volumes), name) <==> Named(csi.volumes, name) && HasPrefix(name, "dingofs-disk")
  {
    DisksOf(csi.volumes, name);
  }

  // ---------- the builder ----------

  method GenDfsVolumes(csi: Csi, s: Setting) returns (volumes: seq<Volume>, mounts: seq<Mount>)
    ensures volumes == DiskVolumes(csi.volumes) + VolumesOf(DfsEntries(s))
    ensures mounts == DiskMounts(csi.mounts) + MountsOf(DfsEntries(s))
  {
    volumes, mounts := [], [];
    for i := 0 to |csi.mounts|
      invariant mounts == DiskMounts(csi.mounts[..i])
    {
      assert csi.mounts[..i + 1][..i] == csi.mounts[..i];
      if HasPrefix(csi.mounts[i].name, DISK) {
        mounts := mounts + [csi.mounts[i]];
      }
    }
    assert csi.mounts[..|csi.mounts|] == csi.mounts;
    for i := 0 to |csi.volumes|
      invariant volumes == DiskVolumes(csi.volumes[..i])
    {
      assert csi.volumes[..i + 1][..i] == csi.volumes[..i];
      if HasPrefix(csi.volumes[i].name, DISK) {
        volumes := volumes + [csi.volumes[i]];
      }
    }
    assert csi.volumes[..|csi.volumes|] == csi.volumes;
    var more, moreMounts := GenConfigVolumes(s);
    volumes, mounts := volumes + more, mounts + moreMounts;
  }

  /** The two secrets of _genDfsVolumes ... */
  method GenSecretVolumes(s: Setting) returns (volumes: seq<Volume>, mounts: seq<Mount>)
    ensures volumes == VolumesOf(SecretEntries(s))
    ensures mounts == MountsOf(SecretEntries(s))
  {
    volumes, mounts := [], [];
    if s.encryptRsaKey != "" {
      volumes := volumes + [Volume("rsa-key", SecretSource(s.secretName))];
      mounts := mounts + [Mount("rsa-key", "/root/.rsa")];
    }
    if s.initConfig != "" {
      volumes := volumes + [Volume("init-config", SecretSource(s.secretName))];
      mounts := mounts + [Mount("init-config", "/etc/dingofs")];
    }
  }

  /** ... and its configurations, with the running counter. */
  method GenConfigVolumes(s: Setting) returns (volumes: seq<Volume>, mounts: seq<Mount>)
    ensures volumes == VolumesOf(DfsEntries(s))
    ensures mounts == MountsOf(DfsEntries(s))
  {
    volumes, mounts := GenSecretVolumes(s);
    ghost var before, configs := SecretEntries(s), ConfigEntries(s.configs);
    assert before + configs[..0] == before;
    var i := 1;
    while i <= |s.configs|
      invariant 1 <= i <= |s.configs| + 1
      invariant volumes == VolumesOf(before + configs[..i - 1])
      invariant mounts == MountsOf(before + configs[..i - 1])
    {
      AddEntry(before, configs, i - 1);
      mounts := mounts + [Mount("config-" + Decimal(i), s.configs[i - 1].path)];
      volumes := volumes + [Volume("config-" + Decimal(i), SecretSource(s.configs[i - 1].ref))];
      i := i + 1;
    }
    assert configs[..i - 1] == configs;
  }

  lemma AddEntry(before: seq<Entry>, es: seq<Entry>, i: nat)
    requires i < |es|
    ensures VolumesOf(before + es[..i + 1]) == VolumesOf(before + es[..i]) + [Volume(Print(es[i].tag), es[i].source)]
    ensures MountsOf(before + es[..i + 1]) == MountsOf(before + es[..i]) + [Mount(Print(es[i].tag), es[i].path)]
  {
  }

  method GenCacheDirVolumes(s: Setting) returns (volumes: seq<Volume>, mounts: seq<Mount>)
    ensures volumes == VolumesOf(CacheEntries(s))
    ensures mounts == MountsOf(CacheEntries(s))
  {
    volumes, mounts := GenPersistentVolumes(s);
    var more, moreMounts := GenEphemeralVolumes(s);
    ghost var a, b := CacheDirEntries(s.cacheDirs) + CachePvcEntries(s.cachePVCs), EmptyDirEntries(s.cacheEmptyDir);
    ghost var c := CacheInlineEntries(s.cacheInlineVolumes);
    OfAppend(a, b + c);
    assert a + (b + c) == a + b + c;
    volumes, mounts := volumes + more, mounts + moreMounts;
  }

  /** The host directories and the claims of genCacheDirVolumes. */
  method GenPersistentVolumes(s: Setting) returns (volumes: seq<Volume>, mounts: seq<Mount>)
    ensures volumes == VolumesOf(CacheDirEntries(s.cacheDirs) + CachePvcEntries(s.cachePVCs))
    ensures mounts == MountsOf(CacheDirEntries(s.cacheDirs) + CachePvcEntries(s.cachePVCs))
  {
    volumes, mounts := [], [];
    ghost var dirs, pvcs := CacheDirEntries(s.cacheDirs), CachePvcEntries(s.cachePVCs);
    for i := 0 to |s.cacheDirs|
      invariant volumes == VolumesOf([] + dirs[..i]) && mounts == MountsOf([] + dirs[..i])
    {
      AddEntry([], dirs, i);
      var name := "cachedir-" + Decimal(i);
      volumes := volumes + [Volume(name, HostPath(s.cacheDirs[i]))];
      mounts := mounts + [Mount(name, s.cacheDirs[i])];
    }
    assert [] + dirs[..|dirs|] == dirs && dirs + pvcs[..0] == dirs;
    for i := 0 to |s.cachePVCs|
      invariant volumes == VolumesOf(dirs + pvcs[..i]) && mounts == MountsOf(dirs + pvcs[..i])
    {
      AddEntry(dirs, pvcs, i);
      var name := "cachedir-pvc-" + Decimal(i);
      volumes := volumes + [Volume(name, Claim(s.cachePVCs[i].ref))];
      mounts := mounts + [Mount(name, s.cachePVCs[i].path)];
    }
    assert pvcs[..|pvcs|] == pvcs;
  }

  /** The empty directory and the inline volumes of genCacheDirVolumes. */
  method GenEphemeralVolumes(s: Setting) returns (volumes: seq<Volume>, mounts: seq<Mount>)
    ensures volumes == VolumesOf(EmptyDirEntries(s.cacheEmptyDir) + CacheInlineEntries(s.cacheInlineVolumes))
    ensures mounts == MountsOf(EmptyDirEntries(s.cacheEmptyDir) + CacheInlineEntries(s.cacheInlineVolumes))
  {
    volumes, mounts := [], [];
    ghost var empty, inline := EmptyDirEntries(s.cacheEmptyDir), CacheInlineEntries(s.cacheInlineVolumes);
    if s.cacheEmptyDir.Some? {
      volumes := [Volume("cachedir-empty-dir", EmptyDir(s.cacheEmptyDir.value.ref))];
      mounts := [Mount("cachedir-empty-dir", s.cacheEmptyDir.value.path)];
    }
    assert empty + inline[..0] == empty;
    for i := 0 to |s.cacheInlineVolumes|
      invariant volumes == VolumesOf(empty + inline[..i]) && mounts == MountsOf(empty + inline[..i])
    {
      AddEntry(empty, inline, i);
      var name := "cachedir-inline-volume-" + Decimal(i);
      volumes := volumes + [Volume(name, Inline(s.cacheInlineVolumes[i].ref))];
      mounts := mounts + [Mount(name, s.cacheInlineVolumes[i].path)];
    }
    assert inline[..|inline|] == inline;
  }

  method GenHostPathVolumes(s: Setting) returns (volumes: seq<Volume>, mounts: seq<Mount>)
    ensures volumes == VolumesOf(HostPathEntries(s.hostPaths))
    ensures mounts == MountsOf(HostPathEntries(s.hostPaths))
  {
    volumes, mounts := [], [];
    if |s.hostPaths| == 0 {
      return;
    }
    ghost var paths := HostPathEntries(s.hostPaths);
    for i := 0 to |s.hostPaths|
      invariant volumes == VolumesOf([] + paths[..i]) && mounts == MountsOf([] + paths[..i])
    {
      AddEntry([], paths, i);
      var name := "hostpath-" + Decimal(i);
      volumes := volumes + [Volume(name, HostPath(s.hostPaths[i]))];
      mounts := mounts + [Mount(name, s.hostPaths[i])];
    }
    assert [] + paths[..|paths|] == paths;
  }

  method GenPodVolumes(s: Setting, immutable: bool, mountPoint: string) returns (volumes: seq<Volume>, mounts: seq<Mount>)
    ensures volumes == VolumesOf(PodEntries(s, immutable, mountPoint))
    ensures mounts == MountsOf(PodEntries(s, immutable, mountPoint))
  {
    volumes := [Volume("dfs-dir", HostPath(mountPoint)), Volume("dfs-fuse-fd", HostPath("/var/run/dingofs-csi/" + s.hashVal))];
    mounts := [Mount("dfs-dir", "/dfs"), Mount("dfs-fuse-fd", "/tmp")];
    if !immutable {
      volumes := volumes + [Volume("updatedb", HostPath("/etc/updatedb.conf"))];
      mounts := mounts + [Mount("updatedb", "/etc/updatedb.conf")];
    }
  }

  /** The volume part of a pod under construction. */
  class MountPod {
    var volumes: seq<Volume>
    var mounts: seq<Mount>

    /** genCommonPod */
    constructor (csi: Csi, s: Setting)
      ensures volumes == DiskVolumes(csi.volumes) + VolumesOf(DfsEntries(s))
      ensures mounts == DiskMounts(csi.mounts) + MountsOf(DfsEntries(s))
    {
      var vs, ms := GenDfsVolumes(csi, s);
      volumes, mounts := vs, ms;
    }

    method Append(vs: seq<Volume>, ms: seq<Mount>)
      modifies this
      ensures volumes == old(volumes) + vs && mounts == old(mounts) + ms
    {
      volumes, mounts := volumes + vs, mounts + ms;
    }

    /** The rest of NewMountPod. */
    method Complete(csi: Csi, s: Setting, immutable: bool, mountPoint: string)
      requires volumes == DiskVolumes(csi.volumes) + VolumesOf(DfsEntries(s))
      requires mounts == DiskMounts(csi.mounts) + MountsOf(DfsEntries(s))
      modifies this
      ensures volumes == PodVolumes(csi, s, immutable, mountPoint) + s.volumes
      ensures mounts == PodMounts(csi, s, immutable, mountPoint) + s.volumeMounts
    {
      Append(VolumesOf([FUSE_CONFIG]), MountsOf([FUSE_CONFIG]));
      var vs, ms := GenPodVolumes(s, immutable, mountPoint);
      Append(vs, ms);
      vs, ms := GenCacheDirVolumes(s);
      Append(vs, ms);
      vs, ms := GenHostPathVolumes(s);
      Append(vs, ms);
      Assemble(csi, s, immutable, mountPoint);
      Append(s.volumes, s.volumeMounts);
    }
  }

  lemma Assemble(csi: Csi, s: Setting, immutable: bool, mountPoint: string)
    ensures PodVolumes(csi, s, immutable, mountPoint)
         == DiskVolumes(csi.volumes) + VolumesOf(DfsEntries(s)) + VolumesOf([FUSE_CONFIG]) + VolumesOf(PodEntries(s, immutable, mountPoint))
            + VolumesOf(CacheEntries(s)) + VolumesOf(HostPathEntries(s.hostPaths))
    ensures PodMounts(csi, s, immutable, mountPoint)
         == DiskMounts(csi.mounts) + MountsOf(DfsEntries(s)) + MountsOf([FUSE_CONFIG]) + MountsOf(PodEntries(s, immutable, mountPoint))
            + MountsOf(CacheEntries(s)) + MountsOf(HostPathEntries(s.hostPaths))
  {
    var a, b, c := DfsEntries(s), [FUSE_CONFIG], PodEntries(s, immutable, mountPoint);
    var d, e := CacheEntries(s), HostPathEntries(s.hostPaths);
    FiveParts(a, b, c, d, e);
    Regroup(DiskVolumes(csi.volumes), VolumesOf(a), VolumesOf(b), VolumesOf(c), VolumesOf(d), VolumesOf(e));
    Regroup(DiskMounts(csi.mounts), MountsOf(a), MountsOf(b), MountsOf(c), MountsOf(d), MountsOf(e));
  }

  lemma Regroup<T>(p: seq<T>, a: seq<T>, b: seq<T>, c: seq<T>, d: seq<T>, e: seq<T>)
    ensures p + (a + b + c + d + e) == p + a + b + c + d + e
  {
  }

  lemma FiveParts(a: seq<Entry>, b: seq<Entry>, c: seq<Entry>, d: seq<Entry>, e: seq<Entry>)
    ensures VolumesOf(a + b + c + d + e) == VolumesOf(a) + VolumesOf(b) + VolumesOf(c) + VolumesOf(d) + VolumesOf(e)
    ensures MountsOf(a + b + c + d + e) == MountsOf(a) + MountsOf(b) + MountsOf(c) + MountsOf(d) + MountsOf(e)
  {
    OfAppend(a, b);
    OfAppend(a + b, c);
    OfAppend(a + b + c, d);
    OfAppend(a + b + c + d, e);
  }
}
