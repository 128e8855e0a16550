/**
Dynamic provisioning: Provision creates a directory, may add a finalizer to a secret and saves a
persistent volume; Delete removes the directory and the finalizer after scanning the other volumes
of the storage class. Provision and the save are one step, the calls of Delete are separate steps.
*/
module Provisioner {
  import opened Wrappers

  datatype Secret = Secret(namespace: string, name: string)

  /** A persistent volume; `sc` names its storage class and `attributes` is its volume context. */
  datatype Volume = Volume(
    name: string,
    sc: string,
    reclaimDelete: bool,
    attributes: map<string, string>,
    publishSecret: Secret,
    terminating: bool)

  const FINALIZER := "dingofs.com/finalizer"
  const SECRET_NAME := "csi.storage.k8s.io/provisioner-secret-name"
  const SECRET_NAMESPACE := "csi.storage.k8s.io/provisioner-secret-namespace"
  const PUBLISH_NAME := "csi.storage.k8s.io/node-publish-secret-name"
  const PUBLISH_NAMESPACE := "csi.storage.k8s.io/node-publish-secret-namespace"

  /** Reading a Go map: a missing key reads as the empty text. */
  function Get(m: map<string, string>, k: string): string {
    if k in m then m[k] else ""
  }

  function SubPath(v: Volume): string {
    Get(v.attributes, "subPath")
  }

  function ProvisionSecret(attributes: map<string, string>): Secret {
    Secret(Get(attributes, SECRET_NAMESPACE), Get(attributes, SECRET_NAME))
  }

  function PublishSecret(attributes: map<string, string>): Secret {
    Secret(Get(attributes, PUBLISH_NAMESPACE), Get(attributes, PUBLISH_NAME))
  }

  predicate KeepsFinalizer(v: Volume) {
    v.reclaimDelete && Get(v.attributes, "secretFinalizer") == "true"
  }

  // ---------- the scans ----------

  predicate Other(w: Volume, v: Volume) {
    w.name != v.name && !w.terminating && w.sc == v.sc
  }

  predicate SubPathFree(vols: map<string, Volume>, v: Volume) {
    forall n | n in vols && Other(vols[n], v) :: SubPath(vols[n]) != SubPath(v)
  }

  predicate SecretFree(vols: map<string, Volume>, v: Volume) {
    forall n | n in vols && Other(vols[n], v) :: ProvisionSecret(vols[n].attributes) != ProvisionSecret(v.attributes)
  }

  predicate Lists(pvs: seq<Volume>, vols: map<string, Volume>) {
    && (forall i | 0 <= i < |pvs| :: pvs[i].name in vols && vols[pvs[i].name] == pvs[i])
    && (forall n | n in vols :: vols[n] in pvs && vols[n].name == n)
  }

  function MayDelete(vols: map<string, Volume>, v: Volume): bool {
    Get(v.attributes, "pathPattern") == "" || (v.sc != "" && SubPathFree(vols, v))
  }

  method CheckForSubPath(pvs: seq<Volume>, ghost vols: map<string, Volume>, v: Volume) returns (shouldDelete: bool)
    requires Lists(pvs, vols)
    ensures shouldDelete == MayDelete(vols, v)
    ensures shouldDelete <==>
              || Get(v.attributes, "pathPattern") == ""
              || (v.sc != "" && forall n | n in vols && n != v.name && !vols[n].terminating && vols[n].sc == v.sc :: SubPath(vols[n]) != SubPath(v))
  {
    if Get(v.attributes, "pathPattern") == "" {
      return true;
    }
    if v.sc == "" {
      return false;
    }
    for i := 0 to |pvs|
      invariant forall j | 0 <= j < i :: Other(pvs[j], v) ==> SubPath(pvs[j]) != SubPath(v)
    {
      var pv := pvs[i];
      if pv.name == v.name || pv.terminating || pv.sc != v.sc {
        continue;
      }
      if SubPath(pv) == SubPath(v) {
        return false;
      }
    }
    return true;
  }

  function MayUnfinalize(vols: map<string, Volume>, v: Volume): bool {
    var secret := ProvisionSecret(v.attributes);
    v.sc != "" && secret.namespace != "" && secret.name != "" && SecretFree(vols, v)
  }

  method CheckForSecretFinalizer(pvs: seq<Volume>, ghost vols: map<string, Volume>, v: Volume) returns (shouldRemove: bool)
    requires Lists(pvs, vols)
    ensures shouldRemove == MayUnfinalize(vols, v)
    ensures shouldRemove <==>
              && v.sc != "" && ProvisionSecret(v.attributes).namespace != "" && ProvisionSecret(v.attributes).name != ""
              && forall n | n in vols && n != v.name && !vols[n].terminating && vols[n].sc == v.sc ::
                   ProvisionSecret(vols[n].attributes) != ProvisionSecret(v.attributes)
  {
    var secret := ProvisionSecret(v.attributes);
    if v.sc == "" || secret.namespace == "" || secret.name == "" {
      return false;
    }
    for i := 0 to |pvs|
      invariant forall j | 0 <= j < i :: Other(pvs[j], v) ==> ProvisionSecret(pvs[j].attributes) != secret
    {
      var pv := pvs[i];
      if pv.name == v.name || pv.terminating || pv.sc != v.sc {
        continue;
      }
      if ProvisionSecret(pv.attributes) == secret {
        return false;
      }
    }
    return true;
  }

  // ---------- Provision ----------

  /** One call of Provision: the class, its parameters as written and as resolved for the claim. */
  datatype Request = Request(
    name: string,
    sc: string,
    reclaimDelete: bool,
    raw: map<string, string>,
    params: map<string, string>,
    capacity: string,
    selector: bool,
    readOnly: bool)

  function RequestedPath(r: Request): string {
    if Get(r.params, "pathPattern") != "" then Get(r.params, "pathPattern") else r.name
  }

  function VolumeContext(r: Request): map<string, string> {
    map["subPath" := RequestedPath(r), "capacity" := r.capacity] + r.params
  }

  /** The two loops over the class parameters: resolve each one, then lay them over the context. */
  method BuildContext(name: string, raw: map<string, string>, capacity: string, resolve: (string, string) -> string)
      returns (params: map<string, string>, volCtx: map<string, string>)
    ensures params == map k | k in raw :: resolve(k, raw[k])
    ensures forall sc, del, sel, ro :: volCtx == VolumeContext(Request(name, sc, del, raw, params, capacity, sel, ro))
  {
    params := map[];
    var todo := raw.Keys;
    while todo != {}
      invariant todo <= raw.Keys && params.Keys == raw.Keys - todo
      invariant forall k | k in params :: params[k] == resolve(k, raw[k])
      decreases todo
    {
      var k :| k in todo;
      todo := todo - {k};
      params := params[k := resolve(k, raw[k])];
    }
    var subPath := name;
    if Get(params, "pathPattern") != "" {
      subPath := Get(params, "pathPattern");
    }
    var first := map["subPath" := subPath, "capacity" := capacity];
    volCtx := first;
    todo := params.Keys;
    while todo != {}
      invariant todo <= params.Keys && volCtx.Keys == first.Keys + (params.Keys - todo)
      invariant forall k | k in volCtx :: volCtx[k] == if k in params.Keys - todo then params[k] else first[k]
      decreases todo
    {
      var k :| k in todo;
      todo := todo - {k};
      volCtx := volCtx[k := params[k]];
    }
    assert volCtx == first + params;
  }

  function NewVolume(r: Request): Volume {
    Volume(r.name, r.sc, r.reclaimDelete, VolumeContext(r), PublishSecret(r.params), false)
  }

  predicate Refused(r: Request) {
    r.selector || (r.readOnly && Get(r.raw, "pathPattern") == "")
  }

  // ---------- steps ----------

  datatype Pc =
    | Checking
    | Fetching
    | Removing(finalizers: set<string>)
    | CheckingSecret(finalizers: set<string>)
    | Unfinalizing(finalizers: set<string>)

  datatype Deletion = Deletion(volume: Volume, pc: Pc)

  /** A directory lies in the file system that a secret gives access to. */
  datatype Dir = Dir(secret: Secret, path: string)

  /**
  `used` are the volume names given out so far; `released` those whose directory their own deletion
  has removed. `secrets` holds the finalizers of each secret.
  */
  datatype State = State(
    vols: map<string, Volume>,
    used: set<string>,
    released: set<string>,
    dirs: set<Dir>,
    secrets: map<Secret, set<string>>,
    deletions: map<nat, Deletion>)

  /** A call that fails may fail before or, for the removal of a directory, after its effect. */
  datatype Fault = NoFault | Before | After

  datatype Action =
    | Provision(r: Request, createOk: bool, patchOk: bool)
    | Delete(id: nat, name: string)
    | Step(id: nat, fault: Fault)
    | Terminate(name: string)
    | Forget(name: string)
    | CreateSecret(secret: Secret)
    | DropSecret(secret: Secret)

  function Init(): State {
    State(map[], {}, {}, {}, map[], map[])
  }

  function Finalized(s: State, r: Request, patchOk: bool): map<Secret, set<string>> {
    var secret := ProvisionSecret(r.params);
    if secret in s.secrets && patchOk && r.reclaimDelete && Get(r.raw, "secretFinalizer") == "true"
    then s.secrets[secret := s.secrets[secret] + {FINALIZER}] else s.secrets
  }

  predicate Accepted(s: State, r: Request, createOk: bool) {
    !Refused(r) && r.name !in s.used && ProvisionSecret(r.params) in s.secrets && createOk
  }

  function Provisioned(s: State, r: Request, patchOk: bool): State {
    s.(vols := s.vols[r.name := NewVolume(r)],
       used := s.used + {r.name},
       dirs := s.dirs + {Dir(ProvisionSecret(r.params), RequestedPath(r))},
       secrets := Finalized(s, r, patchOk))
  }

  function DirOf(v: Volume): Dir {
    Dir(v.publishSecret, SubPath(v))
  }

  function GoOn(s: State, id: nat, pc: Pc): State
    requires id in s.deletions
  {
    s.(deletions := s.deletions[id := s.deletions[id].(pc := pc)])
  }

  function Done(s: State, id: nat): State {
    s.(deletions := s.deletions - {id})
  }

  function RemoveDir(s: State, v: Volume): State {
    s.(dirs := s.dirs - {DirOf(v)}, released := s.released + {v.name})
  }

  /** RemoveSecretFinalizer patches the whole list from the secret fetched before. */
  function Unfinalize(s: State, v: Volume, finalizers: set<string>): State {
    if FINALIZER in finalizers && v.publishSecret in s.secrets
    then s.(secrets := s.secrets[v.publishSecret := finalizers - {FINALIZER}]) else s
  }

  function StepDelete(s: State, id: nat, fault: Fault): State
    requires id in s.deletions
  {
    var v := s.deletions[id].volume;
    if fault.Before? then Done(s, id)
    else match s.deletions[id].pc
      case Checking => if MayDelete(s.vols, v) then GoOn(s, id, Fetching) else Done(s, id)
      case Fetching => if v.publishSecret in s.secrets then GoOn(s, id, Removing(s.secrets[v.publishSecret])) else Done(s, id)
      case Removing(f) =>
        if v.name !in s.vols then Done(s, id)
        else if fault.NoFault? && Get(v.attributes, "secretFinalizer") == "true" then RemoveDir(GoOn(s, id, CheckingSecret(f)), v)
        else RemoveDir(Done(s, id), v)
      case CheckingSecret(f) => if MayUnfinalize(s.vols, v) then GoOn(s, id, Unfinalizing(f)) else Done(s, id)
      case Unfinalizing(f) => Unfinalize(Done(s, id), v, f)
  }

  function Next(s: State, a: Action): State {
    match a
    case Provision(r, createOk, patchOk) => if Accepted(s, r, createOk) then Provisioned(s, r, patchOk) else s
    case Delete(id, name) =>
      if name in s.vols && s.vols[name].reclaimDelete && id !in s.deletions
      then s.(deletions := s.deletions[id := Deletion(s.vols[name], Checking)]) else s
    case Step(id, fault) => if id in s.deletions then StepDelete(s, id, fault) else s
    case Terminate(name) => if name in s.vols then s.(vols := s.vols[name := s.vols[name].(terminating := true)]) else s
    case Forget(name) => s.(vols := s.vols - {name})
    case CreateSecret(secret) => if secret in s.secrets then s else s.(secrets := s.secrets[secret := {}])
    case DropSecret(secret) => if secret in s.secrets && s.secrets[secret] == {} then s.(secrets := s.secrets - {secret}) else s
  }

  function Run(run: seq<Action>): State {
    if run == [] then Init() else Next(Run(run[..|run| - 1]), run[|run| - 1])
  }

  /** Every action of the run was taken in a state that permits it. */
  ghost predicate Always(ok: (State, Action) -> bool, run: seq<Action>) {
    run == [] || (Always(ok, run[..|run| - 1]) && ok(Run(run[..|run| - 1]), run[|run| - 1]))
  }

  /** How an installation is laid out: the one storage class of each secret, and which texts are volume names. */
  datatype Layout = Layout(home: Secret -> string, isName: string -> bool)

  predicate PassedCheck(d: Deletion) {
    d.pc.Fetching? || d.pc.Removing?
  }

  // ---------- sub paths ----------

  /** Neither a pattern nor a `subPath` parameter yields a volume name, and no scan has just passed this path. */
  predicate PathProper(env: Layout, s: State, a: Action) {
    a.Provision? && Accepted(s, a.r, a.createOk) ==>
      && env.isName(a.r.name) && !env.isName(Get(a.r.params, "pathPattern")) && !env.isName(Get(a.r.params, "subPath"))
      && (forall id | id in s.deletions && PassedCheck(s.deletions[id]) ::
            !(s.deletions[id].volume.sc == a.r.sc && SubPath(s.deletions[id].volume) == SubPath(NewVolume(a.r))))
  }

  /** Without a pattern, a class parameter `subPath` has taken the place of the volume's own name. */
  predicate Overridden(v: Volume) {
    Get(v.attributes, "pathPattern") == "" && SubPath(v) != v.name
  }

  predicate PathRecorded(env: Layout, v: Volume) {
    env.isName(v.name) && (SubPath(v) == v.name || !env.isName(SubPath(v)))
  }

  ghost predicate PathInv(env: Layout, s: State) {
    && (forall n | n in s.vols :: s.vols[n].name == n && PathRecorded(env, s.vols[n]))
    && (forall id | id in s.deletions ::
          && PathRecorded(env, s.deletions[id].volume)
          && (PassedCheck(s.deletions[id]) && !Overridden(s.deletions[id].volume) ==> SubPathFree(s.vols, s.deletions[id].volume)))
  }

  /** A volume named by itself shares its sub path with no other: its scan may be skipped. */
  lemma PlainIsFree(env: Layout, s: State, v: Volume)
    requires PathInv(env, s) && PathRecorded(env, v) && SubPath(v) == v.name
    ensures SubPathFree(s.vols, v)
  {
  }

  /** The path a volume records: its class's `subPath` if there is one, otherwise the one Provision made. */
  lemma RecordedPath(r: Request)
    ensures SubPath(NewVolume(r)) == if "subPath" in r.params then r.params["subPath"] else RequestedPath(r)
  {
  }

  lemma ProvisionPaths(env: Layout, s: State, a: Action)
    requires PathInv(env, s) && PathProper(env, s, a) && a.Provision? && Accepted(s, a.r, a.createOk)
    ensures PathInv(env, Next(s, a))
  {
    RecordedPath(a.r);
    var s' := Next(s, a);
    assert PathRecorded(env, NewVolume(a.r));
    forall id | id in s'.deletions && PassedCheck(s'.deletions[id]) && !Overridden(s'.deletions[id].volume)
      ensures SubPathFree(s'.vols, s'.deletions[id].volume)
    {
      assert SubPathFree(s.vols, s.deletions[id].volume);
    }
  }

  /** A step ends the deletion or moves it on; volumes stay, and what moved it on held. */
  lemma StepShape(s: State, id: nat, fault: Fault) returns (pc: Option<Pc>)
    requires id in s.deletions
    ensures var s', d := StepDelete(s, id, fault), s.deletions[id];
            && s'.vols == s.vols && s'.used == s.used && s.released <= s'.released
            && s'.deletions == (if pc.Some? then s.deletions[id := d.(pc := pc.value)] else s.deletions - {id})
            && (pc.Some? ==> match pc.value
                  case Checking => false
                  case Fetching => MayDelete(s.vols, d.volume)
                  case Removing(_) => d.pc.Fetching?
                  case CheckingSecret(_) => d.volume.name in s'.released
                  case Unfinalizing(_) => d.pc.CheckingSecret? && MayUnfinalize(s.vols, d.volume))
  {
    var s' := StepDelete(s, id, fault);
    pc := if id in s'.deletions then Some(s'.deletions[id].pc) else None;
  }

  lemma StepPaths(env: Layout, s: State, id: nat, fault: Fault)
    requires PathInv(env, s) && id in s.deletions
    ensures PathInv(env, StepDelete(s, id, fault))
  {
    var v := s.deletions[id].volume;
    if !Overridden(v) && Get(v.attributes, "pathPattern") == "" {
      PlainIsFree(env, s, v);
    }
    var pc := StepShape(s, id, fault);
  }

  /** Volumes only leave the scans. */
  lemma VolumePaths(env: Layout, s: State, vols: map<string, Volume>)
    requires PathInv(env, s)
    requires forall n | n in vols :: n in s.vols && (vols[n] == s.vols[n] || vols[n] == s.vols[n].(terminating := true))
    ensures PathInv(env, s.(vols := vols))
  {
  }

  lemma {:induction false} PathsHold(env: Layout, run: seq<Action>)
    requires Always((s, a) => PathProper(env, s, a), run)
    ensures PathInv(env, Run(run))
    decreases |run|
  {
    if run != [] {
      var s, a := Run(run[..|run| - 1]), run[|run| - 1];
      PathsHold(env, run[..|run| - 1]);
      match a
      case Provision(r, createOk, _) => if Accepted(s, r, createOk) { ProvisionPaths(env, s, a); }
      case Step(id, fault) => if id in s.deletions { StepPaths(env, s, id, fault); }
      case Terminate(_) => VolumePaths(env, s, Next(s, a).vols);
      case Forget(_) => VolumePaths(env, s, Next(s, a).vols);
      case _ =>
    }
  }

  /**
  A removal that is about to happen hits a sub path that another volume of the class has only if the
  class sets `subPath` and the volume has no pattern.
  */
  lemma RemovedOnlyUnshared(env: Layout, run: seq<Action>, id: nat)
    requires Always((s, a) => PathProper(env, s, a), run)
    requires var s := Run(run); id in s.deletions && s.deletions[id].pc.Removing?
    ensures var s := Run(run); SubPathFree(s.vols, s.deletions[id].volume) || Overridden(s.deletions[id].volume)
  {
    PathsHold(env, run);
  }

  // ---------- secrets ----------

  /** One storage class per secret, one secret for both uses, and no scan has just passed this secret. */
  predicate SecretProper(env: Layout, s: State, a: Action) {
    a.Provision? && Accepted(s, a.r, a.createOk) ==>
      && PublishSecret(a.r.params) == ProvisionSecret(a.r.params) && env.home(ProvisionSecret(a.r.params)) == a.r.sc
      && (forall id | id in s.deletions && s.deletions[id].pc.Unfinalizing? ::
            s.deletions[id].volume.publishSecret != ProvisionSecret(a.r.params))
  }

  predicate SecretRecorded(env: Layout, v: Volume) {
    v.publishSecret == ProvisionSecret(v.attributes) && env.home(v.publishSecret) == v.sc
  }

  ghost predicate SecretInv(env: Layout, s: State) {
    && (forall n | n in s.vols :: s.vols[n].name == n && SecretRecorded(env, s.vols[n]))
    && (forall id | id in s.deletions ::
          && SecretRecorded(env, s.deletions[id].volume)
          && (s.deletions[id].pc.Unfinalizing? ==> SecretFree(s.vols, s.deletions[id].volume))
          && (s.deletions[id].pc.CheckingSecret? || s.deletions[id].pc.Unfinalizing? ==> s.deletions[id].volume.name in s.released))
  }

  lemma RecordedSecrets(r: Request)
    ensures var v := NewVolume(r);
            && ProvisionSecret(v.attributes) == ProvisionSecret(r.params) && v.publishSecret == PublishSecret(r.params)
            && Get(v.attributes, "secretFinalizer") == Get(r.params, "secretFinalizer")
  {
  }

  lemma ProvisionSecrets(env: Layout, s: State, a: Action)
    requires SecretInv(env, s) && SecretProper(env, s, a) && a.Provision? && Accepted(s, a.r, a.createOk)
    ensures SecretInv(env, Next(s, a))
  {
    RecordedSecrets(a.r);
    var s' := Next(s, a);
    forall id | id in s'.deletions && s'.deletions[id].pc.Unfinalizing?
      ensures SecretFree(s'.vols, s'.deletions[id].volume)
    {
      assert SecretRecorded(env, s.deletions[id].volume) && SecretFree(s.vols, s.deletions[id].volume);
    }
  }

  lemma StepSecrets(env: Layout, s: State, id: nat, fault: Fault)
    requires SecretInv(env, s) && id in s.deletions
    ensures SecretInv(env, StepDelete(s, id, fault))
  {
    var pc := StepShape(s, id, fault);
  }

  lemma VolumeSecrets(env: Layout, s: State, vols: map<string, Volume>)
    requires SecretInv(env, s)
    requires forall n | n in vols :: n in s.vols && (vols[n] == s.vols[n] || vols[n] == s.vols[n].(terminating := true))
    ensures SecretInv(env, s.(vols := vols))
  {
  }

  lemma {:induction false} SecretsHold(env: Layout, run: seq<Action>)
    requires Always((s, a) => SecretProper(env, s, a), run)
    ensures SecretInv(env, Run(run))
    decreases |run|
  {
    if run != [] {
      var s, a := Run(run[..|run| - 1]), run[|run| - 1];
      SecretsHold(env, run[..|run| - 1]);
      match a
      case Provision(r, createOk, _) => if Accepted(s, r, createOk) { ProvisionSecrets(env, s, a); }
      case Step(id, fault) => if id in s.deletions { StepSecrets(env, s, id, fault); }
      case Terminate(_) => VolumeSecrets(env, s, Next(s, a).vols);
      case Forget(_) => VolumeSecrets(env, s, Next(s, a).vols);
      case _ =>
    }
  }

  /** When a finalizer is removed, no other volume of any class refers to that secret. */
  lemma UnfinalizedOnlyUnused(env: Layout, run: seq<Action>, id: nat, n: string)
    requires Always((s, a) => SecretProper(env, s, a), run)
    requires var s := Run(run); id in s.deletions && s.deletions[id].pc.Unfinalizing? && n in s.vols
    requires var s := Run(run); n != s.deletions[id].volume.name && !s.vols[n].terminating
    ensures ProvisionSecret(Run(run).vols[n].attributes) != Run(run).deletions[id].volume.publishSecret
  {
    SecretsHold(env, run);
    var s := Run(run);
    assert SecretRecorded(env, s.deletions[id].volume) && SecretRecorded(env, s.vols[n]);
  }

  // ---------- directories and finalizers stay ----------

  /** A volume that is neither terminating nor has been deleted itself. */
  predicate Live(s: State, n: string) {
    n in s.vols && !s.vols[n].terminating && n !in s.released
  }

  predicate HasDir(s: State, v: Volume) {
    DirOf(v) in s.dirs
  }

  predicate HasFinalizer(s: State, v: Volume) {
    v.publishSecret in s.secrets && FINALIZER in s.secrets[v.publishSecret]
  }

  predicate Backed(s: State, v: Volume) {
    HasDir(s, v) && (KeepsFinalizer(v) ==> HasFinalizer(s, v))
  }

  lemma {:induction false} NamesUsed(run: seq<Action>)
    ensures Run(run).vols.Keys <= Run(run).used
    ensures forall n | n in Run(run).vols :: Run(run).vols[n].name == n
    ensures Run(run).released <= Run(run).used
    ensures forall id | id in Run(run).deletions :: Run(run).deletions[id].volume.name in Run(run).used
    decreases |run|
  {
    if run != [] {
      var s, a := Run(run[..|run| - 1]), run[|run| - 1];
      NamesUsed(run[..|run| - 1]);
      if a.Step? && a.id in s.deletions {
        var pc := StepShape(s, a.id, a.fault);
        StepReleases(s, a.id, a.fault);
      }
    }
  }

  lemma StepReleases(s: State, id: nat, fault: Fault)
    requires id in s.deletions
    ensures StepDelete(s, id, fault).released <= s.released + {s.deletions[id].volume.name}
  {
  }

  /** In any state: a new volume has its directory if and only if it records what Provision made, or the other one was there. */
  lemma BornBackedIff(s: State, r: Request, patchOk: bool)
    requires Accepted(s, r, true)
    ensures var s', v := Next(s, Provision(r, true, patchOk)), NewVolume(r);
            var one := PublishSecret(r.params) == ProvisionSecret(r.params);
            && (HasDir(s', v) <==>
                  || HasDir(s, v)
                  || (one && ("subPath" !in r.params || r.params["subPath"] == RequestedPath(r))))
            && (KeepsFinalizer(v) ==>
                  (HasFinalizer(s', v) <==> HasFinalizer(s, v) || (one && patchOk && Get(r.raw, "secretFinalizer") == "true")))
  {
    RecordedPath(r);
    RecordedSecrets(r);
  }

  /** The action is the removal of the directory that volume `v` records. */
  predicate Takes(s: State, a: Action, v: Volume) {
    && a.Step? && !a.fault.Before? && a.id in s.deletions && s.deletions[a.id].pc.Removing?
    && s.deletions[a.id].volume.name in s.vols && DirOf(s.deletions[a.id].volume) == DirOf(v)
  }

  lemma TakesIff(s: State, a: Action, v: Volume)
    requires HasDir(s, v)
    ensures HasDir(Next(s, a), v) <==> !Takes(s, a, v)
  {
  }

  /** Volumes of one secret are of one class, so an unshared sub path is an unshared directory. */
  lemma TakesOverridden(env: Layout, s: State, a: Action, n: string)
    requires PathInv(env, s) && SecretInv(env, s) && Live(s, n) && Live(Next(s, a), n) && Takes(s, a, s.vols[n])
    ensures Overridden(s.deletions[a.id].volume)
  {
    var v := s.deletions[a.id].volume;
    assert v.name in Next(s, a).released;
    assert SecretRecorded(env, v) && SecretRecorded(env, s.vols[n]);
    assert Other(s.vols[n], v);
  }

  predicate Steady(env: Layout, s: State, a: Action) {
    PathProper(env, s, a) && SecretProper(env, s, a)
  }

  /**
  In every run with one class per secret and timely requests, whatever `subPath` parameters there
  are: a live volume loses its directory in a step if and only if the step removes the directory of a
  volume whose class sets `subPath` without a pattern, and both record the same one.
  */
  lemma DirectoryLostIff(env: Layout, run: seq<Action>, a: Action, n: string)
    requires Always((s, a) => Steady(env, s, a), run)
    requires var s := Run(run); Live(s, n) && Live(Next(s, a), n) && HasDir(s, s.vols[n])
    ensures var s := Run(run);
            !HasDir(Next(s, a), s.vols[n]) <==> Takes(s, a, s.vols[n]) && Overridden(s.deletions[a.id].volume)
  {
    SteadyHolds(env, run);
    var s := Run(run);
    TakesIff(s, a, s.vols[n]);
    if Takes(s, a, s.vols[n]) {
      TakesOverridden(env, s, a, n);
    }
  }

  lemma {:induction false} AlwaysImplies(p: (State, Action) -> bool, q: (State, Action) -> bool, run: seq<Action>)
    requires Always(p, run) && forall s, a :: p(s, a) ==> q(s, a)
    ensures Always(q, run)
    decreases |run|
  {
    if run != [] {
      AlwaysImplies(p, q, run[..|run| - 1]);
    }
  }

  lemma SteadyHolds(env: Layout, run: seq<Action>)
    requires Always((s, a) => Steady(env, s, a), run)
    ensures PathInv(env, Run(run)) && SecretInv(env, Run(run))
  {
    AlwaysImplies((s, a) => Steady(env, s, a), (s, a) => PathProper(env, s, a), run);
    AlwaysImplies((s, a) => Steady(env, s, a), (s, a) => SecretProper(env, s, a), run);
    PathsHold(env, run);
    SecretsHold(env, run);
  }

  /** In states with one class per secret no step takes the finalizer of a live volume's secret. */
  lemma FinalizerKept(env: Layout, s: State, a: Action, n: string)
    requires SecretInv(env, s) && Live(s, n) && Live(Next(s, a), n) && HasFinalizer(s, s.vols[n])
    ensures HasFinalizer(Next(s, a), s.vols[n])
  {
    if a.Step? && a.id in s.deletions && s.deletions[a.id].pc.Unfinalizing? {
      var v := s.deletions[a.id].volume;
      assert SecretRecorded(env, v) && SecretRecorded(env, s.vols[n]) && SecretFree(s.vols, v);
      assert Other(s.vols[n], v) || s.vols[n].sc != v.sc;
    }
  }

  // ---------- over whole runs ----------

  /** Provision adds the finalizer that the volume asks for. */
  predicate Finalizing(s: State, a: Action) {
    a.Provision? && Accepted(s, a.r, a.createOk) && KeepsFinalizer(NewVolume(a.r)) ==>
      a.patchOk && Get(a.r.raw, "secretFinalizer") == "true"
  }

  /** The volume records the directory that Provision makes. */
  predicate Recording(s: State, a: Action) {
    a.Provision? && Accepted(s, a.r, a.createOk) && "subPath" in a.r.params ==> a.r.params["subPath"] == RequestedPath(a.r)
  }

  /** Only Provision adds volumes, and a deletion works on the volume it began with. */
  lemma NoneAdded(s: State, a: Action)
    requires !a.Provision?
    ensures var s' := Next(s, a);
            && (forall n | Live(s', n) :: Live(s, n) && s'.vols[n] == s.vols[n])
            && (forall n | n in s'.vols && Overridden(s'.vols[n]) :: n in s.vols && Overridden(s.vols[n]))
            && (forall id | id in s'.deletions && Overridden(s'.deletions[id].volume) ::
                  (id in s.deletions && Overridden(s.deletions[id].volume)) || exists n :: n in s.vols && Overridden(s.vols[n]))
  {
    if a.Step? && a.id in s.deletions {
      var pc := StepShape(s, a.id, a.fault);
    }
  }

  lemma BornOrBefore(s: State, a: Action, n: string)
    requires Live(Next(s, a), n)
    ensures || (Live(s, n) && Next(s, a).vols[n] == s.vols[n])
            || (a.Provision? && Accepted(s, a.r, a.createOk) && n == a.r.name && Next(s, a).vols[n] == NewVolume(a.r))
  {
    if !a.Provision? {
      NoneAdded(s, a);
    }
  }

  lemma {:induction false} FinalizersStay(env: Layout, run: seq<Action>, n: string)
    requires Always((s, a) => SecretProper(env, s, a) && Finalizing(s, a), run)
    requires Live(Run(run), n) && KeepsFinalizer(Run(run).vols[n])
    ensures HasFinalizer(Run(run), Run(run).vols[n])
    decreases |run|
  {
    if run != [] {
      var before, a := run[..|run| - 1], run[|run| - 1];
      var s := Run(before);
      BornOrBefore(s, a, n);
      if Live(s, n) && Next(s, a).vols[n] == s.vols[n] {
        FinalizersStay(env, before, n);
        AlwaysImplies((s, a) => SecretProper(env, s, a) && Finalizing(s, a), (s, a) => SecretProper(env, s, a), before);
        SecretsHold(env, before);
        FinalizerKept(env, s, a, n);
      } else {
        BornBackedIff(s, a.r, a.patchOk);
      }
    }
  }

  ghost predicate NoneOverridden(s: State) {
    && (forall n | n in s.vols :: !Overridden(s.vols[n]))
    && (forall id | id in s.deletions :: !Overridden(s.deletions[id].volume))
  }

  lemma {:induction false} RecordingOverridesNone(run: seq<Action>)
    requires Always(Recording, run)
    ensures NoneOverridden(Run(run))
    decreases |run|
  {
    if run != [] {
      var s, a := Run(run[..|run| - 1]), run[|run| - 1];
      RecordingOverridesNone(run[..|run| - 1]);
      if a.Provision? {
        RecordedPath(a.r);
      } else {
        NoneAdded(s, a);
      }
    }
  }

  lemma {:induction false} DirectoriesStay(env: Layout, run: seq<Action>, n: string)
    requires Always((s, a) => Steady(env, s, a) && Recording(s, a), run) && Live(Run(run), n)
    ensures HasDir(Run(run), Run(run).vols[n])
    decreases |run|
  {
    if run != [] {
      var before, a := run[..|run| - 1], run[|run| - 1];
      var s := Run(before);
      BornOrBefore(s, a, n);
      if Live(s, n) && Next(s, a).vols[n] == s.vols[n] {
        DirectoriesStay(env, before, n);
        AlwaysImplies((s, a) => Steady(env, s, a) && Recording(s, a), (s, a) => Steady(env, s, a), before);
        AlwaysImplies((s, a) => Steady(env, s, a) && Recording(s, a), Recording, before);
        RecordingOverridesNone(before);
        DirectoryLostIff(env, before, a, n);
      } else {
        BornBackedIff(s, a.r, a.patchOk);
      }
    }
  }

  predicate Proper(env: Layout, s: State, a: Action) {
    Steady(env, s, a) && Finalizing(s, a) && Recording(s, a)
  }

  /**
  In every proper run, a volume that is neither terminating nor deleted itself keeps its directory,
  and its secret keeps the finalizer if it asked for one.
  */
  lemma VolumesStayBacked(env: Layout, run: seq<Action>, n: string)
    requires Always((s, a) => Proper(env, s, a), run) && Live(Run(run), n)
    ensures Backed(Run(run), Run(run).vols[n])
  {
    AlwaysImplies((s, a) => Proper(env, s, a), (s, a) => Steady(env, s, a) && Recording(s, a), run);
    DirectoriesStay(env, run, n);
    if KeepsFinalizer(Run(run).vols[n]) {
      AlwaysImplies((s, a) => Proper(env, s, a), (s, a) => SecretProper(env, s, a) && Finalizing(s, a), run);
      FinalizersStay(env, run, n);
    }
  }

  // ---------- the conditions are needed ----------

  /**
  In every run at all: a volume provisioned between the scan and the removal of another has its
  directory afterwards if and only if it had one and the removed one is not it.
  */
  lemma LateRequestLosesDirectory(run: seq<Action>, id: nat, r: Request)
    requires var s := Run(run);
             && id in s.deletions && s.deletions[id].pc.Removing? && s.deletions[id].volume.name in s.vols && Accepted(s, r, true)
    ensures var s := Run(run);
            var s1 := Next(s, Provision(r, true, true));
            var s' := Next(s1, Step(id, NoFault));
            && Live(s', r.name) && s'.vols[r.name] == NewVolume(r)
            && (HasDir(s', NewVolume(r)) <==> HasDir(s1, NewVolume(r)) && DirOf(NewVolume(r)) != DirOf(s.deletions[id].volume))
  {
    NamesUsed(run);
    LateRemoval(Next(Run(run), Provision(r, true, true)), id, r.name);
  }

  lemma LateRemoval(s: State, id: nat, n: string)
    requires id in s.deletions && s.deletions[id].pc.Removing? && s.deletions[id].volume.name in s.vols
    requires Live(s, n) && n != s.deletions[id].volume.name
    ensures var s' := Next(s, Step(id, NoFault));
            && Live(s', n) && s'.vols == s.vols
            && (HasDir(s', s.vols[n]) <==> HasDir(s, s.vols[n]) && DirOf(s.vols[n]) != DirOf(s.deletions[id].volume))
  {
  }

  /** The last step of a deletion, in any state: who loses the finalizer of its secret. */
  lemma UnfinalizeTakesFrom(s: State, id: nat, n: string)
    requires id in s.deletions && s.deletions[id].pc.Unfinalizing? && FINALIZER in s.deletions[id].pc.finalizers
    requires n in s.vols && HasFinalizer(s, s.vols[n])
    ensures HasFinalizer(StepDelete(s, id, NoFault), s.vols[n]) <==> s.vols[n].publishSecret != s.deletions[id].volume.publishSecret
  {
  }

  // ---------- undisturbed runs ----------

  function Steps(s: State, id: nat, k: nat): State {
    if k == 0 then s else Next(Steps(s, id, k - 1), Step(id, NoFault))
  }

  /** A deletion that nothing disturbs gets to the removal in two steps if the scan allows it. */
  lemma ReachesRemoval(s: State, id: nat, name: string)
    requires name in s.vols && s.vols[name].reclaimDelete && id !in s.deletions
    requires MayDelete(s.vols, s.vols[name]) && s.vols[name].publishSecret in s.secrets
    ensures var v := s.vols[name];
            Steps(Next(s, Delete(id, name)), id, 2)
            == s.(deletions := s.deletions[id := Deletion(v, Removing(s.secrets[v.publishSecret]))])
  {
    var v := s.vols[name];
    var s0 := Next(s, Delete(id, name));
    var s1 := Steps(s0, id, 1);
    assert s1 == Next(Steps(s0, id, 0), Step(id, NoFault));
    assert s1 == s.(deletions := s.deletions[id := Deletion(v, Fetching)]);
  }

  /** And with three more it has removed the directory and the finalizer, and nothing else. */
  lemma DeletesAlone(s: State, id: nat, name: string)
    requires name in s.vols && s.vols[name].name == name && s.vols[name].reclaimDelete && id !in s.deletions
    requires MayDelete(s.vols, s.vols[name]) && s.vols[name].publishSecret in s.secrets
    requires KeepsFinalizer(s.vols[name]) && MayUnfinalize(s.vols, s.vols[name])
    ensures var v := s.vols[name];
            Steps(Next(s, Delete(id, name)), id, 5) == Unfinalize(RemoveDir(s, v), v, s.secrets[v.publishSecret])
  {
    var v, s0 := s.vols[name], Next(s, Delete(id, name));
    var f := s.secrets[v.publishSecret];
    ReachesRemoval(s, id, name);
    var s3 := RemoveDir(s, v).(deletions := s.deletions[id := Deletion(v, CheckingSecret(f))]);
    assert Steps(s0, id, 3) == s3;
    var s4 := RemoveDir(s, v).(deletions := s.deletions[id := Deletion(v, Unfinalizing(f))]);
    assert Steps(s0, id, 4) == s4;
    assert s4.deletions - {id} == s.deletions;
    assert Done(s4, id) == RemoveDir(s, v);
  }

  lemma {:induction false} StepsIdle(s: State, id: nat, k: nat)
    requires id !in s.deletions
    ensures Steps(s, id, k) == s
  {
    if k > 0 {
      StepsIdle(s, id, k - 1);
    }
  }

  lemma {:induction false} StepsAppend(s: State, id: nat, j: nat, k: nat)
    ensures Steps(s, id, j + k) == Steps(Steps(s, id, j), id, k)
  {
    if k > 0 {
      StepsAppend(s, id, j, k - 1);
    }
  }

  /** The part of an undisturbed deletion before the removal. */
  lemma ScanOrStop(s: State, id: nat, name: string)
    requires name in s.vols && id !in s.deletions
    ensures var v, f := s.vols[name], Steps(Next(s, Delete(id, name)), id, 2);
            if v.reclaimDelete && MayDelete(s.vols, v) && v.publishSecret in s.secrets
            then f == s.(deletions := s.deletions[id := Deletion(v, Removing(s.secrets[v.publishSecret]))])
            else f == s
  {
    var v, s0 := s.vols[name], Next(s, Delete(id, name));
    if v.reclaimDelete && MayDelete(s.vols, v) && v.publishSecret in s.secrets {
      ReachesRemoval(s, id, name);
    } else if !v.reclaimDelete {
      StepsIdle(s, id, 2);
    } else {
      var s1 := Next(s0, Step(id, NoFault));
      assert Steps(s0, id, 1) == Next(Steps(s0, id, 0), Step(id, NoFault)) == s1;
      if MayDelete(s.vols, v) {
        assert s1 == s.(deletions := s.deletions[id := Deletion(v, Fetching)]);
        assert Done(s1, id).deletions == s.deletions;
      } else {
        assert Done(s0, id).deletions == s.deletions;
        assert s1 == s;
      }
    }
  }

  lemma RemovalStep(s: State, id: nat, v: Volume, fins: set<string>)
    requires id in s.deletions && s.deletions[id] == Deletion(v, Removing(fins)) && v.name in s.vols
    ensures Next(s, Step(id, NoFault))
         == if Get(v.attributes, "secretFinalizer") == "true" then RemoveDir(GoOn(s, id, CheckingSecret(fins)), v) else RemoveDir(Done(s, id), v)
  {
  }

  lemma OneStep(s: State, id: nat)
    ensures Steps(s, id, 1) == Next(s, Step(id, NoFault))
  {
    assert Steps(s, id, 0) == s;
  }

  /** And the part after it. */
  lemma RemovalEnds(s: State, id: nat, v: Volume, fins: set<string>)
    requires id in s.deletions && s.deletions[id] == Deletion(v, Removing(fins)) && v.name in s.vols
    ensures var left := RemoveDir(Done(s, id), v);
            Steps(s, id, 3)
            == if Get(v.attributes, "secretFinalizer") == "true" && MayUnfinalize(s.vols, v) then Unfinalize(left, v, fins) else left
  {
    OneStep(s, id);
    StepsAppend(s, id, 1, 2);
    RemovalStep(s, id, v, fins);
    if Get(v.attributes, "secretFinalizer") == "true" {
      var s1 := RemoveDir(GoOn(s, id, CheckingSecret(fins)), v);
      assert s1.deletions - {id} == s.deletions - {id};
      SecretCheckEnds(s1, id, v, fins);
    } else {
      StepsIdle(RemoveDir(Done(s, id), v), id, 2);
    }
  }

  lemma SecretCheckEnds(s: State, id: nat, v: Volume, fins: set<string>)
    requires id in s.deletions && s.deletions[id] == Deletion(v, CheckingSecret(fins))
    ensures Steps(s, id, 2) == if MayUnfinalize(s.vols, v) then Unfinalize(Done(s, id), v, fins) else Done(s, id)
  {
    var s1 := Next(s, Step(id, NoFault));
    assert Steps(s, id, 1) == Next(Steps(s, id, 0), Step(id, NoFault)) == s1;
    if MayUnfinalize(s.vols, v) {
      assert s1 == GoOn(s, id, Unfinalizing(fins));
      assert s1.deletions - {id} == s.deletions - {id};
    } else {
      assert s1 == Done(s, id);
    }
  }

  /**
  From every state, an undisturbed Delete: the directory goes if and only if the volume is not retained,
  its secret is there, and it has no pattern or no other volume of its class has its sub path; the
  finalizer goes if and only if moreover the volume asked for one and no other volume of its class has
  its secret. Nothing else changes.
  */
  lemma DeleteAloneIff(s: State, id: nat, name: string)
    requires name in s.vols && (forall n | n in s.vols :: s.vols[n].name == n) && id !in s.deletions
    ensures var v, f := s.vols[name], Steps(Next(s, Delete(id, name)), id, 5);
            var removes := && v.reclaimDelete && v.publishSecret in s.secrets
                           && (Get(v.attributes, "pathPattern") == ""
                               || (v.sc != "" && forall n | n in s.vols && n != name && !s.vols[n].terminating && s.vols[n].sc == v.sc ::
                                                   SubPath(s.vols[n]) != SubPath(v)));
            var secret := ProvisionSecret(v.attributes);
            var strips := && removes && Get(v.attributes, "secretFinalizer") == "true" && FINALIZER in s.secrets[v.publishSecret]
                          && v.sc != "" && secret.namespace != "" && secret.name != ""
                          && forall n | n in s.vols && n != name && !s.vols[n].terminating && s.vols[n].sc == v.sc ::
                               ProvisionSecret(s.vols[n].attributes) != secret;
            && f.vols == s.vols && f.deletions == s.deletions
            && f.dirs == (if removes then s.dirs - {Dir(v.publishSecret, SubPath(v))} else s.dirs)
            && f.secrets == (if strips then s.secrets[v.publishSecret := s.secrets[v.publishSecret] - {FINALIZER}] else s.secrets)
  {
    var v, s0 := s.vols[name], Next(s, Delete(id, name));
    ScanOrStop(s, id, name);
    StepsAppend(s0, id, 2, 3);
    var s2 := Steps(s0, id, 2);
    if v.reclaimDelete && MayDelete(s.vols, v) && v.publishSecret in s.secrets {
      RemovalEnds(s2, id, v, s.secrets[v.publishSecret]);
      assert s2.deletions - {id} == s.deletions;
    } else {
      StepsIdle(s, id, 3);
    }
  }

  /** In any state: what Provision makes of a request. */
  lemma ProvisionIff(s: State, r: Request, createOk: bool, patchOk: bool)
    ensures var s' := Next(s, Provision(r, createOk, patchOk));
            var secret := Secret(Get(r.params, SECRET_NAMESPACE), Get(r.params, SECRET_NAME));
            if r.selector || (r.readOnly && Get(r.raw, "pathPattern") == "") || r.name in s.used || secret !in s.secrets || !createOk
            then s' == s
            else && r.name in s'.vols && s'.vols == s.vols[r.name := s'.vols[r.name]]
                 && s'.dirs == s.dirs + {Dir(secret, if Get(r.params, "pathPattern") != "" then Get(r.params, "pathPattern") else r.name)}
                 && s'.deletions == s.deletions && s'.released == s.released
                 && var v := s'.vols[r.name];
                    && v.name == r.name && v.sc == r.sc && v.reclaimDelete == r.reclaimDelete && !v.terminating
                    && v.publishSecret == Secret(Get(r.params, PUBLISH_NAMESPACE), Get(r.params, PUBLISH_NAME))
                    && (forall k | k in r.params :: k in v.attributes && v.attributes[k] == r.params[k])
                    && ("capacity" !in r.params ==> Get(v.attributes, "capacity") == r.capacity)
  {
  }

  /** A volume with another reclaim policy is never deleted: no deletion of it gets anywhere. */
  lemma {:induction false} RetainedStays(run: seq<Action>, id: nat)
    requires id in Run(run).deletions
    ensures Run(run).deletions[id].volume.reclaimDelete
    decreases |run|
  {
    var before, a := run[..|run| - 1], run[|run| - 1];
    if id in Run(before).deletions {
      RetainedStays(before, id);
    }
    if a.Step? && a.id in Run(before).deletions {
      var pc := StepShape(Run(before), a.id, a.fault);
    }
  }

  // ---------- two volumes ----------

  /** Both secrets of the request are `k`, and it can be provisioned. */
  predicate Uses(r: Request, k: Secret) {
    !Refused(r) && ProvisionSecret(r.params) == k == PublishSecret(r.params)
  }

  function TwoRequests(k: Secret, a: Request, b: Request): seq<Action> {
    [CreateSecret(k), Provision(a, true, true)] + [Provision(b, true, true)]
  }

  lemma OneVolume(k: Secret, a: Request) returns (s: State)
    requires Uses(a, k)
    ensures s == Run([CreateSecret(k), Provision(a, true, true)])
    ensures s == State(map[a.name := NewVolume(a)], {a.name}, {}, {Dir(k, RequestedPath(a))}, s.secrets, map[])
    ensures s.secrets == map[k := if a.reclaimDelete && Get(a.raw, "secretFinalizer") == "true" then {FINALIZER} else {}]
  {
    RunSnoc([], CreateSecret(k));
    assert [] + [CreateSecret(k)] == [CreateSecret(k)];
    var s1 := Next(Init(), CreateSecret(k));
    assert s1 == State(map[], {}, {}, {}, map[k := {}], map[]);
    RunSnoc([CreateSecret(k)], Provision(a, true, true));
    assert [CreateSecret(k)] + [Provision(a, true, true)] == [CreateSecret(k), Provision(a, true, true)];
    s := Provisioned(s1, a, true);
    assert s1.secrets[k] + {FINALIZER} == {FINALIZER};
  }

  lemma TwoVolumes(k: Secret, a: Request, b: Request) returns (s: State)
    requires Uses(a, k) && Uses(b, k) && a.name != b.name
    ensures s == Run(TwoRequests(k, a, b))
    ensures s.vols == map[a.name := NewVolume(a), b.name := NewVolume(b)]
    ensures s.dirs == {Dir(k, RequestedPath(a)), Dir(k, RequestedPath(b))}
    ensures s.deletions == map[] && s.released == {} && k in s.secrets
    ensures a.reclaimDelete && Get(a.raw, "secretFinalizer") == "true" ==> FINALIZER in s.secrets[k]
  {
    var s1 := OneVolume(k, a);
    RunSnoc([CreateSecret(k), Provision(a, true, true)], Provision(b, true, true));
    s := Provisioned(s1, b, true);
  }

  /**
  One secret in two storage classes: deleting a volume of the first takes the finalizer from the
  other's secret, and its directory too if both record the same one.
  */
  lemma SharedSecretLosesAll(k: Secret, a: Request, b: Request)
    requires Uses(a, k) && a.reclaimDelete && Get(a.params, "secretFinalizer") == "true" == Get(a.raw, "secretFinalizer")
    requires Uses(b, k) && a.name != b.name && a.sc != b.sc && a.sc != "" && k.namespace != "" && k.name != ""
    ensures var s := Run(TwoRequests(k, a, b));
            var s' := Steps(Next(s, Delete(0, a.name)), 0, 5);
            && Live(s, b.name) && HasFinalizer(s, NewVolume(b))
            && Live(s', b.name) && s'.vols[b.name] == NewVolume(b) && !HasFinalizer(s', NewVolume(b))
            && (HasDir(s', NewVolume(b)) <==> HasDir(s, NewVolume(b)) && SubPath(NewVolume(a)) != SubPath(NewVolume(b)))
  {
    RecordedSecrets(a);
    RecordedSecrets(b);
    var s := TwoVolumes(k, a, b);
    DeletesAlone(s, 0, a.name);
  }

  /**
  Two volumes of a class that record one sub path, for whatever reason: deleting the one without a
  pattern skips the scan, and removes the directory that the other records.
  */
  lemma SkippedScanShares(k: Secret, a: Request, b: Request)
    requires Uses(a, k) && Uses(b, k) && a.name != b.name && a.sc == b.sc && a.reclaimDelete
    requires Get(a.params, "pathPattern") == "" && SubPath(NewVolume(a)) == SubPath(NewVolume(b))
    ensures var s := Run(TwoRequests(k, a, b));
            var s1 := Steps(Next(s, Delete(0, a.name)), 0, 2);
            && Live(s, b.name) && s.dirs == {Dir(k, RequestedPath(a)), Dir(k, RequestedPath(b))}
            && 0 in s1.deletions && s1.deletions[0].pc.Removing? && s1.deletions[0].volume == NewVolume(a)
            && !SubPathFree(s1.vols, NewVolume(a))
            && var s' := Steps(Next(s, Delete(0, a.name)), 0, 3);
               Live(s', b.name) && s'.vols[b.name] == NewVolume(b) && !HasDir(s', NewVolume(b))
  {
    RecordedSecrets(a);
    RecordedSecrets(b);
    var s := TwoVolumes(k, a, b);
    assert Get(NewVolume(a).attributes, "pathPattern") == Get(a.params, "pathPattern");
    ReachesRemoval(s, 0, a.name);
    var s1 := Steps(Next(s, Delete(0, a.name)), 0, 2);
    assert Other(s1.vols[b.name], NewVolume(a));
    LateRemoval(s1, 0, b.name);
  }

  function Asks(name: string, params: map<string, string>): Request {
    Request(name, "class", true, map[], params, "1", false, false)
  }

  lemma AsksUses(name: string, params: map<string, string>)
    requires forall k | k in params :: |k| <= |"pathPattern"|
    ensures Uses(Asks(name, params), Secret("", ""))
  {
    assert |SECRET_NAME| > 11 && |SECRET_NAMESPACE| > 11 && |PUBLISH_NAME| > 11 && |PUBLISH_NAMESPACE| > 11 && |"pathPattern"| == 11;
  }

  /** For instance: the class sets `subPath` to x, and the pattern resolves to nothing for one claim and to x for the other. */
  lemma OverriddenRemovalOccurs()
    ensures var a, b := Asks("v1", map["subPath" := "x"]), Asks("v2", map["subPath" := "x", "pathPattern" := "x"]);
            var s := Run(TwoRequests(Secret("", ""), a, b));
            && Overridden(NewVolume(a)) && Live(s, "v2") && HasDir(s, NewVolume(b))
            && var s' := Steps(Next(s, Delete(0, "v1")), 0, 3);
               Live(s', "v2") && s'.vols["v2"] == NewVolume(b) && !HasDir(s', NewVolume(b))
  {
    var a, b := Asks("v1", map["subPath" := "x"]), Asks("v2", map["subPath" := "x", "pathPattern" := "x"]);
    assert |"subPath"| == 7 && |"pathPattern"| == 11 && |"x"| == 1 && "v1"[1] != "v2"[1];
    AsksUses("v1", a.params);
    AsksUses("v2", b.params);
    RecordedPath(a);
    RecordedPath(b);
    RecordedSecrets(b);
    SkippedScanShares(Secret("", ""), a, b);
  }

  /** Or: the pattern of one claim resolves to the name of another volume. */
  lemma NameClashOccurs()
    ensures var a, b := Asks("v1", map[]), Asks("v2", map["pathPattern" := "v1"]);
            var s := Run(TwoRequests(Secret("", ""), a, b));
            && Live(s, "v2") && HasDir(s, NewVolume(b))
            && var s' := Steps(Next(s, Delete(0, "v1")), 0, 3);
               Live(s', "v2") && s'.vols["v2"] == NewVolume(b) && !HasDir(s', NewVolume(b))
  {
    var a, b := Asks("v1", map[]), Asks("v2", map["pathPattern" := "v1"]);
    assert |"subPath"| == 7 && |"pathPattern"| == 11 && "v1"[1] != "v2"[1];
    AsksUses("v1", a.params);
    AsksUses("v2", b.params);
    RecordedPath(a);
    RecordedPath(b);
    RecordedSecrets(b);
    SkippedScanShares(Secret("", ""), a, b);
  }

  function AfterScan(k: Secret, a: Request): State {
    Steps(Next(Run([CreateSecret(k), Provision(a, true, true)]), Delete(0, a.name)), 0, 2)
  }

  lemma ScanPasses(k: Secret, a: Request) returns (s0: State)
    requires Uses(a, k) && a.reclaimDelete && a.sc != ""
    ensures s0.secrets.Keys == {k}
    ensures s0 == State(map[a.name := NewVolume(a)], {a.name}, {}, {Dir(k, RequestedPath(a))}, s0.secrets, map[])
    ensures AfterScan(k, a) == s0.(deletions := map[0 := Deletion(NewVolume(a), Removing(s0.secrets[k]))])
  {
    RecordedSecrets(a);
    s0 := OneVolume(k, a);
    ReachesRemoval(s0, 0, a.name);
  }

  /** A request that falls between the scan and the removal of the same directory: its volume loses it at once. */
  lemma LateRequestOccurs(k: Secret, a: Request, b: Request)
    requires Uses(a, k) && Uses(b, k) && a.name != b.name && a.reclaimDelete && a.sc != ""
    requires "subPath" !in a.params && "subPath" !in b.params && RequestedPath(a) == RequestedPath(b)
    ensures var s1 := Next(AfterScan(k, a), Provision(b, true, true));
            var s' := Next(s1, Step(0, NoFault));
            && Live(s1, b.name) && HasDir(s1, NewVolume(b))
            && Live(s', b.name) && s'.vols[b.name] == NewVolume(b) && !HasDir(s', NewVolume(b))
  {
    RecordedPath(a);
    RecordedPath(b);
    RecordedSecrets(a);
    RecordedSecrets(b);
    var s0 := ScanPasses(k, a);
    var s := AfterScan(k, a);
    var s1 := Provisioned(s, b, true);
    assert Next(s, Provision(b, true, true)) == s1;
    LateRemoval(s1, 0, b.name);
  }

  lemma RunSnoc(run: seq<Action>, a: Action)
    ensures Run(run + [a]) == Next(Run(run), a)
  {
  }
}
