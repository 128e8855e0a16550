/**
The annotations of a mount pod, as far as reference counting looks at them.

A reference to a target path is an annotation whose key is the hash of its value.
The hash (`GetReferenceKey`) is treated as injective and disjoint from the fixed keys,
so a key is a value of the datatype `Key`: `RefKey(t)` stands for the hash of target `t`.
*/
module Annotations {

  /** A kubelet target path: the app pod that owns it and the volume it mounts. */
  datatype Target = Target(uid: string, volume: string)

  datatype Key =
    | RefKey(target: Target)
    | DelayTimeKey          // dingofs-delete-delay
    | DelayAtKey            // dingofs-delete-at
    | OtherKey(name: string)

  /** Values are kept in parsed form; `Text` is a string that parses as none of the others. */
  datatype Value =
    | Path(target: Target)
    | Duration(nanos: int)
    | Stamp(second: int)
    | Text(text: string)

  type Annos = map<Key, Value>

  predicate IsRef(k: Key, v: Value) {
    v.Path? && k == RefKey(v.target)
  }

  /** The keys that count as references. */
  function Refs(a: Annos): set<Key> {
    set k | k in a && IsRef(k, a[k])
  }

  /** Only values written by the driver sit under a reference key. */
  predicate WellFormed(a: Annos) {
    forall k | k in a && k.RefKey? :: a[k] == Path(k.target)
  }

  /** What a publish writes: the reference is added and a pending delete-at stamp goes. */
  function AddRef(a: Annos, t: Target): Annos {
    a[RefKey(t) := Path(t)] - {DelayAtKey}
  }

  lemma AddRefRefs(a: Annos, t: Target)
    ensures Refs(AddRef(a, t)) == Refs(a) + {RefKey(t)}
    ensures RefKey(t) !in a ==> forall k | k in a && k != DelayAtKey :: k in AddRef(a, t) && AddRef(a, t)[k] == a[k]
  {
  }

  lemma RemoveRefs(a: Annos, ks: set<Key>)
    ensures Refs(a - ks) == Refs(a) - ks
  {
  }
}
