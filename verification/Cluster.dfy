/** The API server as the operator sees it: a store of objects, and the effect of each call on one slot of it. */
module Cluster {
  import opened Options
  import opened ObjectNames
  import opened Resolve

  type Uid = string

  /** What the objects say, as far as one refers to another. Labels, sizes, images and rules are in `d`. */
  datatype Manifest =
    | Plain(d: Desired)
    | PostgresSet(d: Desired)
    | Workload(d: Desired, checksum: string)
    | Serves(component: string, ports: seq<int>)
    | Backends(host: string, backends: seq<Backend>)

  /** What an Ingress sends to a Service: requests under `path`, to its `port`. */
  datatype Backend = Backend(path: string, service: string, port: int)

  /** Fields of an object. `ReadyReplicas` and `AdmittedHost` belong to its status. */
  datatype Field = Host | Path | DesiredHost | Target | Template | Data(key: string) | ReadyReplicas | AdmittedHost

  datatype Value = Text(text: string) | Count(n: nat) | Of(manifest: Manifest)

  type Payload = map<Field, Value>

  /** `born` tells incarnations of one name apart, as metadata.uid does. `applied` are the fields the operator's
      field manager owns. */
  datatype Obj = Obj(controller: Option<Uid>, deleting: bool, born: nat, fields: Payload, applied: set<Field>)

  /** What a name holds, and the resource version of its last change. */
  datatype Slot = Slot(obj: Option<Obj>, version: nat)

  type Store = map<Key, Slot>

  const EMPTY := Slot(None, 0)

  function At(store: Store, k: Key): Slot { if k in store then store[k] else EMPTY }

  predicate Present(store: Store, k: Key) { At(store, k).obj.Some? }

  predicate ControlledBy(o: Obj, uid: Uid) { o.controller == Some(uid) }

  predicate Owned(store: Store, k: Key, uid: Uid) {
    Present(store, k) && ControlledBy(At(store, k).obj.value, uid)
  }

  /** unstructured.NestedString, and map lookup in Go: "" when the field is not there. */
  function TextOf(fields: Payload, f: Field): string {
    if f in fields && fields[f].Text? then fields[f].text else ""
  }

  // ---- Calls ----

  datatype ApiError = NotFound | AlreadyExists | Conflict | RivalController | Forbidden(customHost: bool) | Unavailable

  datatype Reply = Done(slot: Slot) | Rejected(error: ApiError)

  /** Server-side apply with forced ownership: payload fields win, fields applied before and now omitted go, all
      others stay. Only one controller reference may exist. */
  function Patched(s: Slot, uid: Uid, payload: Payload): Reply {
    if s.obj.None? then Done(Slot(Some(Obj(Some(uid), false, s.version + 1, payload, payload.Keys)), s.version + 1))
    else
      var o := s.obj.value;
      if o.controller.Some? && o.controller != Some(uid) then Rejected(RivalController)
      else
        var o' := Obj(Some(uid), o.deleting, o.born, (o.fields - (o.applied - payload.Keys)) + payload, payload.Keys);
        Done(if o' == o then s else Slot(Some(o'), s.version + 1))
  }

  function Created(s: Slot, uid: Uid, payload: Payload): Reply {
    if s.obj.Some? then Rejected(AlreadyExists)
    else Done(Slot(Some(Obj(Some(uid), false, s.version + 1, payload, {})), s.version + 1))
  }

  /** A full update of the object read at resource version `version`, with the fields `changes` set. */
  function Updated(s: Slot, version: nat, changes: Payload): Reply {
    if s.obj.None? then Rejected(NotFound)
    else if s.version != version then Rejected(Conflict)
    else Done(Slot(Some(s.obj.value.(fields := s.obj.value.fields + changes)), s.version + 1))
  }

  /** A finalizer can make the object linger with a deletion timestamp. */
  function Deleted(s: Slot, lingers: bool): Reply {
    if s.obj.None? then Rejected(NotFound)
    else if !lingers then Done(Slot(None, s.version + 1))
    else if s.obj.value.deleting then Done(s)
    else Done(Slot(Some(s.obj.value.(deleting := true)), s.version + 1))
  }

  // ---- Laws of apply ----

  /** The meaning of an accepted apply, field by field. */
  lemma PatchedFields(s: Slot, uid: Uid, payload: Payload, f: Field)
    requires Patched(s, uid, payload).Done?
    ensures var o := Patched(s, uid, payload).slot.obj;
            && o.Some? && ControlledBy(o.value, uid) && o.value.applied == payload.Keys
            && (f in payload ==> f in o.value.fields && o.value.fields[f] == payload[f])
            && (f !in payload && (s.obj.None? || f in s.obj.value.applied) ==> f !in o.value.fields)
            && (f !in payload && s.obj.Some? && f !in s.obj.value.applied ==>
                  (f in o.value.fields <==> f in s.obj.value.fields)
                  && (f in o.value.fields ==> o.value.fields[f] == s.obj.value.fields[f]))
  {
  }

  /** Applying the same payload again is no change at all, not even of the version. */
  lemma PatchedTwice(s: Slot, uid: Uid, payload: Payload)
    requires Patched(s, uid, payload).Done?
    ensures Patched(Patched(s, uid, payload).slot, uid, payload) == Patched(s, uid, payload)
  {
    var s1 := Patched(s, uid, payload).slot;
    var o := s1.obj.value;
    assert o.applied == payload.Keys;
    if s.obj.None? {
      assert (o.fields - (o.applied - payload.Keys)) + payload == o.fields;
    } else {
      var was := s.obj.value;
      assert o.fields == (was.fields - (was.applied - payload.Keys)) + payload;
      assert (o.fields - (o.applied - payload.Keys)) + payload == o.fields;
    }
  }

  /** A rejected apply is one that meets a rival controller. */
  lemma PatchedRejects(s: Slot, uid: Uid, payload: Payload)
    ensures Patched(s, uid, payload).Rejected? <==>
            s.obj.Some? && s.obj.value.controller.Some? && s.obj.value.controller.value != uid
  {
  }
}
