/** The Firestore converter shared by the client's typed models (src/models/entity.ts):
    decoding runs the entity's `transformFromFirestore` over the document data and lays
    the id and the creation time over the result; encoding runs `transformToFirestore`
    and drops the `id`. Each entity's transforms are given as functions on plain objects. */
module ModelEntity {
  import opened Js

  /** A document snapshot: its id, its data and the store's create time in seconds. */
  datatype Snapshot = Snapshot(id: string, data: Obj, createTimeSeconds: int)

  /** The add-ons decoding lays over the transformed data: the snapshot's id, and the
      data's own `createdAt` when it is truthy, else the create time. */
  function Addons(snap: Snapshot): (r: Obj)
    ensures r.Keys == {"id", "createdAt"}
    ensures r["id"] == Str(snap.id)
    ensures Truthy(Get(snap.data, "createdAt")) ==> r["createdAt"] == snap.data["createdAt"]
    ensures !Truthy(Get(snap.data, "createdAt")) ==> r["createdAt"] == Num(snap.createTimeSeconds)
  {
    map["id" := Str(snap.id), "createdAt" := Or(Get(snap.data, "createdAt"), Num(snap.createTimeSeconds))]
  }

  /** `fromFirestore`: `{...transformed, ...addons}`. The decoded id is the snapshot's
      id, the add-ons win over same-named transformed fields, and every other field is
      the transformed one. */
  function FromFirestore(transformFrom: Obj -> Obj, snap: Snapshot): (r: Obj)
    ensures Get(r, "id") == Str(snap.id)
    ensures Get(r, "createdAt") == Or(Get(snap.data, "createdAt"), Num(snap.createTimeSeconds))
    ensures forall k :: k != "id" && k != "createdAt" ==>
      (k in r <==> k in transformFrom(snap.data)) && (k in r ==> r[k] == transformFrom(snap.data)[k])
  {
    transformFrom(snap.data) + Addons(snap)
  }

  /** `toFirestore`: the transformed model without its `id`; every other key, including
      `createdAt`, is kept. */
  function ToFirestore(transformTo: Obj -> Obj, model: Obj): (r: Obj)
    ensures "id" !in r
    ensures forall k :: k != "id" ==> (k in r <==> k in transformTo(model)) && (k in r ==> r[k] == transformTo(model)[k])
  {
    Omit(transformTo(model), {"id"})
  }

  /** The default transforms, in both directions. */
  function Identity(data: Obj): Obj {
    data
  }

  /** With the default transforms, a document whose data has no `id` and a truthy
      `createdAt` encodes back to exactly its data. */
  lemma DefaultEncodeAfterDecode(snap: Snapshot)
    requires "id" !in snap.data && Truthy(Get(snap.data, "createdAt"))
    ensures ToFirestore(Identity, FromFirestore(Identity, snap)) == snap.data
  {
    var r := ToFirestore(Identity, FromFirestore(Identity, snap));
    forall k ensures k in r <==> k in snap.data {
    }
    assert forall k :: k in r ==> r[k] == snap.data[k];
  }

  /** With the default transforms, a model saved under its own id and read back is the
      same model, as long as its `createdAt` is truthy. */
  lemma DefaultDecodeAfterEncode(model: Obj, id: string, createTimeSeconds: int)
    requires Get(model, "id") == Str(id) && Truthy(Get(model, "createdAt"))
    ensures FromFirestore(Identity, Snapshot(id, ToFirestore(Identity, model), createTimeSeconds)) == model
  {
    var snap := Snapshot(id, ToFirestore(Identity, model), createTimeSeconds);
    var r := FromFirestore(Identity, snap);
    forall k ensures k in r <==> k in model {
    }
    assert forall k :: k in r ==> r[k] == model[k];
  }
}
