/** The Firestore converter the client's services and stores use
    (src/services/entity.ts): like the models' converter, except that the decoded
    `createdAt` is always the store's create time and encoding drops `createdAt` as
    well as `id`. */
module ServiceEntity {
  import opened Js
  import ModelEntity

  type Snapshot = ModelEntity.Snapshot

  /** `fromFirestore`: `{...transformed, id, createdAt}`; the data's own `createdAt` is
      ignored. */
  function FromFirestore(transformFrom: Obj -> Obj, snap: Snapshot): (r: Obj)
    ensures Get(r, "id") == Str(snap.id)
    ensures Get(r, "createdAt") == Num(snap.createTimeSeconds)
    ensures forall k :: k != "id" && k != "createdAt" ==>
      (k in r <==> k in transformFrom(snap.data)) && (k in r ==> r[k] == transformFrom(snap.data)[k])
  {
    transformFrom(snap.data) + map["id" := Str(snap.id), "createdAt" := Num(snap.createTimeSeconds)]
  }

  /** `toFirestore`: the transformed model without `id` and `createdAt`. */
  function ToFirestore(transformTo: Obj -> Obj, model: Obj): (r: Obj)
    ensures "id" !in r && "createdAt" !in r
    ensures forall k :: k != "id" && k != "createdAt" ==>
      (k in r <==> k in transformTo(model)) && (k in r ==> r[k] == transformTo(model)[k])
  {
    Omit(transformTo(model), {"id", "createdAt"})
  }

  /** The default transforms, in both directions. */
  function Identity(data: Obj): Obj {
    data
  }

  /** With the default transforms, decoding then encoding gives back the document data
      without its `id` and `createdAt` keys. */
  lemma DefaultEncodeAfterDecode(snap: Snapshot)
    ensures ToFirestore(Identity, FromFirestore(Identity, snap)) == Omit(snap.data, {"id", "createdAt"})
  {
    var r := ToFirestore(Identity, FromFirestore(Identity, snap));
    var d := Omit(snap.data, {"id", "createdAt"});
    forall k ensures k in r <==> k in d {
    }
    assert forall k :: k in r ==> r[k] == d[k];
  }

  /** With the default transforms, a model saved under its own id and read back is the
      same model when its `createdAt` is the document's create time. */
  lemma DefaultDecodeAfterEncode(model: Obj, id: string, createTimeSeconds: int)
    requires Get(model, "id") == Str(id) && Get(model, "createdAt") == Num(createTimeSeconds)
    ensures FromFirestore(Identity, ModelEntity.Snapshot(id, ToFirestore(Identity, model), createTimeSeconds)) == model
  {
    var r := FromFirestore(Identity, ModelEntity.Snapshot(id, ToFirestore(Identity, model), createTimeSeconds));
    forall k ensures k in r <==> k in model {
    }
    assert forall k :: k in r ==> r[k] == model[k];
  }
}
