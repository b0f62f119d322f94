/**
 * The medication and supplement callable handlers of the cloud functions, up to the
 * point where each would call the document database: which error each raises, in
 * which order, and which database request it would issue otherwise.
 */
module MedicationController {
  import opened Wrappers
  import opened Json

  /** The two document collections the handlers serve, under `users/{uid}/`. */
  datatype Kind = Medications | Supplements

  function CollectionName(kind: Kind): string {
    match kind
    case Medications => "medications"
    case Supplements => "supplements"
  }

  /** The `HttpsError` codes a handler can raise before its database call. */
  datatype ErrorCode = Unauthenticated | InvalidArgument | Internal

  /** The database request a handler issues once its guards pass. */
  datatype DbRequest =
    | AddDocument(uid: string, collection: string, doc: map<string, Value>)
    | UpdateDocument(uid: string, collection: string, docId: Value, doc: map<string, Value>)
    | DeleteDocument(uid: string, collection: string, docId: Value)
    /** `.where('isActive', '==', true)` on the collection: only the active documents. */
    | QueryActive(uid: string, collection: string)

  datatype Outcome = Rejected(code: ErrorCode) | Proceeds(request: DbRequest)

  /** `context.auth?.uid` is truthy: there is an authenticated caller with a non-empty uid. */
  predicate Authenticated(uid: Option<string>) {
    uid.Some? && uid.value != ""
  }

  predicate HasString(data: Value, key: string) {
    data.Object? && key in data.fields && data.fields[key].Str?
  }

  predicate HasBool(data: Value, key: string) {
    data.Object? && key in data.fields && data.fields[key].Bool?
  }

  /** `data.id` is truthy (assuming `data` is not null or undefined). */
  predicate HasTruthyId(data: Value) {
    data.Object? && "id" in data.fields && Truthy(data.fields["id"])
  }

  /** `validateMedicationData`: only an object with string name, dosage and frequency and a boolean isActive passes. */
  function ValidateMedicationData(data: Value): (ok: bool)
    ensures ok <==>
      HasString(data, "name") && HasString(data, "dosage") && HasString(data, "frequency") && HasBool(data, "isActive")
  {
    Truthy(data)
    && Member(data, "name").Str?
    && Member(data, "dosage").Str?
    && Member(data, "frequency").Str?
    && Member(data, "isActive").Bool?
  }

  /** `validateSupplementData`: the medication checks plus a string category (any string: the category list is not checked). */
  function ValidateSupplementData(data: Value): (ok: bool)
    ensures ok <==> ValidateMedicationData(data) && HasString(data, "category")
  {
    Truthy(data)
    && Member(data, "name").Str?
    && Member(data, "dosage").Str?
    && Member(data, "frequency").Str?
    && Member(data, "category").Str?
    && Member(data, "isActive").Bool?
  }

  function Validate(kind: Kind, data: Value): bool {
    match kind
    case Medications => ValidateMedicationData(data)
    case Supplements => ValidateSupplementData(data)
  }

  /** `{ ...data, createdAt: now, updatedAt: now }`. */
  function Stamped(fields: map<string, Value>, now: Value): map<string, Value> {
    fields + map["createdAt" := now, "updatedAt" := now]
  }

  /** `{ ...data, updatedAt: now }` with `id` deleted: the document an update writes. */
  function UpdateData(fields: map<string, Value>, now: Value): map<string, Value> {
    (fields + map["updatedAt" := now]) - {"id"}
  }

  /** `addMedication` / `addSupplement`: authentication, then validation, then the insert. */
  function AddHandler(kind: Kind, uid: Option<string>, data: Value, now: Value): (r: Outcome)
    ensures r == Rejected(Unauthenticated) <==> !Authenticated(uid)
    ensures r == Rejected(InvalidArgument) <==> Authenticated(uid) && !Validate(kind, data)
    ensures r.Proceeds? <==> Authenticated(uid) && Validate(kind, data)
    ensures r.Proceeds? ==>
      && data.Object?
      && r.request.AddDocument?
      && Some(r.request.uid) == uid
      && r.request.collection == CollectionName(kind)
      && r.request.doc.Keys == data.fields.Keys + {"createdAt", "updatedAt"}
      && r.request.doc["createdAt"] == now && r.request.doc["updatedAt"] == now
      && forall k :: k in data.fields && k != "createdAt" && k != "updatedAt" ==> r.request.doc[k] == data.fields[k]
  {
    if !Authenticated(uid) then Rejected(Unauthenticated)
    else if !Validate(kind, data) then Rejected(InvalidArgument)
    else Proceeds(AddDocument(uid.value, CollectionName(kind), Stamped(data.fields, now)))
  }

  /**
   * `updateMedication` / `updateSupplement`: authentication, then a truthy `id` and a
   * valid payload, then the update of document `data.id` with the payload minus `id`.
   * `data.id` is read before `data` is checked, so a null payload throws a TypeError,
   * which the functions runtime reports as `internal`.
   */
  function UpdateHandler(kind: Kind, uid: Option<string>, data: Value, now: Value): (r: Outcome)
    ensures r == Rejected(Unauthenticated) <==> !Authenticated(uid)
    ensures r == Rejected(Internal) <==> Authenticated(uid) && Nullish(data)
    ensures r == Rejected(InvalidArgument) <==>
      Authenticated(uid) && !Nullish(data) && !(HasTruthyId(data) && Validate(kind, data))
    ensures r.Proceeds? ==>
      && data.Object? && "id" in data.fields
      && r.request.UpdateDocument?
      && Some(r.request.uid) == uid
      && r.request.collection == CollectionName(kind)
      && r.request.docId == data.fields["id"]
      && r.request.doc.Keys == data.fields.Keys + {"updatedAt"} - {"id"}
      && r.request.doc["updatedAt"] == now
      && forall k :: k in data.fields && k != "id" && k != "updatedAt" ==> r.request.doc[k] == data.fields[k]
  {
    if !Authenticated(uid) then Rejected(Unauthenticated)
    else if Nullish(data) then Rejected(Internal)
    else if !Truthy(Member(data, "id")) || !Validate(kind, data) then Rejected(InvalidArgument)
    else Proceeds(UpdateDocument(uid.value, CollectionName(kind), Member(data, "id"), UpdateData(data.fields, now)))
  }

  /** The reply of a successful update, `{ id: data.id, ...updateData }`. */
  function UpdateReply(fields: map<string, Value>, now: Value): map<string, Value>
    requires "id" in fields
  {
    map["id" := fields["id"]] + UpdateData(fields, now)
  }

  /**
   * The update writes the payload without its `id`, and the reply puts that `id` back:
   * the reply is the written document plus `id`, which is the payload stamped with `updatedAt`.
   */
  lemma UpdateReplyRestoresId(fields: map<string, Value>, now: Value)
    requires "id" in fields
    ensures "id" !in UpdateData(fields, now)
    ensures UpdateReply(fields, now)["id"] == fields["id"]
    ensures UpdateReply(fields, now) - {"id"} == UpdateData(fields, now)
    ensures UpdateReply(fields, now) == fields + map["updatedAt" := now]
  {
    var reply, stamped := UpdateReply(fields, now), fields + map["updatedAt" := now];
    assert reply.Keys == stamped.Keys;
    assert forall k :: k in reply ==> reply[k] == stamped[k];
    var written := UpdateData(fields, now);
    assert (reply - {"id"}).Keys == written.Keys;
  }

  /** `deleteMedication` / `deleteSupplement`: authentication, then a truthy `id`; no field is validated. */
  function DeleteHandler(kind: Kind, uid: Option<string>, data: Value): (r: Outcome)
    ensures r == Rejected(Unauthenticated) <==> !Authenticated(uid)
    ensures r == Rejected(Internal) <==> Authenticated(uid) && Nullish(data)
    ensures r == Rejected(InvalidArgument) <==> Authenticated(uid) && !Nullish(data) && !HasTruthyId(data)
    ensures r.Proceeds? ==>
      && HasTruthyId(data)
      && r.request == DeleteDocument(uid.value, CollectionName(kind), data.fields["id"])
  {
    if !Authenticated(uid) then Rejected(Unauthenticated)
    else if Nullish(data) then Rejected(Internal)
    else if !Truthy(Member(data, "id")) then Rejected(InvalidArgument)
    else Proceeds(DeleteDocument(uid.value, CollectionName(kind), Member(data, "id")))
  }

  /** `getUserMedications` / `getUserSupplements`: authentication only, then the query for active documents. */
  function ListHandler(kind: Kind, uid: Option<string>): (r: Outcome)
    ensures r.Rejected? <==> !Authenticated(uid)
    ensures r.Rejected? ==> r.code == Unauthenticated
    ensures r.Proceeds? ==> r.request == QueryActive(uid.value, CollectionName(kind))
  {
    if !Authenticated(uid) then Rejected(Unauthenticated)
    else Proceeds(QueryActive(uid.value, CollectionName(kind)))
  }

  /** Without a caller every handler rejects as unauthenticated, whatever the payload. */
  lemma UnauthenticatedFirst(kind: Kind, uid: Option<string>, data: Value, now: Value)
    requires !Authenticated(uid)
    ensures AddHandler(kind, uid, data, now) == Rejected(Unauthenticated)
    ensures UpdateHandler(kind, uid, data, now) == Rejected(Unauthenticated)
    ensures DeleteHandler(kind, uid, data) == Rejected(Unauthenticated)
    ensures ListHandler(kind, uid) == Rejected(Unauthenticated)
  {
  }

  /** An authenticated caller's empty object `{}` is an invalid argument to add, update and delete. */
  lemma EmptyPayloadRejected(kind: Kind, uid: string, now: Value)
    requires uid != ""
    ensures AddHandler(kind, Some(uid), Object(map[]), now) == Rejected(InvalidArgument)
    ensures UpdateHandler(kind, Some(uid), Object(map[]), now) == Rejected(InvalidArgument)
    ensures DeleteHandler(kind, Some(uid), Object(map[])) == Rejected(InvalidArgument)
  {
  }

  /** Deleting needs a truthy `id` only: a payload the validators refuse is still deleted. */
  lemma DeleteIgnoresFields(kind: Kind, uid: string, id: string)
    requires uid != "" && id != ""
    ensures !Validate(kind, Object(map["id" := Str(id)]))
    ensures DeleteHandler(kind, Some(uid), Object(map["id" := Str(id)])) ==
      Proceeds(DeleteDocument(uid, CollectionName(kind), Str(id)))
  {
  }
}
