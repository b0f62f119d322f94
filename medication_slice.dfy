/** The client's medication list, with its loading and error flags. */
module MedicationSlice {
  import opened Wrappers
  import IdLists

  /** One medication; dates are ISO strings. */
  datatype Medication = Medication(
    id: Option<string>,
    name: string,
    dosage: string,
    frequency: string,
    ndcCode: Option<string>,
    rxnormId: Option<string>,
    isActive: bool,
    prescribedBy: Option<string>,
    startDate: string,
    endDate: Option<string>,
    createdAt: string,
    updatedAt: Option<string>)

  /** `Partial<Medication>`: `Some` marks a field present in the update. */
  datatype MedicationPatch = MedicationPatch(
    id: Option<string>,
    name: Option<string>,
    dosage: Option<string>,
    frequency: Option<string>,
    ndcCode: Option<string>,
    rxnormId: Option<string>,
    isActive: Option<bool>,
    prescribedBy: Option<string>,
    startDate: Option<string>,
    endDate: Option<string>,
    createdAt: Option<string>,
    updatedAt: Option<string>)

  const NoChanges := MedicationPatch(None, None, None, None, None, None, None, None, None, None, None, None)

  function MedicationId(m: Medication): Option<string> {
    m.id
  }

  /** `{ ...m, ...u }`: a field present in `u` overwrites, an absent one keeps `m`'s value. */
  function Merge(m: Medication, u: MedicationPatch): Medication {
    Medication(
      if u.id.Some? then u.id else m.id,
      u.name.GetOr(m.name),
      u.dosage.GetOr(m.dosage),
      u.frequency.GetOr(m.frequency),
      if u.ndcCode.Some? then u.ndcCode else m.ndcCode,
      if u.rxnormId.Some? then u.rxnormId else m.rxnormId,
      u.isActive.GetOr(m.isActive),
      if u.prescribedBy.Some? then u.prescribedBy else m.prescribedBy,
      u.startDate.GetOr(m.startDate),
      if u.endDate.Some? then u.endDate else m.endDate,
      u.createdAt.GetOr(m.createdAt),
      if u.updatedAt.Some? then u.updatedAt else m.updatedAt)
  }

  /** Every field the update supplies already holds that value in `m`. */
  predicate AlreadyHolds(m: Medication, u: MedicationPatch) {
    && (u.id.Some? ==> u.id == m.id)
    && (u.name.Some? ==> u.name.value == m.name)
    && (u.dosage.Some? ==> u.dosage.value == m.dosage)
    && (u.frequency.Some? ==> u.frequency.value == m.frequency)
    && (u.ndcCode.Some? ==> u.ndcCode == m.ndcCode)
    && (u.rxnormId.Some? ==> u.rxnormId == m.rxnormId)
    && (u.isActive.Some? ==> u.isActive.value == m.isActive)
    && (u.prescribedBy.Some? ==> u.prescribedBy == m.prescribedBy)
    && (u.startDate.Some? ==> u.startDate.value == m.startDate)
    && (u.endDate.Some? ==> u.endDate == m.endDate)
    && (u.createdAt.Some? ==> u.createdAt.value == m.createdAt)
    && (u.updatedAt.Some? ==> u.updatedAt == m.updatedAt)
  }

  /**
   * An update leaves a medication as it was exactly when every field it supplies
   * already holds that value; in particular the update with no fields changes nothing.
   */
  lemma MergeUnchangedIff(m: Medication, u: MedicationPatch)
    ensures Merge(m, u) == m <==> AlreadyHolds(m, u)
    ensures Merge(m, NoChanges) == m
  {
  }

  /** Applying the same update twice is the same as applying it once. */
  lemma MergeIdempotent(m: Medication, u: MedicationPatch)
    ensures Merge(Merge(m, u), u) == Merge(m, u)
  {
  }

  /** The medication slice's state, updated in place by its reducers. */
  class MedicationStore {
    var medications: seq<Medication>
    var loading: bool
    var error: Option<string>

    /** `initialState`. */
    constructor ()
      ensures medications == [] && !loading && error == None
    {
      medications := [];
      loading := false;
      error := None;
    }

    /** `setMedications`: replaces the list and clears the loading and error flags. */
    method SetMedications(payload: seq<Medication>)
      modifies this
      ensures medications == payload && !loading && error == None
    {
      medications := payload;
      loading := false;
      error := None;
    }

    /** `addMedication`: `push`, so every earlier medication keeps its place. */
    method AddMedication(medication: Medication)
      modifies this
      ensures medications == old(medications) + [medication]
      ensures |medications| == |old(medications)| + 1 && medications[..|old(medications)|] == old(medications)
      ensures loading == old(loading) && error == old(error)
    {
      medications := medications + [medication];
    }

    /** `updateMedication`: merges the update into the first medication with the id, if any. */
    method UpdateMedication(id: string, updates: MedicationPatch)
      modifies this
      ensures medications == IdLists.UpdateFirst(old(medications), MedicationId, id, m => Merge(m, updates))
      ensures loading == old(loading) && error == old(error)
    {
      var index := IdLists.FindIndex(medications, MedicationId, id);
      if index != -1 {
        medications := medications[index := Merge(medications[index], updates)];
      }
    }

    /** `deleteMedication`: keeps every medication whose id differs, in order. */
    method DeleteMedication(id: string)
      modifies this
      ensures medications == IdLists.RemoveAll(old(medications), MedicationId, id)
      ensures loading == old(loading) && error == old(error)
    {
      medications := IdLists.RemoveAll(medications, MedicationId, id);
    }

    method SetLoading(value: bool)
      modifies this
      ensures loading == value
      ensures medications == old(medications) && error == old(error)
    {
      loading := value;
    }

    /** `setError`: records the message and clears the loading flag. */
    method SetError(message: string)
      modifies this
      ensures error == Some(message) && !loading
      ensures medications == old(medications)
    {
      error := Some(message);
      loading := false;
    }
  }
}
