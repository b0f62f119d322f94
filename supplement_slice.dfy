/** The client's supplement list, with its loading and error flags. */
module SupplementSlice {
  import opened Wrappers
  import IdLists

  datatype Category = Vitamin | Mineral | Herb | Protein | Other

  /** One supplement; dates are ISO strings. */
  datatype Supplement = Supplement(
    id: Option<string>,
    name: string,
    dosage: string,
    frequency: string,
    category: Category,
    brand: Option<string>,
    isActive: bool,
    startDate: string,
    createdAt: string,
    updatedAt: Option<string>)

  /** `Partial<Supplement>`: `Some` marks a field present in the update. */
  datatype SupplementPatch = SupplementPatch(
    id: Option<string>,
    name: Option<string>,
    dosage: Option<string>,
    frequency: Option<string>,
    category: Option<Category>,
    brand: Option<string>,
    isActive: Option<bool>,
    startDate: Option<string>,
    createdAt: Option<string>,
    updatedAt: Option<string>)

  const NoChanges := SupplementPatch(None, None, None, None, None, None, None, None, None, None)

  function SupplementId(s: Supplement): Option<string> {
    s.id
  }

  /** `{ ...s, ...u }`: a field present in `u` overwrites, an absent one keeps `s`'s value. */
  function Merge(s: Supplement, u: SupplementPatch): Supplement {
    Supplement(
      if u.id.Some? then u.id else s.id,
      u.name.GetOr(s.name),
      u.dosage.GetOr(s.dosage),
      u.frequency.GetOr(s.frequency),
      u.category.GetOr(s.category),
      if u.brand.Some? then u.brand else s.brand,
      u.isActive.GetOr(s.isActive),
      u.startDate.GetOr(s.startDate),
      u.createdAt.GetOr(s.createdAt),
      if u.updatedAt.Some? then u.updatedAt else s.updatedAt)
  }

  /** Every field the update supplies already holds that value in `s`. */
  predicate AlreadyHolds(s: Supplement, u: SupplementPatch) {
    && (u.id.Some? ==> u.id == s.id)
    && (u.name.Some? ==> u.name.value == s.name)
    && (u.dosage.Some? ==> u.dosage.value == s.dosage)
    && (u.frequency.Some? ==> u.frequency.value == s.frequency)
    && (u.category.Some? ==> u.category.value == s.category)
    && (u.brand.Some? ==> u.brand == s.brand)
    && (u.isActive.Some? ==> u.isActive.value == s.isActive)
    && (u.startDate.Some? ==> u.startDate.value == s.startDate)
    && (u.createdAt.Some? ==> u.createdAt.value == s.createdAt)
    && (u.updatedAt.Some? ==> u.updatedAt == s.updatedAt)
  }

  /**
   * An update leaves a supplement as it was exactly when every field it supplies
   * already holds that value; in particular the update with no fields changes nothing.
   */
  lemma MergeUnchangedIff(s: Supplement, u: SupplementPatch)
    ensures Merge(s, u) == s <==> AlreadyHolds(s, u)
    ensures Merge(s, NoChanges) == s
  {
  }

  /** Applying the same update twice is the same as applying it once. */
  lemma MergeIdempotent(s: Supplement, u: SupplementPatch)
    ensures Merge(Merge(s, u), u) == Merge(s, u)
  {
  }

  /** The supplement slice's state, updated in place by its reducers. */
  class SupplementStore {
    var supplements: seq<Supplement>
    var loading: bool
    var error: Option<string>

    /** `initialState`. */
    constructor ()
      ensures supplements == [] && !loading && error == None
    {
      supplements := [];
      loading := false;
      error := None;
    }

    /** `setSupplements`: replaces the list and clears the loading and error flags. */
    method SetSupplements(payload: seq<Supplement>)
      modifies this
      ensures supplements == payload && !loading && error == None
    {
      supplements := payload;
      loading := false;
      error := None;
    }

    /** `addSupplement`: `push`, so every earlier supplement keeps its place. */
    method AddSupplement(supplement: Supplement)
      modifies this
      ensures supplements == old(supplements) + [supplement]
      ensures |supplements| == |old(supplements)| + 1 && supplements[..|old(supplements)|] == old(supplements)
      ensures loading == old(loading) && error == old(error)
    {
      supplements := supplements + [supplement];
    }

    /** `updateSupplement`: merges the update into the first supplement with the id, if any. */
    method UpdateSupplement(id: string, updates: SupplementPatch)
      modifies this
      ensures supplements == IdLists.UpdateFirst(old(supplements), SupplementId, id, s => Merge(s, updates))
      ensures loading == old(loading) && error == old(error)
    {
      var index := IdLists.FindIndex(supplements, SupplementId, id);
      if index != -1 {
        supplements := supplements[index := Merge(supplements[index], updates)];
      }
    }

    /** `deleteSupplement`: keeps every supplement whose id differs, in order. */
    method DeleteSupplement(id: string)
      modifies this
      ensures supplements == IdLists.RemoveAll(old(supplements), SupplementId, id)
      ensures loading == old(loading) && error == old(error)
    {
      supplements := IdLists.RemoveAll(supplements, SupplementId, id);
    }

    method SetLoading(value: bool)
      modifies this
      ensures loading == value
      ensures supplements == old(supplements) && error == old(error)
    {
      loading := value;
    }

    /** `setError`: records the message and clears the loading flag. */
    method SetError(message: string)
      modifies this
      ensures error == Some(message) && !loading
      ensures supplements == old(supplements)
    {
      error := Some(message);
      loading := false;
    }
  }
}
