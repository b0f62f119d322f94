/**
 * List operations the slices perform on records that carry an optional `id`:
 * `findIndex(x => x.id === id)`, assignment at the found index, `splice(i, 1)` and
 * `filter(x => x.id !== id)`. Each is generic in the record type; `idOf` projects
 * a record onto its optional `id`, so a record without an `id` (`None`) never
 * equals the searched string.
 */
module IdLists {
  import opened Wrappers

  /** The index of the first element whose id is `id`, or -1 when there is none. */
  function FindIndex<T>(s: seq<T>, idOf: T -> Option<string>, id: string): (r: int)
    ensures -1 <= r < |s|
    ensures r == -1 <==> forall j :: 0 <= j < |s| ==> idOf(s[j]) != Some(id)
    ensures 0 <= r ==> idOf(s[r]) == Some(id)
    ensures forall j :: 0 <= j < r ==> idOf(s[j]) != Some(id)
  {
    if |s| == 0 then -1
    else if idOf(s[0]) == Some(id) then 0
    else
      var k := FindIndex(s[1..], idOf, id);
      if k == -1 then -1 else k + 1
  }

  /** FindIndex looks at ids only: two lists with the same ids give the same index. */
  lemma {:induction false} FindIndexSameIds<T>(s: seq<T>, t: seq<T>, idOf: T -> Option<string>, id: string)
    requires |s| == |t|
    requires forall j :: 0 <= j < |s| ==> idOf(s[j]) == idOf(t[j])
    ensures FindIndex(s, idOf, id) == FindIndex(t, idOf, id)
  {
    if |s| > 0 {
      FindIndexSameIds(s[1..], t[1..], idOf, id);
    }
  }

  /**
   * `const i = s.findIndex(...); if (i !== -1) s[i] = f(s[i])`: only the first element
   * with the id may change, the length never does, and nothing changes without a match.
   */
  function UpdateFirst<T>(s: seq<T>, idOf: T -> Option<string>, id: string, f: T -> T): (r: seq<T>)
    ensures |r| == |s|
    ensures forall j :: 0 <= j < |s| && r[j] != s[j] ==>
      idOf(s[j]) == Some(id) && forall k :: 0 <= k < j ==> idOf(s[k]) != Some(id)
    ensures forall j :: 0 <= j < |s| && idOf(s[j]) == Some(id) && (forall k :: 0 <= k < j ==> idOf(s[k]) != Some(id)) ==>
      r[j] == f(s[j])
    ensures (forall j :: 0 <= j < |s| ==> idOf(s[j]) != Some(id)) ==> r == s
  {
    var i := FindIndex(s, idOf, id);
    if i == -1 then s else s[i := f(s[i])]
  }

  /** `s.splice(i, 1)`: drops element `i`; the others keep their relative order. */
  function RemoveAt<T>(s: seq<T>, i: int): (r: seq<T>)
    requires 0 <= i < |s|
    ensures |r| == |s| - 1
    ensures forall j :: 0 <= j < i ==> r[j] == s[j]
    ensures forall j :: i <= j < |r| ==> r[j] == s[j + 1]
  {
    s[..i] + s[i + 1..]
  }

  /** `s.filter(x => x.id !== id)`: afterwards no element carries the id. */
  function RemoveAll<T>(s: seq<T>, idOf: T -> Option<string>, id: string): (r: seq<T>)
    ensures |r| <= |s|
    ensures forall j :: 0 <= j < |r| ==> idOf(r[j]) != Some(id)
  {
    if s == [] then []
    else
      var rest := RemoveAll(s[1..], idOf, id);
      if idOf(s[0]) == Some(id) then rest else [s[0]] + rest
  }

  /** Filtering distributes over concatenation, so the survivors keep their order. */
  lemma {:induction false} RemoveAllAppend<T>(a: seq<T>, b: seq<T>, idOf: T -> Option<string>, id: string)
    ensures RemoveAll(a + b, idOf, id) == RemoveAll(a, idOf, id) + RemoveAll(b, idOf, id)
  {
    if a == [] {
      assert a + b == b;
    } else {
      assert (a + b)[1..] == a[1..] + b;
      RemoveAllAppend(a[1..], b, idOf, id);
    }
  }

  /**
   * Exactly the elements with the id go: every other element keeps its number of
   * occurrences, in particular every element whose id is absent.
   */
  lemma {:induction false} RemoveAllOccurrences<T>(s: seq<T>, idOf: T -> Option<string>, id: string, x: T)
    ensures multiset(RemoveAll(s, idOf, id))[x] == if idOf(x) == Some(id) then 0 else multiset(s)[x]
  {
    if s != [] {
      RemoveAllOccurrences(s[1..], idOf, id, x);
      assert s == [s[0]] + s[1..];
    }
  }

  /** The list is left as it was exactly when no element carries the id. */
  lemma {:induction false} RemoveAllUnchanged<T>(s: seq<T>, idOf: T -> Option<string>, id: string)
    ensures RemoveAll(s, idOf, id) == s <==> forall j :: 0 <= j < |s| ==> idOf(s[j]) != Some(id)
  {
    if s != [] {
      RemoveAllUnchanged(s[1..], idOf, id);
      assert s == [s[0]] + s[1..];
    }
  }

  /** Deleting the same id twice is the same as deleting it once. */
  lemma RemoveAllIdempotent<T>(s: seq<T>, idOf: T -> Option<string>, id: string)
    ensures RemoveAll(RemoveAll(s, idOf, id), idOf, id) == RemoveAll(s, idOf, id)
  {
    RemoveAllUnchanged(RemoveAll(s, idOf, id), idOf, id);
  }
}
