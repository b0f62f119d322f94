/**
 * The client's OCR store: the label-scanning session in progress and a history of
 * past sessions, newest first and never longer than ten.
 */
module OcrSlice {
  import opened Wrappers
  import Json

  /** "Keep only last 10 sessions". */
  const MaxHistory: nat := 10

  datatype Status = Processing | Completed | Failed

  /**
   * One recognition session. `medications` is untyped data from the recognizer and
   * `confidence` an opaque score; neither is interpreted here.
   */
  datatype OcrResult = OcrResult(
    sessionId: string,
    extractedText: string,
    medications: seq<Json.Value>,
    confidence: real,
    status: Status,
    createdAt: string)

  function Min(a: int, b: int): int {
    if a < b then a else b
  }

  /**
   * The history after `addToHistory(x)`: `x` first, then the previous entries in order,
   * with the oldest dropped once there would be more than ten.
   */
  function PushHistory(h: seq<OcrResult>, x: OcrResult): (r: seq<OcrResult>)
    ensures |r| == Min(|h| + 1, MaxHistory)
    ensures r == [x] + h[..Min(|h|, MaxHistory - 1)]
  {
    var u := [x] + h;
    if |u| > MaxHistory then u[..MaxHistory] else u
  }

  /** The history built by adding `xs` one after the other, starting empty. */
  ghost function Replay(xs: seq<OcrResult>): seq<OcrResult> {
    if xs == [] then [] else PushHistory(Replay(xs[..|xs| - 1]), xs[|xs| - 1])
  }

  ghost function Reversed(xs: seq<OcrResult>): (r: seq<OcrResult>)
    ensures |r| == |xs|
  {
    if xs == [] then [] else [xs[|xs| - 1]] + Reversed(xs[..|xs| - 1])
  }

  /** From the initial empty history, the history is always the ten most recent sessions, newest first. */
  lemma {:induction false} ReplayKeepsNewest(xs: seq<OcrResult>)
    ensures Replay(xs) == Reversed(xs)[..Min(|xs|, MaxHistory)]
    ensures |Replay(xs)| <= MaxHistory
  {
    if xs != [] {
      var ys, x := xs[..|xs| - 1], xs[|xs| - 1];
      ReplayKeepsNewest(ys);
      var h := Replay(ys);
      assert |h| == Min(|ys|, MaxHistory);
      assert Reversed(xs) == [x] + Reversed(ys);
      calc {
        Replay(xs);
        PushHistory(h, x);
        [x] + h[..Min(|h|, MaxHistory - 1)];
        [x] + Reversed(ys)[..Min(|ys|, MaxHistory - 1)];
        ([x] + Reversed(ys))[..Min(|xs|, MaxHistory)];
      }
    }
  }

  /** The OCR slice's state, updated in place by its reducers. */
  class OcrStore {
    var currentSession: Option<OcrResult>
    var history: seq<OcrResult>
    var loading: bool
    var error: Option<string>

    /** The history bound every reducer keeps. */
    ghost predicate Valid()
      reads this
    {
      |history| <= MaxHistory
    }

    /** `initialState`. */
    constructor ()
      ensures Valid()
      ensures currentSession == None && history == [] && !loading && error == None
    {
      currentSession := None;
      history := [];
      loading := false;
      error := None;
    }

    /** `setCurrentSession`: replaces the session (`None` clears it) and nothing else. */
    method SetCurrentSession(session: Option<OcrResult>)
      modifies this
      ensures currentSession == session
      ensures history == old(history) && loading == old(loading) && error == old(error)
      ensures old(Valid()) ==> Valid()
    {
      currentSession := session;
    }

    /** `updateSessionStatus`: sets the status of the current session if its id matches; otherwise a no-op. */
    method UpdateSessionStatus(sessionId: string, status: Status)
      modifies this
      ensures old(currentSession).Some? && old(currentSession).value.sessionId == sessionId ==>
        currentSession == Some(old(currentSession).value.(status := status))
      ensures !(old(currentSession).Some? && old(currentSession).value.sessionId == sessionId) ==>
        currentSession == old(currentSession)
      ensures history == old(history) && loading == old(loading) && error == old(error)
      ensures old(Valid()) ==> Valid()
    {
      if currentSession.Some? && currentSession.value.sessionId == sessionId {
        currentSession := Some(currentSession.value.(status := status));
      }
    }

    /** `addToHistory`: `unshift`, then truncation to the ten newest entries. */
    method AddToHistory(session: OcrResult)
      modifies this
      ensures history == PushHistory(old(history), session)
      ensures history[0] == session && |history| <= MaxHistory
      ensures currentSession == old(currentSession) && loading == old(loading) && error == old(error)
      ensures Valid()
    {
      history := [session] + history;
      if |history| > MaxHistory {
        history := history[..MaxHistory];
      }
    }

    method SetLoading(value: bool)
      modifies this
      ensures loading == value
      ensures currentSession == old(currentSession) && history == old(history) && error == old(error)
      ensures old(Valid()) ==> Valid()
    {
      loading := value;
    }

    /** `setError`: records the message and clears the loading flag. */
    method SetError(message: string)
      modifies this
      ensures error == Some(message) && !loading
      ensures currentSession == old(currentSession) && history == old(history)
      ensures old(Valid()) ==> Valid()
    {
      error := Some(message);
      loading := false;
    }
  }
}
