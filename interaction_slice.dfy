/** The client's interaction findings: the stored list and the result of the latest check. */
module InteractionSlice {
  import opened Wrappers
  import Severity

  /** One interaction finding as the client holds it; `lastUpdated` is an ISO string. */
  datatype Interaction = Interaction(
    id: Option<string>,
    medicationId: Option<string>,
    supplementId: Option<string>,
    medicationName: Option<string>,
    supplementName: Option<string>,
    severityLevel: Severity.Level,
    description: string,
    recommendation: string,
    source: string,
    lastUpdated: string)

  /** The interaction slice's state, updated in place by its reducers. */
  class InteractionStore {
    var interactions: seq<Interaction>
    var currentCheck: seq<Interaction>
    var loading: bool
    var error: Option<string>

    /** `initialState`. */
    constructor ()
      ensures interactions == [] && currentCheck == [] && !loading && error == None
    {
      interactions := [];
      currentCheck := [];
      loading := false;
      error := None;
    }

    /** `setInteractions`: replaces the stored list and clears the flags; the current check stays. */
    method SetInteractions(payload: seq<Interaction>)
      modifies this
      ensures interactions == payload && !loading && error == None
      ensures currentCheck == old(currentCheck)
    {
      interactions := payload;
      loading := false;
      error := None;
    }

    /** `setCurrentCheck`: replaces the current check and nothing else. */
    method SetCurrentCheck(payload: seq<Interaction>)
      modifies this
      ensures currentCheck == payload
      ensures interactions == old(interactions) && loading == old(loading) && error == old(error)
    {
      currentCheck := payload;
    }

    /** `addInteraction`: `push` onto the stored list. */
    method AddInteraction(interaction: Interaction)
      modifies this
      ensures interactions == old(interactions) + [interaction]
      ensures currentCheck == old(currentCheck) && loading == old(loading) && error == old(error)
    {
      interactions := interactions + [interaction];
    }

    method SetLoading(value: bool)
      modifies this
      ensures loading == value
      ensures interactions == old(interactions) && currentCheck == old(currentCheck) && error == old(error)
    {
      loading := value;
    }

    /** `setError`: records the message and clears the loading flag. */
    method SetError(message: string)
      modifies this
      ensures error == Some(message) && !loading
      ensures interactions == old(interactions) && currentCheck == old(currentCheck)
    {
      error := Some(message);
      loading := false;
    }
  }
}
