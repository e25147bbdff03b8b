/** The `validations` slice of the frontend store
    (`frontend/src/store/slices/validationSlice.ts`): its state and every
    reducer, each a method that updates the state in place for a given action
    payload. The async thunks and their HTTP calls are outside the model. */
module ValidationSlice {
  import opened Wrappers
  import opened FrontendTypes
  import Reducers

  /** The message stored when fetching the list fails without one. */
  const FetchFailed: string := "Failed to fetch validations"

  /** `ValidationState` as a value. */
  datatype ValidationState = ValidationState(
    validations: seq<Validation>,
    currentValidation: Option<Validation>,
    loading: bool,
    error: Option<string>)

  /** `initialState`. */
  const Initial: ValidationState := ValidationState([], None, false, None)

  class ValidationStore {
    var validations: seq<Validation>
    var currentValidation: Option<Validation>
    var loading: bool
    var error: Option<string>

    /** The whole state of the slice. */
    function State(): ValidationState
      reads this
    {
      ValidationState(validations, currentValidation, loading, error)
    }

    /** The store starts from `initialState`: no validations, nothing current,
        not loading and no error. */
    constructor ()
      ensures State() == Initial
    {
      validations := [];
      currentValidation := None;
      loading := false;
      error := None;
    }

    /** `clearError`: only the error is cleared. */
    method ClearError()
      modifies this`error
      ensures State() == old(State()).(error := None)
    {
      error := None;
    }

    /** `fetchValidations.pending`: loading starts; an earlier error stays. */
    method FetchValidationsPending()
      modifies this`loading
      ensures State() == old(State()).(loading := true)
    {
      loading := true;
    }

    /** `fetchValidations.fulfilled`: loading ends and the list is exactly the payload. */
    method FetchValidationsFulfilled(payload: seq<Validation>)
      modifies this`loading, this`validations
      ensures State() == old(State()).(loading := false, validations := payload)
    {
      loading := false;
      validations := payload;
    }

    /** `fetchValidations.rejected`: loading ends and the error is the message,
        or the fallback when the message is missing or empty; the list stays. */
    method FetchValidationsRejected(message: Option<string>)
      modifies this`loading, this`error
      ensures State() == old(State()).(loading := false, error := Some(Reducers.RejectedMessage(message, FetchFailed)))
      ensures error.Some? && error.value != ""
    {
      loading := false;
      error := Some(Reducers.RejectedMessage(message, FetchFailed));
    }

    /** `fetchValidation.fulfilled`: only the current validation is set. */
    method FetchValidationFulfilled(payload: Validation)
      modifies this`currentValidation
      ensures State() == old(State()).(currentValidation := Some(payload))
    {
      currentValidation := Some(payload);
    }

    /** `createValidation.fulfilled`: the payload is pushed at the end. */
    method CreateValidationFulfilled(payload: Validation)
      modifies this`validations
      ensures State() == old(State()).(validations := old(validations) + [payload])
      ensures |validations| == |old(validations)| + 1 && validations[..|old(validations)|] == old(validations)
    {
      validations := validations + [payload];
    }

    /** `updateValidation.fulfilled`: the first validation with the payload's id
        is replaced; with none, nothing changes. */
    method UpdateValidationFulfilled(payload: Validation)
      modifies this`validations
      ensures State() == old(State()).(validations := Reducers.ReplaceFirst(old(validations), ValidationId, payload))
      ensures |validations| == |old(validations)|
    {
      var index := Reducers.FindIndex(validations, ValidationId, payload.id);
      if index != -1 {
        validations := validations[index := payload];
      }
    }

    /** `deleteValidation.fulfilled`: every validation with the id is filtered out. */
    method DeleteValidationFulfilled(id: int)
      modifies this`validations
      ensures State() == old(State()).(validations := Reducers.RemoveAll(old(validations), ValidationId, id))
      ensures forall i :: 0 <= i < |validations| ==> validations[i].id != id
    {
      validations := Reducers.RemoveAll(validations, ValidationId, id);
    }

    /** `runValidation.fulfilled`: the run's result replaces the first validation
        with its id, exactly as an update does. */
    method RunValidationFulfilled(payload: Validation)
      modifies this`validations
      ensures State() == old(State()).(validations := Reducers.ReplaceFirst(old(validations), ValidationId, payload))
      ensures |validations| == |old(validations)|
    {
      var index := Reducers.FindIndex(validations, ValidationId, payload.id);
      if index != -1 {
        validations := validations[index := payload];
      }
    }
  }
}
