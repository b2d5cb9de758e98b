/**
 * The submission form of `app/trial/page.tsx`: invalid input is reported and
 * sends nothing, any answer that is not ok is thrown, and the display names
 * carry a "Trial" suffix.
 */
module TrialForm {
  import opened Wrappers
  import opened FormCommon
  import SubmitApi

  /** `location === "Sevoke" ? "Sevoke Road Trial" : "Dagapur Trial"`. */
  function DisplayName(location: string): (d: string)
    ensures location == "Sevoke" ==> d == "Sevoke Road Trial"
    ensures location != "Sevoke" ==> d == "Dagapur Trial"
  {
    if location == "Sevoke" then "Sevoke Road Trial" else "Dagapur Trial"
  }

  /** Every answer that is not ok is thrown, as is a body that does not parse. */
  function SubmitError(reply: Reply): Option<string> {
    match reply
    case Thrown => Some(UnexpectedMessage)
    case Reply(status, body) =>
      if !IsOk(status) || body.None? then Some(UnexpectedMessage) else None
  }

  /** The only message a sent request can leave is the unexpected one. */
  lemma SubmitErrorCases(reply: Reply)
    ensures var e := SubmitError(reply);
      && (e.None? <==> reply.Reply? && IsOk(reply.status) && reply.body.Some?)
      && (e.Some? ==> e == Some(UnexpectedMessage))
  {
  }

  /** Against the real handler the form succeeds exactly when the insert does. */
  lemma ErrorsFromHandler(f: FormData, dbSucceeds: bool, now: SubmitApi.DateParts)
    requires SubmitApi.ValidClock(now)
    ensures SubmitError(SubmitApi.Handle(SubmitApi.Request("POST", Some(f)), dbSucceeds, now).response).None? <==> dbSucceeds
  {
  }

  class TrialForm {
    var selectedLocation: string
    var displayLocation: string
    var successMessage: string
    var youtubeLink: string
    var name: string
    var showValidation: bool
    var duplicateError: string

    /** The form's state cells as `useState` initialises them (the geolocation cells are not modelled). */
    constructor ()
      ensures selectedLocation == "" && displayLocation == "" && successMessage == ""
      ensures youtubeLink == "" && name == "" && !showValidation && duplicateError == ""
    {
      selectedLocation := "";
      displayLocation := "";
      successMessage := "";
      youtubeLink := "";
      name := "";
      showValidation := false;
      duplicateError := "";
    }

    /** `handleLocationSelect`. */
    method HandleLocationSelect(location: string)
      modifies this
      ensures selectedLocation == location && displayLocation == DisplayName(location)
      ensures successMessage == old(successMessage) && youtubeLink == old(youtubeLink) && name == old(name)
      ensures showValidation == old(showValidation) && duplicateError == old(duplicateError)
    {
      selectedLocation := location;
      displayLocation := DisplayName(location);
    }

    /**
     * `handleSubmit`: validation shows and the old error clears; a form
     * failing the guard gets the fill-in message and returns before any
     * request.
     */
    method HandleSubmit(reply: Reply) returns (request: Option<FormData>)
      modifies this
      ensures request.Some? <==> old(CanSubmit(selectedLocation, youtubeLink, name))
      ensures request.Some? ==> request.value == old(FormData(selectedLocation, youtubeLink, name))
      ensures request.None? ==>
        && showValidation && duplicateError == FillFieldsMessage
        && selectedLocation == old(selectedLocation) && displayLocation == old(displayLocation)
        && youtubeLink == old(youtubeLink) && name == old(name) && successMessage == old(successMessage)
      ensures request.Some? && SubmitError(reply).Some? ==>
        && showValidation && duplicateError == UnexpectedMessage
        && selectedLocation == old(selectedLocation) && displayLocation == old(displayLocation)
        && youtubeLink == old(youtubeLink) && name == old(name) && successMessage == old(successMessage)
      ensures request.Some? && SubmitError(reply).None? ==>
        && successMessage == SuccessMessage(old(displayLocation))
        && selectedLocation == "" && displayLocation == "" && youtubeLink == "" && name == ""
        && !showValidation && duplicateError == ""
    {
      var canSubmit := CanSubmit(selectedLocation, youtubeLink, name);
      showValidation := true;
      duplicateError := "";
      if !canSubmit {
        duplicateError := FillFieldsMessage;
        return None;
      }
      request := Some(FormData(selectedLocation, youtubeLink, name));
      ApplyOutcome(reply);
    }

    /** What the `try` block and its `catch` leave once the request has been sent. */
    method ApplyOutcome(reply: Reply)
      requires showValidation && duplicateError == ""
      modifies this
      ensures SubmitError(reply).Some? ==>
        && showValidation && duplicateError == UnexpectedMessage
        && selectedLocation == old(selectedLocation) && displayLocation == old(displayLocation)
        && youtubeLink == old(youtubeLink) && name == old(name) && successMessage == old(successMessage)
      ensures SubmitError(reply).None? ==>
        && successMessage == SuccessMessage(old(displayLocation))
        && selectedLocation == "" && displayLocation == "" && youtubeLink == "" && name == ""
        && !showValidation && duplicateError == ""
    {
      var e := SubmitError(reply);
      if e.Some? {
        duplicateError := e.value;
      } else {
        successMessage := SuccessMessage(displayLocation);
        selectedLocation := "";
        displayLocation := "";
        youtubeLink := "";
        name := "";
        showValidation := false;
        duplicateError := "";
      }
    }
  }
}
