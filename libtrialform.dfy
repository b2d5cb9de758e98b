/**
 * The submission form of `lib/trial/page.tsx`: the same guard and success
 * path as the home form, but an answer that is not ok shows the server's own
 * `error` text when it has one.
 */
module LibTrialForm {
  import opened Wrappers
  import opened FormCommon
  import SubmitApi

  /** `handleLocationSelect`'s two branches: "Sevoke" shows as "Sevoke Road", anything else as itself. */
  function DisplayName(location: string): (d: string)
    ensures location == "Sevoke" ==> d == "Sevoke Road"
    ensures location != "Sevoke" ==> d == location
  {
    if location == "Sevoke" then "Sevoke Road" else location
  }

  /**
   * The message a sent request leaves, or `None` for success: an answer that
   * is not ok shows `errorData.error || <generic message>`; a body that does
   * not parse, or a thrown `fetch`, shows the unexpected message.
   */
  function SubmitError(reply: Reply): Option<string> {
    match reply
    case Thrown => Some(UnexpectedMessage)
    case Reply(status, body) =>
      if body.None? then Some(UnexpectedMessage)
      else if IsOk(status) then None
      else if body.value.error.Some? && body.value.error.value != "" then Some(body.value.error.value)
      else Some(GenericMessage)
  }

  /**
   * Success exactly for an ok answer whose body parses; a truthy server
   * `error` is shown as it is; an answer without one shows the generic message.
   */
  lemma SubmitErrorCases(reply: Reply)
    ensures var e := SubmitError(reply);
      && (e.None? <==> reply.Reply? && IsOk(reply.status) && reply.body.Some?)
      && (reply.Reply? && !IsOk(reply.status) && reply.body.Some? ==>
            e == Some(if reply.body.value.error.Some? && reply.body.value.error.value != ""
                      then reply.body.value.error.value else GenericMessage))
      && (reply.Thrown? || reply.body.None? ==> e == Some(UnexpectedMessage))
      && (e.Some? ==> e.value != "")
  {
  }

  /** Against the real handler a failed insert shows the handler's own text. */
  lemma ErrorsFromHandler(f: FormData, dbSucceeds: bool, now: SubmitApi.DateParts)
    requires SubmitApi.ValidClock(now)
    ensures var e := SubmitError(SubmitApi.Handle(SubmitApi.Request("POST", Some(f)), dbSucceeds, now).response);
      && (e.None? <==> dbSucceeds)
      && (e.Some? ==> e == Some(SubmitApi.SaveFailedMessage))
  {
    var o := SubmitApi.Handle(SubmitApi.Request("POST", Some(f)), dbSucceeds, now);
    assert SubmitApi.SaveFailedMessage != "";
  }

  class LibTrialForm {
    var selectedLocation: string
    var displayLocation: string
    var successMessage: string
    var youtubeLink: string
    var name: string
    var showValidation: bool
    var errorMessage: string

    /** The state cells as `useState` initialises them. */
    constructor ()
      ensures selectedLocation == "" && displayLocation == "" && successMessage == ""
      ensures youtubeLink == "" && name == "" && !showValidation && errorMessage == ""
    {
      selectedLocation := "";
      displayLocation := "";
      successMessage := "";
      youtubeLink := "";
      name := "";
      showValidation := false;
      errorMessage := "";
    }

    /** `handleLocationSelect`. */
    method HandleLocationSelect(location: string)
      modifies this
      ensures selectedLocation == location && displayLocation == DisplayName(location)
      ensures successMessage == old(successMessage) && youtubeLink == old(youtubeLink) && name == old(name)
      ensures showValidation == old(showValidation) && errorMessage == old(errorMessage)
    {
      if location == "Sevoke" {
        selectedLocation := "Sevoke";
        displayLocation := "Sevoke Road";
      } else {
        selectedLocation := location;
        displayLocation := location;
      }
    }

    /**
     * `handleSubmit`: validation shows and the old error clears; only a form
     * passing the guard is sent, so invalid input leaves `errorMessage` empty.
     */
    method HandleSubmit(reply: Reply) returns (request: Option<FormData>)
      modifies this
      ensures request.Some? <==> old(CanSubmit(selectedLocation, youtubeLink, name))
      ensures request.Some? ==> request.value == old(FormData(selectedLocation, youtubeLink, name))
      ensures request.None? ==>
        && showValidation && errorMessage == ""
        && selectedLocation == old(selectedLocation) && displayLocation == old(displayLocation)
        && youtubeLink == old(youtubeLink) && name == old(name) && successMessage == old(successMessage)
      ensures request.Some? && SubmitError(reply).Some? ==>
        && showValidation && errorMessage == SubmitError(reply).value
        && selectedLocation == old(selectedLocation) && displayLocation == old(displayLocation)
        && youtubeLink == old(youtubeLink) && name == old(name) && successMessage == old(successMessage)
      ensures request.Some? && SubmitError(reply).None? ==>
        && successMessage == SuccessMessage(old(displayLocation))
        && selectedLocation == "" && displayLocation == "" && youtubeLink == "" && name == ""
        && !showValidation && errorMessage == ""
    {
      var canSubmit := CanSubmit(selectedLocation, youtubeLink, name);
      showValidation := true;
      errorMessage := "";
      if canSubmit {
        request := Some(FormData(selectedLocation, youtubeLink, name));
        ApplyOutcome(reply);
      } else {
        request := None;
      }
    }

    /** What the `try` block and its `catch` leave once the request has been sent. */
    method ApplyOutcome(reply: Reply)
      requires showValidation && errorMessage == ""
      modifies this
      ensures SubmitError(reply).Some? ==>
        && showValidation && errorMessage == SubmitError(reply).value
        && selectedLocation == old(selectedLocation) && displayLocation == old(displayLocation)
        && youtubeLink == old(youtubeLink) && name == old(name) && successMessage == old(successMessage)
      ensures SubmitError(reply).None? ==>
        && successMessage == SuccessMessage(old(displayLocation))
        && selectedLocation == "" && displayLocation == "" && youtubeLink == "" && name == ""
        && !showValidation && errorMessage == ""
    {
      var e := SubmitError(reply);
      if e.Some? {
        errorMessage := e.value;
      } else {
        successMessage := SuccessMessage(displayLocation);
        selectedLocation := "";
        displayLocation := "";
        youtubeLink := "";
        name := "";
        showValidation := false;
        errorMessage := "";
      }
    }
  }
}
