/**
 * The submission form of `app/page.tsx`: choosing a location, the submit
 * guard, and what each way a request can end leaves on the form.  The
 * request is returned to the caller, and how it ended comes in as a `Reply`.
 */
module HomeForm {
  import opened Wrappers
  import opened FormCommon
  import SubmitApi

  /** `location === "Sevoke" ? "Sevoke Road" : location`. */
  function DisplayName(location: string): (d: string)
    ensures location == "Sevoke" ==> d == "Sevoke Road"
    ensures location != "Sevoke" ==> d == location
  {
    if location == "Sevoke" then "Sevoke Road" else location
  }

  /**
   * The message a sent request leaves, or `None` for success.  An answer that
   * is not ok has its JSON read first; a 400 with `error === "duplicate_song"`
   * gives the duplicate message, another 400 the generic one, and any other
   * status is rethrown.  An ok answer has its JSON read too, so a body that
   * does not parse throws as well; every throw gives the unexpected message.
   */
  function SubmitError(reply: Reply): Option<string> {
    match reply
    case Thrown => Some(UnexpectedMessage)
    case Reply(status, body) =>
      if body.None? then Some(UnexpectedMessage)
      else if IsOk(status) then None
      else if status == 400 then
        (if body.value.error == Some("duplicate_song") then Some(DuplicateMessage) else Some(GenericMessage))
      else Some(UnexpectedMessage)
  }

  /**
   * Each message names one outcome: success exactly for an ok answer whose
   * body parses, the duplicate message exactly for a 400 whose `error` is
   * `duplicate_song`, the generic one exactly for any other 400 with a body,
   * and the unexpected message for everything else.
   */
  lemma SubmitErrorCases(reply: Reply)
    ensures var e := SubmitError(reply);
      && (e.None? <==> reply.Reply? && IsOk(reply.status) && reply.body.Some?)
      && (e == Some(DuplicateMessage) <==>
            reply.Reply? && reply.status == 400 && reply.body == Some(JsonBody(Some("duplicate_song"))))
      && (e == Some(GenericMessage) <==>
            reply.Reply? && reply.status == 400 && reply.body.Some? && reply.body.value.error != Some("duplicate_song"))
      && (e.Some? ==> e.value == DuplicateMessage || e.value == GenericMessage || e.value == UnexpectedMessage)
  {
    MessagesDistinct();
  }

  /**
   * Against the real handler the 400 branches are dead: a sent form either
   * succeeds, exactly when the insert does, or shows the unexpected message.
   */
  lemma ErrorsFromHandler(f: FormData, dbSucceeds: bool, now: SubmitApi.DateParts)
    requires SubmitApi.ValidClock(now)
    ensures var e := SubmitError(SubmitApi.Handle(SubmitApi.Request("POST", Some(f)), dbSucceeds, now).response);
      && (e.None? <==> dbSucceeds)
      && (e.Some? ==> e == Some(UnexpectedMessage))
  {
    SubmitApi.NeverBadRequest(SubmitApi.Request("POST", Some(f)), dbSucceeds, now);
    SubmitErrorCases(SubmitApi.Handle(SubmitApi.Request("POST", Some(f)), dbSucceeds, now).response);
  }

  class HomeForm {
    var selectedLocation: string
    var displayLocation: string
    var successMessage: string
    var youtubeLink: string
    var name: string
    var showValidation: bool
    var duplicateError: string

    /** The state cells as `useState` initialises them. */
    constructor ()
      ensures selectedLocation == "" && displayLocation == "" && successMessage == ""
      ensures youtubeLink == "" && name == "" && !showValidation && duplicateError == ""
    {
      selectedLocation := "";
      displayLocation := "";
      successMessage := "";
      youtubeLink := "";
      name := "";
      showValidation := false;
      duplicateError := "";
    }

    /** `handleLocationSelect`. */
    method HandleLocationSelect(location: string)
      modifies this
      ensures selectedLocation == location && displayLocation == DisplayName(location)
      ensures successMessage == old(successMessage) && youtubeLink == old(youtubeLink) && name == old(name)
      ensures showValidation == old(showValidation) && duplicateError == old(duplicateError)
    {
      selectedLocation := location;
      displayLocation := DisplayName(location);
    }

    /**
     * `handleSubmit`: validation shows and the old error clears; only a form
     * passing the guard is sent, and `reply` is how that request ended.
     */
    method HandleSubmit(reply: Reply) returns (request: Option<FormData>)
      modifies this
      ensures request.Some? <==> old(CanSubmit(selectedLocation, youtubeLink, name))
      ensures request.Some? ==> request.value == old(FormData(selectedLocation, youtubeLink, name))
      ensures request.None? ==>
        && showValidation && duplicateError == ""
        && selectedLocation == old(selectedLocation) && displayLocation == old(displayLocation)
        && youtubeLink == old(youtubeLink) && name == old(name) && successMessage == old(successMessage)
      ensures request.Some? && SubmitError(reply).Some? ==>
        && showValidation && duplicateError == SubmitError(reply).value
        && selectedLocation == old(selectedLocation) && displayLocation == old(displayLocation)
        && youtubeLink == old(youtubeLink) && name == old(name) && successMessage == old(successMessage)
      ensures request.Some? && SubmitError(reply).None? ==>
        && successMessage == SuccessMessage(old(displayLocation))
        && selectedLocation == "" && displayLocation == "" && youtubeLink == "" && name == ""
        && !showValidation && duplicateError == ""
    {
      var canSubmit := CanSubmit(selectedLocation, youtubeLink, name);
      showValidation := true;
      duplicateError := "";
      if canSubmit {
        request := Some(FormData(selectedLocation, youtubeLink, name));
        ApplyOutcome(reply);
      } else {
        request := None;
      }
    }

    /** What the `try` block and its `catch` leave once the request has been sent. */
    method ApplyOutcome(reply: Reply)
      requires showValidation && duplicateError == ""
      modifies this
      ensures SubmitError(reply).Some? ==>
        && showValidation && duplicateError == SubmitError(reply).value
        && selectedLocation == old(selectedLocation) && displayLocation == old(displayLocation)
        && youtubeLink == old(youtubeLink) && name == old(name) && successMessage == old(successMessage)
      ensures SubmitError(reply).None? ==>
        && successMessage == SuccessMessage(old(displayLocation))
        && selectedLocation == "" && displayLocation == "" && youtubeLink == "" && name == ""
        && !showValidation && duplicateError == ""
    {
      var e := SubmitError(reply);
      if e.Some? {
        duplicateError := e.value;
      } else {
        successMessage := SuccessMessage(displayLocation);
        selectedLocation := "";
        displayLocation := "";
        youtubeLink := "";
        name := "";
        showValidation := false;
        duplicateError := "";
      }
    }
  }
}
