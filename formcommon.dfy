/**
 * What the three submission forms share: the `youtubeLink.trim()` test, the
 * submit guard, the messages they show, the data they post and the way a
 * response reaches them.
 */
module FormCommon {
  import opened Wrappers
  import YoutubeLink

  /** The characters `String.prototype.trim` removes: white space and line terminators. */
  predicate IsJsSpace(c: char) {
    || c == '\t' || c == '\n' || c == '\U{000B}' || c == '\U{000C}' || c == '\r' || c == ' '
    || c == '\U{00A0}' || c == '\U{1680}' || ('\U{2000}' <= c <= '\U{200A}')
    || c == '\U{2028}' || c == '\U{2029}' || c == '\U{202F}' || c == '\U{205F}'
    || c == '\U{3000}' || c == '\U{FEFF}'
  }

  predicate IsBlank(s: string) {
    forall i :: 0 <= i < |s| ==> IsJsSpace(s[i])
  }

  /** `s` with its leading white space removed. */
  function TrimStart(s: string): (r: string)
    ensures |r| <= |s| && r == s[|s| - |r|..]
    ensures IsBlank(s[..|s| - |r|])
    ensures r == [] || !IsJsSpace(r[0])
  {
    if s != [] && IsJsSpace(s[0]) then
      var r := TrimStart(s[1..]);
      assert s[..|s| - |r|] == [s[0]] + s[1..][..|s[1..]| - |r|];
      r
    else s
  }

  /** `s` with its trailing white space removed. */
  function TrimEnd(s: string): (r: string)
    ensures |r| <= |s| && r == s[..|r|]
    ensures IsBlank(s[|r|..])
    ensures r == [] || !IsJsSpace(r[|r| - 1])
  {
    if s != [] && IsJsSpace(s[|s| - 1]) then
      var r := TrimEnd(s[..|s| - 1]);
      assert s[|r|..] == s[..|s| - 1][|r|..] + [s[|s| - 1]];
      r
    else s
  }

  /** `String.prototype.trim`. */
  function Trim(s: string): string {
    TrimEnd(TrimStart(s))
  }

  /** `s.trim()` is falsy exactly when `s` is all white space. */
  lemma TrimEmptyIffBlank(s: string)
    ensures Trim(s) == [] <==> IsBlank(s)
  {
    var t := TrimStart(s);
    if Trim(s) == [] {
      assert IsBlank(t) by {
        assert t[0..] == t;
      }
      assert t == [];
      assert s[..|s| - |t|] == s;
    }
  }

  /** The guard `selectedLocation && youtubeLink.trim() && name && isValidYoutubeLink(youtubeLink)`. */
  predicate CanSubmit(location: string, link: string, name: string) {
    location != "" && Trim(link) != "" && name != "" && YoutubeLink.IsValidYoutubeLink(link)
  }

  /** The trim test never decides: a link the validator accepts is never blank. */
  lemma CanSubmitIff(location: string, link: string, name: string)
    ensures CanSubmit(location, link, name) <==> location != "" && name != "" && YoutubeLink.IsValidYoutubeLink(link)
  {
    if YoutubeLink.IsValidYoutubeLink(link) {
      YoutubeLink.ValidLinkHasHost(link);
      var b := YoutubeLink.SchemeLength(link) + YoutubeLink.WwwLength(link[YoutubeLink.SchemeLength(link)..]);
      assert !IsJsSpace(link[b]);
      TrimEmptyIffBlank(link);
    }
  }

  const DuplicateMessage := "This song is already in the queue " + "for the selected location. " + "Please choose a different song."
  const GenericMessage := "An error occurred while submitting " + "the form. Please try again."
  const UnexpectedMessage := "An unexpected error occurred. " + "Please try again later."
  const FillFieldsMessage := "Please fill in all fields " + "correctly before submitting."
  const SuccessPrefix := "Your song has been played " + "at Chai Mine "

  /** The success text, `Your song has been played at Chai Mine ${displayLocation}`. */
  function SuccessMessage(display: string): (m: string)
    ensures |m| == |SuccessPrefix| + |display| && m[..|SuccessPrefix|] == SuccessPrefix && m[|SuccessPrefix|..] == display
  {
    SuccessPrefix + display
  }

  /** The three error messages differ from one another, so each names one outcome. */
  lemma MessagesDistinct()
    ensures DuplicateMessage != GenericMessage && DuplicateMessage != UnexpectedMessage
    ensures GenericMessage != UnexpectedMessage
    ensures FillFieldsMessage != DuplicateMessage && FillFieldsMessage != GenericMessage && FillFieldsMessage != UnexpectedMessage
  {
    assert DuplicateMessage[0] == 'T' && GenericMessage[0] == 'A' && FillFieldsMessage[0] == 'P';
    assert GenericMessage[3] == 'e' && UnexpectedMessage[3] == 'u';
  }

  /** The JSON body the forms post to `/api/submitForm`. */
  datatype FormData = FormData(location: string, youtubeLink: string, name: string)

  /** The parts of a parsed JSON answer the forms read: its `error` field, when that is a string. */
  datatype JsonBody = JsonBody(error: Option<string>)

  /**
   * How a `fetch` of the form data ended: a response with its status and its
   * body (`None` when `response.json()` throws), or a thrown exception.
   */
  datatype Reply = Reply(status: int, body: Option<JsonBody>) | Thrown

  /** `response.ok`. */
  predicate IsOk(status: int) {
    200 <= status <= 299
  }
}
