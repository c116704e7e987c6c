/** The client's error values: `StrError`, the API's `ErrorResponse` body and
    the other errors its calls pass through, with the text each one's
    `Error()` method produces. */
module Errors {
  import opened Text

  /** A constant string used as an error (`type StrError string`). */
  datatype StrError = StrError(text: string)

  /** `StrError.Error()`: the underlying string, unchanged. */
  function StrErrorText(e: StrError): (r: string)
    ensures StrError(r) == e
  {
    e.text
  }

  /** The error body the API sends with a status of 300 or more. */
  datatype ErrorResponse = ErrorResponse(
    errorMessage: string,
    errorDescription: string,
    errorDetails: map<string, string>)

  /** `ErrorResponse.Error()`: the message, a colon and a space, then the
      description. */
  function ResponseText(e: ErrorResponse): (r: string)
    ensures |r| == |e.errorMessage| + 2 + |e.errorDescription|
    ensures r[..|e.errorMessage|] == e.errorMessage
    ensures r[|e.errorMessage|..|e.errorMessage| + 2] == ": "
    ensures r[|e.errorMessage| + 2..] == e.errorDescription
  {
    e.errorMessage + ": " + e.errorDescription
  }

  /** The field-level details never reach the text. */
  lemma DetailsNotInText(e: ErrorResponse, details: map<string, string>)
    ensures ResponseText(e.(errorDetails := details)) == ResponseText(e)
  {
  }

  /** When the message holds no colon, the text splits back into message and
      description at its first colon. */
  lemma ResponseTextSplits(e: ErrorResponse)
    requires ':' !in e.errorMessage
    ensures Cut(ResponseText(e), ':') == (e.errorMessage, " " + e.errorDescription, true)
  {
    assert ResponseText(e) == e.errorMessage + [':'] + (" " + e.errorDescription);
    CutAt(e.errorMessage, " " + e.errorDescription, ':');
  }

  /** Every error value a call of the client can return. */
  datatype GoError =
    | ApiError(response: ErrorResponse)    // *ErrorResponse from an error body or a failed webhook
    | Str(str: StrError)                   // a StrError constant
    | DecodeError(message: string)         // encoding/json could not decode a body
    | TransportError(message: string)      // the HTTP client could not complete the exchange
    | UrlError(message: string)            // url.Parse rejected a base URL
    | IndexOutOfRange                      // the runtime panic of taking Results[0] of an empty list

  /** What `Error()` returns for each kind of error. */
  function ErrorText(e: GoError): (r: string)
    ensures e.ApiError? ==> r == ResponseText(e.response)
    ensures e.Str? ==> r == StrErrorText(e.str)
  {
    match e
    case ApiError(response) => ResponseText(response)
    case Str(str) => StrErrorText(str)
    case DecodeError(message) => message
    case TransportError(message) => message
    case UrlError(message) => message
    case IndexOutOfRange => "runtime error: index out of range [0] with length 0"
  }

  /** The result of `json.Decoder.Decode` into a `T`: the value, or the
      error message together with whatever had been filled in before it. */
  datatype Decoded<T> = Decoded(value: T) | Malformed(partial: T, message: string)

  // ---------------------------------------------------------------------
  // The JSON shape of ErrorResponse (its struct tags)
  // ---------------------------------------------------------------------

  const ErrorKey := "error"
  const DescriptionKey := "error_description"
  const DetailsKey := "error_details"

  /** A JSON member value as far as these three fields care. */
  datatype JsonValue =
    | JsonString(s: string)
    | JsonObject(members: map<string, string>)
    | JsonNull
    | JsonOther

  /** An object's members in the order they are written; a key may repeat. */
  type JsonMembers = seq<(string, JsonValue)>

  /** The object `encoding/json` writes for an `ErrorResponse`, its members
      in field order. */
  function ErrorResponseJson(e: ErrorResponse): (o: JsonMembers)
    ensures |o| == 3
    ensures o[0].0 == ErrorKey && o[1].0 == DescriptionKey && o[2].0 == DetailsKey
    ensures o[2].1 == JsonObject(e.errorDetails)
  {
    [(ErrorKey, JsonString(e.errorMessage)),
     (DescriptionKey, JsonString(e.errorDescription)),
     (DetailsKey, JsonObject(e.errorDetails))]
  }

  // ---------------------------------------------------------------------
  // Matching a member's key to a field's tag
  // ---------------------------------------------------------------------

  /** A key character stands for a tag character (a lower-case ASCII letter
      or `_`) under Unicode simple case folding: itself, its upper case, and
      for `s` and `k` also the long s (U+017F) and the Kelvin sign (U+212A). */
  predicate FoldsTo(c: char, t: char)
  {
    c == t
    || ('a' <= t <= 'z' && c as int == t as int - 32)
    || (t == 's' && c == '\U{017F}')
    || (t == 'k' && c == '\U{212A}')
  }

  /** A member's key selects the field with this tag: an exact match, or one
      equal to it under case folding. */
  predicate KeyMatches(key: string, tag: string)
  {
    |key| == |tag| && forall i :: 0 <= i < |key| ==> FoldsTo(key[i], tag[i])
  }

  lemma TagMatchesItself(tag: string)
    ensures KeyMatches(tag, tag)
  {
  }

  /** The three tags have different lengths, so a key selects at most one
      field and preferring an exact match never changes the choice. */
  lemma KeySelectsOneField(key: string)
    ensures !(KeyMatches(key, ErrorKey) && KeyMatches(key, DescriptionKey))
    ensures !(KeyMatches(key, ErrorKey) && KeyMatches(key, DetailsKey))
    ensures !(KeyMatches(key, DescriptionKey) && KeyMatches(key, DetailsKey))
  {
  }

  // ---------------------------------------------------------------------
  // Decoding an object, member by member
  // ---------------------------------------------------------------------

  /** A decode in progress: the value filled in so far, and whether every
      member so far fitted its field. */
  datatype Decoding = Decoding(value: ErrorResponse, ok: bool)

  const Zero := ErrorResponse("", "", map[])

  /** A member whose value is of the wrong kind for the field its key
      selects. */
  predicate Misfit(m: (string, JsonValue))
  {
    ((KeyMatches(m.0, ErrorKey) || KeyMatches(m.0, DescriptionKey)) && !(m.1.JsonString? || m.1.JsonNull?))
    || (KeyMatches(m.0, DetailsKey) && !(m.1.JsonObject? || m.1.JsonNull?))
  }

  /** Storing one member: a string sets a string field and null leaves it
      alone; an object is merged into the details map and null clears it; a
      value of the wrong kind leaves the field alone and marks the decode as
      failed; a member no tag matches is skipped. */
  function Member(d: Decoding, m: (string, JsonValue)): (r: Decoding)
    ensures r.ok <==> d.ok && !Misfit(m)
    ensures !KeyMatches(m.0, ErrorKey) && !KeyMatches(m.0, DescriptionKey) && !KeyMatches(m.0, DetailsKey) ==> r == d
  {
    var (key, v) := m;
    var e := d.value;
    if KeyMatches(key, ErrorKey) then
      match v
      case JsonString(s) => d.(value := e.(errorMessage := s))
      case JsonNull => d
      case _ => d.(ok := false)
    else if KeyMatches(key, DescriptionKey) then
      match v
      case JsonString(s) => d.(value := e.(errorDescription := s))
      case JsonNull => d
      case _ => d.(ok := false)
    else if KeyMatches(key, DetailsKey) then
      match v
      case JsonObject(members) => d.(value := e.(errorDetails := e.errorDetails + members))
      case JsonNull => d.(value := e.(errorDetails := map[]))
      case _ => d.(ok := false)
    else d
  }

  /** The members applied in document order, so a later member of the same
      field overrides an earlier one. */
  function Members(d: Decoding, o: JsonMembers): (r: Decoding)
    ensures r.ok <==> d.ok && forall i :: 0 <= i < |o| ==> !Misfit(o[i])
    decreases |o|
  {
    if |o| == 0 then d else Members(Member(d, o[0]), o[1..])
  }

  /** `json.Decoder.Decode` of an object into a fresh `ErrorResponse`:
      unknown members are skipped, and a member of the wrong kind makes the
      decode fail after the rest has been stored. */
  function ErrorResponseFromJson(o: JsonMembers): (r: Decoded<ErrorResponse>)
    ensures r.Decoded? <==> forall i :: 0 <= i < |o| ==> !Misfit(o[i])
  {
    var d := Members(Decoding(Zero, true), o);
    if d.ok then Decoded(d.value) else Malformed(d.value, "json: cannot unmarshal into ErrorResponse")
  }

  /** The reference reading of a string field: the last member whose key
      selects the tag and whose value is a string, found from the end. */
  function LastString(o: JsonMembers, tag: string, otherwise: string): string
  {
    if |o| == 0 then otherwise
    else if KeyMatches(o[|o| - 1].0, tag) && o[|o| - 1].1.JsonString? then o[|o| - 1].1.s
    else LastString(o[..|o| - 1], tag, otherwise)
  }

  lemma {:induction false} LastStringAppend(o: JsonMembers, m: (string, JsonValue), tag: string, otherwise: string)
    ensures LastString(o + [m], tag, otherwise)
         == if KeyMatches(m.0, tag) && m.1.JsonString? then m.1.s else LastString(o, tag, otherwise)
  {
    assert (o + [m])[..|o + [m]| - 1] == o;
  }

  /** Applying the members front to back leaves in the message and the
      description exactly the last string written for each. */
  lemma {:induction false} MembersKeepLastString(d: Decoding, o: JsonMembers)
    ensures Members(d, o).value.errorMessage == LastString(o, ErrorKey, d.value.errorMessage)
    ensures Members(d, o).value.errorDescription == LastString(o, DescriptionKey, d.value.errorDescription)
    decreases |o|
  {
    if |o| > 0 {
      var last := o[|o| - 1];
      var init := o[..|o| - 1];
      assert o == init + [last];
      MembersAppend(d, init, last);
      MembersKeepLastString(d, init);
      LastStringAppend(init, last, ErrorKey, d.value.errorMessage);
      LastStringAppend(init, last, DescriptionKey, d.value.errorDescription);
      KeySelectsOneField(last.0);
    }
  }

  /** Applying `o + [m]` is applying `o`, then `m`. */
  lemma {:induction false} MembersAppend(d: Decoding, o: JsonMembers, m: (string, JsonValue))
    ensures Members(d, o + [m]) == Member(Members(d, o), m)
    decreases |o|
  {
    if |o| == 0 {
      assert [m][1..] == [];
    } else {
      assert (o + [m])[1..] == o[1..] + [m];
      MembersAppend(Member(d, o[0]), o[1..], m);
    }
  }

  /** The decoded message and description are the last string members of
      their tags, or empty when there is none. */
  lemma DecodedStrings(o: JsonMembers)
    ensures ErrorResponseFromJson(o).Decoded? ==> ErrorResponseFromJson(o).value.errorMessage == LastString(o, ErrorKey, "")
    ensures ErrorResponseFromJson(o).Decoded? ==> ErrorResponseFromJson(o).value.errorDescription == LastString(o, DescriptionKey, "")
  {
    MembersKeepLastString(Decoding(Zero, true), o);
  }

  /** Writing an `ErrorResponse` and reading it back gives the same value. */
  lemma ErrorResponseJsonRoundTrip(e: ErrorResponse)
    ensures ErrorResponseFromJson(ErrorResponseJson(e)) == Decoded(e)
  {
    var o := ErrorResponseJson(e);
    TagMatchesItself(ErrorKey);
    TagMatchesItself(DescriptionKey);
    TagMatchesItself(DetailsKey);
    KeySelectsOneField(ErrorKey);
    KeySelectsOneField(DescriptionKey);
    KeySelectsOneField(DetailsKey);
    var d0 := Decoding(Zero, true);
    var d1 := Member(d0, o[0]);
    var d2 := Member(d1, o[1]);
    var d3 := Member(d2, o[2]);
    assert d1 == Decoding(Zero.(errorMessage := e.errorMessage), true);
    assert d2 == Decoding(ErrorResponse(e.errorMessage, e.errorDescription, map[]), true);
    assert map[] + e.errorDetails == e.errorDetails;
    assert d3 == Decoding(e, true);
    assert o[1..][1..][1..] == [];
    assert Members(d0, o) == Members(d1, o[1..]) == Members(d2, o[1..][1..]) == Members(d3, o[1..][1..][1..]);
  }

  /** A key in capitals still selects its field. */
  lemma UpperCaseKeyDecodes()
    ensures ErrorResponseFromJson([("ERROR", JsonString("x"))]) == Decoded(ErrorResponse("x", "", map[]))
  {
    assert KeyMatches("ERROR", ErrorKey);
  }

  /** A value of the wrong kind under a case-folded key fails the decode. */
  lemma FoldedKeyMisfit()
    ensures ErrorResponseFromJson([("Error", JsonOther)]).Malformed?
  {
    assert KeyMatches("Error", ErrorKey);
    assert Misfit(("Error", JsonOther));
  }
}
