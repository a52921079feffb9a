/**
 * The verification page: `resolveStatus`, which turns a loosely typed payload into one of three
 * outcomes, and the two lookups (by event id and by file) that drive the page's state around a
 * request.
 */
module Verify {
  import opened Json
  import Text
  import Http

  /** The outcome of a verification; only a verified one carries a timestamp. */
  datatype VerifyResult = NotFound | Verified(timestamp: Option<Json>) | Mismatch

  /**
   * What reading a member of a payload yields in JavaScript: `undefined`, a JSON value, or the
   * inherited method `String.prototype.match`.
   */
  datatype Read = Undefined | Member(value: Json) | StringMatch

  /**
   * `data.key` on a payload that is not null. An object yields its own members (no key read
   * here names a member of `Object.prototype`); when `inherited` holds, a string also yields
   * `String.prototype.match` for `match`, as it does in JavaScript.
   */
  function ReadKey(data: Json, key: string, inherited: bool): (r: Read)
    ensures r.StringMatch? <==> inherited && data.JStr? && key == "match"
    ensures r.Member? <==> Prop(data, key).Some?
    ensures r.Member? ==> Some(r.value) == Prop(data, key)
  {
    if data.JObj? && key in data.fields then Member(data.fields[key])
    else if inherited && data.JStr? && key == "match" then StringMatch
    else Undefined
  }

  predicate IsNullish(r: Read) {
    r.Undefined? || (r.Member? && r.value.JNull?)
  }

  /** `a ?? b` on member reads. */
  function Or(a: Read, b: Read): (r: Read)
    ensures !IsNullish(a) ==> r == a
    ensures IsNullish(a) ==> r == b
  {
    if IsNullish(a) then b else a
  }

  /** JavaScript truthiness of a member read; a function is truthy. */
  predicate Truthy(r: Read) {
    match r
    case Undefined => false
    case Member(v) => JsTruthy(Some(v))
    case StringMatch => true
  }

  /** The value of a member read as an optional JSON value. */
  function AsOption(r: Read): (v: Option<Json>)
    ensures r.Member? <==> v.Some?
    ensures r.Member? ==> v.value == r.value
  {
    if r.Member? then Some(r.value) else None
  }

  /**
   * `resolveStatus`, reading members as ReadKey does: None for a null payload, where the first
   * member read throws a TypeError, and otherwise one of the three outcomes.
   */
  function ResolveWith(data: Json, inherited: bool): (r: Option<VerifyResult>)
    ensures r.None? <==> data.JNull?
  {
    if data.JNull? then None
    else
      var status := ReadKey(data, "status", inherited);
      var verified := Or(Or(ReadKey(data, "verified", inherited), ReadKey(data, "match", inherited)),
                         Member(JBool(status == Member(JStr("verified")))));
      var found := Or(Or(ReadKey(data, "found", inherited), ReadKey(data, "exists", inherited)),
                      Member(JBool(status != Member(JStr("not_found")))));
      if !Truthy(found) || status == Member(JStr("not_found")) then Some(NotFound)
      else if Truthy(verified) then
        Some(Verified(AsOption(Or(ReadKey(data, "timestamp", inherited), ReadKey(data, "created_at", inherited)))))
      else Some(Mismatch)
  }

  /** `resolveStatus` as written: a string payload exposes `String.prototype.match`. */
  function ResolveStatusAsWritten(data: Json): (r: Option<VerifyResult>)
    ensures r.None? <==> data.JNull?
  {
    ResolveWith(data, true)
  }

  /** `resolveStatus` as intended: only the payload's own members are consulted. */
  function ResolveStatus(data: Json): (r: Option<VerifyResult>)
    ensures r.None? <==> data.JNull?
  {
    ResolveWith(data, false)
  }

  /** Presence, as the `found ?? exists ?? status !== 'not_found'` chain decides it on an object. */
  predicate Present(data: Json)
    requires data.JObj?
  {
    var status := Prop(data, "status");
    JsTruthy(Coalesce(Coalesce(Prop(data, "found"), Prop(data, "exists")), Some(JBool(status != Some(JStr("not_found"))))))
    && status != Some(JStr("not_found"))
  }

  /** Verification, as the `verified ?? match ?? status === 'verified'` chain decides it on an object. */
  predicate Confirmed(data: Json)
    requires data.JObj?
  {
    JsTruthy(Coalesce(Coalesce(Prop(data, "verified"), Prop(data, "match")), Some(JBool(Prop(data, "status") == Some(JStr("verified"))))))
  }

  /**
   * On an object payload both readings agree, and the outcome is not-found exactly when the
   * payload is absent, verified (with `timestamp ?? created_at`) exactly when it is present and
   * confirmed, and a mismatch otherwise.
   */
  lemma ObjectOutcome(data: Json, inherited: bool)
    requires data.JObj?
    ensures ResolveWith(data, inherited) == ResolveStatus(data)
    ensures ResolveStatus(data) == Some(NotFound) <==> !Present(data)
    ensures ResolveStatus(data).Some? && ResolveStatus(data).value.Verified? <==> Present(data) && Confirmed(data)
    ensures ResolveStatus(data) == Some(Mismatch) <==> Present(data) && !Confirmed(data)
    ensures Present(data) && Confirmed(data)
      ==> ResolveStatus(data) == Some(Verified(Coalesce(Prop(data, "timestamp"), Prop(data, "created_at"))))
  {
    assert ReadKey(data, "match", inherited) == ReadKey(data, "match", false);
  }

  /** `status === "not_found"` wins over every other member. */
  lemma NotFoundStatusWins(data: Json, inherited: bool)
    requires Prop(data, "status") == Some(JStr("not_found"))
    ensures ResolveWith(data, inherited) == Some(NotFound)
  {
  }

  /** A non-nullish `found` decides presence on its own, whatever `exists` says. */
  lemma FoundDecidesPresence(data: Json)
    requires data.JObj? && !Nullish(Prop(data, "found")) && Prop(data, "status") != Some(JStr("not_found"))
    ensures ResolveStatus(data) == Some(NotFound) <==> !JsTruthy(Prop(data, "found"))
  {
    ObjectOutcome(data, false);
  }

  /** With `found` nullish, a non-nullish `exists` decides presence. */
  lemma ExistsDecidesPresence(data: Json)
    requires data.JObj? && Nullish(Prop(data, "found")) && !Nullish(Prop(data, "exists"))
    requires Prop(data, "status") != Some(JStr("not_found"))
    ensures ResolveStatus(data) == Some(NotFound) <==> !JsTruthy(Prop(data, "exists"))
  {
    ObjectOutcome(data, false);
  }

  /** With `found` and `exists` both nullish, only `status === "not_found"` makes a payload absent. */
  lemma StatusDecidesPresence(data: Json)
    requires data.JObj? && Nullish(Prop(data, "found")) && Nullish(Prop(data, "exists"))
    ensures ResolveStatus(data) == Some(NotFound) <==> Prop(data, "status") == Some(JStr("not_found"))
  {
    ObjectOutcome(data, false);
  }

  /** For a present payload a non-nullish `verified` decides the outcome, whatever `match` says. */
  lemma VerifiedTakesPrecedence(data: Json)
    requires data.JObj? && Present(data) && !Nullish(Prop(data, "verified"))
    ensures ResolveStatus(data).Some? && ResolveStatus(data).value.Verified? <==> JsTruthy(Prop(data, "verified"))
    ensures !JsTruthy(Prop(data, "verified")) ==> ResolveStatus(data) == Some(Mismatch)
  {
    ObjectOutcome(data, false);
  }

  /** For a present payload with `verified` nullish, a non-nullish `match` decides the outcome. */
  lemma MatchDecidesNext(data: Json)
    requires data.JObj? && Present(data) && Nullish(Prop(data, "verified")) && !Nullish(Prop(data, "match"))
    ensures ResolveStatus(data).Some? && ResolveStatus(data).value.Verified? <==> JsTruthy(Prop(data, "match"))
  {
    ObjectOutcome(data, false);
  }

  /** For a present payload with `verified` and `match` nullish, only `status === "verified"` verifies. */
  lemma StatusDecidesLast(data: Json)
    requires data.JObj? && Present(data) && Nullish(Prop(data, "verified")) && Nullish(Prop(data, "match"))
    ensures ResolveStatus(data).Some? && ResolveStatus(data).value.Verified? <==> Prop(data, "status") == Some(JStr("verified"))
  {
    ObjectOutcome(data, false);
  }

  /** An object with none of the members the resolver consults for the outcome is a mismatch. */
  lemma NoResolverKeysIsMismatch(data: Json, inherited: bool)
    requires data.JObj?
    requires "verified" !in data.fields && "match" !in data.fields && "status" !in data.fields
    requires "found" !in data.fields && "exists" !in data.fields
    ensures ResolveWith(data, inherited) == Some(Mismatch)
  {
  }

  /** A payload that is neither null, a string nor an object has no members: a mismatch. */
  lemma ScalarIsMismatch(data: Json, inherited: bool)
    requires data.JBool? || data.JNum? || data.JArr?
    ensures ResolveWith(data, inherited) == Some(Mismatch)
  {
  }

  /** `{status: "not_found"}` is not found. */
  lemma NotFoundExample()
    ensures ResolveStatus(JObj(map["status" := JStr("not_found")])) == Some(NotFound)
  {
  }

  /** `{verified: true, timestamp: "2024-01-01"}` is verified at that timestamp. */
  lemma VerifiedExample()
    ensures ResolveStatus(JObj(map["verified" := JBool(true), "timestamp" := JStr("2024-01-01")]))
      == Some(Verified(Some(JStr("2024-01-01"))))
  {
    var a := JObj(map["verified" := JBool(true), "timestamp" := JStr("2024-01-01")]);
    assert "created_at" !in a.fields;
  }

  /**
   * `{found: true, match: false}` is a mismatch, `{found: true, exists: false}` is present, and
   * `{verified: false, match: true}` is a mismatch.
   */
  lemma PrecedenceExamples()
    ensures ResolveStatus(JObj(map["found" := JBool(true), "match" := JBool(false)])) == Some(Mismatch)
    ensures ResolveStatus(JObj(map["found" := JBool(true), "exists" := JBool(false)])) != Some(NotFound)
    ensures ResolveStatus(JObj(map["verified" := JBool(false), "match" := JBool(true)])) == Some(Mismatch)
  {
  }

  /**
   * As written, a string payload (a body axios could not parse as JSON, such as an HTML page)
   * resolves to verified with no timestamp: `data.match` is `String.prototype.match`, which is
   * truthy. Reading own members only, it is a mismatch.
   */
  lemma StringPayloadIsVerifiedAsWritten(s: string)
    ensures ResolveStatusAsWritten(JStr(s)) == Some(Verified(None))
    ensures ResolveStatus(JStr(s)) == Some(Mismatch)
  {
  }

  /** The two readings differ on string payloads only. */
  lemma ReadingsAgreeOffStrings(data: Json)
    ensures !data.JStr? ==> ResolveStatusAsWritten(data) == ResolveStatus(data)
    ensures data.JStr? ==> ResolveStatusAsWritten(data) != ResolveStatus(data)
  {
    if data.JObj? {
      ObjectOutcome(data, true);
    }
  }

  /**
   * How a lookup settles into the page's result and error, with the payload read as ResolveWith
   * reads it: the resolved outcome on success, a not-found result for a 404, the error text for
   * any other axios error, and the generic message for anything else (including the TypeError a
   * null payload raises in the resolver).
   */
  function SettleWith(o: Http.Outcome, inherited: bool): (r: (Option<VerifyResult>, Option<Json>))
    ensures r.0.Some? <==> r.1.None?
    ensures Http.IsNotFound(o) ==> r == (Some(NotFound), None)
    ensures o.Success? && !o.data.JNull? ==> r.0 == ResolveWith(o.data, inherited)
    ensures o.Success? && o.data.JNull? ==> r.1 == Some(JStr(Http.UnexpectedError))
    ensures o.AxiosError? && !Http.IsNotFound(o) ==> r.1 == Some(Http.AxiosErrorText(o.response, o.message))
    ensures o.OtherError? ==> r.1 == Some(JStr(Http.UnexpectedError))
  {
    match o
    case Success(data) =>
      var resolved := ResolveWith(data, inherited);
      if resolved.Some? then (resolved, None) else (None, Some(JStr(Http.UnexpectedError)))
    case AxiosError(response, message) =>
      if Http.IsNotFound(o) then (Some(NotFound), None) else (None, Some(Http.ErrorText(o)))
    case OtherError => (None, Some(Http.ErrorText(o)))
  }

  /** How `lookupById` and `verifyFile` settle, calling `resolveStatus` as written. */
  function Settle(o: Http.Outcome): (r: (Option<VerifyResult>, Option<Json>))
    ensures r.0.Some? <==> r.1.None?
    ensures Http.IsNotFound(o) ==> r == (Some(NotFound), None)
    ensures o.Success? && !o.data.JNull? ==> r.0 == ResolveStatusAsWritten(o.data)
    ensures o.Success? && o.data.JNull? ==> r.1 == Some(JStr(Http.UnexpectedError))
    ensures o.AxiosError? && !Http.IsNotFound(o) ==> r.1 == Some(Http.AxiosErrorText(o.response, o.message))
    ensures o.OtherError? ==> r.1 == Some(JStr(Http.UnexpectedError))
  {
    SettleWith(o, true)
  }

  /** The same lookups with the corrected resolver, which reads own members only. */
  function SettleIntended(o: Http.Outcome): (r: (Option<VerifyResult>, Option<Json>))
    ensures r.0.Some? <==> r.1.None?
    ensures o.Success? && !o.data.JNull? ==> r.0 == ResolveStatus(o.data)
  {
    SettleWith(o, false)
  }

  /**
   * The page as written and as intended settle alike, except on a successful string body, which
   * the page shows as verified and the corrected resolver as a mismatch.
   */
  lemma SettleDiffersOnStringBodies(o: Http.Outcome)
    ensures !(o.Success? && o.data.JStr?) ==> Settle(o) == SettleIntended(o)
    ensures o.Success? && o.data.JStr? ==>
      Settle(o) == (Some(Verified(None)), None) && SettleIntended(o) == (Some(Mismatch), None)
  {
    if o.Success? {
      ReadingsAgreeOffStrings(o.data);
      if o.data.JStr? {
        StringPayloadIsVerifiedAsWritten(o.data.s);
      }
    }
  }

  /** The URL of the evidence lookup for a trimmed, nonempty id. */
  function EvidenceUrl(id: string): string {
    "/api/evidence/" + id
  }

  /**
   * The state of the verification page: the id typed in and the selected file, and for each of
   * the two lookups its loading flag, its result and its error.
   */
  class VerifyPage {
    var eventId: string
    var idLoading: bool
    var idResult: Option<VerifyResult>
    var idError: Option<Json>
    var fileInput: Option<Http.File>
    var fileLoading: bool
    var fileResult: Option<VerifyResult>
    var fileError: Option<Json>

    /** A settled lookup shows a result or an error, never both. */
    predicate Valid()
      reads this
    {
      !(idResult.Some? && idError.Some?) && !(fileResult.Some? && fileError.Some?)
    }

    constructor()
      ensures Valid()
      ensures eventId == "" && !idLoading && idResult.None? && idError.None?
      ensures fileInput.None? && !fileLoading && fileResult.None? && fileError.None?
    {
      eventId := "";
      idLoading := false;
      idResult := None;
      idError := None;
      fileInput := None;
      fileLoading := false;
      fileResult := None;
      fileError := None;
    }

    /** Typing in the id field. */
    method SetEventId(id: string)
      modifies this
      ensures eventId == id
      ensures idLoading == old(idLoading) && idResult == old(idResult) && idError == old(idError)
      ensures fileInput == old(fileInput) && fileLoading == old(fileLoading)
      ensures fileResult == old(fileResult) && fileError == old(fileError)
    {
      eventId := id;
    }

    /** Picking a file in the file tab. */
    method SetFileInput(f: Option<Http.File>)
      modifies this
      ensures fileInput == f && eventId == old(eventId)
      ensures idLoading == old(idLoading) && idResult == old(idResult) && idError == old(idError)
      ensures fileLoading == old(fileLoading) && fileResult == old(fileResult) && fileError == old(fileError)
    {
      fileInput := f;
    }

    /**
     * The synchronous part of `lookupById`: nothing happens for a blank id; otherwise the page
     * starts loading, clears the previous result and error, and requests the trimmed id.
     */
    method BeginLookup() returns (url: Option<string>)
      requires Valid()
      modifies this
      ensures Valid()
      ensures Text.Trim(eventId) == "" ==>
        url.None? && idLoading == old(idLoading) && idResult == old(idResult) && idError == old(idError)
      ensures Text.Trim(eventId) != "" ==>
        url == Some(EvidenceUrl(Text.Trim(eventId))) && idLoading && idResult.None? && idError.None?
      ensures eventId == old(eventId) && fileInput == old(fileInput) && fileLoading == old(fileLoading)
      ensures fileResult == old(fileResult) && fileError == old(fileError)
    {
      var id := Text.Trim(eventId);
      if id == "" {
        url := None;
        return;
      }
      idLoading := true;
      idError := None;
      idResult := None;
      url := Some(EvidenceUrl(id));
    }

    /** The rest of `lookupById` once the request settles: record its outcome, stop loading. */
    method CompleteLookup(o: Http.Outcome)
      requires Valid()
      modifies this
      ensures Valid()
      ensures !idLoading && (idResult, idError) == Settle(o)
      ensures eventId == old(eventId) && fileInput == old(fileInput) && fileLoading == old(fileLoading)
      ensures fileResult == old(fileResult) && fileError == old(fileError)
    {
      var settled := Settle(o);
      idResult := settled.0;
      idError := settled.1;
      idLoading := false;
    }

    /**
     * The synchronous part of `verifyFile`: nothing happens without a file; otherwise the page
     * starts loading, clears the previous result and error, and posts the file.
     */
    method BeginVerifyFile() returns (posted: Option<Http.File>)
      requires Valid()
      modifies this
      ensures Valid()
      ensures posted == fileInput
      ensures fileInput.None? ==>
        fileLoading == old(fileLoading) && fileResult == old(fileResult) && fileError == old(fileError)
      ensures fileInput.Some? ==> fileLoading && fileResult.None? && fileError.None?
      ensures eventId == old(eventId) && fileInput == old(fileInput) && idLoading == old(idLoading)
      ensures idResult == old(idResult) && idError == old(idError)
    {
      posted := fileInput;
      if fileInput.None? {
        return;
      }
      fileLoading := true;
      fileError := None;
      fileResult := None;
    }

    /** The rest of `verifyFile` once the request settles: record its outcome, stop loading. */
    method CompleteVerifyFile(o: Http.Outcome)
      requires Valid()
      modifies this
      ensures Valid()
      ensures !fileLoading && (fileResult, fileError) == Settle(o)
      ensures eventId == old(eventId) && fileInput == old(fileInput) && idLoading == old(idLoading)
      ensures idResult == old(idResult) && idError == old(idError)
    {
      var settled := Settle(o);
      fileResult := settled.0;
      fileError := settled.1;
      fileLoading := false;
    }
  }

  /** A 404 from either lookup shows a not-found result and no error. */
  lemma NotFoundReplyShowsNotFound(o: Http.Outcome)
    requires Http.IsNotFound(o)
    ensures Settle(o) == (Some(NotFound), None)
  {
  }
}
