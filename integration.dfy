/**
 * How the pieces meet across the HTTP boundary: what the upload endpoint receives from the upload
 * page's form data, where the page navigates with the endpoint's answer, what the verification
 * page makes of the backend's replies, how the client and server allow-lists line up, and what
 * the liability card shows for the scorer's output.
 */
module Integration {
  import opened Json
  import Http
  import Scorer
  import Backend
  import Verify
  import Upload
  import FileUpload
  import LiabilityCard

  // ----- The upload request -----

  /**
   * How the web framework turns a form field into a parameter of its declared type; None is a
   * value it refuses (a 422 reply).
   */
  datatype Coercions = Coercions(bools: string -> Option<bool>, reals: string -> Option<real>, ints: string -> Option<int>)

  /** A boolean parameter: its default when the field is missing. */
  function BoolField(entries: seq<(Upload.Key, Upload.Part)>, k: Upload.Key, co: Coercions, default: bool): (v: Option<bool>)
    ensures Upload.Get(entries, k).None? ==> v == Some(default)
    ensures Upload.Get(entries, k) == Some(Upload.TextPart(Upload.BoolText(true))) && co.bools("true") == Some(true)
      ==> v == Some(true)
    ensures Upload.Get(entries, k) == Some(Upload.TextPart(Upload.BoolText(false))) && co.bools("false") == Some(false)
      ==> v == Some(false)
  {
    var sent := Upload.Get(entries, k);
    if sent.None? then Some(default) else if sent.value.TextPart? then co.bools(sent.value.text) else None
  }

  /** A string parameter: the text sent, or its default when the field is missing. */
  function TextField(entries: seq<(Upload.Key, Upload.Part)>, k: Upload.Key, default: string): (v: Option<string>)
    ensures Upload.Get(entries, k).None? ==> v == Some(default)
    ensures Upload.Get(entries, k).Some? && Upload.Get(entries, k).value.TextPart? ==> v == Some(Upload.Get(entries, k).value.text)
  {
    var sent := Upload.Get(entries, k);
    if sent.None? then Some(default) else if sent.value.TextPart? then Some(sent.value.text) else None
  }

  /** The parameters `upload_evidence` receives for some form data, or None when it refuses one. */
  function ReceivedForm(entries: seq<(Upload.Key, Upload.Part)>, co: Coercions): Option<Backend.UploadForm> {
    var d := Backend.DefaultUploadForm;
    var disclosure := BoolField(entries, Upload.DisclosureStrippedKey, co, d.disclosureStripped);
    var distributed := BoolField(entries, Upload.ContentDistributedKey, co, d.contentDistributed);
    var impersonated := BoolField(entries, Upload.VictimImpersonatedKey, co, d.victimImpersonated);
    var repeat := BoolField(entries, Upload.RepeatOffenderKey, co, d.repeatOffender);
    var platform := TextField(entries, Upload.PlatformNameKey, d.platformName);
    var takedown := BoolField(entries, Upload.TakedownRequestedKey, co, d.takedownRequested);
    var sentHours := Upload.Get(entries, Upload.ResponseHoursKey);
    var hours :=
      if sentHours.None? then Some(d.responseHours)
      else if sentHours.value.TextPart? then co.reals(sentHours.value.text) else None;
    var removed := BoolField(entries, Upload.ContentRemovedKey, co, d.contentRemoved);
    var sentReach := Upload.Get(entries, Upload.EstimatedReachKey);
    var reach :=
      if sentReach.None? then Some(d.estimatedReach)
      else if sentReach.value.TextPart? then co.ints(sentReach.value.text) else None;
    var model := TextField(entries, Upload.ModelNameKey, d.modelName);
    if disclosure.Some? && distributed.Some? && impersonated.Some? && repeat.Some? && platform.Some?
      && takedown.Some? && hours.Some? && removed.Some? && reach.Some? && model.Some?
    then
      Some(Backend.UploadForm(
        disclosure.value, distributed.value, impersonated.value, repeat.value, platform.value,
        takedown.value, hours.value, removed.value, reach.value, model.value))
    else None
  }

  /** Coercions that read "true" and "false" as the booleans they name. */
  predicate ReadsBooleans(co: Coercions) {
    co.bools("true") == Some(true) && co.bools("false") == Some(false)
  }

  /**
   * What the upload page submits is what the endpoint scores: every checkbox as ticked,
   * `repeat_offender` always false (the page has no such field), the response time only for a
   * requested takedown with a time typed (999 hours otherwise), the reach 0 and the model
   * "Unknown Model" when left empty.
   */
  lemma SubmittedFormIsReceived(file: Http.File, form: Upload.ContextForm, co: Coercions)
    requires ReadsBooleans(co)
    requires form.takedownRequested && form.responseHours != "" ==> co.reals(form.responseHours).Some?
    requires form.estimatedReach != "" ==> co.ints(form.estimatedReach).Some?
    ensures ReceivedForm(Upload.FormEntries(file, form), co) == Some(Backend.UploadForm(
      form.disclosureStripped, form.contentDistributed, form.victimImpersonated, false, form.platformName,
      form.takedownRequested,
      if form.takedownRequested && form.responseHours != "" then co.reals(form.responseHours).value else 999.0,
      form.contentRemoved,
      if form.estimatedReach != "" then co.ints(form.estimatedReach).value else 0,
      if form.modelName != "" then form.modelName else "Unknown Model"))
  {
    ReceivedLeadingFields(file, form, co);
    ReceivedTrailingFields(file, form, co);
    SentNumbers(file, form);
  }

  /** The checkboxes and the platform sent first arrive as the page held them. */
  lemma ReceivedLeadingFields(file: Http.File, form: Upload.ContextForm, co: Coercions)
    requires ReadsBooleans(co)
    ensures var e := Upload.FormEntries(file, form);
      BoolField(e, Upload.DisclosureStrippedKey, co, false) == Some(form.disclosureStripped)
      && BoolField(e, Upload.ContentDistributedKey, co, false) == Some(form.contentDistributed)
      && BoolField(e, Upload.VictimImpersonatedKey, co, false) == Some(form.victimImpersonated)
      && TextField(e, Upload.PlatformNameKey, "Other") == Some(form.platformName)
      && BoolField(e, Upload.TakedownRequestedKey, co, false) == Some(form.takedownRequested)
  {
    Upload.LeadingFieldsSent(file, form);
  }

  /**
   * The fields sent after them arrive as sent, and those not sent take the endpoint's defaults:
   * `repeat_offender` false and "Unknown Model".
   */
  lemma ReceivedTrailingFields(file: Http.File, form: Upload.ContextForm, co: Coercions)
    requires ReadsBooleans(co)
    ensures var e := Upload.FormEntries(file, form);
      BoolField(e, Upload.RepeatOffenderKey, co, false) == Some(false)
      && BoolField(e, Upload.ContentRemovedKey, co, false) == Some(form.contentRemoved)
      && TextField(e, Upload.ModelNameKey, "Unknown Model") == Some(if form.modelName != "" then form.modelName else "Unknown Model")
  {
    Upload.TrailingFieldsSent(file, form);
    Upload.LeadingKeys(file, form);
    Upload.FormValue(file, form, Upload.ModelNameKey);
    Upload.TrailingValue(form, Upload.ModelNameKey);
  }

  /** The response time and the reach are sent as typed, or not at all. */
  lemma SentNumbers(file: Http.File, form: Upload.ContextForm)
    ensures var e := Upload.FormEntries(file, form);
      Upload.Get(e, Upload.ResponseHoursKey)
         == (if form.takedownRequested && form.responseHours != "" then Some(Upload.TextPart(form.responseHours)) else None)
      && Upload.Get(e, Upload.EstimatedReachKey)
         == (if form.estimatedReach != "" then Some(Upload.TextPart(form.estimatedReach)) else None)
  {
    Upload.LeadingKeys(file, form);
    Upload.FormValue(file, form, Upload.ResponseHoursKey);
    Upload.TrailingValue(form, Upload.ResponseHoursKey);
    Upload.FormValue(file, form, Upload.EstimatedReachKey);
    Upload.TrailingValue(form, Upload.EstimatedReachKey);
  }

  /** A reach the framework cannot read as an integer gets the whole upload refused. */
  lemma UnreadableReachIsRefused(file: Http.File, form: Upload.ContextForm, co: Coercions)
    requires form.estimatedReach != "" && co.ints(form.estimatedReach).None?
    ensures ReceivedForm(Upload.FormEntries(file, form), co).None?
  {
    SentNumbers(file, form);
  }

  /** The upload page navigates to the event id the endpoint answers with. */
  lemma UploadNavigatesToEventId(eventId: string, c: Backend.Collaborators, kind: Backend.DetectionKind, result: Backend.Dict, liability: Json)
    ensures Upload.NavigationId(Backend.UploadResponse(eventId, c, kind, result, liability)) == JStr(eventId)
  {
    Backend.UploadResponseIds(eventId, c, kind, result, liability);
  }

  // ----- The verification page against the backend -----

  /**
   * How the browser sees a backend reply: a JSON body; an HTTPException's status with its
   * `{"detail": ...}` body; or, for an unhandled exception, a 500 with a plain-text body.
   */
  function FromReply(reply: Backend.Reply, message: string): (o: Http.Outcome)
    ensures reply.Ok? <==> o.Success?
    ensures reply.HttpError? ==>
      o == Http.AxiosError(Some(Http.ErrorResponse(reply.status, Some(JObj(map["detail" := JStr(reply.detail)])))), message)
  {
    if reply.Ok? then Http.Success(reply.body)
    else if reply.HttpError? then
      Http.AxiosError(Some(Http.ErrorResponse(reply.status, Some(JObj(map["detail" := JStr(reply.detail)])))), message)
    else Http.AxiosError(Some(Http.ErrorResponse(500, Some(JStr("Internal Server Error")))), message)
  }

  /** Looking up an id the table does not hold shows "not found" and no error. */
  lemma UnknownIdShowsNotFound(rows: Backend.Rows, id: string, parse: string -> Option<Json>, message: string)
    requires Backend.RowsKeyed(rows)
    requires id !in rows
    ensures Verify.Settle(FromReply(Backend.EvidenceEndpoint(rows, id, parse), message)) == (Some(Verify.NotFound), None)
  {
  }

  /** The object the evidence endpoint shows has none of the members the page's resolver reads. */
  lemma ShownHasNoResolverKeys(id: Json, filename: Json, fileHash: Json, detectionType: Json, detection: Json, liability: Json, txId: Json, timestamp: Json)
    requires id.JStr?
    ensures var r := Backend.Shown(id, filename, fileHash, detectionType, detection, liability, txId, timestamp);
      r.JObj? && "verified" !in r.fields && "match" !in r.fields && "status" !in r.fields
      && "found" !in r.fields && "exists" !in r.fields
  {
    ShownHasNoVerdictKeys(id, filename, fileHash, detectionType, detection, liability, txId, timestamp);
  }

  /** The object the evidence endpoint shows has no `verified`, `match` or `status` member. */
  lemma ShownHasNoVerdictKeys(id: Json, filename: Json, fileHash: Json, detectionType: Json, detection: Json, liability: Json, txId: Json, timestamp: Json)
    requires id.JStr?
    ensures var r := Backend.Shown(id, filename, fileHash, detectionType, detection, liability, txId, timestamp);
      r.JObj? && "verified" !in r.fields && "match" !in r.fields && "status" !in r.fields
  {
  }

  /**
   * Looking up a stored record that the endpoint can reshape shows a mismatch, whatever the
   * record holds: the page decides on `verified`, `match`, `status`, `found` and `exists`, and the
   * endpoint sends none of them.
   */
  lemma StoredRecordShowsMismatch(rows: Backend.Rows, id: string, parse: string -> Option<Json>, message: string)
    requires Backend.RowsKeyed(rows)
    requires id in rows && Backend.ReshapeRecord(rows[id], parse).Some?
    ensures Verify.Settle(FromReply(Backend.EvidenceEndpoint(rows, id, parse), message)) == (Some(Verify.Mismatch), None)
  {
    var record := rows[id];
    ShownHasNoResolverKeys(
      PyGet(record, "id", JStr("")), PyGet(record, "filename", JStr("")), PyGet(record, "file_hash", JStr("")),
      PyGet(record, "detection_type", JStr("")),
      Backend.DetectionView(Backend.DecodeColumn(record, "detection_result", parse).fields),
      Backend.DecodeColumn(record, "liability_scores", parse), PyGet(record, "blockchain_tx_id", JStr("")),
      PyGet(record, "timestamp", JStr("")));
    Verify.NoResolverKeysIsMismatch(Backend.ReshapeRecord(record, parse).value, true);
  }

  /** A record the endpoint fails on shows the axios message as the error. */
  lemma BrokenRecordShowsMessage(rows: Backend.Rows, id: string, parse: string -> Option<Json>, message: string)
    requires Backend.RowsKeyed(rows)
    requires id in rows && Backend.ReshapeRecord(rows[id], parse).None?
    ensures Verify.Settle(FromReply(Backend.EvidenceEndpoint(rows, id, parse), message)) == (None, Some(JStr(message)))
  {
  }

  /**
   * The file check shows a mismatch for every answer of `verify_file`, registered or not: its
   * payload reports `registered_on_chain`, which the page does not read.
   */
  lemma VerifiedFileShowsMismatch(fileHash: string, registered: Json, blockTimestamp: Json, caseId: Json)
    ensures Verify.Settle(Http.Success(Backend.VerifyResponse(fileHash, registered, blockTimestamp, caseId)))
      == (Some(Verify.Mismatch), None)
  {
    var r := Backend.VerifyResponse(fileHash, registered, blockTimestamp, caseId);
    Verify.NoResolverKeysIsMismatch(r, true);
  }

  // ----- The allow-lists -----

  /** The extensions of the client's video types are the server's video extensions, without the dot. */
  lemma VideoTypesMatchServer()
    ensures (set m | m in FileUpload.AcceptedTypes && |m| >= 6 && m[..6] == "video/" :: "." + FileUpload.AcceptedTypes[m])
      == Backend.VideoExts
  {
    var t := FileUpload.AcceptedTypes;
    var exts := set m | m in t && |m| >= 6 && m[..6] == "video/" :: "." + t[m];
    assert "video/mp4"[..6] == "video/" && "." + t["video/mp4"] == ".mp4";
    assert "video/x-msvideo"[..6] == "video/" && "." + t["video/x-msvideo"] == ".avi";
    assert "video/quicktime"[..6] == "video/" && "." + t["video/quicktime"] == ".mov";
    assert "video/x-matroska"[..6] == "video/" && "." + t["video/x-matroska"] == ".mkv";
    forall m | m in t && |m| >= 6 && m[..6] == "video/" ensures "." + t[m] in Backend.VideoExts {
      assert m[..6] != "audio/" by {
        assert m[0] == 'v';
      }
    }
  }

  /** The extensions of the client's audio types are the server's audio extensions, without the dot. */
  lemma AudioTypesMatchServer()
    ensures (set m | m in FileUpload.AcceptedTypes && |m| >= 6 && m[..6] == "audio/" :: "." + FileUpload.AcceptedTypes[m])
      == Backend.AudioExts
  {
    var t := FileUpload.AcceptedTypes;
    assert "audio/mpeg"[..6] == "audio/" && "." + t["audio/mpeg"] == ".mp3";
    assert "audio/wav"[..6] == "audio/" && "." + t["audio/wav"] == ".wav";
    assert "audio/flac"[..6] == "audio/" && "." + t["audio/flac"] == ".flac";
    assert "audio/x-m4a"[..6] == "audio/" && "." + t["audio/x-m4a"] == ".m4a";
    assert "audio/ogg"[..6] == "audio/" && "." + t["audio/ogg"] == ".ogg";
    forall m | m in t && |m| >= 6 && m[..6] == "audio/" ensures "." + t[m] in Backend.AudioExts {
      assert m[0] == 'a';
    }
  }

  // ----- The liability card on the scorer's output -----

  /** A rendered factor shows its points over its maximum, both in whole units. */
  lemma FactorShown(f: Scorer.Factor)
    ensures LiabilityCard.GetFactorDisplay(Scorer.FactorJson(f))
      == Some(LiabilityCard.Ratio(f.points as real / 100.0, f.max as real / 100.0))
  {
  }

  /** Every rendered factor of a party can be shown. */
  lemma {:induction false} FactorsShown(fs: seq<Scorer.Factor>)
    ensures forall k :: k in Scorer.FactorsJson(fs) ==> LiabilityCard.GetFactorDisplay(Scorer.FactorsJson(fs)[k]).Some?
    decreases |fs|
  {
    if |fs| > 0 {
      FactorsShown(fs[..|fs| - 1]);
      FactorShown(fs[|fs| - 1]);
    }
  }

  /** A party's panel: drawn, with the raw score in whole units and one row per factor name. */
  lemma PartyPanelShown(s: Scorer.PartyScore)
    ensures var v := LiabilityCard.PartyPanel(Some(Scorer.PartyJson(s)));
      v.Drawn? && v.panel.rawScore == s.rawScore as real / 100.0
      && (forall n :: n in v.panel.factors <==> n in Scorer.Names(s.factors))
  {
    FactorsShown(s.factors);
    Scorer.FactorsJsonKeys(s.factors);
  }

  /**
   * The card on `compute_liability`'s result (percentages adding up to 100): shown, with each
   * party's percentage in the legend, bars exactly as wide as the percentages, every panel drawn,
   * and no explanation, since the scorer puts its explanations inside the parties.
   */
  lemma CardOfComputedLiability(l: Scorer.Liability)
    requires l.user.percentage + l.platform.percentage + l.architect.percentage == 100
    ensures var c := LiabilityCard.Card(Some(Scorer.LiabilityJson(l)));
      c.Shown?
      && c.percentages == [l.user.percentage as real, l.platform.percentage as real, l.architect.percentage as real]
      && c.shares == c.percentages
      && c.panels[0].Drawn? && c.panels[1].Drawn? && c.panels[2].Drawn?
      && c.explanation.None?
  {
    var u, p, a := l.user.percentage as real, l.platform.percentage as real, l.architect.percentage as real;
    ScoresJsonParties(l);
    ScoresJsonHasNoExplanation(l);
    CardOfDrawnParties(Scorer.LiabilityJson(l), u, p, a);
  }

  /** The scorer's JSON holds each party's percentage and a drawable panel. */
  lemma ScoresJsonParties(l: Scorer.Liability)
    ensures var s := Scorer.LiabilityJson(l);
      s.JObj?
      && LiabilityCard.PartyPercentage(s, 0) == JNum(l.user.percentage as real)
      && LiabilityCard.PartyPercentage(s, 1) == JNum(l.platform.percentage as real)
      && LiabilityCard.PartyPercentage(s, 2) == JNum(l.architect.percentage as real)
      && LiabilityCard.PartyPanel(Prop(s, LiabilityCard.PartyKeys[0])).Drawn?
      && LiabilityCard.PartyPanel(Prop(s, LiabilityCard.PartyKeys[1])).Drawn?
      && LiabilityCard.PartyPanel(Prop(s, LiabilityCard.PartyKeys[2])).Drawn?
  {
    var s := Scorer.LiabilityJson(l);
    assert Prop(s, LiabilityCard.PartyKeys[0]) == Some(Scorer.PartyJson(l.user));
    PartyInScores(s, 0, l.user);
    assert Prop(s, LiabilityCard.PartyKeys[1]) == Some(Scorer.PartyJson(l.platform));
    PartyInScores(s, 1, l.platform);
    assert Prop(s, LiabilityCard.PartyKeys[2]) == Some(Scorer.PartyJson(l.architect));
    PartyInScores(s, 2, l.architect);
  }

  /** The scorer's JSON has no top-level explanation: each party carries its own. */
  lemma ScoresJsonHasNoExplanation(l: Scorer.Liability)
    ensures Prop(Scorer.LiabilityJson(l), "explanation").None?
  {
  }

  /** A party rendered by the scorer shows its percentage and a drawn panel. */
  lemma PartyInScores(s: Json, i: nat, party: Scorer.PartyScore)
    requires i < 3 && Prop(s, LiabilityCard.PartyKeys[i]) == Some(Scorer.PartyJson(party))
    ensures LiabilityCard.PartyPercentage(s, i) == JNum(party.percentage as real)
    ensures LiabilityCard.PartyPanel(Prop(s, LiabilityCard.PartyKeys[i])).Drawn?
  {
    PartyPanelShown(party);
  }

  /**
   * A card whose parties all have numeric percentages adding up to 100 and drawable panels, and
   * which has no explanation, is shown with bars as wide as its percentages.
   */
  lemma CardOfDrawnParties(s: Json, u: real, p: real, a: real)
    requires s.JObj?
    requires LiabilityCard.PartyPercentage(s, 0) == JNum(u)
    requires LiabilityCard.PartyPercentage(s, 1) == JNum(p)
    requires LiabilityCard.PartyPercentage(s, 2) == JNum(a)
    requires LiabilityCard.PartyPanel(Prop(s, LiabilityCard.PartyKeys[0])).Drawn?
    requires LiabilityCard.PartyPanel(Prop(s, LiabilityCard.PartyKeys[1])).Drawn?
    requires LiabilityCard.PartyPanel(Prop(s, LiabilityCard.PartyKeys[2])).Drawn?
    requires Prop(s, "explanation").None?
    requires u + p + a == 100.0
    ensures var c := LiabilityCard.Card(Some(s));
      c.Shown? && c.percentages == [u, p, a] && c.shares == c.percentages
      && c.panels[0].Drawn? && c.panels[1].Drawn? && c.panels[2].Drawn?
      && c.explanation.None?
  {
    var c := LiabilityCard.Card(Some(s));
    assert c.Shown?;
    LiabilityCard.SharesOfPositiveTotal(s);
    assert c.percentages == [u, p, a];
    SharesOfHundred(c);
  }

  /** Bars that are the percentages' shares of a total of 100 are as wide as the percentages. */
  lemma SharesOfHundred(c: LiabilityCard.CardView)
    requires c.Shown? && |c.percentages| == 3 && |c.shares| == 3
    requires c.percentages[0] + c.percentages[1] + c.percentages[2] == 100.0
    requires forall i :: 0 <= i < 3 ==>
      c.shares[i] == c.percentages[i] / (c.percentages[0] + c.percentages[1] + c.percentages[2]) * 100.0
    ensures c.shares == c.percentages
  {
    assert c.shares[0] == c.percentages[0] / 100.0 * 100.0;
    assert c.shares[1] == c.percentages[1] / 100.0 * 100.0;
    assert c.shares[2] == c.percentages[2] / 100.0 * 100.0;
  }

  /** In particular the card on any scored upload context is drawn with bars as wide as its percentages. */
  lemma CardOfScoredContext(ctx: Scorer.Context, registry: Scorer.Registry)
    requires Scorer.UnknownModel in registry
    ensures var c := LiabilityCard.Card(Some(Scorer.LiabilityJson(Scorer.ComputeLiability(ctx, registry))));
      c.Shown? && c.shares == c.percentages
  {
    CardOfComputedLiability(Scorer.ComputeLiability(ctx, registry));
  }
}
