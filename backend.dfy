/**
 * The decision logic of the API server: the file-extension helper, the choice of detector by
 * extension, the upload response and database record `upload_evidence` assembles, the reshaping
 * of a stored record for the evidence endpoint, and the payload of the file-verification
 * endpoint. Hashing, detectors, the blockchain call, the clock, PDF generation and the database
 * are collaborators whose results arrive as parameters.
 */
module Backend {
  import opened Json
  import Text
  import Scorer

  const VideoExts: set<string> := {".mp4", ".avi", ".mov", ".mkv"}
  const AudioExts: set<string> := {".mp3", ".wav", ".flac", ".m4a", ".ogg"}

  /** `p.rfind(c)`: the last index of `c` in `p`, or -1. */
  function RFind(p: string, c: char): (r: int)
    ensures -1 <= r < |p|
    ensures r >= 0 ==> p[r] == c
    ensures forall j :: r < j < |p| ==> p[j] != c
  {
    if |p| == 0 then -1
    else if p[|p| - 1] == c then |p| - 1
    else RFind(p[..|p| - 1], c)
  }

  /** Whether `p[from..to]` holds a character other than `.`. */
  predicate HasNonDot(p: string, from: int, to: int)
    requires 0 <= from && to <= |p|
  {
    exists j :: from <= j < to && p[j] != '.'
  }

  /**
   * `posixpath.splitext(p)`: the extension runs from the last `.` of the final path component
   * to the end, unless only dots precede that `.` in the component (a leading-dot name such as
   * `.bashrc` has no extension).
   */
  function SplitExt(p: string): (string, string) {
    var sep := RFind(p, '/');
    var dot := RFind(p, '.');
    if dot > sep && HasNonDot(p, sep + 1, dot) then (p[..dot], p[dot..]) else (p, "")
  }

  /**
   * The two parts make up the path; a nonempty extension starts with its only `.`, holds no `/`,
   * and a non-dot character precedes it in the final component; an empty one means every `.` of
   * the final component has only dots before it there.
   */
  lemma SplitExtSpec(p: string)
    ensures var r := SplitExt(p);
      r.0 + r.1 == p
      && (r.1 != "" ==> r.1[0] == '.' && forall i :: 1 <= i < |r.1| ==> r.1[i] != '.' && r.1[i] != '/')
      && (r.1 != "" ==> RFind(p, '/') + 1 <= |r.0| && HasNonDot(p, RFind(p, '/') + 1, |r.0|))
      && (r.1 == "" ==> forall k :: RFind(p, '/') < k < |p| && p[k] == '.' ==> !HasNonDot(p, RFind(p, '/') + 1, k))
  {
    var dot := RFind(p, '.');
    if SplitExt(p).1 != "" {
      assert forall i :: 1 <= i < |p[dot..]| ==> p[dot..][i] == p[dot + i];
    }
  }

  /** `_ext`: the extension, lower-cased. */
  function Ext(filename: string): string {
    Text.Lower(SplitExt(filename).1)
  }

  /**
   * The extension is the lower-cased suffix SplitExt finds: empty when there is none, otherwise a
   * `.` followed by no further `.` or `/`, with no upper-case ASCII letter.
   */
  lemma ExtSpec(filename: string)
    ensures var e := Ext(filename);
      |e| == |SplitExt(filename).1| && (e == "" <==> SplitExt(filename).1 == "")
      && (e != "" ==> e[0] == '.' && forall i :: 1 <= i < |e| ==> e[i] != '.' && e[i] != '/')
      && forall i :: 0 <= i < |e| ==> !('A' <= e[i] <= 'Z')
  {
    SplitExtSpec(filename);
  }

  datatype DetectionKind = Video | Audio | Unknown

  function KindName(k: DetectionKind): string {
    match k
    case Video => "video"
    case Audio => "audio"
    case Unknown => "unknown"
  }

  /** A Python dict with string keys. */
  type Dict = map<string, Json>

  /** The detection result recorded for a file of an unsupported type. */
  const UnsupportedResult: Dict := map[
    "confidence" := JNum(0.0),
    "is_synthetic" := JBool(false),
    "explanation" := JStr("Unsupported file type; no analysis performed.")]

  /**
   * The dispatch of `upload_evidence`: the video detector for a video extension, the audio
   * detector for an audio extension, and no detector at all otherwise. `video` and `audio` are
   * what `detect_video` and `detect_audio` return for the file.
   */
  function Analyse(ext: string, video: Dict, audio: Dict): (r: (DetectionKind, Dict))
    ensures r.0 == Video <==> ext in VideoExts
    ensures r.0 == Audio <==> ext in AudioExts
    ensures r.0 == Video ==> r.1 == video
    ensures r.0 == Audio ==> r.1 == audio
    ensures r.0 == Unknown ==>
      PyGet(r.1, "confidence", JNum(0.0)) == JNum(0.0) && PyGet(r.1, "is_synthetic", JBool(false)) == JBool(false)
  {
    ExtensionSetsDisjoint();
    if ext in VideoExts then (Video, video)
    else if ext in AudioExts then (Audio, audio)
    else (Unknown, UnsupportedResult)
  }

  /** No extension is both a video and an audio extension. */
  lemma ExtensionSetsDisjoint()
    ensures VideoExts !! AudioExts
  {
  }

  function Label(isSynthetic: Json): (s: string)
    ensures s == "SYNTHETIC" || s == "AUTHENTIC"
    ensures s == "SYNTHETIC" <==> PyTruthy(isSynthetic)
  {
    if PyTruthy(isSynthetic) then "SYNTHETIC" else "AUTHENTIC"
  }

  /**
   * The `detection` object of the upload response and of a reshaped record, built from a
   * detection result with the source's defaults.
   */
  function DetectionView(d: Dict): Json {
    var isSynthetic := PyGet(d, "is_synthetic", JBool(false));
    JObj(map[
      "confidence" := PyGet(d, "confidence", JNum(0.0)),
      "is_synthetic" := isSynthetic,
      "label" := JStr(Label(isSynthetic)),
      "explanation" := PyGet(d, "explanation", JStr("")),
      "flagged_frames" := PyGet(d, "flagged_frames", JArr([])),
      "features" := PyGet(d, "features", JObj(map[]))])
  }

  /** The label of the `detection` object says SYNTHETIC exactly when `is_synthetic` is truthy. */
  lemma DetectionLabelFollowsFlag(d: Dict)
    ensures Prop(DetectionView(d), "label") == Some(JStr("SYNTHETIC"))
      <==> PyTruthy(PyGet(d, "is_synthetic", JBool(false)))
    ensures Prop(DetectionView(d), "label") == Some(JStr("SYNTHETIC"))
      || Prop(DetectionView(d), "label") == Some(JStr("AUTHENTIC"))
  {
  }

  /** Missing fields of a detection result take the defaults 0.0, `false`, "", `[]` and `{}`. */
  lemma DetectionViewDefaults(d: Dict)
    requires "confidence" !in d && "is_synthetic" !in d && "explanation" !in d
    requires "flagged_frames" !in d && "features" !in d
    ensures DetectionView(d) == JObj(map[
      "confidence" := JNum(0.0), "is_synthetic" := JBool(false), "label" := JStr("AUTHENTIC"),
      "explanation" := JStr(""), "flagged_frames" := JArr([]), "features" := JObj(map[])])
  {
  }

  /** The form fields of `upload_evidence`, already coerced by the web framework. */
  datatype UploadForm = UploadForm(
    disclosureStripped: bool,
    contentDistributed: bool,
    victimImpersonated: bool,
    repeatOffender: bool,
    platformName: string,
    takedownRequested: bool,
    responseHours: real,
    contentRemoved: bool,
    estimatedReach: int,
    modelName: string)

  /** The values a request that omits a field gets. */
  const DefaultUploadForm: UploadForm :=
    UploadForm(false, false, false, false, "Other", false, 999.0, false, 0, "Unknown Model")

  /**
   * `liability_ctx`: every key is present. `content_removed` is part of the dict but no rule
   * table reads it, so the scorer's context has no place for it.
   */
  function LiabilityContext(form: UploadForm): (ctx: Scorer.Context)
    ensures ctx.disclosureStripped == Some(form.disclosureStripped)
    ensures ctx.takedownRequested == Some(form.takedownRequested)
    ensures ctx.responseHours == Some(form.responseHours)
    ensures ctx.platformName == Some(form.platformName) && ctx.modelName == Some(form.modelName)
    ensures ctx.contentDistributed == Some(form.contentDistributed) && ctx.victimImpersonated == Some(form.victimImpersonated)
    ensures ctx.repeatOffender == Some(form.repeatOffender) && ctx.estimatedReach == Some(form.estimatedReach)
  {
    Scorer.Context(
      Some(form.disclosureStripped), Some(form.contentDistributed), Some(form.victimImpersonated),
      Some(form.repeatOffender), Some(form.platformName), Some(form.takedownRequested),
      Some(form.responseHours), Some(form.estimatedReach), Some(form.modelName))
  }

  /**
   * What the collaborators of `upload_evidence` produce for one upload: the file hash, the two
   * detectors' results for the file, the transaction id, the UTC timestamp and the PDF path.
   */
  datatype Collaborators = Collaborators(
    fileHash: string,
    video: Dict,
    audio: Dict,
    txId: string,
    timestamp: string,
    pdfPath: string)

  function ReportUrl(id: string): string {
    "/api/report/" + id + "/pdf"
  }

  /** The response `upload_evidence` returns, from the detection result and the liability scores. */
  function UploadResponse(eventId: string, c: Collaborators, kind: DetectionKind, result: Dict, liability: Json): Json {
    JObj(map[
      "event_id" := JStr(eventId),
      "id" := JStr(eventId),
      "file_hash" := JStr(c.fileHash),
      "detection_type" := JStr(KindName(kind)),
      "detection" := DetectionView(result),
      "liability_scores" := liability,
      "blockchain" := JObj(map["tx_id" := JStr(c.txId), "timestamp" := JStr(c.timestamp)]),
      "pdf_download_url" := JStr(ReportUrl(eventId)),
      "timestamp" := JStr(c.timestamp)])
  }

  /**
   * The upload response is an object whose `id` and `event_id` are the event id, whose PDF link
   * is built from it, and which carries the file hash, the transaction id and the timestamp.
   */
  lemma UploadResponseIds(eventId: string, c: Collaborators, kind: DetectionKind, result: Dict, liability: Json)
    ensures var r := UploadResponse(eventId, c, kind, result, liability);
      r.JObj? && Prop(r, "id") == Some(JStr(eventId)) && Prop(r, "event_id") == Some(JStr(eventId))
      && Prop(r, "pdf_download_url") == Some(JStr(ReportUrl(eventId)))
      && Prop(r, "file_hash") == Some(JStr(c.fileHash)) && Prop(r, "timestamp") == Some(JStr(c.timestamp))
      && Prop(r, "blockchain") == Some(JObj(map["tx_id" := JStr(c.txId), "timestamp" := JStr(c.timestamp)]))
  {
  }

  /** The upload response carries the detection view, the detector kind and the liability scores. */
  lemma UploadResponseFindings(eventId: string, c: Collaborators, kind: DetectionKind, result: Dict, liability: Json)
    ensures var r := UploadResponse(eventId, c, kind, result, liability);
      Prop(r, "detection") == Some(DetectionView(result))
      && Prop(r, "detection_type") == Some(JStr(KindName(kind)))
      && Prop(r, "liability_scores") == Some(liability)
  {
  }

  /** The row `upload_evidence` saves, with its JSON columns as values. */
  function EvidenceRecord(eventId: string, filename: Option<string>, c: Collaborators, kind: DetectionKind, result: Dict, liability: Json): (r: Dict)
    ensures PyGet(r, "id", JStr("")) == JStr(eventId)
  {
    map[
      "id" := JStr(eventId),
      "filename" := if filename.Some? then JStr(filename.value) else JNull,
      "file_hash" := JStr(c.fileHash),
      "timestamp" := JStr(c.timestamp),
      "detection_type" := JStr(KindName(kind)),
      "detection_confidence" := PyGet(result, "confidence", JNum(0.0)),
      "detection_result" := JObj(result),
      "is_synthetic" := PyGet(result, "is_synthetic", JBool(false)),
      "blockchain_tx_id" := JStr(c.txId),
      "liability_scores" := liability,
      "pdf_path" := JStr(c.pdfPath),
      "status" := JStr("processed"),
      "created_at" := JStr(c.timestamp)]
  }

  /**
   * The saved row carries the event id, the file hash, the timestamp, the detector kind, the
   * transaction id, and the detection result and liability scores as values.
   */
  lemma EvidenceRecordColumns(eventId: string, filename: Option<string>, c: Collaborators, kind: DetectionKind, result: Dict, liability: Json)
    ensures var r := EvidenceRecord(eventId, filename, c, kind, result, liability);
      PyGet(r, "file_hash", JStr("")) == JStr(c.fileHash) && PyGet(r, "timestamp", JStr("")) == JStr(c.timestamp)
      && PyGet(r, "detection_type", JStr("")) == JStr(KindName(kind))
      && PyGet(r, "detection_result", JObj(map[])) == JObj(result)
      && PyGet(r, "liability_scores", JObj(map[])) == liability
      && PyGet(r, "blockchain_tx_id", JStr("")) == JStr(c.txId)
  {
  }

  /** The HTTP response of an upload and the row it saves. */
  datatype Upload = Upload(response: Json, record: Dict)

  /**
   * What `upload_evidence` computes for a file name (`file.filename or ""` gives the extension of
   * an absent name) and a form: the detector by extension, the liability scores `score` gives the
   * form's context, the row to save and the response.
   */
  function UploadResult(eventId: string, filename: Option<string>, form: UploadForm, c: Collaborators, score: Scorer.Context -> Json): (u: Upload)
    ensures PyGet(u.record, "id", JStr("")) == JStr(eventId)
  {
    var (kind, result) := Analyse(Ext(filename.GetOr("")), c.video, c.audio);
    var liability := score(LiabilityContext(form));
    Upload(UploadResponse(eventId, c, kind, result, liability), EvidenceRecord(eventId, filename, c, kind, result, liability))
  }

  /**
   * An upload reports and saves the scores `score` gives the form's context, and reports the
   * detector its file name's extension selects.
   */
  lemma UploadResultShape(eventId: string, filename: Option<string>, form: UploadForm, c: Collaborators, score: Scorer.Context -> Json)
    ensures var u := UploadResult(eventId, filename, form, c, score);
      Prop(u.response, "liability_scores") == Some(score(LiabilityContext(form)))
      && PyGet(u.record, "liability_scores", JObj(map[])) == score(LiabilityContext(form))
      && Prop(u.response, "detection_type") == Some(JStr(KindName(Analyse(Ext(filename.GetOr("")), c.video, c.audio).0)))
  {
    var (kind, result) := Analyse(Ext(filename.GetOr("")), c.video, c.audio);
    var liability := score(LiabilityContext(form));
    UploadResponseFindings(eventId, c, kind, result, liability);
    EvidenceRecordColumns(eventId, filename, c, kind, result, liability);
  }

  /** `compute_liability` as the upload handler calls it, with the model registry fixed. */
  function LiabilityScorer(registry: Scorer.Registry): Scorer.Context -> Json
    requires Scorer.UnknownModel in registry
  {
    ctx => Scorer.LiabilityJson(Scorer.ComputeLiability(ctx, registry))
  }

  /** With the scorer in place, an upload reports the liability split of its form. */
  lemma UploadReportsLiability(eventId: string, filename: Option<string>, form: UploadForm, c: Collaborators, registry: Scorer.Registry)
    requires Scorer.UnknownModel in registry
    ensures Prop(UploadResult(eventId, filename, form, c, LiabilityScorer(registry)).response, "liability_scores")
      == Some(Scorer.LiabilityJson(Scorer.ComputeLiability(LiabilityContext(form), registry)))
  {
    UploadResultShape(eventId, filename, form, c, LiabilityScorer(registry));
  }

  /** A file of an unsupported type is reported authentic with confidence 0, with no detector run. */
  lemma UnsupportedFileIsNotAnalysed(eventId: string, ext: string, c: Collaborators, liability: Json)
    requires ext !in VideoExts && ext !in AudioExts
    ensures var (kind, result) := Analyse(ext, c.video, c.audio);
      var d := Prop(UploadResponse(eventId, c, kind, result, liability), "detection");
      kind == Unknown && Prop(UploadResponse(eventId, c, kind, result, liability), "detection_type") == Some(JStr("unknown"))
      && d.Some? && Prop(d.value, "confidence") == Some(JNum(0.0))
      && Prop(d.value, "is_synthetic") == Some(JBool(false))
      && Prop(d.value, "label") == Some(JStr("AUTHENTIC"))
  {
    var (kind, result) := Analyse(ext, c.video, c.audio);
    UploadResponseFindings(eventId, c, kind, result, liability);
  }

  /**
   * A JSON column of a stored record, decoded as `_reshape_record` does: a string is parsed
   * (`parse` stands for `json.loads`, None for a decoding error, which yields `{}`), anything else
   * is kept.
   */
  function DecodeColumn(record: Dict, key: string, parse: string -> Option<Json>): (v: Json)
    ensures !PyGet(record, key, JObj(map[])).JStr? ==> v == PyGet(record, key, JObj(map[]))
    ensures PyGet(record, key, JObj(map[])).JStr? && parse(PyGet(record, key, JObj(map[])).s).None? ==> v == JObj(map[])
  {
    var raw := PyGet(record, key, JObj(map[]));
    if raw.JStr? then parse(raw.s).GetOr(JObj(map[])) else raw
  }

  /** The nested object `_reshape_record` returns, from the values it reads. */
  function Shown(id: Json, filename: Json, fileHash: Json, detectionType: Json, detection: Json, liability: Json, txId: Json, timestamp: Json): (r: Json)
    requires id.JStr?
    ensures Prop(r, "id") == Some(id) && Prop(r, "filename") == Some(filename)
    ensures Prop(r, "file_hash") == Some(fileHash) && Prop(r, "detection_type") == Some(detectionType)
    ensures Prop(r, "detection") == Some(detection) && Prop(r, "liability_scores") == Some(liability)
    ensures Prop(r, "blockchain") == Some(JObj(map["tx_id" := txId, "timestamp" := timestamp]))
    ensures Prop(r, "pdf_download_url") == Some(JStr(ReportUrl(id.s))) && Prop(r, "timestamp") == Some(timestamp)
  {
    JObj(map[
      "id" := id,
      "filename" := filename,
      "file_hash" := fileHash,
      "detection_type" := detectionType,
      "detection" := detection,
      "liability_scores" := liability,
      "blockchain" := JObj(map["tx_id" := txId, "timestamp" := timestamp]),
      "pdf_download_url" := JStr(ReportUrl(id.s)),
      "timestamp" := timestamp])
  }

  /**
   * `_reshape_record`: None when the decoded detection result is not a dict, where the source's
   * `.get` raises. The record was found by its TEXT primary key, so the `id` it carries is a string.
   */
  function ReshapeRecord(record: Dict, parse: string -> Option<Json>): (r: Option<Json>)
    requires PyGet(record, "id", JStr("")).JStr?
    ensures r.None? <==> !DecodeColumn(record, "detection_result", parse).JObj?
    ensures r.Some? ==> r.value == Shown(
      PyGet(record, "id", JStr("")), PyGet(record, "filename", JStr("")), PyGet(record, "file_hash", JStr("")),
      PyGet(record, "detection_type", JStr("")), DetectionView(DecodeColumn(record, "detection_result", parse).fields),
      DecodeColumn(record, "liability_scores", parse), PyGet(record, "blockchain_tx_id", JStr("")),
      PyGet(record, "timestamp", JStr("")))
  {
    var detection := DecodeColumn(record, "detection_result", parse);
    if !detection.JObj? then None
    else
      Some(Shown(
        PyGet(record, "id", JStr("")), PyGet(record, "filename", JStr("")), PyGet(record, "file_hash", JStr("")),
        PyGet(record, "detection_type", JStr("")), DetectionView(detection.fields),
        DecodeColumn(record, "liability_scores", parse), PyGet(record, "blockchain_tx_id", JStr("")),
        PyGet(record, "timestamp", JStr(""))))
  }

  /**
   * A reshaped record's PDF link is built from its `id`, its label follows `is_synthetic`, and its
   * blockchain timestamp is its top-level timestamp.
   */
  lemma ReshapedRecordShape(record: Dict, parse: string -> Option<Json>)
    requires PyGet(record, "id", JStr("")).JStr?
    requires ReshapeRecord(record, parse).Some?
    ensures var r := ReshapeRecord(record, parse).value;
      var d := DecodeColumn(record, "detection_result", parse).fields;
      Prop(r, "pdf_download_url") == Some(JStr("/api/report/" + PyGet(record, "id", JStr("")).s + "/pdf"))
      && PropOf(Prop(r, "blockchain"), "timestamp") == Prop(r, "timestamp")
      && Prop(r, "timestamp") == Some(PyGet(record, "timestamp", JStr("")))
      && PropOf(Prop(r, "detection"), "label")
         == Some(JStr(if PyTruthy(PyGet(d, "is_synthetic", JBool(false))) then "SYNTHETIC" else "AUTHENTIC"))
  {
  }

  /** A record with only an id is shown with every default: no detection data and empty strings. */
  lemma ReshapeDefaults(id: string, parse: string -> Option<Json>)
    ensures ReshapeRecord(map["id" := JStr(id)], parse) == Some(JObj(map[
      "id" := JStr(id), "filename" := JStr(""), "file_hash" := JStr(""), "detection_type" := JStr(""),
      "detection" := DetectionView(map[]), "liability_scores" := JObj(map[]),
      "blockchain" := JObj(map["tx_id" := JStr(""), "timestamp" := JStr("")]),
      "pdf_download_url" := JStr("/api/report/" + id + "/pdf"), "timestamp" := JStr("")]))
  {
  }

  /** A record whose detection column does not decode is shown with an empty detection `{}`. */
  lemma UndecodableDetectionBecomesEmpty(record: Dict, parse: string -> Option<Json>)
    requires PyGet(record, "id", JStr("")).JStr?
    requires PyGet(record, "detection_result", JObj(map[])).JStr?
    requires parse(PyGet(record, "detection_result", JObj(map[])).s).None?
    ensures ReshapeRecord(record, parse).Some?
    ensures Prop(ReshapeRecord(record, parse).value, "detection") == Some(DetectionView(map[]))
  {
  }

  /** What an endpoint sends back: a JSON body, an HTTPException, or an unhandled exception (500). */
  datatype Reply = Ok(body: Json) | HttpError(status: int, detail: string) | Crash

  /** The stored rows of the evidence table, keyed by id (`INSERT OR REPLACE` on the primary key). */
  type Rows = map<string, Dict>

  /** Every stored row carries its own key as its `id`. */
  predicate RowsKeyed(rows: Rows) {
    forall id :: id in rows ==> PyGet(rows[id], "id", JStr("")) == JStr(id)
  }

  /** `get_evidence_record`: 404 for an unknown id, the reshaped record otherwise. */
  function EvidenceEndpoint(rows: Rows, id: string, parse: string -> Option<Json>): (r: Reply)
    requires RowsKeyed(rows)
    ensures id !in rows <==> r == HttpError(404, "Evidence not found")
    ensures id in rows ==> (r.Crash? <==> ReshapeRecord(rows[id], parse).None?)
    ensures r.Ok? ==> Prop(r.body, "id") == Some(JStr(id))
  {
    if id !in rows then HttpError(404, "Evidence not found")
    else
      var shown := ReshapeRecord(rows[id], parse);
      if shown.Some? then Ok(shown.value) else Crash
  }

  /** Saving a row under its own id keeps the rows keyed, and fetching that id reshapes the row. */
  lemma SavedRowIsFetched(rows: Rows, record: Dict, parse: string -> Option<Json>)
    requires RowsKeyed(rows)
    requires PyGet(record, "id", JStr("")).JStr?
    ensures var id := PyGet(record, "id", JStr("")).s;
      RowsKeyed(rows[id := record])
      && EvidenceEndpoint(rows[id := record], id, parse)
         == if ReshapeRecord(record, parse).Some? then Ok(ReshapeRecord(record, parse).value) else Crash
  {
    var id := PyGet(record, "id", JStr("")).s;
    var rows' := rows[id := record];
    forall k | k in rows' ensures PyGet(rows'[k], "id", JStr("")) == JStr(k) {
      if k != id {
        assert rows'[k] == rows[k];
      }
    }
  }

  /** The members of the upload response that the evidence endpoint also shows. */
  predicate SameMembersButEventId(shown: Json, response: Json) {
    Prop(shown, "id") == Prop(response, "id")
    && Prop(shown, "file_hash") == Prop(response, "file_hash")
    && Prop(shown, "detection_type") == Prop(response, "detection_type")
    && Prop(shown, "detection") == Prop(response, "detection")
    && Prop(shown, "liability_scores") == Prop(response, "liability_scores")
    && Prop(shown, "blockchain") == Prop(response, "blockchain")
    && Prop(shown, "pdf_download_url") == Prop(response, "pdf_download_url")
    && Prop(shown, "timestamp") == Prop(response, "timestamp")
  }

  /**
   * Fetching the record an upload saved (its JSON columns read back as saved) gives every member of
   * the upload response except `event_id`.
   */
  lemma UploadThenFetch(
    rows: Rows, eventId: string, filename: Option<string>, c: Collaborators,
    kind: DetectionKind, result: Dict, liability: Json, parse: string -> Option<Json>)
    requires RowsKeyed(rows)
    requires liability.JObj?
    ensures var rows' := rows[eventId := EvidenceRecord(eventId, filename, c, kind, result, liability)];
      RowsKeyed(rows') && EvidenceEndpoint(rows', eventId, parse).Ok?
      && SameMembersButEventId(EvidenceEndpoint(rows', eventId, parse).body, UploadResponse(eventId, c, kind, result, liability))
  {
    var record := EvidenceRecord(eventId, filename, c, kind, result, liability);
    EvidenceRecordColumns(eventId, filename, c, kind, result, liability);
    UploadResponseIds(eventId, c, kind, result, liability);
    UploadResponseFindings(eventId, c, kind, result, liability);
    SavedRowIsFetched(rows, record, parse);
    assert DecodeColumn(record, "detection_result", parse) == JObj(result);
    assert DecodeColumn(record, "liability_scores", parse) == liability;
  }

  /** The payload of `verify_file`. */
  function VerifyResponse(fileHash: string, registered: Json, blockTimestamp: Json, caseId: Json): (r: Json)
    ensures r.JObj? && r.fields.Keys == {"file_hash", "registered_on_chain", "blockchain_timestamp", "case_id"}
    ensures Prop(r, "registered_on_chain") == Some(registered)
  {
    JObj(map["file_hash" := JStr(fileHash), "registered_on_chain" := registered,
             "blockchain_timestamp" := blockTimestamp, "case_id" := caseId])
  }

  const UploadDir := "/tmp/trustchain_uploads"

  /** `os.path.join(_UPLOAD_DIR, name)` for a name that is not an absolute path. */
  function TmpPath(name: string): string {
    UploadDir + "/" + name
  }

  /** The server's state: the evidence table and the files present in the upload directory. */
  class Server {
    var rows: Rows
    var files: set<string>

    predicate Valid()
      reads this
    {
      RowsKeyed(rows)
    }

    constructor()
      ensures Valid() && rows == map[] && files == {}
    {
      rows := map[];
      files := {};
    }

    /** `save_evidence`: `INSERT OR REPLACE` of a row under its `id`. */
    method SaveEvidence(record: Dict)
      requires Valid()
      requires PyGet(record, "id", JStr("")).JStr?
      modifies this
      ensures Valid()
      ensures rows == old(rows)[PyGet(record, "id", JStr("")).s := record] && files == old(files)
    {
      rows := rows[PyGet(record, "id", JStr("")).s := record];
    }

    /** Writing the uploaded bytes to `path`. */
    method WriteTemp(path: string)
      requires Valid()
      modifies this
      ensures Valid()
      ensures files == old(files) + {path} && rows == old(rows)
    {
      files := files + {path};
    }

    /** The `finally` clause: remove `path` if it exists. */
    method RemoveTemp(path: string)
      requires Valid()
      modifies this
      ensures Valid()
      ensures files == old(files) - {path} && rows == old(rows)
    {
      files := files - {path};
    }

    /**
     * `upload_evidence`: write the upload to a temporary file, analyse and score it, save the row
     * and, whatever happens, remove the temporary file. `eventId` is the generated UUID and
     * `score` is `compute_liability` (LiabilityScorer).
     */
    method UploadEvidence(eventId: string, filename: Option<string>, form: UploadForm, c: Collaborators, score: Scorer.Context -> Json)
      returns (response: Json)
      requires Valid()
      modifies this
      ensures Valid()
      ensures files == old(files) - {TmpPath(eventId + Ext(filename.GetOr("")))}
      ensures var u := UploadResult(eventId, filename, form, c, score);
        rows == old(rows)[eventId := u.record] && response == u.response
    {
      var tmpPath := TmpPath(eventId + Ext(filename.GetOr("")));
      WriteTemp(tmpPath);
      var u := UploadResult(eventId, filename, form, c, score);
      SaveEvidence(u.record);
      response := u.response;
      RemoveTemp(tmpPath);
    }

    /**
     * `verify_file`: write the upload to a temporary file named after a fresh UUID `verifyId`, hash
     * it, ask the chain about the hash and remove the file. `lookup` is the chain's answer
     * (registered, block timestamp, case id) for a hash.
     */
    method VerifyFile(filename: Option<string>, verifyId: string, fileHash: string, lookup: string -> (Json, Json, Json))
      returns (response: Json)
      requires Valid()
      modifies this
      ensures Valid()
      ensures rows == old(rows)
      ensures files == old(files) - {TmpPath("verify_" + verifyId + Ext(filename.GetOr("")))}
      ensures var (registered, ts, caseId) := lookup(fileHash);
        response == VerifyResponse(fileHash, registered, ts, caseId)
    {
      var tmpPath := TmpPath("verify_" + verifyId + Ext(filename.GetOr("")));
      WriteTemp(tmpPath);
      var (registered, ts, caseId) := lookup(fileHash);
      response := VerifyResponse(fileHash, registered, ts, caseId);
      RemoveTemp(tmpPath);
    }
  }
}
