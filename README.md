# Trust_Chain decision logic in Dafny

Trust_Chain takes a piece of suspected synthetic media and returns several results:

- a detection verdict for the file;
- a split of legal liability between the user who spread it, the platform that hosted it and the AI
  model's architect;
- a blockchain registration of the file's hash;
- a PDF report.

A React frontend uploads files, shows the liability split and lets anyone check a file or an
event id against the registry.

This project models the deterministic decision logic of that system and proves properties about it:

- **Scorer** (`scorer.dfy`) models the liability scorer. Three rule tables turn an upload's
  context into per-factor points for the user, the platform and the architect, and
  `compute_liability` turns the three raw scores into whole percentages that add up to 100. Points
  are whole hundredths (0.35 is 35), so the rules are exact integer arithmetic. Python's `round`
  becomes round-half-to-even on the exact rational `100 * raw / total`.
- **Backend** (`backend.dfy`) models the API server:
  - `_ext` (`os.path.splitext` followed by lower-casing);
  - the choice of detector by extension;
  - the response and the database row that `upload_evidence` builds;
  - `_reshape_record` and the evidence endpoint;
  - the `verify_file` payload.

  A `Server` class holds the evidence table and the temporary files. Its methods write and remove
  those files around each request.
- **Verify** (`verify.dfy`) models the verification page. `resolveStatus` reads a loosely typed
  payload through JavaScript `??` chains to reach one of three outcomes. A `VerifyPage` class holds
  the page's state, which the two lookups update around a request.
- **LiabilityCard** (`liabilitycard.dfy`) models the liability card:
  - factor-name formatting;
  - defaults for missing fields;
  - the shape dispatch of factor values;
  - the rescaling of the bar's shares, with an equal split as the fallback.
- **FileUpload** (`fileupload.dfy`) models the drop zone: its MIME allow-list, `formatBytes`, and a
  class for the zone's state as files are dropped or chosen.
- **Upload** (`upload.dfy`) models the upload page:
  - its form state;
  - the ordered, partly conditional form data it posts;
  - the identifier it navigates to.
- **Integration** (`integration.dfy`) joins the pieces across the HTTP boundary. Its lemmas cover:
  - what the endpoint receives from the page's form data;
  - what the verification page shows for each backend reply;
  - how the two allow-lists line up;
  - what the card draws for the scorer's output.
- **Json**, **Text** and **Http** are shared helpers:
  - Json: JSON-like values, with JavaScript and Python member reads, truthiness and `??`;
  - Text: decimal strings, ASCII case mapping and JavaScript `trim`;
  - Http: the shape of an axios outcome.

Two facts about the request path are worth stating up front:

- The verification page decides presence with the chain `found ?? exists ?? status !== 'not_found'`
  (frontend/src/pages/Verify.tsx:51). So a `found` of `true` with an `exists` of `false` still
  counts as present (`Verify.FoundDecidesPresence`, `Verify.PrecedenceExamples`).
- The upload page has no `repeat_offender` field, so the page never sends it and the backend
  always scores it `false` (`Integration.SubmittedFormIsReceived`).

Three cross-component consequences are proved:

- Neither a stored record nor a `verify_file` answer carries any key `resolveStatus` reads. Every
  successful lookup by id therefore shows "mismatch" (`Integration.StoredRecordShowsMismatch`), and
  so does every file check (`Integration.VerifiedFileShowsMismatch`).
- The scorer puts each explanation inside its party. The card looks for `scores.explanation` at the
  top level, so it never shows one for the scorer's output
  (`Integration.CardOfComputedLiability`).
- For the scorer's output, the card's bars are exactly as wide as the percentages
  (`Integration.CardOfScoredContext`).

## Model

| member | source | states |
|---|---|---|
| Scorer.ScoreUser | backend/liability/scorer.py:10-45 | The user factors are intent, action, consent and prior_offences, with maxima 0.35/0.30/0.20/0.15. Every factor's points are within its maximum. The raw score is the sum of the points and lies in [0.12, 1.00]. |
| Scorer.ScorePlatform | backend/liability/scorer.py:48-100 | The platform factors are detection_capability, response_time, amplification and safe_harbor_erosion, with maxima 0.25/0.35/0.25/0.15. Every factor's points are within its maximum. The raw score is the sum of the points and lies in [0.10, 1.00]. |
| Scorer.ScoreArchitect | backend/liability/scorer.py:103-144 | Requires the "Unknown Model" registry entry, which line 105 indexes eagerly. The factors are safeguards, access_control and incident_history, with maxima 0.40/0.30/0.30. Every factor's points are within its maximum. The raw score is the sum of the points and is at most 1.00. |
| Scorer.RoundHalfEven | backend/liability/scorer.py:156-157 | The result is a nearest integer to n/d, and the even one on a tie, as Python's `round` is. |
| Scorer.RoundedShareInRange | backend/liability/scorer.py:156-157 | A rounded share of at most 100% lies in [0, 100]. |
| Scorer.Percentages | backend/liability/scorer.py:152-158 | With a positive total, the user and platform percentages are the nearest integers to 100·raw/total, the even one on a tie (Python's `round`). The architect gets `100 - user - platform`. So the three always add up to 100. A zero total gives 33/33/34. |
| Scorer.PercentagesInRange | backend/liability/scorer.py:156-158 | With a positive total, every percentage lies in [0, 100]. This includes the architect's remainder `100 - u - p`. |
| Scorer.RoundedPairAtMost100 | backend/liability/scorer.py:156-158 | The rounded user and platform shares never add up to more than 100. |
| Scorer.EqualSplitUnreachable | backend/liability/scorer.py:153-154 | The three raw scores add up to at least 0.22, so the 33/33/34 branch is unreachable. |
| Scorer.TopIndex | backend/liability/scorer.py:161 | `max(..., key=points)` picks the first factor with the largest points. |
| Scorer.Explain | backend/liability/scorer.py:160-166 | The explanation's driver is one of the factors and has at least every factor's points. |
| Scorer.ComputeLiability | backend/liability/scorer.py:147-187 | The three percentages are Percentages of the three rule tables' raw scores. So they are the rounded shares and the remainder, add up to 100, and each lies in [0, 100]. Each party's factors and raw score are those of its rule table. Each explanation quotes its party's percentage. |
| Scorer.PrimaryDriverIsMaximal | backend/liability/scorer.py:160-166 | Each party's primary driver is one of its factors and has at least every other factor's points. |
| Scorer.ResponsePointsMonotone | backend/liability/scorer.py:63-73 | With no takedown requested, response-time points are 0. Otherwise they never decrease as response hours grow. |
| Scorer.AmplificationMonotone | backend/liability/scorer.py:75-81 | Amplification points never decrease as the estimated reach grows. |
| Scorer.HistoryMonotone | backend/liability/scorer.py:128-136 | Incident-history points never decrease as the number of known incidents grows. |
| Scorer.UnlistedPlatformScoresMaximum | backend/liability/scorer.py:54-91 | A platform missing from the tables gets the full 0.25 detection points and the full 0.15 safe-harbour points. |
| Scorer.UnlistedModelScoresAsUnknown | backend/liability/scorer.py:104-105 | A missing or unregistered model is scored exactly as "Unknown Model". |
| Scorer.FactorsJsonKeys | backend/liability/scorer.py:39-44 | The factors dict has exactly the factors' names as keys. |
| Scorer.FactorsJsonMember | backend/liability/scorer.py:39-44 | The factors dict maps each factor's name to that factor's points/max/legal_basis object. |
| Backend.RFind | backend/main.py:38-39 | Gives the last index of the character, or -1 when the character does not occur. |
| Backend.SplitExtSpec | backend/main.py:38-39 | The root and the extension together make up the path. A nonempty extension starts at the last `.` and contains no `/`, and that `.` follows a non-dot character of the final component. No extension means every `.` in the final component has only dots before it there. |
| Backend.ExtSpec | backend/main.py:38-39 | `_ext` is the splitext extension, lower-cased. It is empty exactly when there is none, and otherwise a `.` followed by no further `.` or `/`. |
| Backend.ExtensionSetsDisjoint | backend/main.py:34-35 | No extension is both a video and an audio extension. |
| Backend.Analyse | backend/main.py:112-124 | Dispatches to video exactly for a video extension and to audio exactly for an audio one, returning the matching detector's result. An unknown extension gets confidence 0.0 and is_synthetic false. |
| Backend.UnsupportedFileIsNotAnalysed | backend/main.py:118-124 | An unsupported extension is reported as "unknown", with confidence 0.0, is_synthetic false and the label AUTHENTIC. |
| Backend.Label | backend/main.py:68 | The label is SYNTHETIC exactly when is_synthetic is truthy, and AUTHENTIC otherwise. |
| Backend.DetectionLabelFollowsFlag | backend/main.py:177-184 | The detection object's label is SYNTHETIC exactly when is_synthetic is truthy, and AUTHENTIC otherwise. |
| Backend.DetectionViewDefaults | backend/main.py:177-184 | Missing detection fields default to 0.0, false, "", [] and {}. |
| Backend.LiabilityContext | backend/main.py:128-140 | The scorer's context carries each of the nine form fields the rule tables read, under its own key. |
| Backend.UploadResponseIds | backend/main.py:172-192 | In the upload response, `id` and `event_id` are both the event id, and the PDF link is built from it. The hash, the transaction id and the timestamp are the collaborators' values. |
| Backend.UploadResponseFindings | backend/main.py:172-192 | The upload response carries the detection view, the detector kind and the liability scores. |
| Backend.EvidenceRecord | backend/main.py:155-169 | The saved row's id is the event id. |
| Backend.EvidenceRecordColumns | backend/main.py:155-169 | The saved row carries the hash, the timestamp, the detector kind, the transaction id and the raw detection and liability values. |
| Backend.UploadResult | backend/main.py:102-192 | The row that `upload_evidence` builds is keyed by the event id. |
| Backend.UploadResultShape | backend/main.py:103-185 | An upload reports and saves the scores computed for its form's context. It reports the detector that its file name's extension selects. |
| Backend.UploadReportsLiability | backend/main.py:140 | With `compute_liability` in place, the upload reports the liability split of its form. |
| Backend.DecodeColumn | backend/main.py:44-56 | A non-string column is kept as it is. A string that does not parse becomes {}. |
| Backend.Shown | backend/main.py:60-80 | The reshaped record holds each value under its key. The blockchain object pairs the tx id with the timestamp. The PDF link is built from the id. |
| Backend.ReshapeRecord | backend/main.py:42-80 | Fails (the source's `.get` raises) exactly when the decoded detection result is not a dict. Otherwise it gives the nested record with the source's defaults. |
| Backend.ReshapedRecordShape | backend/main.py:58-79 | The PDF link is `/api/report/<id>/pdf`. The blockchain timestamp equals the top-level timestamp. The label follows is_synthetic. |
| Backend.ReshapeDefaults | backend/main.py:60-80 | A record holding only an id gets every default: "" strings, the empty detection and {}. |
| Backend.UndecodableDetectionBecomesEmpty | backend/main.py:44-49 | An unparseable detection column is shown as an empty detection. |
| Backend.EvidenceEndpoint | backend/main.py:198-203 | An unknown id gets a 404 "Evidence not found". A record that cannot be reshaped gives a crash. Otherwise the reply carries the record, whose id is the one asked for. |
| Backend.SavedRowIsFetched | backend/database.py:31-57 | Saving a row under its id keeps the table keyed by id, and fetching that id returns the reshaped row. |
| Backend.UploadThenFetch | backend/main.py:155-203 | Fetching the row an upload saved returns every member of the upload response except `event_id`. |
| Backend.VerifyResponse | backend/main.py:215-220 | The payload has exactly the keys file_hash, registered_on_chain, blockchain_timestamp and case_id, and it reports the chain's answer. |
| Backend.Server.constructor | backend/database.py:60-75 | The server starts with no rows and no files. |
| Backend.Server.SaveEvidence | backend/database.py:31-57 | `INSERT OR REPLACE` stores the row under its id and leaves the other rows unchanged. |
| Backend.Server.WriteTemp | backend/main.py:107-108 | The temporary file now exists. The rows are unchanged and stay keyed by id. |
| Backend.Server.RemoveTemp | backend/main.py:193-195 | The temporary file no longer exists. The rows are unchanged and stay keyed by id. |
| Backend.Server.UploadEvidence | backend/main.py:88-195 | Saves the upload's row under the event id and returns the upload response. The temporary file is gone afterwards. |
| Backend.Server.VerifyFile | backend/main.py:206-223 | Returns the payload built from the chain's answer for the hash. The table is unchanged and stays keyed by id, and the temporary file is gone afterwards. |
| Json.Lookup | frontend/src/pages/Verify.tsx:50-51 | Gives a member exactly when the key is present. |
| Json.Prop | frontend/src/pages/Verify.tsx:50-51 | A member read on a non-object gives nothing. On an object it gives the named member. |
| Json.Coalesce | frontend/src/pages/Verify.tsx:50-51 | `a ?? b` gives `a` unless `a` is missing or null. |
| Json.PyGet | backend/main.py:44-71 | `dict.get(key, default)`. |
| Text.Trim | frontend/src/pages/Verify.tsx:81 | `trim()` removes exactly the leading and trailing white space. The result is empty exactly when the input is all white space. |
| Text.ParseNatToString | frontend/src/components/FileUpload.tsx:21 | Reading back a printed natural number gives that number. |
| Text.Lower | backend/main.py:39 | Lower-cases ASCII letters and keeps the length. |
| Verify.ReadKey | frontend/src/pages/Verify.tsx:50-51 | A member read gives the payload's own member. As written, it also gives `String.prototype.match` for `match` on a string. |
| Verify.ResolveStatusAsWritten | frontend/src/pages/Verify.tsx:49-63 | `resolveStatus` as written fails only on a null payload. Otherwise it gives one of the three outcomes. |
| Verify.ResolveStatus | frontend/src/pages/Verify.tsx:49-63 | `resolveStatus` reading own members only. It fails only on a null payload, and otherwise gives one of the three outcomes. |
| Verify.ObjectOutcome | frontend/src/pages/Verify.tsx:49-63 | For an object payload: not found exactly when absent; verified, with `timestamp ?? created_at`, exactly when present and confirmed; mismatch exactly when present and not confirmed. |
| Verify.NotFoundStatusWins | frontend/src/pages/Verify.tsx:53-55 | `status === "not_found"` gives not_found, whatever the other members say. |
| Verify.FoundDecidesPresence | frontend/src/pages/Verify.tsx:51 | A non-nullish `found` decides presence by its truthiness. |
| Verify.ExistsDecidesPresence | frontend/src/pages/Verify.tsx:51 | With `found` nullish, a non-nullish `exists` decides presence. |
| Verify.StatusDecidesPresence | frontend/src/pages/Verify.tsx:51-55 | With both `found` and `exists` nullish, the payload is absent exactly when status is "not_found". |
| Verify.VerifiedTakesPrecedence | frontend/src/pages/Verify.tsx:50-62 | For a present payload, a non-nullish `verified` decides the outcome: verified if truthy, mismatch otherwise. |
| Verify.MatchDecidesNext | frontend/src/pages/Verify.tsx:50-62 | With `verified` nullish, a non-nullish `match` decides the outcome. |
| Verify.StatusDecidesLast | frontend/src/pages/Verify.tsx:50-62 | With `verified` and `match` both nullish, the payload is verified exactly when status is "verified". |
| Verify.NoResolverKeysIsMismatch | frontend/src/pages/Verify.tsx:50-62 | An object with none of verified/match/status/found/exists resolves to mismatch. |
| Verify.ScalarIsMismatch | frontend/src/pages/Verify.tsx:50-62 | A boolean, number or array payload resolves to mismatch. |
| Verify.NotFoundExample | frontend/src/pages/Verify.tsx:53-55 | `{status: "not_found"}` is not found. |
| Verify.VerifiedExample | frontend/src/pages/Verify.tsx:56-61 | `{verified: true, timestamp: t}` is verified at t. |
| Verify.PrecedenceExamples | frontend/src/pages/Verify.tsx:50-62 | `{found: true, match: false}` is a mismatch. `{found: true, exists: false}` is present. `{verified: false, match: true}` is a mismatch. |
| Verify.StringPayloadIsVerifiedAsWritten | frontend/src/pages/Verify.tsx:50 | As written, a string payload is verified with no timestamp. Reading own members only, it is a mismatch. |
| Verify.ReadingsAgreeOffStrings | frontend/src/pages/Verify.tsx:49-63 | The two readings differ exactly on string payloads. |
| Verify.SettleWith | frontend/src/pages/Verify.tsx:85-95 | A lookup settles into exactly one of a result or an error: the resolved outcome on success; not_found on a 404; `detail ?? message` for any other axios error; the generic message otherwise. |
| Verify.Settle | frontend/src/pages/Verify.tsx:85-95 | As the page does it: on success the result is `resolveStatus` as written. The other cases are as in SettleWith. |
| Verify.SettleIntended | frontend/src/pages/Verify.tsx:85-95 | The same lookups with the corrected resolver: on success the result is ResolveStatus. |
| Verify.SettleDiffersOnStringBodies | frontend/src/pages/Verify.tsx:87 | The page as written and as intended settle alike, except on a successful string body, which the page shows as verified with no timestamp and the corrected resolver as a mismatch. |
| Verify.NotFoundReplyShowsNotFound | frontend/src/pages/Verify.tsx:89-90 | A 404 shows not_found and no error. |
| Verify.VerifyPage.constructor | frontend/src/pages/Verify.tsx:69-78 | The page starts empty and idle. |
| Verify.VerifyPage.SetEventId | frontend/src/pages/Verify.tsx:69 | Only the typed id changes. |
| Verify.VerifyPage.SetFileInput | frontend/src/pages/Verify.tsx:75 | Only the selected file changes. |
| Verify.VerifyPage.BeginLookup | frontend/src/pages/Verify.tsx:80-86 | A blank id sends nothing and changes nothing. Otherwise the lookup starts loading, with no result and no error, at the trimmed id's URL. |
| Verify.VerifyPage.CompleteLookup | frontend/src/pages/Verify.tsx:86-98 | Loading ends, and the result and error are what the outcome settles into. |
| Verify.VerifyPage.BeginVerifyFile | frontend/src/pages/Verify.tsx:101-109 | With no file nothing happens. Otherwise the check starts loading and posts that file. |
| Verify.VerifyPage.CompleteVerifyFile | frontend/src/pages/Verify.tsx:109-121 | Loading ends, and the result and error are what the outcome settles into. |
| Http.AxiosErrorText | frontend/src/pages/Verify.tsx:91-92 | The error text is `err.response?.data?.detail ?? err.message`. |
| Http.ErrorText | frontend/src/pages/Upload.tsx:74-79 | An axios error gives its detail or message. Anything else gives the generic message. |
| LiabilityCard.SpaceUnderscores | frontend/src/components/LiabilityCard.tsx:14 | Every `_` becomes a space and nothing else changes. |
| LiabilityCard.CapitaliseWords | frontend/src/components/LiabilityCard.tsx:14 | Exactly the characters at a word start (`\b\w`) are upper-cased. |
| LiabilityCard.FormatFactorNameSpec | frontend/src/components/LiabilityCard.tsx:13-15 | The length is kept and no `_` remains. Each character is the input's, with underscores turned into spaces and word-initial letters upper-cased. |
| LiabilityCard.FormatFactorNameIdempotent | frontend/src/components/LiabilityCard.tsx:13-15 | Formatting a formatted name changes nothing. |
| LiabilityCard.FactorNameExample | frontend/src/components/LiabilityCard.tsx:13-15 | "access_control" becomes "Access Control". |
| LiabilityCard.GetPercentage | frontend/src/components/LiabilityCard.tsx:17-20 | A falsy party gives 0. Otherwise the result is `percentage ?? 0`. |
| LiabilityCard.GetRawScore | frontend/src/components/LiabilityCard.tsx:22-25 | A falsy party gives 0. Otherwise the result is `raw_score ?? 0`. |
| LiabilityCard.GetFactorDisplay | frontend/src/components/LiabilityCard.tsx:27-35 | A number is shown with two decimals. An object or array is shown as points over max, or throws. Anything else is shown as `String(value)`. |
| LiabilityCard.ObjectFactorDisplay | frontend/src/components/LiabilityCard.tsx:29-33 | An object shows `points ?? score ?? 0` over `max ?? 1`, and throws when either is not a number. |
| LiabilityCard.EmptyFactorDisplay | frontend/src/components/LiabilityCard.tsx:30-32 | `{}` and `[]` show 0.00 / 1.00. |
| LiabilityCard.ArrayEntriesHoldItems | frontend/src/components/LiabilityCard.tsx:39 | `Object.entries` of an array maps each index, as a string, to its item. |
| LiabilityCard.ArrayEntriesKeys | frontend/src/components/LiabilityCard.tsx:39 | The keys of an array's entries are exactly its indices. |
| LiabilityCard.GetFactorEntries | frontend/src/components/LiabilityCard.tsx:37-40 | Null, falsy and non-object factors give no entries. An object gives its own members. |
| LiabilityCard.PartyPanel | frontend/src/components/LiabilityCard.tsx:89-111 | A falsy party has no panel. A drawn panel shows the raw score and one row per factor key. A non-number raw score breaks the panel. |
| LiabilityCard.Card | frontend/src/components/LiabilityCard.tsx:42-122 | The card is hidden exactly for falsy `scores`. When shown, it has three percentages, three shares and three panels. |
| LiabilityCard.SharesOfPositiveTotal | frontend/src/components/LiabilityCard.tsx:45-54 | The legend shows each party's percentage. With a positive total, each share is percentage/total×100 and the three shares add up to 100. |
| LiabilityCard.SharesAddUp | frontend/src/components/LiabilityCard.tsx:54 | Three shares of a positive total add up to 100. |
| LiabilityCard.EqualSplitOtherwise | frontend/src/components/LiabilityCard.tsx:54 | When the total is not positive, every share is 33.33. |
| LiabilityCard.AllPartiesMissing | frontend/src/components/LiabilityCard.tsx:17-20 | With all three parties missing, every percentage is 0, every share 33.33, and no panel is drawn. |
| FileUpload.InheritedMembersHaveNoSlash | frontend/src/components/FileUpload.tsx:32 | No name inherited from `Object.prototype` contains a `/`. |
| FileUpload.AcceptedIffListed | frontend/src/components/FileUpload.tsx:8-18 | A `type/subtype` string is accepted exactly when it is one of the nine allow-listed types. |
| FileUpload.AcceptedTypesHaveSlash | frontend/src/components/FileUpload.tsx:8-18 | Every allow-listed type has the `type/subtype` form. |
| FileUpload.SlashlessAcceptedIffInherited | frontend/src/components/FileUpload.tsx:32 | A type without a `/` is accepted exactly when it names an inherited `Object.prototype` member. So the empty type a browser reports for an unknown file is rejected. |
| FileUpload.Tenths | frontend/src/components/FileUpload.tsx:22-23 | One decimal: the whole part, a `.` and the tenths digit. |
| FileUpload.TenthsOf | frontend/src/components/FileUpload.tsx:22-23 | `toFixed(1)` of an exact quotient is the nearest number of tenths, rounding up on a tie. |
| FileUpload.FormatBytes | frontend/src/components/FileUpload.tsx:20-24 | Below 1024 the exact count is followed by " B". Below 1024² the KiB are shown to one decimal with " KB". Otherwise the MiB are shown to one decimal with " MB". |
| FileUpload.FormatBytesUnit | frontend/src/components/FileUpload.tsx:20-24 | The unit is B exactly below 1024, KB exactly from 1024 up to but excluding 1024², and MB exactly from there on. |
| FileUpload.SmallSizeIsExact | frontend/src/components/FileUpload.tsx:21 | Below 1024, reading back the printed digits gives the byte count. |
| FileUpload.FileDropZone.constructor | frontend/src/components/FileUpload.tsx:28-29 | No drag, no error, nothing selected. |
| FileUpload.FileDropZone.HandleFile | frontend/src/components/FileUpload.tsx:31-38 | A rejected file sets the error and selects nothing. An accepted file clears the error and is passed on exactly once. |
| FileUpload.FileDropZone.HandleDrop | frontend/src/components/FileUpload.tsx:40-45 | The drag ends. No file changes nothing, and only the first file counts. |
| FileUpload.FileDropZone.HandleChange | frontend/src/components/FileUpload.tsx:47-50 | No file changes nothing, and only the first file counts. |
| FileUpload.FileDropZone.DragOver | frontend/src/components/FileUpload.tsx:63 | The drag starts and nothing else changes. |
| FileUpload.FileDropZone.DragLeave | frontend/src/components/FileUpload.tsx:64 | The drag ends and nothing else changes. |
| Upload.WithCheck | frontend/src/pages/Upload.tsx:37-39 | Only the named checkbox changes. |
| Upload.WithText | frontend/src/pages/Upload.tsx:41-43 | Only the named text field changes. |
| Upload.Keys | frontend/src/pages/Upload.tsx:53-69 | A form data has one key per entry. |
| Upload.Get | frontend/src/pages/Upload.tsx:53-69 | `FormData.get` finds nothing exactly when the key was never appended. |
| Upload.LeadingKeys | frontend/src/pages/Upload.tsx:54-59 | The first six entries are file, disclosure_stripped, content_distributed, victim_impersonated, platform_name and takedown_requested. |
| Upload.TrailingKeys | frontend/src/pages/Upload.tsx:60-69 | Then come response_hours if it was sent, content_removed, estimated_reach if it was sent, and model_name if it was sent. |
| Upload.FormKeys | frontend/src/pages/Upload.tsx:53-69 | The whole key order of the form data, with the file first. |
| Upload.TrailingValue | frontend/src/pages/Upload.tsx:60-69 | The value of each trailing field, or nothing when it was not sent. |
| Upload.FormValue | frontend/src/pages/Upload.tsx:53-69 | A key not among the first six is read from the trailing entries. |
| Upload.ResponseHoursSentIff | frontend/src/pages/Upload.tsx:60-62 | response_hours is sent exactly when a takedown was requested and a time was typed, and then it is that text. |
| Upload.OptionalFieldsSentIff | frontend/src/pages/Upload.tsx:64-69 | estimated_reach and model_name are sent exactly when they are nonempty, and then they carry the typed text. |
| Upload.LeadingFieldsSent | frontend/src/pages/Upload.tsx:54-59 | The file and the five leading fields are always sent, booleans as "true"/"false". |
| Upload.LeadingGet | frontend/src/pages/Upload.tsx:54-59 | Reading any of the first six keys gives its leading entry. |
| Upload.TrailingFieldsSent | frontend/src/pages/Upload.tsx:63 | content_removed is always sent as "true"/"false". repeat_offender is never sent. |
| Upload.NavigationId | frontend/src/pages/Upload.tsx:72 | The id is `data.id ?? data.event_id ?? data`. |
| Upload.UploadPage.constructor | frontend/src/pages/Upload.tsx:32-35 | No file, the default form, not loading, no error. |
| Upload.UploadPage.SelectFile | frontend/src/pages/Upload.tsx:32 | Only the selected file changes. |
| Upload.UploadPage.SetCheck | frontend/src/pages/Upload.tsx:37-39 | The form gets the one checkbox changed and nothing else changes. |
| Upload.UploadPage.SetText | frontend/src/pages/Upload.tsx:41-43 | The form gets the one text field changed and nothing else changes. |
| Upload.UploadPage.BuildFormData | frontend/src/pages/Upload.tsx:53-69 | The successive appends build exactly the form data the page specifies. |
| Upload.UploadPage.BeginSubmit | frontend/src/pages/Upload.tsx:45-50 | With no file no request is built and nothing changes. Otherwise loading starts, the error clears and the form data is posted. |
| Upload.UploadPage.CompleteSubmit | frontend/src/pages/Upload.tsx:71-82 | Loading ends whatever the outcome. Success navigates to the extracted id, and failure shows the error text. |
| Integration.BoolField | backend/main.py:91-98 | A missing boolean field takes its default, and "true"/"false" are read as the booleans they name. |
| Integration.TextField | backend/main.py:95-100 | A missing string field takes its default. A sent one is its text. |
| Integration.SubmittedFormIsReceived | frontend/src/pages/Upload.tsx:53-69 | The endpoint receives each checkbox as ticked and repeat_offender false. Response hours arrive only when sent, 999 otherwise. The reach defaults to 0 and the model to "Unknown Model". |
| Integration.ReceivedLeadingFields | frontend/src/pages/Upload.tsx:54-59 | The five leading fields arrive as typed and ticked. |
| Integration.ReceivedTrailingFields | frontend/src/pages/Upload.tsx:63-69 | content_removed and the model name arrive as sent, or as their defaults. |
| Integration.SentNumbers | frontend/src/pages/Upload.tsx:60-66 | The numeric fields are sent as the typed text, and only under their conditions. |
| Integration.UnreadableReachIsRefused | backend/main.py:99 | An estimated reach that is not an integer is refused. |
| Integration.UploadNavigatesToEventId | frontend/src/pages/Upload.tsx:72 | After an upload, the page navigates to the event id. |
| Integration.FromReply | backend/main.py:201-202 | A body is a success. An HTTPException arrives with its status and `{"detail": ...}`. |
| Integration.UnknownIdShowsNotFound | frontend/src/pages/Verify.tsx:89-90 | Looking up an unknown id shows not_found and no error. |
| Integration.ShownHasNoResolverKeys | backend/main.py:60-80 | A reshaped record has none of the keys `resolveStatus` reads. |
| Integration.StoredRecordShowsMismatch | frontend/src/pages/Verify.tsx:50-62 | Every stored record that can be reshaped shows mismatch. |
| Integration.BrokenRecordShowsMessage | frontend/src/pages/Verify.tsx:91-92 | A record that makes the endpoint fail shows the axios message. |
| Integration.VerifiedFileShowsMismatch | backend/main.py:215-220 | Every `verify_file` answer shows mismatch, registered or not. |
| Integration.VideoTypesMatchServer | frontend/src/components/FileUpload.tsx:8-12 | The client's video extensions are the server's video set. |
| Integration.AudioTypesMatchServer | frontend/src/components/FileUpload.tsx:13-17 | The client's audio extensions are the server's audio set. |
| Integration.FactorShown | frontend/src/components/LiabilityCard.tsx:29-33 | A scored factor is shown as points over max, in whole units. |
| Integration.FactorsShown | frontend/src/components/LiabilityCard.tsx:99-104 | Every factor of the scorer's output can be displayed. |
| Integration.PartyPanelShown | frontend/src/components/LiabilityCard.tsx:89-111 | A scored party's panel is drawn, with its raw score and one row per factor name. |
| Integration.CardOfComputedLiability | frontend/src/components/LiabilityCard.tsx:42-122 | For the scorer's output, the card is shown with each party's percentage. The bars are as wide as the percentages, every panel is drawn, and no explanation appears. |
| Integration.ScoresJsonParties | backend/liability/scorer.py:168-187 | The scorer's output holds each party's percentage and a drawable panel. |
| Integration.ScoresJsonHasNoExplanation | backend/liability/scorer.py:168-187 | The scorer's output has no top-level explanation. |
| Integration.PartyInScores | frontend/src/components/LiabilityCard.tsx:17-20 | A scored party's percentage is read back, and its panel is drawn. |
| Integration.CardOfDrawnParties | frontend/src/components/LiabilityCard.tsx:45-54 | Percentages adding up to 100 give bars equal to the percentages. |
| Integration.SharesOfHundred | frontend/src/components/LiabilityCard.tsx:54 | Shares of a total of 100 equal the percentages. |
| Integration.CardOfScoredContext | frontend/src/components/LiabilityCard.tsx:45-54 | For any scored upload context, the card is shown with bars as wide as its percentages. |

## Left out

- JSON objects are maps, so key order is not modelled. This covers the order of `Object.entries`,
  the order of the card's factor rows and duplicate keys.
- IEEE floating point is not modelled. Points are exact hundredths and percentages and shares are
  exact reals. Float sums of points, and float rounding at exact halves, may differ from the exact
  values.
- The text rendered by `toFixed` and by the explanation's `:.3f`/`:.2f` is left out beyond the
  formatting the model states. `Scorer.ExplanationText` renders whole hundredths.
- `Text.Lower` and `LiabilityCard.CapitaliseWords` handle ASCII letters only. The model has no
  Unicode case mapping.
- The collaborators are parameters (`Backend.Collaborators` and the `lookup` of
  `Backend.Server.VerifyFile`):
  - the detectors;
  - `hash_file`;
  - the blockchain calls;
  - PDF generation;
  - the clock and the UUIDs;
  - the JSON parser (`parse`).
- The bytes written to temporary files are not modelled. Only the files' presence is.
- The SQLite round trip is modelled as a map of rows, and JSON columns read back as they were
  saved. The model does not cover `json.dumps`/`json.loads` text or the BOOLEAN column type.
- FastAPI's coercion of form fields is a parameter (`Integration.Coercions`). Its 422 reply is
  only "refused".
- `content_removed` is received but no rule table reads it, so the scorer's context has no place
  for it.
- React rendering, the explanation paragraph, Tailwind classes, `App.tsx` routing and `Results.tsx`
  are UI plumbing and are left out.
- The template string `/results/${id}` is not modelled. `Upload.UploadPage.CompleteSubmit` records
  the id value navigated to.
- `setCheck`/`setText` accept any key of the form but are used only on checkboxes and text fields.
  `Upload.UploadPage.SetCheck`/`SetText` are typed on those fields alone.
- `download_pdf`, `health`, `backend/blockchain/contract.py`, `backend/legal/pdf_generator.py` and the
  detectors are left out. They are I/O, foreign libraries or random mock values.
- Concurrency of overlapping requests is not modelled. Each lookup is a begin step followed by a
  complete step.
- LiabilityCard.Card: a percentage that is not a number makes `toFixed` throw, and the model shows
  this as `Throws`. It does not model JavaScript's coercion of such values in `total`.
- Verify.ReadKey: only `String.prototype.match` is modelled among inherited members. No key
  `resolveStatus` reads names a member of `Object.prototype`, `Boolean.prototype` or
  `Number.prototype`.

## Findings

| source | as written | input that shows it | evidently intended | confidence | as-written member | corrected member |
|---|---|---|---|---|---|---|
| frontend/src/pages/Verify.tsx:50 | `data.verified ?? data.match ?? ...` reads `match` on whatever body arrived; on a string body that is `String.prototype.match`, a function, so the payload counts as verified | a 200 reply whose body is not JSON, e.g. an HTML fallback page served for the API path (any string `s`) | a body that is not an object carries no verdict and reads as a mismatch (own members only) | not executed | Verify.StringPayloadIsVerifiedAsWritten | Verify.ResolveStatus |
