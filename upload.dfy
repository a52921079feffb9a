/**
 * The upload page: the context form and its field setters, the multipart form data
 * `handleSubmit` builds from it, and the page's state around the request, down to the id of
 * the results page it navigates to.
 */
module Upload {
  import opened Json
  import Http

  /** `ContextForm`: the text fields hold what the inputs hold, possibly empty. */
  datatype ContextForm = ContextForm(
    disclosureStripped: bool,
    contentDistributed: bool,
    victimImpersonated: bool,
    platformName: string,
    takedownRequested: bool,
    responseHours: string,
    contentRemoved: bool,
    estimatedReach: string,
    modelName: string)

  /** `defaultForm`. */
  const DefaultForm: ContextForm := ContextForm(false, false, false, "YouTube", false, "", false, "", "")

  /** The fields `setCheck` is called with: the checkboxes. */
  datatype CheckField = DisclosureStripped | ContentDistributed | VictimImpersonated | TakedownRequested | ContentRemoved

  /** The fields `setText` is called with: the select and the text inputs. */
  datatype TextField = PlatformName | ResponseHours | EstimatedReach | ModelName

  function Check(form: ContextForm, field: CheckField): bool {
    match field
    case DisclosureStripped => form.disclosureStripped
    case ContentDistributed => form.contentDistributed
    case VictimImpersonated => form.victimImpersonated
    case TakedownRequested => form.takedownRequested
    case ContentRemoved => form.contentRemoved
  }

  function TextOf(form: ContextForm, field: TextField): string {
    match field
    case PlatformName => form.platformName
    case ResponseHours => form.responseHours
    case EstimatedReach => form.estimatedReach
    case ModelName => form.modelName
  }

  /** `{ ...f, [field]: value }` for a checkbox: that field changes and no other does. */
  function WithCheck(form: ContextForm, field: CheckField, value: bool): (f: ContextForm)
    ensures Check(f, field) == value
    ensures forall g :: g != field ==> Check(f, g) == Check(form, g)
    ensures forall t :: TextOf(f, t) == TextOf(form, t)
  {
    match field
    case DisclosureStripped => form.(disclosureStripped := value)
    case ContentDistributed => form.(contentDistributed := value)
    case VictimImpersonated => form.(victimImpersonated := value)
    case TakedownRequested => form.(takedownRequested := value)
    case ContentRemoved => form.(contentRemoved := value)
  }

  /** `{ ...f, [field]: value }` for a text field: that field changes and no other does. */
  function WithText(form: ContextForm, field: TextField, value: string): (f: ContextForm)
    ensures TextOf(f, field) == value
    ensures forall t :: t != field ==> TextOf(f, t) == TextOf(form, t)
    ensures forall g :: Check(f, g) == Check(form, g)
  {
    match field
    case PlatformName => form.(platformName := value)
    case ResponseHours => form.(responseHours := value)
    case EstimatedReach => form.(estimatedReach := value)
    case ModelName => form.(modelName := value)
  }

  /** A value appended to the form data: the file itself or a string. */
  datatype Part = FilePart(file: Http.File) | TextPart(text: string)

  /** `String(b)` for a boolean. */
  function BoolText(b: bool): string {
    if b then "true" else "false"
  }

  /**
   * The names of the upload request's form fields, one constructor per name: those
   * `handleSubmit` appends under, and `repeat_offender`, which the upload endpoint reads but the
   * page never sends.
   */
  datatype Key =
    | FileKey | DisclosureStrippedKey | ContentDistributedKey | VictimImpersonatedKey | RepeatOffenderKey
    | PlatformNameKey | TakedownRequestedKey | ResponseHoursKey | ContentRemovedKey | EstimatedReachKey
    | ModelNameKey

  /** The name each key is sent under. */
  function KeyName(k: Key): string {
    match k
    case FileKey => "file"
    case DisclosureStrippedKey => "disclosure_stripped"
    case ContentDistributedKey => "content_distributed"
    case VictimImpersonatedKey => "victim_impersonated"
    case RepeatOffenderKey => "repeat_offender"
    case PlatformNameKey => "platform_name"
    case TakedownRequestedKey => "takedown_requested"
    case ResponseHoursKey => "response_hours"
    case ContentRemovedKey => "content_removed"
    case EstimatedReachKey => "estimated_reach"
    case ModelNameKey => "model_name"
  }

  /** An entry that is present only when `present` holds. */
  function Optional(present: bool, key: Key, value: string): seq<(Key, Part)> {
    if present then [(key, TextPart(value))] else []
  }

  /** The entries that are always sent before `response_hours`: the file and five fields. */
  function LeadingEntries(file: Http.File, form: ContextForm): seq<(Key, Part)> {
    [(FileKey, FilePart(file)),
     (DisclosureStrippedKey, TextPart(BoolText(form.disclosureStripped))),
     (ContentDistributedKey, TextPart(BoolText(form.contentDistributed))),
     (VictimImpersonatedKey, TextPart(BoolText(form.victimImpersonated))),
     (PlatformNameKey, TextPart(form.platformName)),
     (TakedownRequestedKey, TextPart(BoolText(form.takedownRequested)))]
  }

  /**
   * The entries sent after them: the response time when a takedown was requested and a time was
   * typed, `content_removed`, then the reach and the model name when they are not empty.
   */
  function TrailingEntries(form: ContextForm): seq<(Key, Part)> {
    Optional(form.takedownRequested && form.responseHours != "", ResponseHoursKey, form.responseHours)
    + [(ContentRemovedKey, TextPart(BoolText(form.contentRemoved)))]
    + Optional(form.estimatedReach != "", EstimatedReachKey, form.estimatedReach)
    + Optional(form.modelName != "", ModelNameKey, form.modelName)
  }

  /** The form data `handleSubmit` sends, in append order. */
  function FormEntries(file: Http.File, form: ContextForm): seq<(Key, Part)> {
    LeadingEntries(file, form) + TrailingEntries(form)
  }

  /** The keys of some entries, in order. */
  function Keys(entries: seq<(Key, Part)>): (ks: seq<Key>)
    ensures |ks| == |entries|
    decreases |entries|
  {
    if |entries| == 0 then [] else [entries[0].0] + Keys(entries[1..])
  }

  /** The value of the first entry under `key`, if any (`FormData.get`). */
  function Get(entries: seq<(Key, Part)>, key: Key): (v: Option<Part>)
    ensures v.None? <==> key !in Keys(entries)
    decreases |entries|
  {
    if |entries| == 0 then None
    else if entries[0].0 == key then Some(entries[0].1)
    else Get(entries[1..], key)
  }

  /** The keys of two runs of entries are the keys of the first, then those of the second. */
  lemma {:induction false} KeysAppend(a: seq<(Key, Part)>, b: seq<(Key, Part)>)
    ensures Keys(a + b) == Keys(a) + Keys(b)
    decreases |a|
  {
    if |a| > 0 {
      assert (a + b)[1..] == a[1..] + b;
      KeysAppend(a[1..], b);
    } else {
      assert a + b == b;
    }
  }

  /** Looking a key up in two runs of entries: the first run wins. */
  lemma {:induction false} GetAppend(a: seq<(Key, Part)>, b: seq<(Key, Part)>, key: Key)
    ensures Get(a + b, key) == if key in Keys(a) then Get(a, key) else Get(b, key)
    decreases |a|
  {
    if |a| > 0 {
      assert (a + b)[1..] == a[1..] + b;
      if a[0].0 != key {
        GetAppend(a[1..], b, key);
      }
    } else {
      assert a + b == b;
    }
  }

  /** `Get` finds the first entry under `key`. */
  lemma {:induction false} GetFirst(entries: seq<(Key, Part)>, key: Key, i: nat)
    requires i < |entries| && entries[i].0 == key
    requires forall j :: 0 <= j < i ==> entries[j].0 != key
    ensures Get(entries, key) == Some(entries[i].1)
    decreases i
  {
    if i > 0 {
      GetFirst(entries[1..], key, i - 1);
    }
  }

  /** The keys of the leading entries. */
  lemma LeadingKeys(file: Http.File, form: ContextForm)
    ensures Keys(LeadingEntries(file, form)) ==
      [FileKey, DisclosureStrippedKey, ContentDistributedKey, VictimImpersonatedKey, PlatformNameKey, TakedownRequestedKey]
  {
    var a := LeadingEntries(file, form);
    assert Keys(a[5..]) == [TakedownRequestedKey];
    assert Keys(a[4..]) == [PlatformNameKey, TakedownRequestedKey];
    assert Keys(a[3..]) == [VictimImpersonatedKey, PlatformNameKey, TakedownRequestedKey];
    assert Keys(a[2..]) == [ContentDistributedKey, VictimImpersonatedKey, PlatformNameKey, TakedownRequestedKey];
  }

  /** The keys of the trailing entries. */
  lemma TrailingKeys(form: ContextForm)
    ensures Keys(TrailingEntries(form)) ==
      (if form.takedownRequested && form.responseHours != "" then [ResponseHoursKey] else [])
      + [ContentRemovedKey]
      + (if form.estimatedReach != "" then [EstimatedReachKey] else [])
      + (if form.modelName != "" then [ModelNameKey] else [])
  {
    var b := Optional(form.takedownRequested && form.responseHours != "", ResponseHoursKey, form.responseHours);
    var c := [(ContentRemovedKey, TextPart(BoolText(form.contentRemoved)))];
    var d := Optional(form.estimatedReach != "", EstimatedReachKey, form.estimatedReach);
    var e := Optional(form.modelName != "", ModelNameKey, form.modelName);
    KeysAppend(b, c);
    KeysAppend(b + c, d);
    KeysAppend(b + c + d, e);
  }

  /**
   * The keys of the form data, in order: the file and the five fields that are always sent, then
   * `response_hours` only when a takedown was requested and a time was typed, `content_removed`
   * always, and `estimated_reach` and `model_name` only when they are not empty. The first entry
   * holds the file itself.
   */
  lemma FormKeys(file: Http.File, form: ContextForm)
    ensures Keys(FormEntries(file, form)) ==
      [FileKey, DisclosureStrippedKey, ContentDistributedKey, VictimImpersonatedKey, PlatformNameKey, TakedownRequestedKey]
      + (if form.takedownRequested && form.responseHours != "" then [ResponseHoursKey] else [])
      + [ContentRemovedKey]
      + (if form.estimatedReach != "" then [EstimatedReachKey] else [])
      + (if form.modelName != "" then [ModelNameKey] else [])
    ensures FormEntries(file, form)[0] == (FileKey, FilePart(file))
  {
    LeadingKeys(file, form);
    TrailingKeys(form);
    KeysAppend(LeadingEntries(file, form), TrailingEntries(form));
  }

  /**
   * Looking a key up in the trailing entries: the response time, the removal flag, the reach and
   * the model name, each when it is sent.
   */
  lemma TrailingValue(form: ContextForm, key: Key)
    ensures Get(TrailingEntries(form), key) ==
      if key == ResponseHoursKey && form.takedownRequested && form.responseHours != "" then Some(TextPart(form.responseHours))
      else if key == ContentRemovedKey then Some(TextPart(BoolText(form.contentRemoved)))
      else if key == EstimatedReachKey && form.estimatedReach != "" then Some(TextPart(form.estimatedReach))
      else if key == ModelNameKey && form.modelName != "" then Some(TextPart(form.modelName))
      else None
  {
    var b := Optional(form.takedownRequested && form.responseHours != "", ResponseHoursKey, form.responseHours);
    var c := [(ContentRemovedKey, TextPart(BoolText(form.contentRemoved)))];
    var d := Optional(form.estimatedReach != "", EstimatedReachKey, form.estimatedReach);
    var e := Optional(form.modelName != "", ModelNameKey, form.modelName);
    GetAppend(b, c, key);
    GetAppend(b + c, d, key);
    GetAppend(b + c + d, e, key);
  }

  /** A key sent after the leading entries is looked up among the trailing ones. */
  lemma FormValue(file: Http.File, form: ContextForm, key: Key)
    requires key !in Keys(LeadingEntries(file, form))
    ensures Get(FormEntries(file, form), key) == Get(TrailingEntries(form), key)
  {
    GetAppend(LeadingEntries(file, form), TrailingEntries(form), key);
  }

  /** `response_hours` is sent exactly when a takedown was requested and a time was typed. */
  lemma ResponseHoursSentIff(file: Http.File, form: ContextForm)
    ensures Get(FormEntries(file, form), ResponseHoursKey).Some? <==> form.takedownRequested && form.responseHours != ""
    ensures Get(FormEntries(file, form), ResponseHoursKey).Some? ==>
      Get(FormEntries(file, form), ResponseHoursKey) == Some(TextPart(form.responseHours))
  {
    LeadingKeys(file, form);
    FormValue(file, form, ResponseHoursKey);
    TrailingValue(form, ResponseHoursKey);
  }

  /** `estimated_reach` and `model_name` are each sent exactly when they are not empty. */
  lemma OptionalFieldsSentIff(file: Http.File, form: ContextForm)
    ensures Get(FormEntries(file, form), EstimatedReachKey).Some? <==> form.estimatedReach != ""
    ensures Get(FormEntries(file, form), ModelNameKey).Some? <==> form.modelName != ""
  {
    LeadingKeys(file, form);
    FormValue(file, form, EstimatedReachKey);
    TrailingValue(form, EstimatedReachKey);
    FormValue(file, form, ModelNameKey);
    TrailingValue(form, ModelNameKey);
  }

  /**
   * The file and the five leading fields are always sent, the checkboxes as "true" or "false"
   * and the platform as selected.
   */
  lemma LeadingFieldsSent(file: Http.File, form: ContextForm)
    ensures Get(FormEntries(file, form), FileKey) == Some(FilePart(file))
    ensures Get(FormEntries(file, form), DisclosureStrippedKey) == Some(TextPart(BoolText(form.disclosureStripped)))
    ensures Get(FormEntries(file, form), ContentDistributedKey) == Some(TextPart(BoolText(form.contentDistributed)))
    ensures Get(FormEntries(file, form), VictimImpersonatedKey) == Some(TextPart(BoolText(form.victimImpersonated)))
    ensures Get(FormEntries(file, form), PlatformNameKey) == Some(TextPart(form.platformName))
    ensures Get(FormEntries(file, form), TakedownRequestedKey) == Some(TextPart(BoolText(form.takedownRequested)))
  {
    LeadingGet(file, form, 0);
    LeadingGet(file, form, 1);
    LeadingGet(file, form, 2);
    LeadingGet(file, form, 3);
    LeadingGet(file, form, 4);
    LeadingGet(file, form, 5);
  }

  /** Looking up the key of a leading entry finds that entry. */
  lemma LeadingGet(file: Http.File, form: ContextForm, i: nat)
    requires i < 6
    ensures Get(FormEntries(file, form), LeadingEntries(file, form)[i].0) == Some(LeadingEntries(file, form)[i].1)
  {
    var a := LeadingEntries(file, form);
    LeadingKeys(file, form);
    GetAppend(a, TrailingEntries(form), a[i].0);
    GetFirst(a, a[i].0, i);
  }

  /** `content_removed` is always sent, as "true" or "false"; `repeat_offender` never is. */
  lemma TrailingFieldsSent(file: Http.File, form: ContextForm)
    ensures Get(FormEntries(file, form), ContentRemovedKey) == Some(TextPart(BoolText(form.contentRemoved)))
    ensures Get(FormEntries(file, form), RepeatOffenderKey).None?
  {
    LeadingKeys(file, form);
    FormValue(file, form, ContentRemovedKey);
    TrailingValue(form, ContentRemovedKey);
    FormValue(file, form, RepeatOffenderKey);
    TrailingValue(form, RepeatOffenderKey);
  }

  /** The id `handleSubmit` navigates to: `data?.id ?? data?.event_id ?? data`. */
  function NavigationId(data: Json): (id: Json)
    ensures !Nullish(Prop(data, "id")) ==> Some(id) == Prop(data, "id")
    ensures Nullish(Prop(data, "id")) && !Nullish(Prop(data, "event_id")) ==> Some(id) == Prop(data, "event_id")
    ensures Nullish(Prop(data, "id")) && Nullish(Prop(data, "event_id")) ==> id == data
  {
    Coalesce(Coalesce(Prop(data, "id"), Prop(data, "event_id")), Some(data)).GetOr(data)
  }

  /** The state of the upload page. */
  class UploadPage {
    var selectedFile: Option<Http.File>
    var form: ContextForm
    var loading: bool
    var error: Option<Json>
    var navigatedTo: Option<Json>

    constructor()
      ensures selectedFile.None? && form == DefaultForm && !loading && error.None? && navigatedTo.None?
    {
      selectedFile := None;
      form := DefaultForm;
      loading := false;
      error := None;
      navigatedTo := None;
    }

    /** `onFileSelect`. */
    method SelectFile(f: Http.File)
      modifies this
      ensures selectedFile == Some(f) && form == old(form) && loading == old(loading)
      ensures error == old(error) && navigatedTo == old(navigatedTo)
    {
      selectedFile := Some(f);
    }

    /** `setCheck`. */
    method SetCheck(field: CheckField, value: bool)
      modifies this
      ensures form == WithCheck(old(form), field, value)
      ensures selectedFile == old(selectedFile) && loading == old(loading)
      ensures error == old(error) && navigatedTo == old(navigatedTo)
    {
      form := WithCheck(form, field, value);
    }

    /** `setText`. */
    method SetText(field: TextField, value: string)
      modifies this
      ensures form == WithText(old(form), field, value)
      ensures selectedFile == old(selectedFile) && loading == old(loading)
      ensures error == old(error) && navigatedTo == old(navigatedTo)
    {
      form := WithText(form, field, value);
    }

    /** The `data.append` calls of `handleSubmit`, one after the other. */
    method BuildFormData(file: Http.File) returns (data: seq<(Key, Part)>)
      ensures data == FormEntries(file, form)
    {
      data := [(FileKey, FilePart(file))];
      data := data + [(DisclosureStrippedKey, TextPart(BoolText(form.disclosureStripped)))];
      data := data + [(ContentDistributedKey, TextPart(BoolText(form.contentDistributed)))];
      data := data + [(VictimImpersonatedKey, TextPart(BoolText(form.victimImpersonated)))];
      data := data + [(PlatformNameKey, TextPart(form.platformName))];
      data := data + [(TakedownRequestedKey, TextPart(BoolText(form.takedownRequested)))];
      assert data == LeadingEntries(file, form);
      var b := Optional(form.takedownRequested && form.responseHours != "", ResponseHoursKey, form.responseHours);
      if form.takedownRequested && form.responseHours != "" {
        data := data + [(ResponseHoursKey, TextPart(form.responseHours))];
      }
      assert data == LeadingEntries(file, form) + b;
      var c := [(ContentRemovedKey, TextPart(BoolText(form.contentRemoved)))];
      data := data + c;
      var d := Optional(form.estimatedReach != "", EstimatedReachKey, form.estimatedReach);
      if form.estimatedReach != "" {
        data := data + [(EstimatedReachKey, TextPart(form.estimatedReach))];
      }
      assert data == LeadingEntries(file, form) + b + c + d;
      var e := Optional(form.modelName != "", ModelNameKey, form.modelName);
      if form.modelName != "" {
        data := data + [(ModelNameKey, TextPart(form.modelName))];
      }
      assert data == LeadingEntries(file, form) + b + c + d + e;
      assert b + c + d + e == TrailingEntries(form);
    }

    /**
     * The synchronous part of `handleSubmit`: without a file nothing happens and nothing is sent;
     * otherwise the page starts loading, clears the error and sends the form data.
     */
    method BeginSubmit() returns (request: Option<seq<(Key, Part)>>)
      modifies this
      ensures selectedFile.None? ==> request.None? && loading == old(loading) && error == old(error)
      ensures selectedFile.Some? ==> request == Some(FormEntries(selectedFile.value, form)) && loading && error.None?
      ensures selectedFile == old(selectedFile) && form == old(form) && navigatedTo == old(navigatedTo)
    {
      if selectedFile.None? {
        request := None;
        return;
      }
      loading := true;
      error := None;
      var data := BuildFormData(selectedFile.value);
      request := Some(data);
    }

    /**
     * The rest of `handleSubmit` once the request settles: navigate to the returned id, or show
     * the error; either way, stop loading.
     */
    method CompleteSubmit(o: Http.Outcome)
      modifies this
      ensures !loading
      ensures o.Success? ==> navigatedTo == Some(NavigationId(o.data)) && error == old(error)
      ensures !o.Success? ==> error == Some(Http.ErrorText(o)) && navigatedTo == old(navigatedTo)
      ensures selectedFile == old(selectedFile) && form == old(form)
    {
      if o.Success? {
        navigatedTo := Some(NavigationId(o.data));
      } else {
        error := Some(Http.ErrorText(o));
      }
      loading := false;
    }
  }
}
