/**
 * The client-side file gate: the MIME allow-list, the human-readable file size, and the drop
 * zone's state as files are dropped or chosen.
 */
module FileUpload {
  import opened Json
  import Text
  import Http

  /** `ACCEPTED_TYPES`: MIME type to extension. */
  const AcceptedTypes: map<string, string> := map[
    "video/mp4" := "mp4",
    "video/x-msvideo" := "avi",
    "video/quicktime" := "mov",
    "video/x-matroska" := "mkv",
    "audio/mpeg" := "mp3",
    "audio/wav" := "wav",
    "audio/flac" := "flac",
    "audio/x-m4a" := "m4a",
    "audio/ogg" := "ogg"]

  /**
   * The members an object literal inherits from `Object.prototype`. Each is a function, or for
   * `__proto__` the prototype object itself, so reading one gives a truthy value.
   */
  const InheritedMembers: set<string> := {
    "constructor", "hasOwnProperty", "isPrototypeOf", "propertyIsEnumerable", "toLocaleString",
    "toString", "valueOf", "__proto__", "__defineGetter__", "__defineSetter__",
    "__lookupGetter__", "__lookupSetter__"}

  const UnsupportedMessage :=
    "Unsupported file type. Please upload a video (mp4, avi, mov, mkv) or audio (mp3, wav, flac, m4a, ogg) file."

  /** `ACCEPTED_TYPES[type]` is truthy: an allow-listed type, or the name of an inherited member. */
  predicate IsAcceptedType(mimeType: string) {
    (mimeType in AcceptedTypes && AcceptedTypes[mimeType] != "") || mimeType in InheritedMembers
  }

  /** Whether `s` holds a `/`. */
  predicate HasSlash(s: string) {
    '/' in s
  }

  /** No inherited member name has a `/`. */
  lemma InheritedMembersHaveNoSlash()
    ensures forall m :: m in InheritedMembers ==> !HasSlash(m)
  {
  }

  /**
   * A type of the `type/subtype` form (every MIME type a browser reports) is accepted exactly when
   * it is one of the nine keys of the allow-list.
   */
  lemma AcceptedIffListed(mimeType: string)
    requires HasSlash(mimeType)
    ensures IsAcceptedType(mimeType) <==> mimeType in AcceptedTypes
  {
    InheritedMembersHaveNoSlash();
  }

  /** Every allow-listed type has the `type/subtype` form. */
  lemma AcceptedTypesHaveSlash()
    ensures forall m :: m in AcceptedTypes ==> HasSlash(m)
  {
    assert "video/mp4"[5] == '/' && "video/x-msvideo"[5] == '/' && "video/quicktime"[5] == '/';
    assert "video/x-matroska"[5] == '/' && "audio/mpeg"[5] == '/' && "audio/wav"[5] == '/';
    assert "audio/flac"[5] == '/' && "audio/x-m4a"[5] == '/' && "audio/ogg"[5] == '/';
  }

  /**
   * A type without a `/`, such as the empty type a browser reports for a file it cannot classify,
   * passes the check only when it names an inherited member: the lookup then falls through to
   * `Object.prototype`. So the empty type is rejected.
   */
  lemma SlashlessAcceptedIffInherited(mimeType: string)
    requires !HasSlash(mimeType)
    ensures IsAcceptedType(mimeType) <==> mimeType in InheritedMembers
    ensures mimeType == "" ==> !IsAcceptedType(mimeType)
  {
    AcceptedTypesHaveSlash();
  }

  /** `n / 10` rendered with one decimal, for a whole number `n` of tenths. */
  function Tenths(n: nat): (s: string)
    ensures |s| == |Text.NatToString(n / 10)| + 2
    ensures s[|s| - 2] == '.' && s[|s| - 1] == Text.DigitChar(n % 10)
  {
    Text.NatToString(n / 10) + "." + [Text.DigitChar(n % 10)]
  }

  /**
   * `(bytes / unit).toFixed(1)` for a power-of-two unit: the quotient is exact in floating point,
   * and `toFixed` picks the nearest number of tenths, the larger one on a tie.
   */
  function TenthsOf(bytes: nat, unit: nat): (t: nat)
    requires unit > 0 && unit % 2 == 0
    ensures -(unit as int) < 2 * (unit * t - 10 * bytes) <= unit
  {
    var n := 10 * bytes + unit / 2;
    assert n == unit * (n / unit) + n % unit;
    n / unit
  }

  const KiB: nat := 1024
  const MiB: nat := 1024 * 1024

  /** `formatBytes`. */
  function FormatBytes(bytes: nat): (s: string)
    ensures bytes < KiB ==> s == Text.NatToString(bytes) + " B"
    ensures KiB <= bytes < MiB ==> s == Tenths(TenthsOf(bytes, KiB)) + " KB"
    ensures MiB <= bytes ==> s == Tenths(TenthsOf(bytes, MiB)) + " MB"
  {
    if bytes < KiB then Text.NatToString(bytes) + " B"
    else if bytes < MiB then Tenths(TenthsOf(bytes, KiB)) + " KB"
    else Tenths(TenthsOf(bytes, MiB)) + " MB"
  }

  /** The unit is B below 1024 bytes, KB below 1024 * 1024, MB from there on. */
  lemma FormatBytesUnit(bytes: nat)
    ensures var s := FormatBytes(bytes);
      |s| >= 3
      && (bytes < KiB <==> s[|s| - 2..] == " B" && s[|s| - 3] != ' ')
      && (KiB <= bytes < MiB <==> s[|s| - 3..] == " KB")
      && (MiB <= bytes <==> s[|s| - 3..] == " MB")
  {
    var s := FormatBytes(bytes);
    if bytes < KiB {
      assert s[|s| - 3] == Text.NatToString(bytes)[|Text.NatToString(bytes)| - 1];
      assert s[|s| - 3..] != " KB" && s[|s| - 3..] != " MB";
    } else {
      assert s[|s| - 2..] == "B" || s[|s| - 2..] == [s[|s| - 2], 'B'];
      assert s[|s| - 3..][0] == ' ';
    }
  }

  /** Below 1024 bytes the count is printed exactly: reading back the digits gives it. */
  lemma SmallSizeIsExact(bytes: nat)
    requires bytes < KiB
    ensures var s := FormatBytes(bytes);
      Text.AllDigits(s[..|s| - 2]) && Text.ParseNat(s[..|s| - 2]) == bytes
  {
    var s := FormatBytes(bytes);
    assert s[..|s| - 2] == Text.NatToString(bytes);
    Text.ParseNatToString(bytes);
  }

  /**
   * The drop zone's state: whether a drag hovers over it, the error shown, and the files passed
   * to `onFileSelect` so far, in order.
   */
  class FileDropZone {
    var dragOver: bool
    var error: Option<string>
    var selected: seq<Http.File>

    constructor()
      ensures !dragOver && error.None? && selected == []
    {
      dragOver := false;
      error := None;
      selected := [];
    }

    /**
     * `handleFile`: a rejected file shows the error and selects nothing; an accepted one clears
     * the error and is passed to `onFileSelect` exactly once.
     */
    method HandleFile(f: Http.File)
      modifies this
      ensures !IsAcceptedType(f.mimeType) ==> error == Some(UnsupportedMessage) && selected == old(selected)
      ensures IsAcceptedType(f.mimeType) ==> error.None? && selected == old(selected) + [f]
      ensures dragOver == old(dragOver)
    {
      if !IsAcceptedType(f.mimeType) {
        error := Some(UnsupportedMessage);
        return;
      }
      error := None;
      selected := selected + [f];
    }

    /** `handleDrop`: the hover ends; only the first dropped file, if any, is considered. */
    method HandleDrop(files: seq<Http.File>)
      modifies this
      ensures !dragOver
      ensures |files| == 0 ==> error == old(error) && selected == old(selected)
      ensures |files| > 0 && !IsAcceptedType(files[0].mimeType) ==>
        error == Some(UnsupportedMessage) && selected == old(selected)
      ensures |files| > 0 && IsAcceptedType(files[0].mimeType) ==> error.None? && selected == old(selected) + [files[0]]
    {
      dragOver := false;
      if |files| > 0 {
        HandleFile(files[0]);
      }
    }

    /** `handleChange`: only the first chosen file, if any, is considered. */
    method HandleChange(files: Option<seq<Http.File>>)
      modifies this
      ensures dragOver == old(dragOver)
      ensures (files.None? || |files.value| == 0) ==> error == old(error) && selected == old(selected)
      ensures files.Some? && |files.value| > 0 ==>
        (IsAcceptedType(files.value[0].mimeType) ==> error.None? && selected == old(selected) + [files.value[0]])
        && (!IsAcceptedType(files.value[0].mimeType) ==> error == Some(UnsupportedMessage) && selected == old(selected))
    {
      if files.Some? && |files.value| > 0 {
        HandleFile(files.value[0]);
      }
    }

    /** A drag enters the zone. */
    method DragOver()
      modifies this
      ensures dragOver && error == old(error) && selected == old(selected)
    {
      dragOver := true;
    }

    /** A drag leaves the zone. */
    method DragLeave()
      modifies this
      ensures !dragOver && error == old(error) && selected == old(selected)
    {
      dragOver := false;
    }
  }
}
