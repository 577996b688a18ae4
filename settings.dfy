/**
 * `AppSettings`: the four transcription settings, their defaults, and how
 * they are loaded from and saved to `settings.json`. The file is an input:
 * missing, unreadable (any exception while reading or parsing), or
 * holding a JSON value that is `null` or an object with some of the four
 * properties.
 */
module Settings {
  import opened Wrappers

  const DefaultLanguageCode: string := "pl"
  const DefaultModelSize: string := "medium"
  const DefaultHighQuality: bool := false
  const DefaultAddPunctuation: bool := true

  /** The values of the four settings properties. */
  datatype Values = Values(languageCode: string, modelSize: string, highQuality: bool, addPunctuation: bool)

  const Defaults := Values(DefaultLanguageCode, DefaultModelSize, DefaultHighQuality, DefaultAddPunctuation)

  /** A JSON object as far as the settings are concerned: which of the four properties it sets. */
  datatype Json = Json(
    languageCode: Option<string>, modelSize: Option<string>,
    highQualityTranscription: Option<bool>, addPunctuation: Option<bool>)

  /** The settings file: missing, unreadable, or a JSON value (`None` for the literal `null`). */
  datatype StoredFile = Missing | Unreadable | Stored(content: Option<Json>)

  /**
   * `JsonSerializer.Deserialize<AppSettings>` on an object: a fresh
   * instance (the property initialisers) with the properties the object
   * sets overwritten.
   */
  function Deserialize(j: Json): (v: Values)
    ensures v.languageCode == j.languageCode.GetOr(DefaultLanguageCode)
    ensures v.modelSize == j.modelSize.GetOr(DefaultModelSize)
    ensures v.highQuality == j.highQualityTranscription.GetOr(DefaultHighQuality)
    ensures v.addPunctuation == j.addPunctuation.GetOr(DefaultAddPunctuation)
  {
    var v := Defaults;
    var v := if j.languageCode.Some? then v.(languageCode := j.languageCode.value) else v;
    var v := if j.modelSize.Some? then v.(modelSize := j.modelSize.value) else v;
    var v := if j.highQualityTranscription.Some? then v.(highQuality := j.highQualityTranscription.value) else v;
    if j.addPunctuation.Some? then v.(addPunctuation := j.addPunctuation.value) else v
  }

  /** `JsonSerializer.Serialize`: every property is written. */
  function Serialize(v: Values): (j: Json)
    ensures j.languageCode.Some? && j.modelSize.Some? && j.highQualityTranscription.Some? && j.addPunctuation.Some?
  {
    Json(Some(v.languageCode), Some(v.modelSize), Some(v.highQuality), Some(v.addPunctuation))
  }

  /**
   * `Load`: the deserialized settings when the file holds a JSON object,
   * the defaults when it is missing, holds `null` or cannot be read.
   */
  function Loaded(f: StoredFile): (v: Values)
    ensures f.Missing? || f.Unreadable? || f == Stored(None) ==> v == Defaults
    ensures f.Stored? && f.content.Some? ==> v == Deserialize(f.content.value)
  {
    match f
    case Stored(Some(j)) => Deserialize(j)
    case _ => Defaults
  }

  /** `Save`: the file afterwards; a failed write (the exception is swallowed) leaves it as it was. */
  function Saved(f: StoredFile, v: Values, writeFails: bool): (r: StoredFile)
    ensures writeFails ==> r == f
    ensures !writeFails ==> r.Stored? && r.content == Some(Serialize(v))
  {
    if writeFails then f else Stored(Some(Serialize(v)))
  }

  /** Saving and loading again gives the saved values back. */
  lemma SaveLoadRoundTrip(f: StoredFile, v: Values)
    ensures Loaded(Saved(f, v, false)) == v
  {
  }

  /** An object that sets no property loads as the defaults, as does one that sets them to the defaults. */
  lemma EmptyObjectIsDefaults()
    ensures Loaded(Stored(Some(Json(None, None, None, None)))) == Defaults
    ensures Loaded(Stored(Some(Serialize(Defaults)))) == Defaults
  {
  }

  /** The settings object; the four properties are updated in place. */
  class AppSettings {
    var languageCode: string
    var modelSize: string
    var highQualityTranscription: bool
    var addPunctuation: bool

    function Current(): Values
      reads this
    {
      Values(languageCode, modelSize, highQualityTranscription, addPunctuation)
    }

    /** `new AppSettings()`: the property initialisers. */
    constructor ()
      ensures Current() == Defaults
    {
      languageCode := DefaultLanguageCode;
      modelSize := DefaultModelSize;
      highQualityTranscription := DefaultHighQuality;
      addPunctuation := DefaultAddPunctuation;
    }

    /** `RestoreDefaults`: afterwards the object equals a fresh instance (so doing it twice changes nothing more). */
    method RestoreDefaults()
      modifies this
      ensures Current() == Defaults
    {
      languageCode := DefaultLanguageCode;
      modelSize := DefaultModelSize;
      highQualityTranscription := DefaultHighQuality;
      addPunctuation := DefaultAddPunctuation;
    }

    /** `Save`: the settings file after the write. */
    method Save(f: StoredFile, writeFails: bool) returns (r: StoredFile)
      ensures r == Saved(f, Current(), writeFails)
      ensures !writeFails ==> Loaded(r) == Current()
    {
      if writeFails {
        return f;
      }
      r := Stored(Some(Json(Some(languageCode), Some(modelSize), Some(highQualityTranscription), Some(addPunctuation))));
    }
  }

  /** `AppSettings.Load`: a new settings object holding what the file yields. */
  method Load(f: StoredFile) returns (s: AppSettings)
    ensures fresh(s) && s.Current() == Loaded(f)
  {
    s := new AppSettings();
    match f {
      case Stored(Some(j)) =>
        if j.languageCode.Some? { s.languageCode := j.languageCode.value; }
        if j.modelSize.Some? { s.modelSize := j.modelSize.value; }
        if j.highQualityTranscription.Some? { s.highQualityTranscription := j.highQualityTranscription.value; }
        if j.addPunctuation.Some? { s.addPunctuation := j.addPunctuation.value; }
      case _ =>
    }
  }
}
