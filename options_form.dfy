/**
 * `OptionsForm`: the transcription options dialog. Its two combo boxes hold
 * nine languages and five model sizes; codes are mapped to combo indices
 * when the dialog opens and back to codes when it is confirmed.
 */
module OptionsForm {
  import opened Text
  import Settings

  /** The language codes in combo order (Polish, English, German, French, Spanish, Italian, Russian, Ukrainian, Czech). */
  const LanguageCodes: seq<string> := ["pl", "en", "de", "fr", "es", "it", "ru", "uk", "cs"]

  /** The model sizes in combo order. */
  const ModelSizes: seq<string> := ["tiny", "base", "small", "medium", "large"]

  /** `SetSelectedLanguage`'s switch: the combo index of a code, ignoring case; any other code gives 0. */
  function LanguageIndex(code: string): (i: nat)
    ensures i < |LanguageCodes|
    ensures ToLower(code) in LanguageCodes ==> LanguageCodes[i] == ToLower(code)
    ensures ToLower(code) !in LanguageCodes ==> i == 0
  {
    var c := ToLower(code);
    if c == "pl" then 0
    else if c == "en" then 1
    else if c == "de" then 2
    else if c == "fr" then 3
    else if c == "es" then 4
    else if c == "it" then 5
    else if c == "ru" then 6
    else if c == "uk" then 7
    else if c == "cs" then 8
    else 0
  }

  /** `GetSelectedLanguageCode`: the code at a combo index; any other index gives "pl". */
  function LanguageCode(index: int): (c: string)
    ensures 0 <= index < |LanguageCodes| ==> c == LanguageCodes[index]
    ensures !(0 <= index < |LanguageCodes|) ==> c == "pl"
  {
    match index
    case 0 => "pl"
    case 1 => "en"
    case 2 => "de"
    case 3 => "fr"
    case 4 => "es"
    case 5 => "it"
    case 6 => "ru"
    case 7 => "uk"
    case 8 => "cs"
    case _ => "pl"
  }

  /** `SetSelectedModelSize`'s switch: the combo index of a size, ignoring case; any other size gives 3 (medium). */
  function ModelSizeIndex(size: string): (i: nat)
    ensures i < |ModelSizes|
    ensures ToLower(size) in ModelSizes ==> ModelSizes[i] == ToLower(size)
    ensures ToLower(size) !in ModelSizes ==> i == 3
  {
    var c := ToLower(size);
    if c == "tiny" then 0
    else if c == "base" then 1
    else if c == "small" then 2
    else if c == "medium" then 3
    else if c == "large" then 4
    else 3
  }

  /** `GetSelectedModelSize`: the size at a combo index; any other index gives "medium". */
  function ModelSize(index: int): (s: string)
    ensures 0 <= index < |ModelSizes| ==> s == ModelSizes[index]
    ensures !(0 <= index < |ModelSizes|) ==> s == "medium"
  {
    match index
    case 0 => "tiny"
    case 1 => "base"
    case 2 => "small"
    case 3 => "medium"
    case 4 => "large"
    case _ => "medium"
  }

  /** The codes and sizes are written in lower case. */
  lemma TablesAreLowerCase()
    ensures forall c :: c in LanguageCodes ==> ToLower(c) == c
    ensures forall s :: s in ModelSizes ==> ToLower(s) == s
  {
    forall c | c in LanguageCodes ensures ToLower(c) == c {
      assert !HasUpper(c);
      ToLowerFixes(c);
    }
    forall s | s in ModelSizes ensures ToLower(s) == s {
      assert !HasUpper(s);
      ToLowerFixes(s);
    }
  }

  /**
   * Code to index to code is the lower-cased code when it is one of the
   * nine, "pl" otherwise; index to code to index is the identity on 0..8.
   */
  lemma LanguageRoundTrip(code: string, index: int)
    ensures LanguageCode(LanguageIndex(code)) == if ToLower(code) in LanguageCodes then ToLower(code) else "pl"
    ensures 0 <= index < |LanguageCodes| ==> LanguageIndex(LanguageCode(index)) == index
  {
    if 0 <= index < |LanguageCodes| {
      TablesAreLowerCase();
      assert LanguageCodes[index] in LanguageCodes;
    }
  }

  /**
   * Size to index to size is the lower-cased size when it is one of the
   * five, "medium" otherwise; index to size to index is the identity on 0..4.
   */
  lemma ModelSizeRoundTrip(size: string, index: int)
    ensures ModelSize(ModelSizeIndex(size)) == if ToLower(size) in ModelSizes then ToLower(size) else "medium"
    ensures 0 <= index < |ModelSizes| ==> ModelSizeIndex(ModelSize(index)) == index
  {
    if 0 <= index < |ModelSizes| {
      TablesAreLowerCase();
      assert ModelSizes[index] in ModelSizes;
    }
  }

  /**
   * Case is ignored: any spelling ("EN", "Large") selects what its
   * lower-case form selects.
   */
  lemma CaseIsIgnored(code: string, size: string)
    ensures LanguageIndex(code) == LanguageIndex(ToLower(code))
    ensures ModelSizeIndex(size) == ModelSizeIndex(ToLower(size))
  {
    ToLowerFixes(code);
    ToLowerFixes(size);
  }

  // ---------------------------------------------------------------------
  // The dialog
  // ---------------------------------------------------------------------

  /** The dialog's state: the two combo selections and item counts, and the two check boxes. */
  datatype Dialog = Dialog(
    languageIndex: int, languageItems: nat, modelIndex: int, modelItems: nat,
    highQuality: bool, addPunctuation: bool)

  /** What `btnOK_Click` hands to the main window. */
  datatype Chosen = Chosen(languageCode: string, modelSize: string, highQuality: bool, addPunctuation: bool)

  /** A computed index is applied only when the combo holds that many items. */
  function Select(current: int, index: nat, items: nat): (r: int)
    ensures index < items ==> r == index
    ensures index >= items ==> r == current
  {
    if index < items then index else current
  }

  function SetSelectedLanguage(d: Dialog, code: string): Dialog
  {
    d.(languageIndex := Select(d.languageIndex, LanguageIndex(code), d.languageItems))
  }

  function SetSelectedModelSize(d: Dialog, size: string): Dialog
  {
    d.(modelIndex := Select(d.modelIndex, ModelSizeIndex(size), d.modelItems))
  }

  /**
   * The constructor: the combos are filled (nothing selected yet), the
   * passed language and size selected, the check boxes set.
   */
  function Open(language: string, modelSize: string, highQuality: bool, addPunctuation: bool): (d: Dialog)
    ensures d.languageItems == |LanguageCodes| && d.modelItems == |ModelSizes|
    ensures d.languageIndex == LanguageIndex(language) && d.modelIndex == ModelSizeIndex(modelSize)
  {
    var d := Dialog(-1, |LanguageCodes|, -1, |ModelSizes|, false, false);
    var d := SetSelectedLanguage(d, language);
    var d := SetSelectedModelSize(d, modelSize);
    d.(highQuality := highQuality, addPunctuation := addPunctuation)
  }

  /** `btnOK_Click`: the selected codes and the check boxes. */
  function Confirm(d: Dialog): Chosen
  {
    Chosen(LanguageCode(d.languageIndex), ModelSize(d.modelIndex), d.highQuality, d.addPunctuation)
  }

  /** `btnRestoreDefaults_Click`; `confirmed` is the answer to the confirmation box. */
  function RestoreDefaults(d: Dialog, confirmed: bool): (r: Dialog)
    ensures !confirmed ==> r == d
  {
    if !confirmed then d
    else
      var d := SetSelectedLanguage(d, Settings.DefaultLanguageCode);
      var d := SetSelectedModelSize(d, Settings.DefaultModelSize);
      d.(highQuality := Settings.DefaultHighQuality, addPunctuation := Settings.DefaultAddPunctuation)
  }

  /**
   * Opening the dialog and confirming it at once hands back the passed
   * options, normalised: codes lower-cased, unknown ones replaced by the
   * fallbacks "pl" and "medium".
   */
  lemma OpenConfirm(language: string, modelSize: string, highQuality: bool, addPunctuation: bool)
    ensures Confirm(Open(language, modelSize, highQuality, addPunctuation)) ==
      Chosen(if ToLower(language) in LanguageCodes then ToLower(language) else "pl",
             if ToLower(modelSize) in ModelSizes then ToLower(modelSize) else "medium",
             highQuality, addPunctuation)
  {
    LanguageRoundTrip(language, 0);
    ModelSizeRoundTrip(modelSize, 0);
  }

  /**
   * Restoring defaults in an opened dialog selects language 0 and model 3
   * and sets the check boxes, so confirming hands back the settings'
   * defaults; the languages and sizes chosen before do not matter.
   */
  lemma RestoreThenConfirm(language: string, modelSize: string, highQuality: bool, addPunctuation: bool)
    ensures var d := RestoreDefaults(Open(language, modelSize, highQuality, addPunctuation), true);
      d.languageIndex == 0 && d.modelIndex == 3 && !d.highQuality && d.addPunctuation &&
      Confirm(d) == Chosen(Settings.Defaults.languageCode, Settings.Defaults.modelSize,
                           Settings.Defaults.highQuality, Settings.Defaults.addPunctuation)
  {
    assert ToLower("pl") == "pl";
    assert ToLower("medium") == "medium";
  }
}
