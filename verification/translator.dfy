/**
  The translation service (utils/translator.py): the fixed catalogue of
  languages it offers and the result record it builds around one call of the
  translation library. The library call is opaque: its outcome, a translation
  or the exception it raised, is a parameter.
*/
module Translator {
  import opened Common
  import opened Text

  /** What the translation library does with one request: translates it or raises. */
  datatype LibraryOutcome = Translated(src: string, text: string) | Raised(message: string)

  /** The arguments the library is called with: `translate(text, dest=..., src=...)`. */
  datatype LibraryCall = LibraryCall(text: string, dest: string, src: string)

  /**
    The dictionary `translate_text` returns. A key the dictionary does not have
    in a branch (the names and the target on failure) reads as None, as does a
    key whose value is None.
  */
  datatype TranslationResult = TranslationResult(
    originalText: string,
    detectedLanguage: Option<string>,
    detectedLanguageName: Option<string>,
    translatedText: string,
    targetLanguage: Option<string>,
    targetLanguageName: Option<string>,
    success: bool,
    error: Option<string>)

  /** The sentinel asking the library to identify the source language itself. */
  const AutoSource := "auto"

  /** The display name used for a code that is not in the catalogue. */
  const UnknownName := "Unknown"

  /** The message of the result for blank input. */
  const EmptyTextError := "Empty text"

  /** The catalogue `languages`, in the order the service lists it. */
  function GetLanguages(): (r: seq<(string, string)>)
    ensures |r| == 104
    ensures r[0].0 == "af" && r[21].0 == "en" && r[21].1 == "English" && r[103].0 == "zu"
    ensures forall j :: 0 <= j < 21 ==> r[j].0 != "en"
  {
    CatalogueAfToFi() + CatalogueFrToKu() + CatalogueKyToGd() + CatalogueSrToZu()
  }

  function CatalogueAfToFi(): (r: seq<(string, string)>)
    ensures |r| == 26
  {
    [
      ("af", "Afrikaans"), ("sq", "Albanian"), ("am", "Amharic"), ("ar", "Arabic"),
      ("hy", "Armenian"), ("az", "Azerbaijani"), ("eu", "Basque"), ("be", "Belarusian"),
      ("bn", "Bengali"), ("bs", "Bosnian"), ("bg", "Bulgarian"), ("ca", "Catalan"),
      ("ceb", "Cebuano"), ("ny", "Chichewa"), ("zh-cn", "Chinese (Simplified)"), ("zh-tw", "Chinese (Traditional)"),
      ("co", "Corsican"), ("hr", "Croatian"), ("cs", "Czech"), ("da", "Danish"),
      ("nl", "Dutch"), ("en", "English"), ("eo", "Esperanto"), ("et", "Estonian"),
      ("tl", "Filipino"), ("fi", "Finnish")
    ]
  }

  function CatalogueFrToKu(): (r: seq<(string, string)>)
    ensures |r| == 26
  {
    [
      ("fr", "French"), ("fy", "Frisian"), ("gl", "Galician"), ("ka", "Georgian"),
      ("de", "German"), ("el", "Greek"), ("gu", "Gujarati"), ("ht", "Haitian Creole"),
      ("ha", "Hausa"), ("haw", "Hawaiian"), ("iw", "Hebrew"), ("hi", "Hindi"),
      ("hmn", "Hmong"), ("hu", "Hungarian"), ("is", "Icelandic"), ("ig", "Igbo"),
      ("id", "Indonesian"), ("ga", "Irish"), ("it", "Italian"), ("ja", "Japanese"),
      ("jw", "Javanese"), ("kn", "Kannada"), ("kk", "Kazakh"), ("km", "Khmer"),
      ("ko", "Korean"), ("ku", "Kurdish (Kurmanji)")
    ]
  }

  function CatalogueKyToGd(): (r: seq<(string, string)>)
    ensures |r| == 26
  {
    [
      ("ky", "Kyrgyz"), ("lo", "Lao"), ("la", "Latin"), ("lv", "Latvian"),
      ("lt", "Lithuanian"), ("lb", "Luxembourgish"), ("mk", "Macedonian"), ("mg", "Malagasy"),
      ("ms", "Malay"), ("ml", "Malayalam"), ("mt", "Maltese"), ("mi", "Maori"),
      ("mr", "Marathi"), ("mn", "Mongolian"), ("my", "Myanmar (Burmese)"), ("ne", "Nepali"),
      ("no", "Norwegian"), ("ps", "Pashto"), ("fa", "Persian"), ("pl", "Polish"),
      ("pt", "Portuguese"), ("pa", "Punjabi"), ("ro", "Romanian"), ("ru", "Russian"),
      ("sm", "Samoan"), ("gd", "Scots Gaelic")
    ]
  }

  function CatalogueSrToZu(): (r: seq<(string, string)>)
    ensures |r| == 26
  {
    [
      ("sr", "Serbian"), ("st", "Sesotho"), ("sn", "Shona"), ("sd", "Sindhi"),
      ("si", "Sinhala"), ("sk", "Slovak"), ("sl", "Slovenian"), ("so", "Somali"),
      ("es", "Spanish"), ("su", "Sundanese"), ("sw", "Swahili"), ("sv", "Swedish"),
      ("tg", "Tajik"), ("ta", "Tamil"), ("te", "Telugu"), ("th", "Thai"),
      ("tr", "Turkish"), ("uk", "Ukrainian"), ("ur", "Urdu"), ("uz", "Uzbek"),
      ("vi", "Vietnamese"), ("cy", "Welsh"), ("xh", "Xhosa"), ("yi", "Yiddish"),
      ("yo", "Yoruba"), ("zu", "Zulu")
    ]
  }

  /** `languages.get(code, 'Unknown')`. */
  function NameOf(code: string): (r: string)
    ensures code !in Keys(GetLanguages()) ==> r == UnknownName
    ensures code in Keys(GetLanguages()) ==> r == GetLanguages()[IndexOf(Keys(GetLanguages()), code).value].1
  {
    LookupFindsFirst(GetLanguages(), code, UnknownName);
    Lookup(GetLanguages(), code, UnknownName)
  }

  /** The `src` argument: a missing or empty source language becomes the `'auto'` sentinel. */
  function SourceArgument(sourceLang: Option<string>): (r: string)
    ensures r != ""
    ensures Truthy(sourceLang) ==> r == sourceLang.value
    ensures !Truthy(sourceLang) ==> r == AutoSource
  {
    if Truthy(sourceLang) then sourceLang.value else AutoSource
  }

  /** The library call `translate_text` makes, or None when it makes none. */
  function LibraryCallFor(text: string, targetLang: string, sourceLang: Option<string>): (r: Option<LibraryCall>)
    ensures r.None? <==> Strip(text, PythonWhitespace) == []
    ensures r.Some? ==> r.value == LibraryCall(text, targetLang, SourceArgument(sourceLang))
  {
    if Strip(text, PythonWhitespace) == [] then None
    else Some(LibraryCall(text, targetLang, SourceArgument(sourceLang)))
  }

  /**
    `translate_text(text, target_lang, source_lang)`, where `outcome` is what the
    library does with `LibraryCallFor(text, target_lang, source_lang)`; for blank
    text there is no call and the outcome is not used.
  */
  function TranslateText(text: string, targetLang: string, sourceLang: Option<string>, outcome: LibraryOutcome): (r: TranslationResult)
    ensures r.originalText == text
    ensures LibraryCallFor(text, targetLang, sourceLang).None? ==> !r.success && r.error == Some(EmptyTextError)
    ensures Strip(text, PythonWhitespace) == [] ==>
      r == TranslationResult(text, None, None, "", None, None, false, Some(EmptyTextError))
    ensures r.success <==> Strip(text, PythonWhitespace) != [] && outcome.Translated?
    ensures r.success ==>
      && r.translatedText == outcome.text
      && r.detectedLanguage == Some(outcome.src)
      && r.detectedLanguageName == Some(NameOf(outcome.src))
      && r.targetLanguage == Some(targetLang)
      && r.targetLanguageName == Some(NameOf(targetLang))
      && r.error == None
    ensures Strip(text, PythonWhitespace) != [] && outcome.Raised? ==>
      r == TranslationResult(text, None, None, "", None, None, false, Some(outcome.message))
    ensures !r.success ==> r.translatedText == "" && r.detectedLanguage == None && r.error.Some?
  {
    if Strip(text, PythonWhitespace) == [] then
      TranslationResult(text, None, None, "", None, None, false, Some(EmptyTextError))
    else match outcome
      case Translated(src, translated) =>
        TranslationResult(text, Some(src), Some(NameOf(src)), translated,
                          Some(targetLang), Some(NameOf(targetLang)), true, None)
      case Raised(message) =>
        TranslationResult(text, None, None, "", None, None, false, Some(message))
  }

  /** Blank text gives the same result whatever the library would have done: it is not called. */
  lemma BlankTextIgnoresOutcome(text: string, targetLang: string, sourceLang: Option<string>, o1: LibraryOutcome, o2: LibraryOutcome)
    requires Strip(text, PythonWhitespace) == []
    ensures TranslateText(text, targetLang, sourceLang, o1) == TranslateText(text, targetLang, sourceLang, o2)
    ensures !TranslateText(text, targetLang, sourceLang, o1).success
  {
  }

  /** The default target of the catalogue: English is listed, at position 21, and nothing before it is English. */
  lemma EnglishInCatalogue()
    ensures IndexOf(Keys(GetLanguages()), "en") == Some(21)
  {
    var codes := Keys(GetLanguages());
    assert codes[21] == "en";
  }
}
