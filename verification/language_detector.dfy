/**
  Post-processing of a language-identification verdict (utils/language_detector.py).
  The identification itself is an opaque collaborator: its verdict for the text
  is a parameter, either a language code or the exception it raised.
*/
module LanguageDetector {
  import opened Common
  import opened Text

  /** A detection result as the detector reports it: `{'code': ..., 'name': ...}`. */
  datatype Detection = Detection(code: string, name: string)

  /** What the identification library does with the text: returns a code or raises. */
  datatype Verdict = Identified(code: string) | DetectionFailed(message: string)

  /** Display names of the codes the detector knows (`language_names`). */
  const LanguageNames: map<string, string> := map[
    "ar" := "Arabic", "bg" := "Bulgarian", "ceb" := "Cebuano",
    "cs" := "Czech", "nl" := "Dutch", "en" := "English",
    "et" := "Estonian", "tl" := "Filipino", "fi" := "Finnish",
    "de" := "German", "el" := "Greek",
    "iw" := "Hebrew", "hi" := "Hindi", "hu" := "Hungarian",
    "id" := "Indonesian", "ga" := "Irish", "it" := "Italian", "ja" := "Japanese",
    "jw" := "Javanese", "ko" := "Korean",
    "la" := "Latin", "lv" := "Latvian", "lt" := "Lithuanian", "mn" := "Mongolian",
    "my" := "Myanmar (Burmese)", "ne" := "Nepali", "no" := "Norwegian",
    "fa" := "Persian", "pl" := "Polish", "pt" := "Portuguese", "pa" := "Punjabi",
    "ro" := "Romanian", "ru" := "Russian",
    "sr" := "Serbian", "sl" := "Slovenian", "so" := "Somali",
    "es" := "Spanish", "sv" := "Swedish",
    "th" := "Thai", "tr" := "Turkish",
    "uk" := "Ukrainian", "vi" := "Vietnamese",
    "fr" := "French", "zh-cn" := "Chinese (Simplified)", "zh-tw" := "Chinese (Traditional)"
  ]

  /** The Chinese variants (`chinese_map`): plain Chinese defaults to Simplified. */
  const ChineseMap: map<string, string> := map["zh" := "zh-cn", "zh-cn" := "zh-cn", "zh-tw" := "zh-tw"]

  /** Minimum stripped length for which the detector is consulted at all. */
  const MinLength := 3

  /** The display name used when a code is not in `LanguageNames`. */
  const FallbackName := "English"

  /** `code.startswith('zh')`. */
  predicate IsChinese(code: string)
  {
    |code| >= 2 && code[0] == 'z' && code[1] == 'h'
  }

  /** The code reported for what the library identified: every `zh*` code is folded onto a variant. */
  function NormaliseCode(code: string): (r: string)
    ensures !IsChinese(code) ==> r == code
    ensures IsChinese(code) ==> r == (if code == "zh-tw" then "zh-tw" else "zh-cn")
    ensures IsChinese(code) ==> r in LanguageNames && LanguageNames[r] != FallbackName
  {
    if IsChinese(code) then
      assert LanguageNames["zh-cn"] == "Chinese (Simplified)" && LanguageNames["zh-tw"] == "Chinese (Traditional)";
      if code in ChineseMap then ChineseMap[code] else "zh-cn"
    else code
  }

  /** `language_names.get(code, 'English')`. */
  function NameOf(code: string): (r: string)
    ensures code in LanguageNames ==> r == LanguageNames[code]
    ensures code !in LanguageNames ==> r == FallbackName
  {
    if code in LanguageNames then LanguageNames[code] else FallbackName
  }

  /** `detect_language(text)`, given the library's verdict on `text`. */
  function DetectLanguage(text: string, verdict: Verdict): (r: Option<Detection>)
    ensures |Strip(text, PythonWhitespace)| < MinLength ==> r == None
    ensures verdict.DetectionFailed? ==> r == None
    ensures r.Some? <==> |Strip(text, PythonWhitespace)| >= MinLength && verdict.Identified?
    ensures r.Some? ==> r.value.code == NormaliseCode(verdict.code)
    ensures r.Some? ==> r.value.name == NameOf(r.value.code)
  {
    if text == "" || |Strip(text, PythonWhitespace)| < MinLength then None
    else match verdict
      case DetectionFailed(_) => None
      case Identified(code) =>
        var c := NormaliseCode(code);
        Some(Detection(c, NameOf(c)))
  }

  /** Short text is declined whatever the library would say: the library is not consulted. */
  lemma ShortTextIgnoresVerdict(text: string, v1: Verdict, v2: Verdict)
    requires |Strip(text, PythonWhitespace)| < MinLength
    ensures DetectLanguage(text, v1) == DetectLanguage(text, v2) == None
  {
  }

  /** A Chinese result always carries a code of the table, so never the fallback name. */
  lemma {:induction false} ChineseResultsAreNamed(text: string, verdict: Verdict)
    requires DetectLanguage(text, verdict).Some?
    requires IsChinese(DetectLanguage(text, verdict).value.code)
    ensures var d := DetectLanguage(text, verdict).value;
      d.code in {"zh-cn", "zh-tw"} && d.name == LanguageNames[d.code] && d.name != FallbackName
  {
  }
}
