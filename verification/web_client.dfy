/**
  The browser client of the web version (web/static/js/main.js). The closure
  variables and the values of the page's controls are the fields of
  `TranslatorPage`; every `fetch` the page starts is appended to the ghost log
  `requests`, and the JSON reply it awaits (or the exception `fetch` raised)
  is delivered later as an event (DetectReplied, TranslateReplied).
*/
module WebClient {
  import opened Common
  import opened Text

  const DetectingLabel := "Detecting language..."
  const UnknownLabel := "Unknown"
  const ErrorDetectingLabel := "Error detecting"

  /** Prefix of the error shown in place of a translation. */
  const TranslationErrorPrefix := "Translation error: "
  /** Shown after the prefix when the reply carries no error message. */
  const UnknownError := "Unknown error"
  /** Shown when the translate request itself failed. */
  const ServiceError := "Translation service error"

  /** The speech language sent when none is known. */
  const DefaultSpeechLang := "en"

  /** `data.language` of a detect reply. */
  datatype LanguageInfo = LanguageInfo(code: string, name: string)

  /** What `await fetch('/api/detect', ...)` and `response.json()` produce, or that they threw. */
  datatype DetectReply =
    | DetectResponse(success: bool, language: Option<LanguageInfo>)
    | DetectException

  /** What `await fetch('/api/translate', ...)` and `response.json()` produce, or that they threw. */
  datatype TranslateReply =
    | TranslateResponse(success: bool, translatedText: string, error: Option<string>)
    | TranslateException

  /** The text shown in the translation box for a translate reply. */
  function TranslationDisplay(reply: TranslateReply): (r: string)
    ensures reply.TranslateResponse? && reply.success ==> r == reply.translatedText
    ensures reply.TranslateResponse? && !reply.success && Truthy(reply.error) ==> r == TranslationErrorPrefix + reply.error.value
    ensures reply.TranslateResponse? && !reply.success && !Truthy(reply.error) ==> r == TranslationErrorPrefix + UnknownError
    ensures reply.TranslateException? ==> r == ServiceError
  {
    match reply
    case TranslateException => ServiceError
    case TranslateResponse(success, translated, error) =>
      if success then translated
      else TranslationErrorPrefix + (if Truthy(error) then error.value else UnknownError)
  }

  /**
    The scan of the swap handler over the option values: the position of the
    first option equal to `code`, found by a `for` loop that breaks on it.
  */
  method FindOption(options: seq<string>, code: string) returns (found: Option<nat>)
    ensures found == IndexOf(options, code)
  {
    found := None;
    var i := 0;
    while i < |options|
      invariant 0 <= i <= |options|
      invariant forall j :: 0 <= j < i ==> options[j] != code
      invariant found == None
    {
      if options[i] == code {
        found := Some(i);
        break;
      }
      i := i + 1;
    }
    LeadingMismatchesIndexOf(options, code, found, i);
  }

  /** Connects the loop's result to IndexOf: a match after mismatches, or mismatches only. */
  lemma {:induction false} LeadingMismatchesIndexOf(s: seq<string>, x: string, found: Option<nat>, i: nat)
    requires i <= |s|
    requires forall j :: 0 <= j < i ==> s[j] != x
    requires found.None? ==> i == |s|
    requires found.Some? ==> found.value == i && i < |s| && s[i] == x
    ensures found == IndexOf(s, x)
  {
    if found.None? {
      assert x !in s by {
        forall j | 0 <= j < |s| ensures s[j] != x { }
      }
    } else {
      var k := IndexOf(s, x);
      assert k.Some?;
      assert !(k.value < i) && !(i < k.value);
    }
  }

  /** Everything the handlers read or write, except the log of requests. */
  datatype View = View(
    sourceText: string,
    targetText: string,
    detectedLanguage: string,
    lastDetectedLanguage: Option<string>,
    selectedIndex: nat,
    typingTimer: Option<nat>,
    nextTimerId: nat)

  class TranslatorPage {
    /** The values of the `target-language` options, in page order. */
    const options: seq<string>
    /** `sourceText.value`. */
    var sourceText: string
    /** `targetText.value`. */
    var targetText: string
    /** `detectedLanguage.textContent`. */
    var detectedLanguage: string
    var lastDetectedLanguage: Option<string>
    /** `targetLanguage.selectedIndex`. */
    var selectedIndex: nat
    /** The pending `setTimeout`, if any, by its id. */
    var typingTimer: Option<nat>
    /** The id the next `setTimeout` gets. */
    var nextTimerId: nat
    /** Every request the page sent, oldest first. */
    ghost var requests: seq<Request>

    ghost predicate Valid()
      reads this
    {
      && (options != [] ==> selectedIndex < |options|)
      && (typingTimer.Some? ==> typingTimer.value < nextTimerId)
    }

    function Snapshot(): View
      reads this
    {
      View(sourceText, targetText, detectedLanguage, lastDetectedLanguage, selectedIndex, typingTimer, nextTimerId)
    }

    /** `targetLanguage.value`: the selected option's value, or "" for an empty list. */
    function TargetValue(): (r: string)
      reads this
      requires Valid()
      ensures options != [] ==> r == options[selectedIndex]
      ensures options == [] ==> r == ""
    {
      if options == [] then "" else options[selectedIndex]
    }

    /** The page as `init()` leaves it; the options and their initial selection come from the page itself. */
    constructor (optionValues: seq<string>, initialIndex: nat)
      requires optionValues != [] ==> initialIndex < |optionValues|
      ensures Valid() && options == optionValues && selectedIndex == initialIndex
      ensures sourceText == "" && targetText == "" && detectedLanguage == DetectingLabel
      ensures lastDetectedLanguage == None && typingTimer == None && nextTimerId == 0 && requests == []
    {
      options := optionValues;
      selectedIndex := initialIndex;
      sourceText, targetText := "", "";
      detectedLanguage := DetectingLabel;
      lastDetectedLanguage := None;
      typingTimer, nextTimerId := None, 0;
      requests := [];
    }

    /**
      `handleSourceTextChange` after the user changed the source box to `text`.
      The pending timer is always cleared; any non-empty value, even one of
      spaces only, schedules one detection; the empty value clears the
      translation and resets the label.
    */
    method OnSourceInput(text: string)
      requires Valid()
      modifies this
      ensures Valid() && requests == old(requests)
      ensures old(typingTimer).Some? ==> typingTimer != old(typingTimer)
      ensures text != "" ==>
        Snapshot() == old(Snapshot()).(sourceText := text, typingTimer := Some(old(nextTimerId)), nextTimerId := old(nextTimerId) + 1)
      ensures text == "" ==>
        Snapshot() == old(Snapshot()).(sourceText := text, typingTimer := None, targetText := "", detectedLanguage := DetectingLabel)
    {
      sourceText := text;
      typingTimer := None;
      if sourceText != "" {
        typingTimer := Some(nextTimerId);
        nextTimerId := nextTimerId + 1;
      } else {
        targetText := "";
        detectedLanguage := DetectingLabel;
      }
    }

    /** The `setTimeout` callback `id` runs; a cleared timer never does. */
    method OnTimerFired(id: nat)
      requires Valid()
      modifies this
      ensures Valid()
      ensures old(typingTimer) != Some(id) ==> Snapshot() == old(Snapshot()) && requests == old(requests)
      ensures old(typingTimer) == Some(id) && Strip(sourceText, JsWhitespace) == [] ==>
        Snapshot() == old(Snapshot()).(typingTimer := None, detectedLanguage := DetectingLabel) && requests == old(requests)
      ensures old(typingTimer) == Some(id) && Strip(sourceText, JsWhitespace) != [] ==>
        Snapshot() == old(Snapshot()).(typingTimer := None) && requests == old(requests) + [DetectRequest(sourceText)]
    {
      if typingTimer == Some(id) {
        typingTimer := None;
        DetectLanguage();
      }
    }

    /** `detectLanguage` up to its `await`: blank text only resets the label; otherwise the untrimmed text is sent. */
    method DetectLanguage()
      requires Valid()
      modifies this
      ensures Valid()
      ensures Strip(sourceText, JsWhitespace) == [] ==>
        Snapshot() == old(Snapshot()).(detectedLanguage := DetectingLabel) && requests == old(requests)
      ensures Strip(sourceText, JsWhitespace) != [] ==>
        Snapshot() == old(Snapshot()) && requests == old(requests) + [DetectRequest(sourceText)]
    {
      if Strip(sourceText, JsWhitespace) == [] {
        detectedLanguage := DetectingLabel;
        return;
      }
      requests := requests + [DetectRequest(sourceText)];
    }

    /**
      The rest of `detectLanguage`: a reply with a language records its name
      and code and translates; any other reply means "Unknown" and forgets
      the code; an exception only changes the label.
    */
    method DetectReplied(reply: DetectReply)
      requires Valid()
      modifies this
      ensures Valid()
      ensures reply.DetectException? ==>
        Snapshot() == old(Snapshot()).(detectedLanguage := ErrorDetectingLabel) && requests == old(requests)
      ensures reply.DetectResponse? && !(reply.success && reply.language.Some?) ==>
        Snapshot() == old(Snapshot()).(detectedLanguage := UnknownLabel, lastDetectedLanguage := None) && requests == old(requests)
      ensures reply.DetectResponse? && reply.success && reply.language.Some? ==>
        var info := reply.language.value;
        var detected := old(Snapshot()).(detectedLanguage := info.name, lastDetectedLanguage := Some(info.code));
        && (Strip(sourceText, JsWhitespace) == [] ==> Snapshot() == detected.(targetText := "") && requests == old(requests))
        && (Strip(sourceText, JsWhitespace) != [] ==>
              Snapshot() == detected && requests == old(requests) + [TranslateRequest(sourceText, TargetValue(), Some(info.code))])
    {
      match reply {
        case DetectException =>
          detectedLanguage := ErrorDetectingLabel;
        case DetectResponse(success, language) =>
          if success && language.Some? {
            detectedLanguage := language.value.name;
            lastDetectedLanguage := Some(language.value.code);
            HandleTranslation();
          } else {
            detectedLanguage := UnknownLabel;
            lastDetectedLanguage := None;
          }
      }
    }

    /**
      `handleTranslation` up to its `await` (also the `change` listener of the
      language list): blank text clears the translation and sends nothing;
      otherwise the untrimmed text, the selected value and the last detected
      code are sent.
    */
    method HandleTranslation()
      requires Valid()
      modifies this
      ensures Valid()
      ensures Strip(sourceText, JsWhitespace) == [] ==>
        Snapshot() == old(Snapshot()).(targetText := "") && requests == old(requests)
      ensures Strip(sourceText, JsWhitespace) != [] ==>
        Snapshot() == old(Snapshot())
        && requests == old(requests) + [TranslateRequest(sourceText, TargetValue(), lastDetectedLanguage)]
    {
      if Strip(sourceText, JsWhitespace) == [] {
        targetText := "";
        return;
      }
      requests := requests + [TranslateRequest(sourceText, TargetValue(), lastDetectedLanguage)];
    }

    /** The rest of `handleTranslation`: the reply, or the exception, decides the translation box. */
    method TranslateReplied(reply: TranslateReply)
      requires Valid()
      modifies this
      ensures Valid() && requests == old(requests)
      ensures Snapshot() == old(Snapshot()).(targetText := TranslationDisplay(reply))
    {
      match reply {
        case TranslateException =>
          targetText := ServiceError;
        case TranslateResponse(success, translated, error) =>
          if success {
            targetText := translated;
          } else {
            targetText := TranslationErrorPrefix + (if Truthy(error) then error.value else UnknownError);
          }
      }
    }

    /** The user picks option `index`; the `change` listener translates. */
    method SelectTargetLanguage(index: nat)
      requires Valid() && index < |options|
      modifies this
      ensures Valid() && TargetValue() == options[index]
      ensures Strip(sourceText, JsWhitespace) == [] ==>
        Snapshot() == old(Snapshot()).(selectedIndex := index, targetText := "") && requests == old(requests)
      ensures Strip(sourceText, JsWhitespace) != [] ==>
        Snapshot() == old(Snapshot()).(selectedIndex := index)
        && requests == old(requests) + [TranslateRequest(sourceText, options[index], lastDetectedLanguage)]
    {
      selectedIndex := index;
      HandleTranslation();
    }

    /**
      `handleSwapLanguages`: without a detected code nothing happens. Otherwise
      the two boxes exchange their values exactly, the first option whose value
      is the code is selected (the selection stays when there is none), and
      detection runs on the new source.
    */
    method HandleSwapLanguages()
      requires Valid()
      modifies this
      ensures Valid()
      ensures !Truthy(old(lastDetectedLanguage)) ==> Snapshot() == old(Snapshot()) && requests == old(requests)
      ensures Truthy(old(lastDetectedLanguage)) ==>
        var selected := match IndexOf(options, old(lastDetectedLanguage).value)
                        case Some(i) => i
                        case None => old(selectedIndex);
        var swapped := old(Snapshot()).(sourceText := old(targetText), targetText := old(sourceText), selectedIndex := selected);
        && (Strip(old(targetText), JsWhitespace) == [] ==>
              Snapshot() == swapped.(detectedLanguage := DetectingLabel) && requests == old(requests))
        && (Strip(old(targetText), JsWhitespace) != [] ==>
              Snapshot() == swapped && requests == old(requests) + [DetectRequest(old(targetText))])
    {
      if !Truthy(lastDetectedLanguage) {
        return;
      }
      var tempText := sourceText;
      sourceText := targetText;
      targetText := tempText;
      var found := FindOption(options, lastDetectedLanguage.value);
      if found.Some? {
        selectedIndex := found.value;
      }
      DetectLanguage();
    }

    /**
      `handleSpeakText(text, lang)`: blank text sends nothing. Otherwise a stop
      request goes first and, unless that request threw (`stopFailed`), a speak
      request for the untrimmed text follows, in `lang` or else English.
    */
    method HandleSpeakText(text: string, lang: Option<string>, stopFailed: bool)
      requires Valid()
      modifies this
      ensures Valid() && Snapshot() == old(Snapshot())
      ensures Strip(text, JsWhitespace) == [] ==> requests == old(requests)
      ensures Strip(text, JsWhitespace) != [] && stopFailed ==> requests == old(requests) + [StopAudioRequest]
      ensures Strip(text, JsWhitespace) != [] && !stopFailed ==>
        requests == old(requests) + [StopAudioRequest, SpeakRequest(text, if Truthy(lang) then lang.value else DefaultSpeechLang)]
    {
      if Strip(text, JsWhitespace) == [] {
        return;
      }
      requests := requests + [StopAudioRequest];
      if stopFailed {
        return;
      }
      requests := requests + [SpeakRequest(text, if Truthy(lang) then lang.value else DefaultSpeechLang)];
    }

    /** The source audio button: speak the source in the last detected language. */
    method ListenSource(stopFailed: bool)
      requires Valid()
      modifies this
      ensures Valid() && Snapshot() == old(Snapshot())
      ensures Strip(sourceText, JsWhitespace) == [] ==> requests == old(requests)
      ensures Strip(sourceText, JsWhitespace) != [] && stopFailed ==> requests == old(requests) + [StopAudioRequest]
      ensures Strip(sourceText, JsWhitespace) != [] && !stopFailed ==>
        requests == old(requests) + [StopAudioRequest, SpeakRequest(sourceText, if Truthy(lastDetectedLanguage) then lastDetectedLanguage.value else DefaultSpeechLang)]
    {
      HandleSpeakText(sourceText, lastDetectedLanguage, stopFailed);
    }

    /** The target audio button: speak the translation in the selected language. */
    method ListenTarget(stopFailed: bool)
      requires Valid()
      modifies this
      ensures Valid() && Snapshot() == old(Snapshot())
      ensures Strip(targetText, JsWhitespace) == [] ==> requests == old(requests)
      ensures Strip(targetText, JsWhitespace) != [] && stopFailed ==> requests == old(requests) + [StopAudioRequest]
      ensures Strip(targetText, JsWhitespace) != [] && !stopFailed ==>
        requests == old(requests) + [StopAudioRequest, SpeakRequest(targetText, if TargetValue() != "" then TargetValue() else DefaultSpeechLang)]
    {
      HandleSpeakText(targetText, Some(TargetValue()), stopFailed);
    }
  }
}
