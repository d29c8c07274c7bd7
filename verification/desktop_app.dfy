/**
  The coordinator of the Tk desktop application (desktop/app.py, class
  TranslatorApp). Each handler is a method; what the worker threads compute is
  delivered back as an explicit event (UpdateDetectedLanguage,
  UpdateTranslation, SpeakFinished), and every call the application hands to a
  collaborator is appended to the ghost log `requests`.
*/
module DesktopApp {
  import opened Common
  import opened Text
  import LanguageDetector
  import Translator

  const DetectingLabel := "Detecting language..."
  const UnknownLabel := "Unknown"
  const ReadyStatus := "Ready"
  const DetectingStatus := "Detecting language..."
  const DetectedStatus := "Language detected"
  const NotDetectedStatus := "Could not detect language"
  const TranslatingStatus := "Translating..."
  const TranslatedStatus := "Translation complete"
  const TranslationFailedStatus := "Translation failed"
  const RequestingAudioStatus := "Playing audio..."
  const AudioPlayingStatus := "Audio playing..."
  const AudioFailedStatus := "Audio playback failed"

  /** Prefix of the error shown in place of a translation. */
  const ErrorPrefix := "Error: "

  /**
    `get("1.0", tk.END)` on a Tk text widget: the content followed by the newline
    Tk always keeps at the end. Stripping makes that newline invisible.
  */
  function TkGet(content: string): (r: string)
    ensures Strip(r, PythonWhitespace) == Strip(content, PythonWhitespace)
  {
    StripAppendWhitespace(content, '\n', PythonWhitespace);
    content + "\n"
  }

  /**
    `widget.get("1.0", tk.END).strip()`, the way every handler reads a text
    widget: Tk's final newline disappears with the surrounding whitespace.
  */
  method ReadStripped(content: string) returns (t: string)
    ensures t == Strip(content, PythonWhitespace)
  {
    t := Strip(TkGet(content), PythonWhitespace);
  }

  /** Python's `f"{value}"` on an optional string: None prints as `None`. */
  function Format(value: Option<string>): string
  {
    match value
    case Some(s) => s
    case None => "None"
  }

  /** The entry selected in the target list at start-up: English when listed, else the first entry. */
  function DefaultTargetIndex(codes: seq<string>): (r: nat)
    ensures "en" in codes ==> r < |codes| && codes[r] == "en" && forall j :: 0 <= j < r ==> codes[j] != "en"
    ensures "en" !in codes ==> r == 0
  {
    match IndexOf(codes, "en")
    case Some(k) => k
    case None => 0
  }

  /** With the translation service's catalogue, the list starts on English. */
  lemma DefaultTargetIsEnglish()
    ensures var codes := Keys(Translator.GetLanguages());
      DefaultTargetIndex(codes) == 21 && codes[21] == "en"
  {
    Translator.EnglishInCatalogue();
  }

  /**
    The text of a desktop detect request is already stripped, so the
    detector's own `strip()` sees it unchanged: its length guard decides on
    the same text as the window did.
  */
  lemma DetectRequestPassesDetectorStrip(content: string, verdict: LanguageDetector.Verdict)
    ensures var t := Strip(content, PythonWhitespace);
      && Strip(t, PythonWhitespace) == t
      && (LanguageDetector.DetectLanguage(t, verdict).Some? <==> |t| >= LanguageDetector.MinLength && verdict.Identified?)
  {
    StripIdempotent(content, PythonWhitespace);
  }

  /** Everything the handlers read or write, except the log of requests. */
  datatype View = View(
    sourceText: string,
    targetText: string,
    detectedLanguage: string,
    status: string,
    lastDetectedCode: Option<string>,
    targetIndex: nat,
    typingTimer: Option<nat>,
    nextTimerId: nat)

  class TranslatorApp {
    /** `language_options`: the translator's catalogue, in order. */
    const catalog: seq<(string, string)>
    /** Content of the source text widget (without Tk's final newline). */
    var sourceText: string
    /** Content of the translation text widget (without Tk's final newline). */
    var targetText: string
    /** The detected-language label. */
    var detectedLanguage: string
    /** The status bar. */
    var status: string
    var lastDetectedCode: Option<string>
    /** `target_language.current()`: the selected position in `catalog`. */
    var targetIndex: nat
    /** The pending debounce timer, if any, by its id. */
    var typingTimer: Option<nat>
    /** The id the next scheduled timer gets. */
    var nextTimerId: nat
    /** Every request handed to a collaborator, oldest first. */
    ghost var requests: seq<Request>

    ghost predicate Valid()
      reads this
    {
      && |catalog| > 0
      && targetIndex < |catalog|
      && (typingTimer.Some? ==> typingTimer.value < nextTimerId)
    }

    function Snapshot(): View
      reads this
    {
      View(sourceText, targetText, detectedLanguage, status, lastDetectedCode, targetIndex, typingTimer, nextTimerId)
    }

    /** The code of the selected target language. */
    function TargetCode(): string
      reads this
      requires Valid()
    {
      catalog[targetIndex].0
    }

    /**
      The window as `__init__` and `create_ui` leave it. `languages` is the
      translation service's catalogue (`translator.get_languages()`, in order);
      the list starts on English when it is listed. An empty catalogue is not
      allowed: selecting its first entry would fail.
    */
    constructor (languages: seq<(string, string)>)
      requires languages != []
      ensures Valid() && catalog == languages
      ensures targetIndex == DefaultTargetIndex(Keys(catalog))
      ensures "en" in Keys(catalog) ==> TargetCode() == "en"
      ensures sourceText == "" && targetText == "" && detectedLanguage == DetectingLabel && status == ReadyStatus
      ensures lastDetectedCode == None && typingTimer == None && nextTimerId == 0 && requests == []
    {
      catalog := languages;
      sourceText, targetText := "", "";
      detectedLanguage, status := DetectingLabel, ReadyStatus;
      lastDetectedCode := None;
      typingTimer, nextTimerId := None, 0;
      requests := [];
      new;
      targetIndex := DefaultTargetIndex(Keys(catalog));
    }

    /**
      `on_source_text_change`: the user has changed the source buffer to `text`.
      The pending timer is cancelled; non-blank text gets one fresh timer, blank
      text resets the label and clears the translation.
    */
    method OnSourceTextChange(text: string)
      requires Valid()
      modifies this
      ensures Valid() && requests == old(requests)
      ensures old(typingTimer).Some? ==> typingTimer != old(typingTimer)
      ensures Strip(text, PythonWhitespace) != [] ==>
        Snapshot() == old(Snapshot()).(sourceText := text, typingTimer := Some(old(nextTimerId)), nextTimerId := old(nextTimerId) + 1)
      ensures Strip(text, PythonWhitespace) == [] ==>
        Snapshot() == old(Snapshot()).(sourceText := text, typingTimer := None, detectedLanguage := DetectingLabel, targetText := "")
    {
      sourceText := text;
      if typingTimer.Some? {
        typingTimer := None;
      }
      var t := ReadStripped(sourceText);
      if t != [] {
        typingTimer := Some(nextTimerId);
        nextTimerId := nextTimerId + 1;
      } else {
        detectedLanguage := DetectingLabel;
        targetText := "";
      }
    }

    /** The timer `id` fires; a timer that was cancelled never runs. */
    method OnTimerFired(id: nat)
      requires Valid()
      modifies this
      ensures Valid()
      ensures old(typingTimer) != Some(id) ==> Snapshot() == old(Snapshot()) && requests == old(requests)
      ensures old(typingTimer) == Some(id) ==>
        var t := Strip(sourceText, PythonWhitespace);
        && (t == [] ==> Snapshot() == old(Snapshot()).(typingTimer := None, detectedLanguage := DetectingLabel) && requests == old(requests))
        && (t != [] ==> Snapshot() == old(Snapshot()).(typingTimer := None, status := DetectingStatus) && requests == old(requests) + [DetectRequest(t)])
    {
      if typingTimer == Some(id) {
        typingTimer := None;
        DetectLanguage();
      }
    }

    /** `detect_language`: dispatch detection of the stripped source text, unless it is blank. */
    method DetectLanguage()
      requires Valid()
      modifies this
      ensures Valid()
      ensures var t := Strip(old(sourceText), PythonWhitespace);
        && (t == [] ==> Snapshot() == old(Snapshot()).(detectedLanguage := DetectingLabel) && requests == old(requests))
        && (t != [] ==> Snapshot() == old(Snapshot()).(status := DetectingStatus) && requests == old(requests) + [DetectRequest(t)])
    {
      var text := ReadStripped(sourceText);
      if text == [] {
        detectedLanguage := DetectingLabel;
        return;
      }
      status := DetectingStatus;
      requests := requests + [DetectRequest(text)];
    }

    /**
      `update_detected_language`: the detection worker delivers its result. A
      result records the code and name and triggers exactly one translation
      (with that code as source); no result means "Unknown".
    */
    method UpdateDetectedLanguage(result: Option<LanguageDetector.Detection>)
      requires Valid()
      modifies this
      ensures Valid()
      ensures result.None? ==>
        Snapshot() == old(Snapshot()).(detectedLanguage := UnknownLabel, lastDetectedCode := None, status := NotDetectedStatus)
        && requests == old(requests)
      ensures result.Some? ==>
        var detected := old(Snapshot()).(detectedLanguage := result.value.name, lastDetectedCode := Some(result.value.code));
        var t := Strip(sourceText, PythonWhitespace);
        && (t == [] ==> Snapshot() == detected.(status := DetectedStatus, targetText := "") && requests == old(requests))
        && (t != [] ==> Snapshot() == detected.(status := TranslatingStatus)
                        && requests == old(requests) + [TranslateRequest(t, TargetCode(), Some(result.value.code))])
    {
      if result.Some? {
        detectedLanguage := result.value.name;
        lastDetectedCode := Some(result.value.code);
        status := DetectedStatus;
        HandleTranslation();
      } else {
        detectedLanguage := UnknownLabel;
        lastDetectedCode := None;
        status := NotDetectedStatus;
      }
    }

    /**
      `handle_translation` (the Translate button): blank source clears the
      translation and asks nothing; otherwise one request for the stripped text,
      the selected target code and the last detected code.
    */
    method HandleTranslation()
      requires Valid()
      modifies this
      ensures Valid()
      ensures var t := Strip(old(sourceText), PythonWhitespace);
        && (t == [] ==> Snapshot() == old(Snapshot()).(targetText := "") && requests == old(requests))
        && (t != [] ==> Snapshot() == old(Snapshot()).(status := TranslatingStatus)
                        && requests == old(requests) + [TranslateRequest(t, TargetCode(), lastDetectedCode)])
    {
      var text := ReadStripped(sourceText);
      if text == [] {
        targetText := "";
        return;
      }
      var languageCodes := Keys(catalog);
      var targetLang := languageCodes[targetIndex];
      status := TranslatingStatus;
      requests := requests + [TranslateRequest(text, targetLang, lastDetectedCode)];
    }

    /** `update_translation`: the translation worker delivers its result record. */
    method UpdateTranslation(result: Translator.TranslationResult)
      requires Valid()
      modifies this
      ensures Valid() && requests == old(requests)
      ensures result.success ==> Snapshot() == old(Snapshot()).(targetText := result.translatedText, status := TranslatedStatus)
      ensures !result.success ==> Snapshot() == old(Snapshot()).(targetText := ErrorPrefix + Format(result.error), status := TranslationFailedStatus)
    {
      if result.success {
        targetText := result.translatedText;
        status := TranslatedStatus;
      } else {
        targetText := ErrorPrefix + Format(result.error);
        status := TranslationFailedStatus;
      }
    }

    /** A new target language is chosen in the list; the source is translated into it. */
    method SelectTargetLanguage(index: nat)
      requires Valid() && index < |catalog|
      modifies this
      ensures Valid() && TargetCode() == catalog[index].0
      ensures var t := Strip(old(sourceText), PythonWhitespace);
        && (t == [] ==> Snapshot() == old(Snapshot()).(targetIndex := index, targetText := "") && requests == old(requests))
        && (t != [] ==> Snapshot() == old(Snapshot()).(targetIndex := index, status := TranslatingStatus)
                        && requests == old(requests) + [TranslateRequest(t, catalog[index].0, lastDetectedCode)])
    {
      targetIndex := index;
      HandleTranslation();
    }

    /**
      The list position the swap moves to: the detected code's position when
      the catalogue lists it, the current one otherwise.
    */
    function SwapIndex(code: string): (r: nat)
      reads this
      requires Valid()
      ensures r < |catalog|
      ensures code in Keys(catalog) ==> catalog[r].0 == code && forall j :: 0 <= j < r ==> catalog[j].0 != code
      ensures code !in Keys(catalog) ==> r == targetIndex
    {
      match IndexOf(Keys(catalog), code)
      case Some(i) => i
      case None => targetIndex
    }

    /**
      The first half of `handle_swap_languages`: the two buffers are exchanged
      (each gains Tk's final newline) and the target list moves to the
      detected code when it is listed.
    */
    method ExchangeBuffers()
      requires Valid() && Truthy(lastDetectedCode)
      modifies this
      ensures Valid() && requests == old(requests)
      ensures Snapshot() == old(Snapshot()).(
        sourceText := old(targetText) + "\n", targetText := old(sourceText) + "\n",
        targetIndex := old(SwapIndex(lastDetectedCode.value)))
      ensures Strip(sourceText, PythonWhitespace) == Strip(old(targetText), PythonWhitespace)
      ensures Strip(targetText, PythonWhitespace) == Strip(old(sourceText), PythonWhitespace)
    {
      var oldSource := TkGet(sourceText);
      var oldTarget := TkGet(targetText);
      sourceText := oldTarget;
      targetText := oldSource;
      var languageCodes := Keys(catalog);
      match IndexOf(languageCodes, lastDetectedCode.value) {
        case Some(i) => targetIndex := i;
        case None =>
      }
    }

    /**
      `handle_swap_languages`: without a detected code nothing happens.
      Otherwise the buffers are exchanged and detection runs on the new source.
    */
    method HandleSwapLanguages()
      requires Valid()
      modifies this
      ensures Valid()
      ensures !Truthy(old(lastDetectedCode)) ==> Snapshot() == old(Snapshot()) && requests == old(requests)
      ensures Truthy(old(lastDetectedCode)) ==>
        Strip(sourceText, PythonWhitespace) == Strip(old(targetText), PythonWhitespace)
        && Strip(targetText, PythonWhitespace) == Strip(old(sourceText), PythonWhitespace)
      ensures Truthy(old(lastDetectedCode)) ==>
        var swapped := old(Snapshot()).(
          sourceText := old(targetText) + "\n", targetText := old(sourceText) + "\n",
          targetIndex := old(SwapIndex(lastDetectedCode.value)));
        var t := Strip(old(targetText), PythonWhitespace);
        && (t == [] ==> Snapshot() == swapped.(detectedLanguage := DetectingLabel) && requests == old(requests))
        && (t != [] ==> Snapshot() == swapped.(status := DetectingStatus) && requests == old(requests) + [DetectRequest(t)])
    {
      if !Truthy(lastDetectedCode) {
        return;
      }
      ExchangeBuffers();
      DetectLanguage();
    }

    /**
      `handle_speak_text`: blank text or a missing code asks nothing; otherwise
      one speech request for the stripped text.
    */
    method HandleSpeakText(text: string, langCode: Option<string>)
      requires Valid()
      modifies this
      ensures Valid()
      ensures Strip(text, PythonWhitespace) == [] || !Truthy(langCode) ==>
        Snapshot() == old(Snapshot()) && requests == old(requests)
      ensures Strip(text, PythonWhitespace) != [] && Truthy(langCode) ==>
        Snapshot() == old(Snapshot()).(status := RequestingAudioStatus)
        && requests == old(requests) + [SpeakRequest(Strip(text, PythonWhitespace), langCode.value)]
    {
      var t := Strip(text, PythonWhitespace);
      if t == [] || !Truthy(langCode) {
        return;
      }
      status := RequestingAudioStatus;
      requests := requests + [SpeakRequest(t, langCode.value)];
    }

    /** The source Listen button: speak the source text in the last detected language. */
    method ListenSource()
      requires Valid()
      modifies this
      ensures Valid()
      ensures Strip(sourceText, PythonWhitespace) == [] || !Truthy(lastDetectedCode) ==>
        Snapshot() == old(Snapshot()) && requests == old(requests)
      ensures Strip(sourceText, PythonWhitespace) != [] && Truthy(lastDetectedCode) ==>
        Snapshot() == old(Snapshot()).(status := RequestingAudioStatus)
        && requests == old(requests) + [SpeakRequest(Strip(sourceText, PythonWhitespace), lastDetectedCode.value)]
    {
      HandleSpeakText(TkGet(sourceText), lastDetectedCode);
    }

    /** The target Listen button: speak the translation in the selected target language. */
    method ListenTarget()
      requires Valid()
      modifies this
      ensures Valid()
      ensures Strip(targetText, PythonWhitespace) == [] || TargetCode() == "" ==>
        Snapshot() == old(Snapshot()) && requests == old(requests)
      ensures Strip(targetText, PythonWhitespace) != [] && TargetCode() != "" ==>
        Snapshot() == old(Snapshot()).(status := RequestingAudioStatus)
        && requests == old(requests) + [SpeakRequest(Strip(targetText, PythonWhitespace), TargetCode())]
    {
      var languageCodes := Keys(catalog);
      HandleSpeakText(TkGet(targetText), Some(languageCodes[targetIndex]));
    }

    /** The speech worker reports whether synthesis and playback started. */
    method SpeakFinished(success: bool)
      requires Valid()
      modifies this
      ensures Valid() && requests == old(requests)
      ensures Snapshot() == old(Snapshot()).(status := if success then AudioPlayingStatus else AudioFailedStatus)
    {
      if success {
        status := AudioPlayingStatus;
      } else {
        status := AudioFailedStatus;
      }
    }
  }
}
