/**
  The stubbed prototype window (test.py, class AITranslatorApp). Detection,
  translation and speech are simulated by worker threads that sleep and then
  write placeholder results; each thread started is appended to the ghost log
  `jobs`, and its completion is delivered later as an event
  (DetectionFinished, TranslationFinished, SpeechFinished).
*/
module Prototype {
  import opened Common
  import opened Text

  /** The target choices of the combobox. */
  const Languages: seq<string> := [
    "English", "Spanish", "French", "German", "Italian",
    "Portuguese", "Russian", "Japanese", "Chinese", "Korean",
    "Arabic", "Hindi", "Dutch", "Swedish", "Greek"
  ]

  /** The source language before anything was detected; swapping is refused while it stands. */
  const AutoDetect := "Auto-detect"

  /** The language the simulated detector always reports. */
  const PlaceholderDetection := "English"

  const DetectedPrefix := "Detected: "
  const ReadyStatus := "Ready"
  const DetectingStatus := "Detecting language..."
  const DetectedStatus := "Language detected"
  const TranslatedStatus := "Translation complete"
  const SourceAudioStatus := "Playing audio for source text..."
  const TargetAudioStatus := "Playing audio for translated text..."
  const AudioDoneStatus := "Audio playback complete"

  /** Detection runs only once the stripped text is longer than this. */
  const DetectionThreshold := 5

  /** A simulated worker thread. */
  datatype Job = DetectJob | TranslateJob(text: string) | SourceSpeechJob | TargetSpeechJob

  /** The status shown while a translation is simulated. */
  function TranslatingStatus(source: string, target: string): string
  {
    "Translating from " + source + " to " + target + "..."
  }

  /** The placeholder the simulated translator writes. */
  function PlaceholderTranslation(text: string, source: string, target: string): (r: string)
    ensures |r| == |text| + |source| + |target| + 29
    ensures r[17..17 + |text|] == text
    ensures r[0] == '[' && r[|r| - 1] == ']'
  {
    "[Translation of '" + text + "' from " + source + " to " + target + "]"
  }

  /** Everything the handlers read or write, except the log of jobs. */
  datatype View = View(
    sourceText: string,
    targetText: string,
    sourceLanguage: string,
    targetLanguage: string,
    sourceLabel: string,
    comboValue: string,
    status: string)

  class AITranslatorApp {
    /** Content of the source text widget. */
    var sourceText: string
    /** Content of the (read-only) target text widget. */
    var targetText: string
    var sourceLanguage: string
    var targetLanguage: string
    /** The "Detected: ..." label above the source. */
    var sourceLabel: string
    /** `target_lang_var`: what the combobox shows. */
    var comboValue: string
    /** The status bar. */
    var status: string
    /** Every worker thread started, oldest first. */
    ghost var jobs: seq<Job>

    /**
      The target is always a listed language and is what the combobox shows;
      the source is a listed language or Auto-detect; the label names the source.
    */
    ghost predicate Valid()
      reads this
    {
      && targetLanguage in Languages
      && comboValue == targetLanguage
      && (sourceLanguage == AutoDetect || sourceLanguage in Languages)
      && sourceLabel == DetectedPrefix + sourceLanguage
    }

    function Snapshot(): View
      reads this
    {
      View(sourceText, targetText, sourceLanguage, targetLanguage, sourceLabel, comboValue, status)
    }

    constructor ()
      ensures Valid()
      ensures sourceLanguage == AutoDetect && targetLanguage == "English"
      ensures sourceText == "" && targetText == "" && status == ReadyStatus && jobs == []
    {
      sourceText, targetText := "", "";
      sourceLanguage, targetLanguage := AutoDetect, "English";
      sourceLabel := DetectedPrefix + AutoDetect;
      comboValue := "English";
      status := ReadyStatus;
      jobs := [];
    }

    /** `on_source_text_change` after the user changed the source to `text`: long enough text is detected at once. */
    method OnSourceTextChange(text: string)
      requires Valid()
      modifies this
      ensures Valid()
      ensures |Strip(text, PythonWhitespace)| <= DetectionThreshold ==>
        Snapshot() == old(Snapshot()).(sourceText := text) && jobs == old(jobs)
      ensures |Strip(text, PythonWhitespace)| > DetectionThreshold ==>
        Snapshot() == old(Snapshot()).(sourceText := text, status := DetectingStatus) && jobs == old(jobs) + [DetectJob]
    {
      sourceText := text;
      var t := Strip(sourceText, PythonWhitespace);
      if |t| > DetectionThreshold {
        DetectLanguage();
      }
    }

    /** `detect_language`: announce detection and start the simulated detector. */
    method DetectLanguage()
      requires Valid()
      modifies this
      ensures Valid()
      ensures Snapshot() == old(Snapshot()).(status := DetectingStatus) && jobs == old(jobs) + [DetectJob]
    {
      status := DetectingStatus;
      jobs := jobs + [DetectJob];
    }

    /** A simulated detector that was started finishes: the source becomes English, whatever was typed. */
    method DetectionFinished()
      requires Valid() && DetectJob in jobs
      modifies this
      ensures Valid() && jobs == old(jobs)
      ensures Snapshot() == old(Snapshot()).(sourceLanguage := PlaceholderDetection,
                                             sourceLabel := DetectedPrefix + PlaceholderDetection,
                                             status := DetectedStatus)
    {
      var detected := PlaceholderDetection;
      sourceLanguage := detected;
      sourceLabel := DetectedPrefix + detected;
      status := DetectedStatus;
    }

    /** `on_target_language_change` after the user picked `choice` in the read-only combobox. */
    method OnTargetLanguageChange(choice: string)
      requires Valid() && choice in Languages
      modifies this
      ensures Valid() && targetLanguage == choice
      ensures var t := Strip(sourceText, PythonWhitespace);
        var chosen := old(Snapshot()).(comboValue := choice, targetLanguage := choice);
        && (t == [] ==> Snapshot() == chosen && jobs == old(jobs))
        && (t != [] ==> Snapshot() == chosen.(status := TranslatingStatus(sourceLanguage, choice))
                        && jobs == old(jobs) + [TranslateJob(t)])
    {
      comboValue := choice;
      targetLanguage := comboValue;
      if Strip(sourceText, PythonWhitespace) != [] {
        Translate();
      }
    }

    /**
      `swap_languages`: refused while the source is Auto-detect. Otherwise the
      two languages are exchanged (label and combobox follow), the source
      receives the old translation and the translation is emptied, so the old
      source text is not kept as such (only a translation may quote it), and
      the new source is translated.
    */
    method SwapLanguages()
      requires Valid()
      modifies this
      ensures Valid()
      ensures old(sourceLanguage) == AutoDetect ==> Snapshot() == old(Snapshot()) && jobs == old(jobs)
      ensures old(sourceLanguage) != AutoDetect ==>
        var swapped := old(Snapshot()).(
          sourceLanguage := old(targetLanguage), targetLanguage := old(sourceLanguage),
          sourceLabel := DetectedPrefix + old(targetLanguage), comboValue := old(sourceLanguage),
          sourceText := old(targetText), targetText := "");
        var t := Strip(old(targetText), PythonWhitespace);
        && (t == [] ==> Snapshot() == swapped && jobs == old(jobs))
        && (t != [] ==> Snapshot() == swapped.(status := TranslatingStatus(old(targetLanguage), old(sourceLanguage)))
                        && jobs == old(jobs) + [TranslateJob(t)])
    {
      if sourceLanguage != AutoDetect {
        var temp := sourceLanguage;
        sourceLanguage := targetLanguage;
        targetLanguage := temp;
        sourceLabel := DetectedPrefix + sourceLanguage;
        comboValue := targetLanguage;
        var oldTarget := targetText;
        targetText := "";
        sourceText := oldTarget;
        Translate();
      }
    }

    /** `translate`: blank source does nothing; otherwise announce and start the simulated translator on the stripped text. */
    method Translate()
      requires Valid()
      modifies this
      ensures Valid()
      ensures var t := Strip(sourceText, PythonWhitespace);
        && (t == [] ==> Snapshot() == old(Snapshot()) && jobs == old(jobs))
        && (t != [] ==> Snapshot() == old(Snapshot()).(status := TranslatingStatus(sourceLanguage, targetLanguage))
                        && jobs == old(jobs) + [TranslateJob(t)])
    {
      var text := Strip(sourceText, PythonWhitespace);
      if text == [] {
        return;
      }
      status := TranslatingStatus(sourceLanguage, targetLanguage);
      jobs := jobs + [TranslateJob(text)];
    }

    /**
      The simulated translator started on the stripped text `text` finishes.
      It names the languages current when it finishes, not those of the
      request.
    */
    method TranslationFinished(text: string)
      requires Valid() && TranslateJob(text) in jobs
      modifies this
      ensures Valid() && jobs == old(jobs)
      ensures Snapshot() == old(Snapshot()).(targetText := PlaceholderTranslation(text, sourceLanguage, targetLanguage),
                                             status := TranslatedStatus)
    {
      targetText := PlaceholderTranslation(text, sourceLanguage, targetLanguage);
      status := TranslatedStatus;
    }

    /** `listen_source`: blank source does nothing. */
    method ListenSource()
      requires Valid()
      modifies this
      ensures Valid()
      ensures Strip(sourceText, PythonWhitespace) == [] ==> Snapshot() == old(Snapshot()) && jobs == old(jobs)
      ensures Strip(sourceText, PythonWhitespace) != [] ==>
        Snapshot() == old(Snapshot()).(status := SourceAudioStatus) && jobs == old(jobs) + [SourceSpeechJob]
    {
      var text := Strip(sourceText, PythonWhitespace);
      if text != [] {
        status := SourceAudioStatus;
        jobs := jobs + [SourceSpeechJob];
      }
    }

    /** `listen_target`: blank translation does nothing. */
    method ListenTarget()
      requires Valid()
      modifies this
      ensures Valid()
      ensures Strip(targetText, PythonWhitespace) == [] ==> Snapshot() == old(Snapshot()) && jobs == old(jobs)
      ensures Strip(targetText, PythonWhitespace) != [] ==>
        Snapshot() == old(Snapshot()).(status := TargetAudioStatus) && jobs == old(jobs) + [TargetSpeechJob]
    {
      var text := Strip(targetText, PythonWhitespace);
      if text != [] {
        status := TargetAudioStatus;
        jobs := jobs + [TargetSpeechJob];
      }
    }

    /** A simulated speech thread that was started finishes. */
    method SpeechFinished()
      requires Valid() && (SourceSpeechJob in jobs || TargetSpeechJob in jobs)
      modifies this
      ensures Valid() && jobs == old(jobs)
      ensures Snapshot() == old(Snapshot()).(status := AudioDoneStatus)
    {
      status := AudioDoneStatus;
    }
  }
}
