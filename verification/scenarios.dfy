/**
  End-to-end runs of the coordinators through the events of a session, with
  the collaborators' answers fixed. Each method builds fresh windows or pages,
  delivers the events in the order the application would see them, and
  returns what the user ends up seeing and, as ghost results, the requests
  that were sent.
*/
module Scenarios {
  import opened Common
  import opened Text
  import LanguageDetector
  import Translator
  import DesktopApp
  import WebClient
  import Prototype

  /** The source text of the translation scenarios. */
  const Bonjour := "Bonjour le monde"

  /**
    What the collaborators make of it: the detector's verdict "fr" becomes
    French, and a translation into English succeeds with "Hello world".
  */
  lemma BonjourIsFrench()
    ensures LanguageDetector.DetectLanguage(Bonjour, LanguageDetector.Identified("fr")) == Some(LanguageDetector.Detection("fr", "French"))
    ensures var result := Translator.TranslateText(Bonjour, "en", Some("fr"), Translator.Translated("fr", "Hello world"));
      result.success && result.translatedText == "Hello world"
  {
    StripKeepsTrimmed(Bonjour, PythonWhitespace);
  }

  /**
    Desktop: "Bonjour le monde" is typed, the debounce timer fires, the
    detector identifies French, and the translator returns "Hello world".
    Exactly one detection and one translation (from French into the default
    English, which the catalogue lists) are requested.
  */
  method DesktopTranslatesAfterDetection(languages: seq<(string, string)>) returns (labelText: string, shown: string, ghost sent: seq<Request>)
    requires "en" in Keys(languages)
    ensures labelText == "French" && shown == "Hello world"
    ensures |sent| == 2 && sent[0] == DetectRequest(Bonjour) && sent[1] == TranslateRequest(Bonjour, "en", Some("fr"))
  {
    var text := Bonjour;
    StripKeepsTrimmed(text, PythonWhitespace);
    BonjourIsFrench();
    var app := new DesktopApp.TranslatorApp(languages);
    assert app.TargetCode() == "en";
    app.OnSourceTextChange(text);
    assert app.typingTimer == Some(0) && app.requests == [];
    app.OnTimerFired(0);
    assert app.requests == [DetectRequest(text)];
    var detection := LanguageDetector.DetectLanguage(text, LanguageDetector.Identified("fr"));
    app.UpdateDetectedLanguage(detection);
    assert app.detectedLanguage == "French";
    var result := Translator.TranslateText(text, "en", Some("fr"), Translator.Translated("fr", "Hello world"));
    app.UpdateTranslation(result);
    labelText, shown, sent := app.detectedLanguage, app.targetText, app.requests;
  }

  /**
    A failed translation as each version shows it: the desktop window prefixes
    the service's message with "Error: ", the web page with "Translation error: ".
  */
  method TranslationErrorsDiffer(languages: seq<(string, string)>, options: seq<string>, index: nat)
    returns (desktopShown: string, webShown: string)
    requires languages != [] && (options != [] ==> index < |options|)
    ensures desktopShown == DesktopApp.ErrorPrefix + "network error"
    ensures webShown == WebClient.TranslationErrorPrefix + "network error"
  {
    StripKeepsTrimmed(Bonjour, PythonWhitespace);
    var app := new DesktopApp.TranslatorApp(languages);
    app.OnSourceTextChange(Bonjour);
    var result := Translator.TranslateText(Bonjour, app.TargetCode(), None, Translator.Raised("network error"));
    app.UpdateTranslation(result);
    desktopShown := app.targetText;

    var page := new WebClient.TranslatorPage(options, index);
    page.OnSourceInput(Bonjour);
    page.TranslateReplied(WebClient.TranslateResponse(false, "", Some("network error")));
    webShown := page.targetText;
  }

  /**
    Desktop: text is typed and then deleted before the pause ends. The label
    is reset, the translation cleared, and the cancelled timer, should it
    still fire, detects nothing: no request is ever sent.
  */
  method DesktopClearedInputSendsNothing(languages: seq<(string, string)>)
    returns (labelText: string, shown: string, ghost sent: seq<Request>)
    requires languages != []
    ensures labelText == "Detecting language..." && shown == ""
    ensures sent == []
  {
    StripKeepsTrimmed(Bonjour, PythonWhitespace);
    var app := new DesktopApp.TranslatorApp(languages);
    app.OnSourceTextChange(Bonjour);
    app.OnSourceTextChange("");
    app.OnTimerFired(0);
    labelText, shown, sent := app.detectedLanguage, app.targetText, app.requests;
  }

  /**
    Speaking with no language known: the desktop window sends nothing and
    keeps its status; the web page stops the audio and speaks in English.
  */
  method SpeakWithoutLanguage(languages: seq<(string, string)>, options: seq<string>, index: nat)
    returns (desktopStatus: string, ghost desktopSent: seq<Request>, ghost webSent: seq<Request>)
    requires languages != [] && (options != [] ==> index < |options|)
    ensures desktopStatus == "Ready" && desktopSent == []
    ensures webSent == [StopAudioRequest, SpeakRequest(Bonjour, "en")]
  {
    StripKeepsTrimmed(Bonjour, PythonWhitespace);
    StripKeepsTrimmed(Bonjour, JsWhitespace);
    var app := new DesktopApp.TranslatorApp(languages);
    app.HandleSpeakText(Bonjour, None);
    desktopStatus, desktopSent := app.status, app.requests;

    var page := new WebClient.TranslatorPage(options, index);
    page.HandleSpeakText(Bonjour, None, false);
    webSent := page.requests;
  }

  /**
    Spaces only: the desktop window schedules nothing, while the web page,
    which tests the untrimmed value, schedules a detection that, once fired,
    only resets the label.
  */
  method BlankInputDebounceDiffers(languages: seq<(string, string)>, options: seq<string>, index: nat)
    returns (desktopTimer: Option<nat>, webTimer: Option<nat>, webLabel: string, ghost webSent: seq<Request>)
    requires languages != [] && (options != [] ==> index < |options|)
    ensures desktopTimer == None && webTimer == Some(0)
    ensures webLabel == "Detecting language..." && webSent == []
  {
    var spaces := "   ";
    StripBlankIffAllWhitespace(spaces, PythonWhitespace);
    StripBlankIffAllWhitespace(spaces, JsWhitespace);
    var app := new DesktopApp.TranslatorApp(languages);
    app.OnSourceTextChange(spaces);
    desktopTimer := app.typingTimer;

    var page := new WebClient.TranslatorPage(options, index);
    page.OnSourceInput(spaces);
    webTimer := page.typingTimer;
    page.OnTimerFired(0);
    webLabel, webSent := page.detectedLanguage, page.requests;
  }

  /**
    Prototype: text long enough to be detected is typed, the simulated
    detector answers, French is picked and the simulated translation of the
    stripped text arrives.
  */
  method PrototypeTranslateToFrench(typed: string) returns (app: Prototype.AITranslatorApp)
    requires |Strip(typed, PythonWhitespace)| > Prototype.DetectionThreshold
    ensures fresh(app) && app.Valid()
    ensures app.sourceLanguage == "English" && app.targetLanguage == "French"
    ensures app.targetText == Prototype.PlaceholderTranslation(Strip(typed, PythonWhitespace), "English", "French")
    ensures app.jobs == [Prototype.DetectJob, Prototype.TranslateJob(Strip(typed, PythonWhitespace))]
  {
    app := new Prototype.AITranslatorApp();
    app.OnSourceTextChange(typed);
    app.DetectionFinished();
    assert Prototype.Languages[2] == "French";
    app.OnTargetLanguageChange("French");
    app.TranslationFinished(Strip(typed, PythonWhitespace));
  }

  /**
    Prototype: after PrototypeTranslateToFrench, swapping exchanges the
    languages and moves the placeholder translation into the source. The text
    first typed survives only quoted inside that placeholder, the translation
    box is empty, and the placeholder itself is what gets translated next.
  */
  method PrototypeSwapReplacesTypedText(typed: string)
    returns (source: string, target: string, sourceLanguage: string, targetLanguage: string, ghost jobs: seq<Prototype.Job>)
    requires |Strip(typed, PythonWhitespace)| > Prototype.DetectionThreshold
    ensures sourceLanguage == "French" && targetLanguage == "English"
    ensures source == Prototype.PlaceholderTranslation(Strip(typed, PythonWhitespace), "English", "French") && target == ""
    ensures var t := Strip(typed, PythonWhitespace); source != t && source[17..17 + |t|] == t
    ensures jobs == [Prototype.DetectJob, Prototype.TranslateJob(Strip(typed, PythonWhitespace)), Prototype.TranslateJob(source)]
  {
    var app := PrototypeTranslateToFrench(typed);
    var shown := Prototype.PlaceholderTranslation(Strip(typed, PythonWhitespace), "English", "French");
    StripKeepsTrimmed(shown, PythonWhitespace);
    app.SwapLanguages();
    source, target, sourceLanguage, targetLanguage, jobs := app.sourceText, app.targetText, app.sourceLanguage, app.targetLanguage, app.jobs;
  }
}
