/**
 * The analysis page of js/script.js: the same upload chain as script.js, but a result document
 * that already carries its risk, a summary built sentence by sentence, a strings tab cut at 200
 * entries with a remainder count, and a URL tab cut at 50 links.
 */
module LegacyPresenter {
  import opened Common
  import opened Text

  /** `data.analysis`; `fileType` is the `type` field, absent when `None`; `peSections` the
      length of `pe_info.sections` when `pe_info` is present. */
  datatype Analysis = Analysis(
    fileType: Option<string>,
    detection: seq<string>,
    risk: Option<string>,
    urls: seq<string>,
    strings: seq<string>,
    peSections: Option<nat>,
    deobfuscated: Option<string>)

  datatype Report = Report(analysis: Analysis, error: Option<string>)

  /** How the `fetch('/analyze')` settled: a response (`ok` and what `response.json()` gives), or a rejection. */
  datatype FetchSettlement =
    | Answered(ok: bool, body: Result<Report, string>)
    | Unreachable(message: string)

  /** JavaScript truthiness of an optional string. */
  predicate Truthy(s: Option<string>)
  {
    s.Some? && s.value != ""
  }

  /** `analysis.type || 'Unknown'` */
  function TypeText(a: Analysis): string
  {
    if Truthy(a.fileType) then a.fileType.value else "Unknown"
  }

  /** The detection names joined by commas, or `No detection` when there are none. */
  function DetectionText(a: Analysis): string
  {
    if |a.detection| > 0 then Join(a.detection, ", ") else "No detection"
  }

  /** `analysis.risk || 'medium'` */
  function Risk(a: Analysis): (r: string)
    ensures |r| > 0
  {
    if Truthy(a.risk) then a.risk.value else "medium"
  }

  /** The risk text with its first character upper-cased. */
  function Capitalized(risk: string): string
  {
    if |risk| == 0 then "" else [UpperChar(risk[0])] + risk[1..]
  }

  /** A missing risk shows as `Medium` with class `risk-level medium`; a given one keeps all but its
      first character, which is upper-cased, and names the class verbatim. */
  lemma RiskDisplay(a: Analysis)
    ensures !Truthy(a.risk) ==> Capitalized(Risk(a)) == "Medium" && "risk-level " + Risk(a) == "risk-level medium"
    ensures Truthy(a.risk) ==>
      var shown := Capitalized(Risk(a));
      |shown| == |a.risk.value| && shown[0] == UpperChar(a.risk.value[0]) && shown[1..] == a.risk.value[1..]
  {
  }

  /** The first sentence of the summary: the lower-cased type, or `an unknown executable` when that is empty. */
  function Opening(fileType: string): (r: string)
    ensures |r| >= 26 && StartsWith(r, "This file appears to be ") && EndsWith(r, ". ")
    ensures Lower(fileType) != "" ==> r[24..|r| - 2] == Lower(fileType)
    ensures Lower(fileType) == "" ==> r[24..|r| - 2] == "an unknown executable"
  {
    var lowered := Lower(fileType);
    var r := "This file appears to be " + (if lowered != "" then lowered else "an unknown executable") + ". ";
    assert r[..24] == "This file appears to be ";
    r
  }

  function DetectedSentence(detection: seq<string>): string
  {
    "Detected as: " + Join(detection, ", ") + ". "
  }

  function UrlSentence(count: nat): string
  {
    "Found " + NatToString(count) + " potential URLs. "
  }

  function PeSentence(sections: nat): string
  {
    "PE file with " + NatToString(sections) + " sections. "
  }

  /** The summary sentences, given that `analysis.type` is present. */
  function SummaryText(a: Analysis): string
    requires a.fileType.Some?
  {
    Opening(a.fileType.value)
    + (if |a.detection| > 0 then DetectedSentence(a.detection) else "")
    + (if |a.urls| > 0 then UrlSentence(|a.urls|) else "")
    + (if a.peSections.Some? then PeSentence(a.peSections.value) else "")
  }

  /** Slicing a text made of four consecutive parts at the part boundaries. */
  lemma FourParts(o: string, d: string, u: string, p: string)
    ensures var s := o + d + u + p;
      s[..|o|] == o && s[|o|..] == d + u + p && s[..|o| + |d|] == o + d && s[|o| + |d|..] == u + p
      && s[..|o| + |d| + |u|] == o + d + u && s[|s| - |p|..] == p && s[|s| - |u| - |p|..] == u + p
  {
    var s := o + d + u + p;
    assert s == (o + d + u) + p;
    assert s == (o + d) + (u + p);
    assert s == o + (d + u + p);
  }

  /** The sentences present in a summary, each `""` when its data is absent. */
  lemma SummaryParts(a: Analysis) returns (d: string, u: string, p: string)
    requires a.fileType.Some?
    ensures SummaryText(a) == Opening(a.fileType.value) + d + u + p
    ensures d == (if |a.detection| > 0 then DetectedSentence(a.detection) else "")
    ensures u == (if |a.urls| > 0 then UrlSentence(|a.urls|) else "")
    ensures p == (if a.peSections.Some? then PeSentence(a.peSections.value) else "")
  {
    d := if |a.detection| > 0 then DetectedSentence(a.detection) else "";
    u := if |a.urls| > 0 then UrlSentence(|a.urls|) else "";
    p := if a.peSections.Some? then PeSentence(a.peSections.value) else "";
  }

  /** The summary opens with the type sentence, and with no detection, URL or PE data says nothing
      else. The detection sentence follows the opening exactly when there are detections. */
  lemma {:induction false} SummaryOpening(a: Analysis)
    requires a.fileType.Some?
    ensures StartsWith(SummaryText(a), Opening(a.fileType.value))
    ensures |a.detection| == 0 && |a.urls| == 0 && a.peSections.None? ==>
      SummaryText(a) == Opening(a.fileType.value)
    ensures |a.detection| == 0 && |a.urls| == 0 && a.peSections.Some? ==>
      SummaryText(a) == Opening(a.fileType.value) + PeSentence(a.peSections.value)
    ensures a.peSections.Some? ==> EndsWith(SummaryText(a), PeSentence(a.peSections.value))
    ensures StartsWith(SummaryText(a)[|Opening(a.fileType.value)|..], "Detected as: ") <==> |a.detection| > 0
    ensures |a.detection| > 0 ==> StartsWith(SummaryText(a), Opening(a.fileType.value) + DetectedSentence(a.detection))
  {
    var o := Opening(a.fileType.value);
    var d, u, p := SummaryParts(a);
    FourParts(o, d, u, p);
    if |a.detection| == 0 && |u + p| >= 13 {
      assert (u + p)[0] != 'D';
    }
  }

  /** The URL count sentence follows the detection sentence, or the opening when there is none,
      exactly when there are URLs. */
  lemma {:induction false} SummaryUrlSentence(a: Analysis)
    requires a.fileType.Some?
    ensures |a.detection| == 0 ==>
      (StartsWith(SummaryText(a)[|Opening(a.fileType.value)|..], "Found ") <==> |a.urls| > 0)
    ensures |a.detection| > 0 ==>
      (StartsWith(SummaryText(a)[|Opening(a.fileType.value) + DetectedSentence(a.detection)|..], "Found ") <==> |a.urls| > 0)
    ensures |a.detection| == 0 && |a.urls| > 0 ==>
      StartsWith(SummaryText(a), Opening(a.fileType.value) + UrlSentence(|a.urls|))
    ensures |a.detection| > 0 && |a.urls| > 0 ==>
      StartsWith(SummaryText(a), Opening(a.fileType.value) + DetectedSentence(a.detection) + UrlSentence(|a.urls|))
  {
    var o := Opening(a.fileType.value);
    var d, u, p := SummaryParts(a);
    FourParts(o, d, u, p);
    UrlSentenceFirst(a, u, p);
  }

  /** What follows the detection sentence starts with `Found ` exactly when there are URLs. */
  lemma UrlSentenceFirst(a: Analysis, u: string, p: string)
    requires u == (if |a.urls| > 0 then UrlSentence(|a.urls|) else "")
    requires p == (if a.peSections.Some? then PeSentence(a.peSections.value) else "")
    ensures StartsWith(u + p, "Found ") <==> |a.urls| > 0
  {
    if |a.urls| > 0 {
      assert (u + p)[..6] == u[..6];
    } else if a.peSections.Some? {
      assert (u + p)[0] == PeSentence(a.peSections.value)[0] == 'P';
    }
  }

  /** The summary ends with the last sentence whose data is present: the PE sentence, after the URL
      count when there are URLs; otherwise the URL count; otherwise the detection sentence. */
  lemma {:induction false} SummaryEnding(a: Analysis)
    requires a.fileType.Some?
    ensures a.peSections.None? && |a.urls| > 0 ==> EndsWith(SummaryText(a), UrlSentence(|a.urls|))
    ensures a.peSections.None? && |a.urls| == 0 && |a.detection| > 0 ==>
      SummaryText(a) == Opening(a.fileType.value) + DetectedSentence(a.detection)
    ensures a.peSections.Some? && |a.urls| > 0 ==>
      EndsWith(SummaryText(a), UrlSentence(|a.urls|) + PeSentence(a.peSections.value))
    ensures a.peSections.Some? && |a.urls| == 0 && |a.detection| > 0 ==>
      SummaryText(a) == Opening(a.fileType.value) + DetectedSentence(a.detection) + PeSentence(a.peSections.value)
  {
    var o := Opening(a.fileType.value);
    var d, u, p := SummaryParts(a);
    FourParts(o, d, u, p);
  }

  /** The strings tab: the first 200 strings, then the count of the rest when there are more. */
  function StringsText(a: Analysis): string
  {
    Join(Take(a.strings, 200), "\n")
    + (if |a.strings| > 200 then "\n...and " + NatToString(|a.strings| - 200) + " more" else "")
  }

  /** Up to 200 strings are all shown one per line. With more, the first 200 lines come first and
      the tab ends with the remainder count K, and 200 + K is the total. */
  lemma StringsTabRemainder(a: Analysis)
    ensures |a.strings| <= 200 ==> StringsText(a) == Join(a.strings, "\n")
    ensures |a.strings| > 200 ==> StartsWith(StringsText(a), Join(a.strings[..200], "\n") + "\n...and ")
    ensures |a.strings| > 200 ==>
      exists k: string :: EndsWith(StringsText(a), "\n...and " + k + " more")
        && (forall i | 0 <= i < |k| :: '0' <= k[i] <= '9') && 200 + DigitsValue(k) == |a.strings|
  {
    if |a.strings| > 200 {
      var head := Join(a.strings[..200], "\n") + "\n...and ";
      assert StringsText(a)[..|head|] == head;
      var k := NatToString(|a.strings| - 200);
      NatToStringValue(|a.strings| - 200);
      var tail := "\n...and " + k + " more";
      var s := StringsText(a);
      assert s[|s| - |tail|..] == tail;
    }
  }

  /** The hrefs of `#urlList`: the first 50 URLs in order. */
  function UrlLinks(a: Analysis): (r: seq<string>)
    ensures |r| <= 50 && r <= a.urls
    ensures |a.urls| >= 50 ==> |r| == 50
    ensures |a.urls| <= 50 ==> r == a.urls
  {
    Take(a.urls, 50)
  }

  /** `analysis.deobfuscated || 'No deobfuscated code available'` */
  function DeobfuscatedText(a: Analysis): string
  {
    if Truthy(a.deobfuscated) then a.deobfuscated.value else "No deobfuscated code available"
  }

  /** The promise chain before `displayAnalysisResults`: the analysis to show, or the error message. */
  function AnalysisOutcome(settled: FetchSettlement): Result<Analysis, string>
  {
    match settled
    case Unreachable(message) => Err(message)
    case Answered(ok, body) =>
      if !ok then Err("Analysis failed")
      else match body
        case Err(parseError) => Err(parseError)
        case Ok(report) => if Truthy(report.error) then Err(report.error.value) else Ok(report.analysis)
  }

  /** A non-OK status fails with `Analysis failed`; a body with an error field fails with that text. */
  lemma OutcomeCases(ok: bool, body: Result<Report, string>)
    ensures !ok ==> AnalysisOutcome(Answered(ok, body)) == Err("Analysis failed")
    ensures ok && body.Ok? && Truthy(body.value.error)
            ==> AnalysisOutcome(Answered(ok, body)) == Err(body.value.error.value)
    ensures ok && body.Ok? && !Truthy(body.value.error)
            ==> AnalysisOutcome(Answered(ok, body)) == Ok(body.value.analysis)
  {
  }

  class LegacyPage {
    var fileName: string
    var fileSize: string
    var malwareType: string
    var detection: string
    var riskText: string
    var riskClass: string
    var summaryText: string
    var stringsContent: string
    /** The hrefs of the links in `#urlList`, in order. */
    var urlList: seq<string>
    var deobfuscatedContent: string
    /** Whether `#analysisSection` is shown. */
    var sectionShown: bool
    /** The files posted to `/analyze`, in order. */
    var requests: seq<FileInfo>

    constructor ()
      ensures !sectionShown && requests == [] && urlList == []
    {
      fileName, fileSize, malwareType, detection := "", "", "", "";
      riskText, riskClass, summaryText, stringsContent := "", "", "", "";
      urlList, deobfuscatedContent := [], "";
      sectionShown, requests := false, [];
    }

    /**
     * `displayAnalysisResults(data)`. When `analysis.type` is absent, `analysis.type.toLowerCase()`
     * throws after the type, detection and risk have been written; `typeError` is the engine's
     * message for that TypeError, returned as `thrown`.
     */
    method DisplayAnalysisResults(a: Analysis, typeError: string) returns (thrown: Option<string>)
      modifies this`malwareType, this`detection, this`riskText, this`riskClass, this`summaryText,
               this`stringsContent, this`urlList, this`deobfuscatedContent
      ensures malwareType == TypeText(a) && detection == DetectionText(a)
      ensures riskText == Capitalized(Risk(a)) && riskClass == "risk-level " + Risk(a)
      ensures thrown == (if a.fileType.None? then Some(typeError) else None)
      ensures a.fileType.None? ==>
        summaryText == old(summaryText) && stringsContent == old(stringsContent)
        && urlList == old(urlList) && deobfuscatedContent == old(deobfuscatedContent)
      ensures a.fileType.Some? ==>
        summaryText == SummaryText(a) && stringsContent == StringsText(a)
        && urlList == UrlLinks(a) && deobfuscatedContent == DeobfuscatedText(a)
    {
      malwareType := TypeText(a);
      detection := DetectionText(a);
      var risk := Risk(a);
      riskText := Capitalized(risk);
      riskClass := "risk-level " + risk;
      if a.fileType.None? {
        return Some(typeError);
      }
      BuildSummary(a);
      ShowStringsAndLinks(a);
      deobfuscatedContent := DeobfuscatedText(a);
      thrown := None;
    }

    /** The summary of `displayAnalysisResults`, extended with `+=` one sentence at a time. */
    method BuildSummary(a: Analysis)
      requires a.fileType.Some?
      modifies this`summaryText
      ensures summaryText == SummaryText(a)
    {
      var summary := Opening(a.fileType.value);
      if |a.detection| > 0 {
        summary := summary + DetectedSentence(a.detection);
      }
      if |a.urls| > 0 {
        summary := summary + UrlSentence(|a.urls|);
      }
      if a.peSections.Some? {
        summary := summary + PeSentence(a.peSections.value);
      }
      summaryText := summary;
    }

    /** The strings tab, extended in place past 200 entries, and the links appended one per URL. */
    method ShowStringsAndLinks(a: Analysis)
      modifies this`stringsContent, this`urlList
      ensures stringsContent == StringsText(a) && urlList == UrlLinks(a)
    {
      stringsContent := Join(Take(a.strings, 200), "\n");
      if |a.strings| > 200 {
        stringsContent := stringsContent + "\n...and " + NatToString(|a.strings| - 200) + " more";
      }
      urlList := [];
      var shown := Take(a.urls, 50);
      for k := 0 to |shown|
        invariant urlList == shown[..k] && stringsContent == StringsText(a)
      {
        urlList := urlList + [shown[k]];
      }
    }

    /** The `catch` handler of `uploadAndAnalyze`. */
    method ShowError(message: string)
      modifies this`malwareType, this`detection, this`summaryText, this`riskText, this`riskClass
      ensures malwareType == "Analysis Error" && detection == "Failed to analyze file"
      ensures summaryText == message && riskText == "Error" && riskClass == "risk-level"
    {
      malwareType := "Analysis Error";
      detection := "Failed to analyze file";
      summaryText := message;
      riskText := "Error";
      riskClass := "risk-level";
    }

    /** `uploadAndAnalyze(file)` once its fetch has settled. */
    method UploadAndAnalyze(file: FileInfo, settled: FetchSettlement, typeError: string)
      modifies this
      ensures requests == old(requests) + [file] && sectionShown == old(sectionShown)
      ensures fileName == old(fileName) && fileSize == old(fileSize)
      ensures AnalysisOutcome(settled).Err? ==>
        riskText == "Error" && riskClass == "risk-level" && summaryText == AnalysisOutcome(settled).error
      ensures AnalysisOutcome(settled).Ok? && AnalysisOutcome(settled).value.fileType.None? ==>
        riskText == "Error" && summaryText == typeError
      ensures AnalysisOutcome(settled).Ok? && AnalysisOutcome(settled).value.fileType.Some? ==>
        var a := AnalysisOutcome(settled).value;
        riskText == Capitalized(Risk(a)) && summaryText == SummaryText(a)
        && stringsContent == StringsText(a) && urlList == UrlLinks(a)
    {
      requests := requests + [file];
      match AnalysisOutcome(settled) {
        case Err(message) =>
          ShowError(message);
        case Ok(a) =>
          var thrown := DisplayAnalysisResults(a, typeError);
          if thrown.Some? {
            ShowError(thrown.value);
          }
      }
    }

    /** A drop or a file-input change: `handleFiles(files)` runs only when some file is present, on the first. */
    method OnFiles(files: seq<FileInfo>, settled: FetchSettlement, sizeText: string, typeError: string)
      modifies this
      ensures |files| == 0 ==> unchanged(this)
      ensures |files| > 0 ==> requests == old(requests) + [files[0]] && sectionShown
      ensures |files| > 0 ==> fileName == "File: " + files[0].name && fileSize == "Size: " + sizeText
    {
      if |files| > 0 {
        var file := files[0];
        fileName := "File: " + file.name;
        fileSize := "Size: " + sizeText;
        malwareType := "Analyzing...";
        detection := "Running detection...";
        summaryText := "Please wait while we analyze the file...";
        riskText := "Analyzing";
        riskClass := "risk-level loading";
        sectionShown := true;
        UploadAndAnalyze(file, settled, typeError);
      }
    }
  }
}
