/**
 * The analysis page of script.js: the Low/Medium/High risk rule, the detection and summary
 * texts, display-only truncation of the result lists, the `uploadAndAnalyze` outcome chain,
 * the loading state, and `handleFiles` taking the first file of a drop or selection.
 */
module Presenter {
  import opened Common
  import opened Text

  /** `data.analysis` as the page reads it. */
  datatype Analysis = Analysis(strings: seq<string>, urls: seq<string>, commands: seq<string>, behavior: seq<string>)

  /** The JSON document `/analyze` answers with. */
  datatype Report = Report(filename: string, size: nat, isPython: bool, analysis: Analysis, error: Option<string>)

  /** How the `fetch('/analyze')` settled: a response (`ok` and what `response.json()` gives), or a rejection. */
  datatype FetchSettlement =
    | Answered(ok: bool, body: Result<Report, string>)
    | Unreachable(message: string)

  datatype Risk = Low | Medium | High

  /** One entry of `#urlList`: a copyable link, or a placeholder line. */
  datatype UrlItem = Link(url: string) | Placeholder(text: string)

  /** The elements `setLoadingState` toggles the `loading` class on. */
  const LoadingElements: seq<string> :=
    ["malwareType", "detection", "riskLevel", "summaryText", "stringsContent", "behaviorContent"]

  function RiskName(risk: Risk): string
  {
    match risk
    case Low => "Low"
    case Medium => "Medium"
    case High => "High"
  }

  /** A behaviour entry that mentions keylogging or injection (case-sensitive `includes`). */
  predicate HighSeverity(entry: string)
  {
    Contains(entry, "keylog") || Contains(entry, "inject")
  }

  /** Whether some behaviour entry mentions keylogging or injection. */
  function AnyHighSeverity(behavior: seq<string>): (r: bool)
    ensures r <==> exists i | 0 <= i < |behavior| :: HighSeverity(behavior[i])
  {
    if |behavior| == 0 then false else HighSeverity(behavior[0]) || AnyHighSeverity(behavior[1..])
  }

  /** How many of the danger signs hold. */
  function CountTrue(signs: seq<bool>): nat
  {
    if |signs| == 0 then 0 else (if signs[0] then 1 else 0) + CountTrue(signs[1..])
  }

  /** The three danger signs, in the source's order. */
  function DangerSigns(a: Analysis): seq<bool>
  {
    [|a.urls| > 3, |a.commands| > 2, AnyHighSeverity(a.behavior)]
  }

  /** `calculateRiskLevel(data)` */
  function CalculateRiskLevel(a: Analysis): Risk
  {
    if |a.urls| == 0 && |a.commands| == 0 then Low
    else if CountTrue(DangerSigns(a)) >= 2 then High
    else Medium
  }

  /** Risk is Low exactly when there is no URL and no command, whatever the behaviour entries say. */
  lemma RiskLowIff(a: Analysis)
    ensures CalculateRiskLevel(a) == Low <==> |a.urls| == 0 && |a.commands| == 0
  {
  }

  /** Otherwise risk is High exactly when at least two of the three danger signs hold. */
  lemma RiskHighIff(a: Analysis)
    ensures CalculateRiskLevel(a) == High <==>
      (|a.urls| > 0 || |a.commands| > 0) &&
      var kw := exists i | 0 <= i < |a.behavior| :: HighSeverity(a.behavior[i]);
      ((|a.urls| > 3 && |a.commands| > 2) || (|a.urls| > 3 && kw) || (|a.commands| > 2 && kw))
  {
    CountThree(|a.urls| > 3, |a.commands| > 2, AnyHighSeverity(a.behavior));
  }

  lemma CountThree(x: bool, y: bool, z: bool)
    ensures CountTrue([x, y, z]) == (if x then 1 else 0) + (if y then 1 else 0) + (if z then 1 else 0)
  {
    assert [x, y, z][1..] == [y, z] && [y, z][1..] == [z] && [z][1..] == [];
    assert CountTrue([z]) == (if z then 1 else 0);
    assert CountTrue([y, z]) == (if y then 1 else 0) + CountTrue([z]);
  }

  /** The risk does not depend on the order of the behaviour entries. */
  lemma RiskOrderIndependent(a: Analysis, behavior: seq<string>)
    requires multiset(behavior) == multiset(a.behavior)
    ensures CalculateRiskLevel(a.(behavior := behavior)) == CalculateRiskLevel(a)
  {
    if AnyHighSeverity(a.behavior) {
      var i :| 0 <= i < |a.behavior| && HighSeverity(a.behavior[i]);
      assert a.behavior[i] in multiset(behavior);
    }
    if AnyHighSeverity(behavior) {
      var i :| 0 <= i < |behavior| && HighSeverity(behavior[i]);
      assert behavior[i] in multiset(a.behavior);
    }
  }

  /** The `#detection` text. */
  function DetectionText(a: Analysis): string
  {
    if |a.urls| > 0 || |a.commands| > 0 then "Suspicious activity found" else "No threats detected"
  }

  /** Activity is reported as suspicious exactly when the risk is not Low. */
  lemma DetectionMatchesRisk(a: Analysis)
    ensures DetectionText(a) == "Suspicious activity found" <==> CalculateRiskLevel(a) != Low
    ensures DetectionText(a) == "No threats detected" <==> CalculateRiskLevel(a) == Low
  {
  }

  const PythonPart := "Python-packed executable"

  function UrlPart(count: nat): string
  {
    NatToString(count) + " suspicious URLs"
  }

  function CommandPart(count: nat): string
  {
    NatToString(count) + " dangerous commands"
  }

  /** `summaryParts` once all three pushes have run. */
  function SummaryParts(r: Report): seq<string>
  {
    (if r.isPython then [PythonPart] else [])
    + (if |r.analysis.urls| > 0 then [UrlPart(|r.analysis.urls|)] else [])
    + (if |r.analysis.commands| > 0 then [CommandPart(|r.analysis.commands|)] else [])
  }

  /** The `#summaryText` text. */
  function SummaryText(r: Report): string
  {
    var parts := SummaryParts(r);
    if |parts| > 0 then Join(parts, " \U{2022} ") else "No obvious malicious indicators"
  }

  /** With nothing to report the summary is the fixed sentence; with everything, all three parts in order. */
  lemma SummaryOrder(r: Report)
    ensures !r.isPython && |r.analysis.urls| == 0 && |r.analysis.commands| == 0
            ==> SummaryText(r) == "No obvious malicious indicators"
    ensures r.isPython && |r.analysis.urls| > 0 && |r.analysis.commands| > 0
            ==> SummaryText(r) == "Python-packed executable \U{2022} "
                  + NatToString(|r.analysis.urls|) + " suspicious URLs \U{2022} "
                  + NatToString(|r.analysis.commands|) + " dangerous commands"
  {
    var parts := SummaryParts(r);
    if r.isPython && |r.analysis.urls| > 0 && |r.analysis.commands| > 0 {
      var sep := " \U{2022} ";
      var p0, p1, p2 := parts[0], parts[1], parts[2];
      assert parts == [p0, p1, p2];
      assert [p0, p1, p2][1..] == [p1, p2] && [p1, p2][1..] == [p2];
      assert Join([p1, p2], sep) == p1 + sep + p2;
      assert Join(parts, sep) == p0 + sep + (p1 + sep + p2);
    }
  }

  /** The three parts are told apart by their first or their second-to-last character. */
  lemma PartsDistinct(m: nat, n: nat)
    ensures PythonPart != UrlPart(m) && PythonPart != CommandPart(n) && UrlPart(m) != CommandPart(n)
  {
    var u, c := UrlPart(m), CommandPart(n);
    assert u[|u| - 2] == 'L' && c[|c| - 2] == 'd';
    assert PythonPart[0] == 'P' && u[0] == NatToString(m)[0] && c[0] == NatToString(n)[0];
    NatToStringValue(m);
    NatToStringValue(n);
  }

  /**
   * For every report, each part is pushed exactly when its data is present, the parts present come
   * in the order Python, URLs, commands, and the summary joins them when there is any.
   */
  lemma SummaryPartsOrder(r: Report)
    ensures PythonPart in SummaryParts(r) <==> r.isPython
    ensures UrlPart(|r.analysis.urls|) in SummaryParts(r) <==> |r.analysis.urls| > 0
    ensures CommandPart(|r.analysis.commands|) in SummaryParts(r) <==> |r.analysis.commands| > 0
    ensures |SummaryParts(r)| <= 3
    ensures r.isPython ==> SummaryParts(r)[0] == PythonPart
    ensures |r.analysis.urls| > 0 ==>
      SummaryParts(r)[if r.isPython then 1 else 0] == UrlPart(|r.analysis.urls|)
    ensures |r.analysis.commands| > 0 ==>
      SummaryParts(r)[|SummaryParts(r)| - 1] == CommandPart(|r.analysis.commands|)
    ensures |SummaryParts(r)| > 0 ==> SummaryText(r) == Join(SummaryParts(r), " \U{2022} ")
    ensures |SummaryParts(r)| == 0 <==> !r.isPython && |r.analysis.urls| == 0 && |r.analysis.commands| == 0
  {
    PartsDistinct(|r.analysis.urls|, |r.analysis.commands|);
  }

  /** The strings rendered: the first 500, in their original order. */
  function ShownStrings(a: Analysis): (r: seq<string>)
    ensures |r| <= 500 && r <= a.strings
    ensures |a.strings| >= 500 ==> |r| == 500
    ensures |a.strings| <= 500 ==> r == a.strings
  {
    Take(a.strings, 500)
  }

  /** The behaviour entries rendered: the first 100, in their original order. */
  function ShownBehavior(a: Analysis): (r: seq<string>)
    ensures |r| <= 100 && r <= a.behavior
    ensures |a.behavior| >= 100 ==> |r| == 100
    ensures |a.behavior| <= 100 ==> r == a.behavior
  {
    Take(a.behavior, 100)
  }

  /** The `#stringsContent` text: the rendered strings, one per line, or a placeholder. */
  function StringsText(a: Analysis): string
  {
    var text := Join(ShownStrings(a), "\n");
    if text == "" then "No strings extracted" else text
  }

  /** The `#urlList` items: the first 50 URLs as links, or a placeholder. */
  function UrlItems(urls: seq<string>): seq<UrlItem>
  {
    if |urls| > 0 then
      var shown := Take(urls, 50);
      seq(|shown|, i requires 0 <= i < |shown| => Link(shown[i]))
    else [Placeholder("No URLs found")]
  }

  /** The `#behaviorContent` text: the rendered behaviour entries, one per line, or a placeholder. */
  function BehaviorText(a: Analysis): string
  {
    if |a.behavior| > 0 then Join(ShownBehavior(a), "\n") else "No suspicious behavior detected"
  }

  /** At most 50 URLs are rendered, as a prefix of the URL list in its original order. */
  lemma UrlItemsArePrefix(urls: seq<string>)
    ensures |urls| > 0 ==> |UrlItems(urls)| == if |urls| < 50 then |urls| else 50
    ensures |UrlItems(urls)| <= 50
    ensures |urls| > 0 ==> forall i | 0 <= i < |UrlItems(urls)| :: UrlItems(urls)[i] == Link(urls[i])
  {
  }

  /** `uploadAndAnalyze`'s promise chain: the report to display, or the message of the error caught. */
  function AnalysisOutcome(settled: FetchSettlement): Result<Report, string>
  {
    match settled
    case Unreachable(message) => Err(message)
    case Answered(ok, body) =>
      if !ok then Err("Analysis failed")
      else match body
        case Err(parseError) => Err(parseError)
        case Ok(report) =>
          if report.error.Some? && report.error.value != "" then Err(report.error.value) else Ok(report)
  }

  /** A non-OK status fails with `Analysis failed`; a body with an error field fails with that text;
      any other parsed body is displayed. */
  lemma OutcomeCases(ok: bool, body: Result<Report, string>)
    ensures !ok ==> AnalysisOutcome(Answered(ok, body)) == Err("Analysis failed")
    ensures ok && body.Ok? && body.value.error.Some? && body.value.error.value != ""
            ==> AnalysisOutcome(Answered(ok, body)) == Err(body.value.error.value)
    ensures ok && body.Ok? && (body.value.error.None? || body.value.error.value == "")
            ==> AnalysisOutcome(Answered(ok, body)) == Ok(body.value)
  {
  }

  class AnalysisPage {
    var fileName: string
    var fileSize: string
    var malwareType: string
    var detection: string
    var riskText: string
    var riskClass: string
    var summaryText: string
    var stringsContent: string
    var urlList: seq<UrlItem>
    var behaviorContent: string
    /** Ids of the elements that carry the `loading` class. */
    var loading: set<string>
    /** Whether `#analysisSection` is shown. */
    var sectionShown: bool
    /** The files posted to `/analyze`, in order. */
    var requests: seq<FileInfo>

    constructor ()
      ensures loading == {} && !sectionShown && requests == []
    {
      fileName, fileSize, malwareType, detection := "", "", "", "";
      riskText, riskClass, summaryText, stringsContent := "", "", "", "";
      urlList, behaviorContent := [], "";
      loading, sectionShown, requests := {}, false, [];
    }

    /** `setLoadingState(isLoading)` */
    method SetLoadingState(isLoading: bool)
      modifies this`loading
      ensures isLoading ==> loading == old(loading) + set e | e in LoadingElements
      ensures !isLoading ==> loading == old(loading) - set e | e in LoadingElements
    {
      var k := 0;
      while k < |LoadingElements|
        invariant 0 <= k <= |LoadingElements|
        invariant isLoading ==> loading == old(loading) + set e | e in LoadingElements[..k]
        invariant !isLoading ==> loading == old(loading) - set e | e in LoadingElements[..k]
      {
        assert LoadingElements[..k + 1] == LoadingElements[..k] + [LoadingElements[k]];
        if isLoading {
          loading := loading + {LoadingElements[k]};
        } else {
          loading := loading - {LoadingElements[k]};
        }
        k := k + 1;
      }
      assert LoadingElements[..k] == LoadingElements;
    }

    /** `resetAnalysisUI()` */
    method ResetAnalysisUI()
      modifies this`malwareType, this`detection, this`riskText, this`riskClass, this`summaryText,
               this`stringsContent, this`urlList, this`behaviorContent
      ensures malwareType == "Analyzing..." && detection == "Running detection..."
      ensures riskText == "Analyzing" && riskClass == "risk-level loading"
      ensures summaryText == "Please wait while we analyze the file..."
      ensures stringsContent == "Extracting strings..." && urlList == []
      ensures behaviorContent == "Analyzing behavior..."
    {
      malwareType := "Analyzing...";
      detection := "Running detection...";
      riskText := "Analyzing";
      riskClass := "risk-level loading";
      summaryText := "Please wait while we analyze the file...";
      stringsContent := "Extracting strings...";
      urlList := [];
      behaviorContent := "Analyzing behavior...";
    }

    /** `displayAnalysisResults(data)`; `sizeText` is `formatFileSize(data.size)`. */
    method DisplayAnalysisResults(r: Report, sizeText: string)
      modifies this`fileName, this`fileSize, this`malwareType, this`detection, this`riskText,
               this`riskClass, this`summaryText, this`stringsContent, this`urlList, this`behaviorContent
      ensures fileName == "File: " + r.filename && fileSize == "Size: " + sizeText
      ensures malwareType == if r.isPython then "Python Executable" else "Unknown Executable"
      ensures detection == DetectionText(r.analysis)
      ensures riskText == RiskName(CalculateRiskLevel(r.analysis))
      ensures riskClass == "risk-level " + Lower(RiskName(CalculateRiskLevel(r.analysis)))
      ensures summaryText == SummaryText(r)
      ensures stringsContent == StringsText(r.analysis)
      ensures urlList == UrlItems(r.analysis.urls)
      ensures behaviorContent == BehaviorText(r.analysis)
    {
      fileName := "File: " + r.filename;
      fileSize := "Size: " + sizeText;
      ShowVerdict(r);
      ShowFindings(r);
    }

    /** The type, detection and risk part of `displayAnalysisResults`. */
    method ShowVerdict(r: Report)
      modifies this`malwareType, this`detection, this`riskText, this`riskClass
      ensures malwareType == if r.isPython then "Python Executable" else "Unknown Executable"
      ensures detection == DetectionText(r.analysis)
      ensures riskText == RiskName(CalculateRiskLevel(r.analysis))
      ensures riskClass == "risk-level " + Lower(RiskName(CalculateRiskLevel(r.analysis)))
    {
      var a := r.analysis;
      malwareType := if r.isPython then "Python Executable" else "Unknown Executable";
      var detectionStatus := "No threats detected";
      if |a.urls| > 0 || |a.commands| > 0 {
        detectionStatus := "Suspicious activity found";
      }
      detection := detectionStatus;
      var risk := RiskName(CalculateRiskLevel(a));
      riskText := risk;
      riskClass := "risk-level " + Lower(risk);
    }

    /** The summary, strings, URL and behaviour part of `displayAnalysisResults`. */
    method ShowFindings(r: Report)
      modifies this`summaryText, this`stringsContent, this`urlList, this`behaviorContent
      ensures summaryText == SummaryText(r)
      ensures stringsContent == StringsText(r.analysis)
      ensures urlList == UrlItems(r.analysis.urls)
      ensures behaviorContent == BehaviorText(r.analysis)
    {
      var a := r.analysis;
      var summaryParts := BuildSummaryParts(r);
      summaryText := if |summaryParts| > 0 then Join(summaryParts, " \U{2022} ") else "No obvious malicious indicators";
      var text := Join(ShownStrings(a), "\n");
      stringsContent := if text == "" then "No strings extracted" else text;
      RenderUrlList(a.urls);
      if |a.behavior| > 0 {
        behaviorContent := Join(ShownBehavior(a), "\n");
      } else {
        behaviorContent := "No suspicious behavior detected";
      }
    }

    /** The `summaryParts` pushes of `displayAnalysisResults`. */
    static method BuildSummaryParts(r: Report) returns (summaryParts: seq<string>)
      ensures summaryParts == SummaryParts(r)
    {
      summaryParts := [];
      if r.isPython { summaryParts := summaryParts + [PythonPart]; }
      if |r.analysis.urls| > 0 { summaryParts := summaryParts + [UrlPart(|r.analysis.urls|)]; }
      if |r.analysis.commands| > 0 { summaryParts := summaryParts + [CommandPart(|r.analysis.commands|)]; }
    }

    /** The `#urlList` part of `displayAnalysisResults`: cleared, then one link per shown URL. */
    method RenderUrlList(urls: seq<string>)
      modifies this`urlList
      ensures urlList == UrlItems(urls)
    {
      urlList := [];
      if |urls| > 0 {
        var shown := Take(urls, 50);
        for k := 0 to |shown|
          invariant urlList == seq(k, i requires 0 <= i < k => Link(shown[i]))
        {
          urlList := urlList + [Link(shown[k])];
        }
      } else {
        urlList := [Placeholder("No URLs found")];
      }
    }

    /** `displayError(message)` */
    method DisplayError(message: string)
      modifies this`malwareType, this`detection, this`riskText, this`riskClass, this`summaryText,
               this`stringsContent, this`urlList, this`behaviorContent
      ensures malwareType == "Analysis Error" && detection == "Failed to analyze"
      ensures riskText == "Error" && riskClass == "risk-level" && summaryText == message
      ensures stringsContent == "Analysis failed" && urlList == [Placeholder("Analysis failed")]
      ensures behaviorContent == "Analysis failed"
    {
      malwareType := "Analysis Error";
      detection := "Failed to analyze";
      riskText := "Error";
      riskClass := "risk-level";
      summaryText := message;
      stringsContent := "Analysis failed";
      urlList := [Placeholder("Analysis failed")];
      behaviorContent := "Analysis failed";
    }

    /** `uploadAndAnalyze(file)` once its fetch has settled; `sizeText` is `formatFileSize(data.size)`. */
    method UploadAndAnalyze(file: FileInfo, settled: FetchSettlement, sizeText: string)
      modifies this
      ensures requests == old(requests) + [file]
      ensures loading == old(loading) - set e | e in LoadingElements
      ensures sectionShown == old(sectionShown)
      ensures AnalysisOutcome(settled).Ok? ==>
        riskText == RiskName(CalculateRiskLevel(AnalysisOutcome(settled).value.analysis))
        && summaryText == SummaryText(AnalysisOutcome(settled).value)
        && urlList == UrlItems(AnalysisOutcome(settled).value.analysis.urls)
      ensures AnalysisOutcome(settled).Ok? ==>
        fileName == "File: " + AnalysisOutcome(settled).value.filename && fileSize == "Size: " + sizeText
      ensures AnalysisOutcome(settled).Err? ==>
        riskText == "Error" && summaryText == AnalysisOutcome(settled).error
        && fileName == old(fileName) && fileSize == old(fileSize)
    {
      requests := requests + [file];
      match AnalysisOutcome(settled) {
        case Ok(report) =>
          DisplayAnalysisResults(report, sizeText);
          SetLoadingState(false);
        case Err(message) =>
          DisplayError(message);
          SetLoadingState(false);
      }
    }

    /**
     * A drop or a file-input change: `handleFiles(files)` runs only when some file is present, on the
     * first. `fileSizeText` is `formatFileSize(file.size)` and `reportSizeText` is `formatFileSize(data.size)`.
     */
    method OnFiles(files: seq<FileInfo>, settled: FetchSettlement, fileSizeText: string, reportSizeText: string)
      modifies this
      ensures |files| == 0 ==> unchanged(this)
      ensures |files| > 0 ==> requests == old(requests) + [files[0]] && sectionShown
      ensures |files| > 0 ==> loading == (old(loading) + set e | e in LoadingElements) - set e | e in LoadingElements
      ensures |files| > 0 && AnalysisOutcome(settled).Ok? ==> fileSize == "Size: " + reportSizeText
      ensures |files| > 0 && AnalysisOutcome(settled).Err? ==>
        fileName == "File: " + files[0].name && fileSize == "Size: " + fileSizeText
    {
      if |files| > 0 {
        var file := files[0];
        ResetAnalysisUI();
        fileName := "File: " + file.name;
        fileSize := "Size: " + fileSizeText;
        SetLoadingState(true);
        sectionShown := true;
        UploadAndAnalyze(file, settled, reportSizeText);
      }
    }
  }
}
