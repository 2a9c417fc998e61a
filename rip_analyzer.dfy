/**
 * The `RattersRipAnalyzer` of ripanalyzer.py: an object that collects detections, Discord webhooks
 * and indicators of compromise while it inspects one file, and scores what it found.
 *
 * File reading, hashing, `pefile`, `zipfile` and the regular expressions that extract URLs, IP
 * addresses, webhook matches and obfuscation hits are oracles in `Environment`.
 */
module RipAnalyzer {
  import opened Common
  import opened Text

  datatype Detection = Detection(title: string, description: string, severity: string)

  const SuspiciousConstants: seq<string> := ["WEBHOOK_URL", "webhook", "discord.com/api/webhooks"]
  const SuspiciousFunctions: seq<string> := ["injection", "Inject", "get_passwords", "get_system_info", "grabber", "grabTokens"]
  const SuspiciousKeywords: seq<string> := ["eval", "exec", "subprocess", "os.system", "import socket", "import requests"]
  const SuspiciousRegKeys: seq<string> := [
    "HKEY_LOCAL_MACHINE\\SOFTWARE\\Microsoft\\Windows\\CurrentVersion\\Run",
    "HKEY_CURRENT_USER\\Software\\Microsoft\\Windows\\CurrentVersion\\Run"
  ]
  const MaliciousRegistryKeys: seq<string> := [
    "HKEY_CURRENT_USER\\Software\\Microsoft\\Windows\\CurrentVersion\\Policies\\System\\DisableTaskMgr",
    "HKEY_LOCAL_MACHINE\\Software\\Microsoft\\Windows\\CurrentVersion\\Run\\"
  ]
  /** `browser_paths['paths']`, in the dictionary's insertion order. */
  const BrowserPaths: seq<(string, string)> := [
    ("Discord", "AppData\\Roaming\\discord"),
    ("Chrome", "AppData\\Local\\Google\\Chrome\\User Data\\Default"),
    ("Firefox", "AppData\\Roaming\\Mozilla\\Firefox\\Profiles")
  ]
  const SuspiciousDirectories: seq<string> := ["\\Google\\Chrome\\User Data", "\\Discord", "\\Mozilla\\Firefox\\Profiles"]
  /** The source text of the obfuscation regular expressions; the report quotes them verbatim. */
  const ObfuscationPatterns: seq<string> := [
    "eval\\(.*\\)", "exec\\(.*\\)", "base64\\.b64decode\\(.*\\)", "[a-zA-Z0-9]{20,}", "\\\\x[0-9a-fA-F]{2}", "[\\x80-\\xFF]"
  ]

  // The titles and fixed parts of the descriptions of the detections.
  const WebhookTitle: string := "Discord Webhook Found"
  const WebhookText: string := "Found Discord webhook URL: "
  const RegistryTitle: string := "Registry Operations Detected"
  const RegistryText: string := "The following registry keys are referenced:\n"
  const ConstantTitle: string := "Suspicious Constant Found: "
  const ConstantText: string := "The file contains a potentially malicious constant: "
  const FunctionTitle: string := "Suspicious Function Found: "
  const FunctionText: string := "The file contains a potentially malicious function reference: "
  const DirectoryTitle: string := "Suspicious Directory Reference"
  const DirectoryText: string := "The file references a sensitive directory: "
  const BrowserTitle: string := "Browser Path Found"
  const BrowserText: string := "The file references "
  const BrowserTextTail: string := " data path: "
  const KeywordTitle: string := "Suspicious Python Code Found"
  const KeywordText: string := "The following suspicious Python constructs were found: "
  const PythonObfuscationTitle: string := "Possible Python Obfuscation"
  const PythonObfuscationText: string := "The script contains potential obfuscation techniques (eval, exec, base64)"
  const StealerTitle: string := "Possible Stealer Behavior"
  const StealerText: string := "The script contains patterns associated with credential stealers"
  const BundleTitle: string := "Python Bundle Detected"
  const BundleText: string := "The file appears to be a bundled Python application containing: "
  const BundleFileTitle: string := "Suspicious File in Bundle"
  const BundleFileText: string := "The bundle contains a potentially malicious file: "
  const ZipErrorTitle: string := "Zip Analysis Error"
  const ZipErrorText: string := "Failed to analyze zip file: "
  const SectionTitle: string := "Packed/Encrypted Section Found"
  const SectionText: string := "PE section '"
  const SectionTextTail: string := "' suggests the file may be packed or encrypted"
  const ImportsTitle: string := "Suspicious Imports Found"
  const ImportsText: string := "The following suspicious imports were found: "
  const PeErrorTitle: string := "PE Analysis Error"
  const PeErrorText: string := "Failed to analyze PE file: "
  const ObfuscationTitle: string := "Possible Obfuscation Detected"
  const ObfuscationText: string := "The file shows signs of obfuscation with patterns: "

  // ---------------------------------------------------------------------------------------------
  // The score

  function Points(d: Detection): nat
  {
    if d.severity == "critical" then 30 else if d.severity == "warning" then 15 else 5
  }

  function TotalPoints(ds: seq<Detection>): nat
  {
    if |ds| == 0 then 0 else TotalPoints(ds[..|ds| - 1]) + Points(ds[|ds| - 1])
  }

  /** `_calculate_malicious_score`: the points of the detections plus 20 per webhook, capped at 100. */
  function Score(ds: seq<Detection>, webhookCount: nat): int
  {
    var raw := TotalPoints(ds) + 20 * webhookCount;
    if raw < 100 then raw else 100
  }

  function CountSeverity(ds: seq<Detection>, severity: string): nat
  {
    if |ds| == 0 then 0
    else CountSeverity(ds[..|ds| - 1], severity) + (if ds[|ds| - 1].severity == severity then 1 else 0)
  }

  /** The points are 30 per critical, 15 per warning and 5 per other detection. */
  lemma {:induction false} TotalPointsFormula(ds: seq<Detection>)
    ensures CountSeverity(ds, "critical") + CountSeverity(ds, "warning") <= |ds|
    ensures TotalPoints(ds) == 30 * CountSeverity(ds, "critical") + 15 * CountSeverity(ds, "warning")
      + 5 * (|ds| - CountSeverity(ds, "critical") - CountSeverity(ds, "warning"))
  {
    if |ds| > 0 {
      TotalPointsFormula(ds[..|ds| - 1]);
    }
  }

  /** The score lies in [0, 100] and is the capped weighted count. */
  lemma ScoreFormula(ds: seq<Detection>, webhookCount: nat)
    ensures 0 <= Score(ds, webhookCount) <= 100
    ensures var c, w := CountSeverity(ds, "critical"), CountSeverity(ds, "warning");
      Score(ds, webhookCount) == if 30 * c + 15 * w + 5 * (|ds| - c - w) + 20 * webhookCount < 100
                                 then 30 * c + 15 * w + 5 * (|ds| - c - w) + 20 * webhookCount else 100
  {
    TotalPointsFormula(ds);
  }

  /** Adding a detection or a webhook never lowers the score. */
  lemma ScoreMonotone(ds: seq<Detection>, d: Detection, webhookCount: nat)
    ensures Score(ds + [d], webhookCount) >= Score(ds, webhookCount)
    ensures Score(ds, webhookCount + 1) >= Score(ds, webhookCount)
  {
    assert (ds + [d])[..|ds + [d]| - 1] == ds;
  }

  /** Every detection is worth at least 5 points. */
  lemma {:induction false} TotalPointsFloor(ds: seq<Detection>)
    ensures TotalPoints(ds) >= 5 * |ds|
  {
    if |ds| > 0 {
      TotalPointsFloor(ds[..|ds| - 1]);
    }
  }

  // ---------------------------------------------------------------------------------------------
  // Webhooks

  function WebhookDetection(url: string): Detection
  {
    Detection(WebhookTitle, WebhookText + url, "critical")
  }

  function WebhookDetections(urls: seq<string>): (r: seq<Detection>)
    ensures |r| == |urls|
  {
    if |urls| == 0 then [] else [WebhookDetection(urls[0])] + WebhookDetections(urls[1..])
  }

  /** One critical detection per webhook URL, in order, each naming its URL. */
  lemma {:induction false} WebhookDetectionsEach(urls: seq<string>)
    ensures forall i | 0 <= i < |urls| :: WebhookDetections(urls)[i] == WebhookDetection(urls[i])
    ensures forall i | 0 <= i < |urls| ::
      WebhookDetections(urls)[i].severity == "critical" && EndsWith(WebhookDetections(urls)[i].description, urls[i])
  {
    if |urls| > 0 {
      WebhookDetectionsEach(urls[1..]);
      forall i | 0 <= i < |urls|
        ensures EndsWith(WebhookDetections(urls)[i].description, urls[i])
      {
        var d := WebhookText + urls[i];
        assert d[|d| - |urls[i]|..] == urls[i];
      }
    }
  }

  /** The matches `_find_webhooks` appends to a list that already holds `seen`, in match order. */
  function NewWebhooks(seen: seq<string>, matches: seq<string>): seq<string>
    decreases |matches|
  {
    if |matches| == 0 then []
    else if matches[0] in seen then NewWebhooks(seen, matches[1..])
    else [matches[0]] + NewWebhooks(seen + [matches[0]], matches[1..])
  }

  /**
   * The appended webhooks were not already present, are pairwise distinct and are all matches;
   * every match ends up present.
   */
  lemma {:induction false} NewWebhooksShape(seen: seq<string>, matches: seq<string>)
    ensures forall w | w in NewWebhooks(seen, matches) :: w !in seen && w in matches
    ensures forall i, j | 0 <= i < j < |NewWebhooks(seen, matches)| :: NewWebhooks(seen, matches)[i] != NewWebhooks(seen, matches)[j]
    ensures forall m | m in matches :: m in seen || m in NewWebhooks(seen, matches)
    decreases |matches|
  {
    if |matches| > 0 {
      var m := matches[0];
      var rest := matches[1..];
      if m in seen {
        NewWebhooksShape(seen, rest);
        assert forall x | x in matches :: x == m || x in rest;
      } else {
        NewWebhooksShape(seen + [m], rest);
        var tail := NewWebhooks(seen + [m], rest);
        assert NewWebhooks(seen, matches) == [m] + tail;
        assert forall x | x in matches :: x == m || x in rest;
        assert m !in tail;
      }
    }
  }

  // ---------------------------------------------------------------------------------------------
  // Registry keys

  /** The keys of `keys` that occur in `content`, in list order. */
  function FoundKeys(content: string, keys: seq<string>): seq<string>
  {
    if |keys| == 0 then []
    else FoundKeys(content, keys[..|keys| - 1]) + (if Contains(content, keys[|keys| - 1]) then [keys[|keys| - 1]] else [])
  }

  lemma {:induction false} FoundKeysMembers(content: string, keys: seq<string>)
    ensures forall k :: k in FoundKeys(content, keys) <==> k in keys && Contains(content, k)
  {
    if |keys| > 0 {
      FoundKeysMembers(content, keys[..|keys| - 1]);
      assert forall k :: k in keys <==> k in keys[..|keys| - 1] || k == keys[|keys| - 1];
    }
  }

  /** The detection `_scan_for_registry_operations` adds for `content`: none, or one naming every key found. */
  function RegistryDetections(content: string): seq<Detection>
  {
    var found := FoundKeys(content, SuspiciousRegKeys + MaliciousRegistryKeys);
    if |found| == 0 then []
    else
      var severity := if exists k | k in found :: k in MaliciousRegistryKeys then "critical" else "warning";
      [Detection(RegistryTitle, RegistryText + Join(found, "\n"), severity)]
  }

  /**
   * No key present means no detection, otherwise exactly one; it is critical iff one of the
   * malicious keys is present, and a warning otherwise.
   */
  lemma RegistrySeverity(content: string)
    ensures |RegistryDetections(content)| <= 1
    ensures |RegistryDetections(content)| == 0 <==>
      forall k | k in SuspiciousRegKeys + MaliciousRegistryKeys :: !Contains(content, k)
    ensures |RegistryDetections(content)| == 1 ==>
      (RegistryDetections(content)[0].severity == "critical" <==> exists k | k in MaliciousRegistryKeys :: Contains(content, k))
    ensures |RegistryDetections(content)| == 1 ==>
      (RegistryDetections(content)[0].severity == "warning" <==> forall k | k in MaliciousRegistryKeys :: !Contains(content, k))
  {
    var keys := SuspiciousRegKeys + MaliciousRegistryKeys;
    FoundKeysMembers(content, keys);
    assert forall k | k in MaliciousRegistryKeys :: k in keys;
    var found := FoundKeys(content, keys);
    if |found| == 0 {
      assert forall k | k in keys :: !Contains(content, k) by {
        forall k | k in keys ensures !Contains(content, k) {
          assert k !in found;
        }
      }
    } else {
      assert found[0] in found;
    }
  }

  // ---------------------------------------------------------------------------------------------
  // Fixed lists checked against the content

  /** The per-item checks of `_scan_file_strings` that report each listed text found. */
  datatype Check = ConstantCheck | FunctionCheck | DirectoryCheck

  function ItemDetection(check: Check, item: string): Detection
  {
    match check
    case ConstantCheck =>
      Detection(ConstantTitle + item, ConstantText + item, "warning")
    case FunctionCheck =>
      Detection(FunctionTitle + item, FunctionText + item, "critical")
    case DirectoryCheck =>
      Detection(DirectoryTitle, DirectoryText + item, "warning")
  }

  /** One detection per listed item found in the content, in list order. */
  function ItemDetections(content: string, items: seq<string>, check: Check): seq<Detection>
  {
    if |items| == 0 then []
    else
      var item := items[|items| - 1];
      ItemDetections(content, items[..|items| - 1], check) + (if Contains(content, item) then [ItemDetection(check, item)] else [])
  }

  /** The number of detections is the number of listed items present. */
  lemma {:induction false} ItemDetectionsCount(content: string, items: seq<string>, check: Check)
    ensures |ItemDetections(content, items, check)| == |FoundKeys(content, items)|
    ensures forall i | 0 <= i < |ItemDetections(content, items, check)| ::
      ItemDetections(content, items, check)[i] == ItemDetection(check, FoundKeys(content, items)[i])
  {
    if |items| > 0 {
      ItemDetectionsCount(content, items[..|items| - 1], check);
    }
  }

  function BrowserDetections(content: string, paths: seq<(string, string)>): seq<Detection>
  {
    if |paths| == 0 then []
    else
      var (browser, path) := paths[|paths| - 1];
      BrowserDetections(content, paths[..|paths| - 1])
      + (if Contains(content, path) then [Detection(BrowserTitle, BrowserText + browser + BrowserTextTail + path, "critical")] else [])
  }

  // ---------------------------------------------------------------------------------------------
  // URL partition

  predicate IsWebhookUrl(url: string)
  {
    Contains(url, "discord.com/api/webhooks")
  }

  function WebhookUrls(urls: seq<string>): seq<string>
  {
    if |urls| == 0 then []
    else WebhookUrls(urls[..|urls| - 1]) + (if IsWebhookUrl(urls[|urls| - 1]) then [urls[|urls| - 1]] else [])
  }

  function OtherUrls(urls: seq<string>): seq<string>
  {
    if |urls| == 0 then []
    else OtherUrls(urls[..|urls| - 1]) + (if IsWebhookUrl(urls[|urls| - 1]) then [] else [urls[|urls| - 1]])
  }

  /** Every extracted URL goes to exactly one side: the webhooks if it names the webhook API, else the IOCs. */
  lemma {:induction false} PartitionExact(urls: seq<string>)
    ensures multiset(WebhookUrls(urls)) + multiset(OtherUrls(urls)) == multiset(urls)
    ensures forall u | u in WebhookUrls(urls) :: IsWebhookUrl(u)
    ensures forall u | u in OtherUrls(urls) :: !IsWebhookUrl(u)
  {
    if |urls| > 0 {
      var init := urls[..|urls| - 1];
      PartitionExact(init);
      assert urls == init + [urls[|urls| - 1]];
    }
  }

  // ---------------------------------------------------------------------------------------------
  // Python sources, zip bundles, PE files

  function FoundKeywordDetections(text: string): seq<Detection>
  {
    var found := FoundKeys(text, SuspiciousKeywords);
    if |found| == 0 then []
    else [Detection(KeywordTitle, KeywordText + Join(found, ", "), "critical")]
  }

  /** The plain-text obfuscation markers of `_analyze_python`. */
  predicate HintsObfuscation(text: string)
  {
    Contains(text, "eval(") || Contains(text, "exec(") || Contains(text, "base64.b64decode(")
  }

  /** The plain-text credential-stealer markers of `_analyze_python`. */
  predicate HintsStealer(text: string)
  {
    Contains(text, "grabber") || Contains(text, "stealer") || Contains(text, "token") || Contains(text, "password")
  }

  function ObfuscationHint(text: string): seq<Detection>
  {
    if HintsObfuscation(text) then
      [Detection(PythonObfuscationTitle, PythonObfuscationText, "warning")]
    else []
  }

  function StealerHint(text: string): seq<Detection>
  {
    if HintsStealer(text) then
      [Detection(StealerTitle, StealerText, "critical")]
    else []
  }

  /** An archive entry that is compiled Python or a Python zip application. */
  predicate PythonBundleEntry(name: string)
  {
    EndsWith(name, ".pyz") || EndsWith(name, ".pyc")
  }

  /** An archive entry whose lower-cased name suggests an injector, grabber or stealer. */
  predicate SuspiciousEntry(name: string)
  {
    Contains(Lower(name), "inject") || Contains(Lower(name), "grabber") || Contains(Lower(name), "steal")
  }

  /** The detections one zip entry name raises. */
  function ZipEntryDetections(name: string): seq<Detection>
  {
    (if PythonBundleEntry(name) then
       [Detection(BundleTitle, BundleText + name, "info")]
     else [])
    + (if SuspiciousEntry(name) then
         [Detection(BundleFileTitle, BundleFileText + name, "critical")]
       else [])
  }

  function ZipDetections(names: seq<string>): seq<Detection>
  {
    if |names| == 0 then [] else ZipDetections(names[..|names| - 1]) + ZipEntryDetections(names[|names| - 1])
  }

  /** What `zipfile` gives: the entry names, or the error opening the archive. */
  datatype ZipListing = Names(names: seq<string>) | ZipFailed(message: string)

  /** What `pefile` gives: the decoded section names and import names, or the parse error. */
  datatype PeParse = Parsed(sectionNames: seq<string>, importNames: seq<string>) | PeFailed(message: string)

  predicate PackedSection(name: string)
  {
    Contains(Lower(name), "packed") || Contains(Lower(name), "encrypt") || Contains(Lower(name), "hidden")
  }

  function SectionDetections(names: seq<string>): seq<Detection>
  {
    if |names| == 0 then []
    else
      var name := names[|names| - 1];
      SectionDetections(names[..|names| - 1])
      + (if PackedSection(name) then
           [Detection(SectionTitle, SectionText + name + SectionTextTail, "warning")]
         else [])
  }

  predicate SuspiciousImport(name: string)
  {
    exists f | f in SuspiciousFunctions :: Contains(Lower(name), Lower(f))
  }

  /** The set of suspicious import names, listed in first-occurrence order. */
  function SuspiciousImports(names: seq<string>): seq<string>
  {
    if |names| == 0 then []
    else
      var rest := SuspiciousImports(names[..|names| - 1]);
      var name := names[|names| - 1];
      if SuspiciousImport(name) && name !in rest then rest + [name] else rest
  }

  function ImportDetections(names: seq<string>): seq<Detection>
  {
    var found := SuspiciousImports(names);
    if |found| == 0 then []
    else [Detection(ImportsTitle, ImportsText + Join(found, ", "), "critical")]
  }

  function PeErrorDetection(message: string): Detection
  {
    Detection(PeErrorTitle, PeErrorText + message, "info")
  }

  // ---------------------------------------------------------------------------------------------
  // The analyzer

  /** How the file is analysed, by its path's suffix (case-sensitive). */
  datatype Kind = PeFile | PythonFile | GenericFile

  function KindOf(path: string): (k: Kind)
    ensures k == PeFile <==> EndsWith(path, ".exe")
    ensures k == PythonFile <==> !EndsWith(path, ".exe") && (EndsWith(path, ".py") || EndsWith(path, ".pyc"))
  {
    if EndsWith(path, ".exe") then PeFile
    else if EndsWith(path, ".py") || EndsWith(path, ".pyc") then PythonFile
    else GenericFile
  }

  /** The file and the library results the analyzer consults. */
  datatype Environment = Environment(
    hashes: (string, string, string),
    decoded: string,
    text: string,
    pe: PeParse,
    registryTypeError: string,
    isZip: bool,
    zip: ZipListing,
    webhookMatches: string -> seq<string>,
    urlsIn: string -> seq<string>,
    ipsIn: string -> seq<string>,
    obfuscationHit: string -> bool)

  datatype Report = Report(detections: seq<Detection>, webhooks: seq<string>, iocUrls: seq<string>,
                           iocIps: seq<string>, hashes: (string, string, string), score: int)

  /** The detections the `try` block of `_analyze_pe` adds: the parse error, or the checks and the registry-call error. */
  function PeStructureDetections(pe: PeParse, typeError: string): seq<Detection>
  {
    match pe
    case PeFailed(message) => [PeErrorDetection(message)]
    case Parsed(sections, imports) => SectionDetections(sections) + ImportDetections(imports) + [PeErrorDetection(typeError)]
  }

  /** The detections `_scan_file_strings` adds to an analyzer that has already recorded `seen` webhooks. */
  function StringScanDetections(seen: seq<string>, content: string, env: Environment): seq<Detection>
  {
    WebhookDetections(NewWebhooks(seen, env.webhookMatches(content))) + ContentDetections(content)
  }

  /** The content checks of `_scan_file_strings`, in order: constants, registry, functions, browser paths, directories. */
  function ContentDetections(content: string): seq<Detection>
  {
    ItemDetections(content, SuspiciousConstants, ConstantCheck)
    + RegistryDetections(content) + ItemDetections(content, SuspiciousFunctions, FunctionCheck)
    + BrowserDetections(content, BrowserPaths) + ItemDetections(content, SuspiciousDirectories, DirectoryCheck)
  }

  /** The webhooks `_scan_file_strings` appends: new pattern matches, then every webhook-looking URL. */
  function StringScanWebhooks(seen: seq<string>, content: string, env: Environment): seq<string>
  {
    NewWebhooks(seen, env.webhookMatches(content)) + WebhookUrls(env.urlsIn(content))
  }

  function ZipOutcomeDetections(listing: ZipListing): seq<Detection>
  {
    match listing
    case Names(names) => ZipDetections(names)
    case ZipFailed(message) => [Detection(ZipErrorTitle, ZipErrorText + message, "info")]
  }

  /** The detections `_analyze_python` adds: keywords, new webhooks, then the obfuscation and stealer hints. */
  function PythonDetections(seen: seq<string>, text: string, matches: seq<string>): seq<Detection>
  {
    FoundKeywordDetections(text) + WebhookDetections(NewWebhooks(seen, matches)) + ObfuscationHint(text) + StealerHint(text)
  }

  /** The detections the analysis chosen by the file's suffix adds. */
  function KindDetections(kind: Kind, env: Environment, seen: seq<string>): seq<Detection>
  {
    match kind
    case PeFile => PeStructureDetections(env.pe, env.registryTypeError) + StringScanDetections(seen, env.decoded, env)
    case PythonFile => PythonDetections(seen, env.text, env.webhookMatches(env.text))
    case GenericFile => if env.isZip then ZipOutcomeDetections(env.zip) else StringScanDetections(seen, env.decoded, env)
  }

  /** The webhooks the analysis chosen by the file's suffix appends. */
  function KindWebhooks(kind: Kind, env: Environment, seen: seq<string>): seq<string>
  {
    match kind
    case PeFile => StringScanWebhooks(seen, env.decoded, env)
    case PythonFile => NewWebhooks(seen, env.webhookMatches(env.text))
    case GenericFile => if env.isZip then [] else StringScanWebhooks(seen, env.decoded, env)
  }

  /** Only the strings scan records IOCs: the PE analysis and the generic analysis of a non-zip file. */
  predicate ScansStrings(kind: Kind, env: Environment)
  {
    kind == PeFile || (kind == GenericFile && !env.isZip)
  }

  function KindUrls(kind: Kind, env: Environment): seq<string>
  {
    if ScansStrings(kind, env) then OtherUrls(env.urlsIn(env.decoded)) else []
  }

  function KindIps(kind: Kind, env: Environment): seq<string>
  {
    if ScansStrings(kind, env) then env.ipsIn(env.decoded) else []
  }

  /** `_check_obfuscation`: one warning naming the patterns that match, or nothing. */
  function ObfuscationDetections(hit: string -> bool): seq<Detection>
  {
    var found := FoundPatterns(ObfuscationPatterns, hit);
    if |found| == 0 then [] else [ObfuscationDetection(found)]
  }

  /**
   * Only the strings scan touches the IOC lists. A Python file's webhooks are its new pattern
   * matches, and a zip archive records no webhooks. A parsed PE file always gets the
   * `PE Analysis Error` detection from the registry call.
   */
  lemma KindFacts(kind: Kind, env: Environment, seen: seq<string>)
    ensures kind == PythonFile ==>
      KindUrls(kind, env) == [] && KindIps(kind, env) == [] && KindWebhooks(kind, env, seen) == NewWebhooks(seen, env.webhookMatches(env.text))
    ensures kind == GenericFile && env.isZip ==> KindUrls(kind, env) == [] && KindWebhooks(kind, env, seen) == []
    ensures kind == PeFile && env.pe.Parsed? ==> PeErrorDetection(env.registryTypeError) in KindDetections(kind, env, seen)
  {
  }

  /** Because of that detection, every parsed PE file scores at least 5, even a clean one. */
  lemma ParsedPeScoreFloor(path: string, env: Environment, webhookCount: nat)
    requires KindOf(path) == PeFile && env.pe.Parsed?
    ensures Score(KindDetections(KindOf(path), env, []) + ObfuscationDetections(env.obfuscationHit), webhookCount) >= 5
  {
    KindFacts(KindOf(path), env, []);
    TotalPointsFloor(KindDetections(KindOf(path), env, []) + ObfuscationDetections(env.obfuscationHit));
  }

  class RattersRipAnalyzer {
    var detections: seq<Detection>
    var webhooks: seq<string>
    var iocUrls: seq<string>
    var iocIps: seq<string>
    /** md5, sha1 and sha256 of the last file, as hex digests. */
    var hashes: (string, string, string)

    constructor ()
      ensures detections == [] && webhooks == [] && iocUrls == [] && iocIps == [] && hashes == ("", "", "")
    {
      detections, webhooks, iocUrls, iocIps, hashes := [], [], [], [], ("", "", "");
    }

    /** The listed texts that occur in `content`, in list order. */
    static method FoundIn(content: string, items: seq<string>) returns (found: seq<string>)
      ensures found == FoundKeys(content, items)
    {
      found := [];
      for i := 0 to |items|
        invariant found == FoundKeys(content, items[..i])
      {
        assert items[..i + 1][..i] == items[..i];
        if Contains(content, items[i]) {
          found := found + [items[i]];
        }
      }
      assert items[..|items|] == items;
    }

    /** The patterns the search oracle reports as matching, in list order. */
    static method Hits(patterns: seq<string>, hit: string -> bool) returns (found: seq<string>)
      ensures found == FoundPatterns(patterns, hit)
    {
      found := [];
      for i := 0 to |patterns|
        invariant found == FoundPatterns(patterns[..i], hit)
      {
        assert patterns[..i + 1][..i] == patterns[..i];
        if hit(patterns[i]) {
          found := found + [patterns[i]];
        }
      }
      assert patterns[..|patterns|] == patterns;
    }

    method AddDetection(title: string, description: string, severity: string)
      modifies this`detections
      ensures detections == old(detections) + [Detection(title, description, severity)]
    {
      detections := detections + [Detection(title, description, severity)];
    }

    /** `_calculate_malicious_score`: sums per detection in a loop, adds the webhooks, caps at 100. */
    method CalculateMaliciousScore() returns (score: int)
      ensures score == Score(detections, |webhooks|)
      ensures 0 <= score <= 100
    {
      score := 0;
      for i := 0 to |detections|
        invariant score == TotalPoints(detections[..i])
      {
        assert detections[..i + 1][..i] == detections[..i];
        if detections[i].severity == "critical" {
          score := score + 30;
        } else if detections[i].severity == "warning" {
          score := score + 15;
        } else {
          score := score + 5;
        }
      }
      assert detections[..|detections|] == detections;
      score := score + |webhooks| * 20;
      if score > 100 {
        score := 100;
      }
    }

    /** `_find_webhooks`, given the matches of its three patterns in order. */
    method FindWebhooks(matches: seq<string>)
      modifies this`webhooks, this`detections
      ensures webhooks == old(webhooks) + NewWebhooks(old(webhooks), matches)
      ensures detections == old(detections) + WebhookDetections(NewWebhooks(old(webhooks), matches))
    {
      for k := 0 to |matches|
        invariant webhooks + NewWebhooks(webhooks, matches[k..]) == old(webhooks) + NewWebhooks(old(webhooks), matches)
        invariant detections + WebhookDetections(NewWebhooks(webhooks, matches[k..]))
               == old(detections) + WebhookDetections(NewWebhooks(old(webhooks), matches))
      {
        var m := matches[k];
        assert matches[k..][0] == m && matches[k..][1..] == matches[k + 1..];
        if m !in webhooks {
          ghost var tail := NewWebhooks(webhooks + [m], matches[k + 1..]);
          assert NewWebhooks(webhooks, matches[k..]) == [m] + tail;
          assert webhooks + ([m] + tail) == (webhooks + [m]) + tail;
          assert WebhookDetections([m] + tail) == [WebhookDetection(m)] + WebhookDetections(tail);
          assert detections + ([WebhookDetection(m)] + WebhookDetections(tail))
              == (detections + [WebhookDetection(m)]) + WebhookDetections(tail);
          webhooks := webhooks + [m];
          AddDetection(WebhookTitle, WebhookText + m, "critical");
        }
      }
      assert webhooks + [] == webhooks && detections + [] == detections;
    }

    /** `_scan_for_registry_operations`: collects the keys found, then adds one detection naming them. */
    method ScanForRegistryOperations(content: string)
      modifies this`detections
      ensures detections == old(detections) + RegistryDetections(content)
    {
      var found := FoundIn(content, SuspiciousRegKeys + MaliciousRegistryKeys);
      if |found| > 0 {
        var critical := exists k | k in found :: k in MaliciousRegistryKeys;
        AddDetection(RegistryTitle, RegistryText + Join(found, "\n"),
                     if critical then "critical" else "warning");
      }
    }

    /** One of the loops of `_scan_file_strings` over a fixed list of texts. */
    method ScanItems(content: string, items: seq<string>, check: Check)
      modifies this`detections
      ensures detections == old(detections) + ItemDetections(content, items, check)
    {
      for i := 0 to |items|
        invariant detections == old(detections) + ItemDetections(content, items[..i], check)
      {
        assert items[..i + 1][..i] == items[..i];
        if Contains(content, items[i]) {
          var d := ItemDetection(check, items[i]);
          AddDetection(d.title, d.description, d.severity);
        }
      }
      assert items[..|items|] == items;
    }

    /** The loop of `_scan_file_strings` over the browser data paths. */
    method ScanBrowserPaths(content: string)
      modifies this`detections
      ensures detections == old(detections) + BrowserDetections(content, BrowserPaths)
    {
      for i := 0 to |BrowserPaths|
        invariant detections == old(detections) + BrowserDetections(content, BrowserPaths[..i])
      {
        assert BrowserPaths[..i + 1][..i] == BrowserPaths[..i];
        var (browser, path) := BrowserPaths[i];
        if Contains(content, path) {
          AddDetection(BrowserTitle, BrowserText + browser + BrowserTextTail + path, "critical");
        }
      }
      assert BrowserPaths[..|BrowserPaths|] == BrowserPaths;
    }

    /** The URL loop of `_scan_file_strings`: webhook URLs to `webhooks`, the rest to `iocs['urls']`. */
    method PartitionUrls(urls: seq<string>)
      modifies this`webhooks, this`iocUrls
      ensures webhooks == old(webhooks) + WebhookUrls(urls)
      ensures iocUrls == old(iocUrls) + OtherUrls(urls)
    {
      for i := 0 to |urls|
        invariant webhooks == old(webhooks) + WebhookUrls(urls[..i])
        invariant iocUrls == old(iocUrls) + OtherUrls(urls[..i])
      {
        assert urls[..i + 1][..i] == urls[..i];
        if IsWebhookUrl(urls[i]) {
          webhooks := webhooks + [urls[i]];
        } else {
          iocUrls := iocUrls + [urls[i]];
        }
      }
      assert urls[..|urls|] == urls;
    }

    /** The detection checks of `_scan_file_strings`, in order, on the decoded content. */
    method ScanDetections(content: string)
      modifies this`detections
      ensures detections == old(detections) + ContentDetections(content)
    {
      ghost var ds := detections;
      ghost var constants := ItemDetections(content, SuspiciousConstants, ConstantCheck);
      ScanItems(content, SuspiciousConstants, ConstantCheck);
      ScanForRegistryOperations(content);
      assert detections == ds + (constants + RegistryDetections(content));
      ScanItems(content, SuspiciousFunctions, FunctionCheck);
      assert detections == ds + (constants + RegistryDetections(content) + ItemDetections(content, SuspiciousFunctions, FunctionCheck));
      ScanBrowserPaths(content);
      assert detections == ds + (constants + RegistryDetections(content) + ItemDetections(content, SuspiciousFunctions, FunctionCheck)
                                 + BrowserDetections(content, BrowserPaths));
      ScanItems(content, SuspiciousDirectories, DirectoryCheck);
    }

    /** `_scan_file_strings` on the decoded file content. */
    method ScanFileStrings(content: string, env: Environment)
      modifies this`detections, this`webhooks, this`iocUrls, this`iocIps
      ensures webhooks == old(webhooks) + StringScanWebhooks(old(webhooks), content, env)
      ensures iocUrls == old(iocUrls) + OtherUrls(env.urlsIn(content))
      ensures iocIps == old(iocIps) + env.ipsIn(content)
      ensures detections == old(detections) + StringScanDetections(old(webhooks), content, env)
    {
      ghost var ds, seen := detections, webhooks;
      ghost var found := NewWebhooks(seen, env.webhookMatches(content));
      FindWebhooks(env.webhookMatches(content));
      ScanDetections(content);
      assert detections == ds + (WebhookDetections(found) + ContentDetections(content));
      PartitionUrls(env.urlsIn(content));
      assert webhooks == seen + (found + WebhookUrls(env.urlsIn(content)));
      iocIps := iocIps + env.ipsIn(content);
    }

    /** `_analyze_python` on the text-mode read of the file. */
    method AnalyzePython(text: string, matches: seq<string>)
      modifies this`detections, this`webhooks
      ensures webhooks == old(webhooks) + NewWebhooks(old(webhooks), matches)
      ensures detections == old(detections) + PythonDetections(old(webhooks), text, matches)
    {
      ghost var ds, seen := detections, webhooks;
      ghost var keywords, found := FoundKeywordDetections(text), WebhookDetections(NewWebhooks(seen, matches));
      AddKeywordDetection(text);
      FindWebhooks(matches);
      assert detections == ds + (keywords + found);
      AddObfuscationHint(text);
      assert detections == ds + (keywords + found + ObfuscationHint(text));
      AddStealerHint(text);
      assert detections == ds + (keywords + found + ObfuscationHint(text) + StealerHint(text));
    }

    method AddKeywordDetection(text: string)
      modifies this`detections
      ensures detections == old(detections) + FoundKeywordDetections(text)
    {
      var found := FoundIn(text, SuspiciousKeywords);
      if |found| > 0 {
        AddDetection(KeywordTitle, KeywordText + Join(found, ", "), "critical");
      }
    }

    method AddObfuscationHint(text: string)
      modifies this`detections
      ensures detections == old(detections) + ObfuscationHint(text)
    {
      if HintsObfuscation(text) {
        AddDetection(PythonObfuscationTitle, PythonObfuscationText, "warning");
      }
    }

    method AddStealerHint(text: string)
      modifies this`detections
      ensures detections == old(detections) + StealerHint(text)
    {
      if HintsStealer(text) {
        AddDetection(StealerTitle, StealerText, "critical");
      }
    }

    /** `_analyze_zip`. */
    method AnalyzeZip(listing: ZipListing)
      modifies this`detections
      ensures listing.Names? ==> detections == old(detections) + ZipDetections(listing.names)
      ensures listing.ZipFailed? ==>
        detections == old(detections) + [Detection(ZipErrorTitle, ZipErrorText + listing.message, "info")]
    {
      match listing {
        case ZipFailed(message) =>
          AddDetection(ZipErrorTitle, ZipErrorText + message, "info");
        case Names(names) =>
          AddZipDetections(names);
      }
    }

    /** The loop over the entries of `_analyze_zip`. */
    method AddZipDetections(names: seq<string>)
      modifies this`detections
      ensures detections == old(detections) + ZipDetections(names)
    {
      for i := 0 to |names|
        invariant detections == old(detections) + ZipDetections(names[..i])
      {
        assert names[..i + 1][..i] == names[..i];
        AddZipEntryDetections(names[i]);
      }
      assert names[..|names|] == names;
    }

    /** The body of the loop over the entries in `_analyze_zip`. */
    method AddZipEntryDetections(name: string)
      modifies this`detections
      ensures detections == old(detections) + ZipEntryDetections(name)
    {
      if PythonBundleEntry(name) {
        AddDetection(BundleTitle, BundleText + name, "info");
      }
      if SuspiciousEntry(name) {
        AddDetection(BundleFileTitle, BundleFileText + name, "critical");
      }
    }

    /** `_analyze_pe`: the structure checks, then the strings scan of the decoded content. */
    method AnalyzePe(env: Environment)
      modifies this`detections, this`webhooks, this`iocUrls, this`iocIps
      ensures detections == old(detections) + PeStructureDetections(env.pe, env.registryTypeError)
                            + StringScanDetections(old(webhooks), env.decoded, env)
      ensures webhooks == old(webhooks) + StringScanWebhooks(old(webhooks), env.decoded, env)
      ensures iocUrls == old(iocUrls) + OtherUrls(env.urlsIn(env.decoded))
      ensures iocIps == old(iocIps) + env.ipsIn(env.decoded)
    {
      AnalyzePeStructure(env.pe, env.registryTypeError);
      ScanFileStrings(env.decoded, env);
    }

    /**
     * The `try` block of `_analyze_pe`. After a successful parse the registry scan is handed the PE
     * object instead of text, so `re.search` raises a TypeError whose message is `typeError`: the
     * block always ends with a `PE Analysis Error` detection.
     */
    method AnalyzePeStructure(pe: PeParse, typeError: string)
      modifies this`detections
      ensures pe.PeFailed? ==> detections == old(detections) + [PeErrorDetection(pe.message)]
      ensures pe.Parsed? ==>
        detections == old(detections) + SectionDetections(pe.sectionNames) + ImportDetections(pe.importNames) + [PeErrorDetection(typeError)]
    {
      match pe {
        case PeFailed(message) =>
          AddDetection(PeErrorTitle, PeErrorText + message, "info");
        case Parsed(sections, imports) =>
          for i := 0 to |sections|
            invariant detections == old(detections) + SectionDetections(sections[..i])
          {
            assert sections[..i + 1][..i] == sections[..i];
            if PackedSection(sections[i]) {
              AddDetection(SectionTitle,
                           SectionText + sections[i] + SectionTextTail, "warning");
            }
          }
          assert sections[..|sections|] == sections;
          var suspicious := [];
          for i := 0 to |imports|
            invariant suspicious == SuspiciousImports(imports[..i])
          {
            assert imports[..i + 1][..i] == imports[..i];
            if SuspiciousImport(imports[i]) && imports[i] !in suspicious {
              suspicious := suspicious + [imports[i]];
            }
          }
          assert imports[..|imports|] == imports;
          if |suspicious| > 0 {
            AddDetection(ImportsTitle, ImportsText + Join(suspicious, ", "), "critical");
          }
          AddDetection(PeErrorTitle, PeErrorText + typeError, "info");
      }
    }

    /**
     * `_check_obfuscation(content)`: one warning listing the patterns that match, if any; `hit(p)`
     * is whether `re.search(p, content)` finds a match.
     */
    method CheckObfuscation(content: string, hit: string -> bool)
      modifies this`detections
      ensures detections == old(detections) + ObfuscationDetections(hit)
    {
      var found := Hits(ObfuscationPatterns, hit);
      if |found| > 0 {
        var d := ObfuscationDetection(found);
        AddDetection(d.title, d.description, d.severity);
      }
    }

    /** The suffix dispatch of `analyze_file`. */
    method Dispatch(path: string, env: Environment)
      modifies this`detections, this`webhooks, this`iocUrls, this`iocIps
      ensures detections == old(detections) + KindDetections(KindOf(path), env, old(webhooks))
      ensures webhooks == old(webhooks) + KindWebhooks(KindOf(path), env, old(webhooks))
      ensures iocUrls == old(iocUrls) + KindUrls(KindOf(path), env) && iocIps == old(iocIps) + KindIps(KindOf(path), env)
    {
      match KindOf(path) {
        case PeFile =>
          AnalyzePe(env);
        case PythonFile =>
          AnalyzePython(env.text, env.webhookMatches(env.text));
        case GenericFile =>
          if env.isZip {
            AnalyzeZip(env.zip);
          } else {
            ScanFileStrings(env.decoded, env);
          }
      }
    }

    /** `analyze_file`: clears detections and webhooks (not the IOCs), dispatches on the suffix, scores. */
    method AnalyzeFile(path: string, env: Environment) returns (report: Report)
      modifies this`detections, this`webhooks, this`iocUrls, this`iocIps, this`hashes
      ensures hashes == env.hashes
      ensures detections == KindDetections(KindOf(path), env, []) + ObfuscationDetections(env.obfuscationHit)
      ensures webhooks == KindWebhooks(KindOf(path), env, [])
      ensures iocUrls == old(iocUrls) + KindUrls(KindOf(path), env) && iocIps == old(iocIps) + KindIps(KindOf(path), env)
      ensures report == Report(detections, webhooks, iocUrls, iocIps, hashes, Score(detections, |webhooks|))
      ensures 0 <= report.score <= 100
    {
      detections := [];
      webhooks := [];
      hashes := env.hashes;
      Dispatch(path, env);
      assert detections == KindDetections(KindOf(path), env, []) && webhooks == KindWebhooks(KindOf(path), env, []);
      CheckObfuscation(env.decoded, env.obfuscationHit);
      var score := CalculateMaliciousScore();
      report := Report(detections, webhooks, iocUrls, iocIps, hashes, score);
    }
  }

  function FoundPatterns(patterns: seq<string>, hit: string -> bool): seq<string>
  {
    if |patterns| == 0 then []
    else FoundPatterns(patterns[..|patterns| - 1], hit) + (if hit(patterns[|patterns| - 1]) then [patterns[|patterns| - 1]] else [])
  }

  function ObfuscationDetection(found: seq<string>): Detection
  {
    Detection(ObfuscationTitle, ObfuscationText + Join(found, ", "), "warning")
  }
}
