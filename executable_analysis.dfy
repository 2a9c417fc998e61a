/**
 * The analysis pipeline of app.py: extraction of strings from the upload, the first-success pycdc
 * loop over extracted `.pyc` files, the per-string URL, command and behaviour scan, and the final
 * filter, prefix, de-duplicate, sort and cap of the three indicator lists.
 *
 * Subprocesses (`strings`, pyinstxtractor, pycdc) and the two regular expressions are oracles:
 * values or functions handed in by the caller.
 */
module ExecutableAnalysis {
  import opened Common
  import opened Text
  import opened PyOrder

  /** The behaviour keywords and their descriptions, in the order they are tried. */
  const SuspiciousPatterns: seq<(string, string)> := [
    ("keylog", "Keylogging"),
    ("inject", "Process injection"),
    ("persist", "Persistence mechanism"),
    ("webcam", "Webcam capture"),
    ("screenshot", "Screen capture"),
    ("clipboard", "Clipboard monitoring"),
    ("token", "Credential theft"),
    ("wallet", "Cryptocurrency theft"),
    ("ransom", "Ransomware behavior"),
    ("bypass", "Anti-analysis")
  ]

  // ---------------------------------------------------------------------------------------------
  // Final normalisation of the indicator lists

  /** A URL without an `http://` or `https://` scheme gets `http://` in front. */
  function Prefixed(url: string): (r: string)
    ensures StartsWith(r, "http://") || StartsWith(r, "https://")
    ensures |r| >= |url|
    ensures StartsWith(url, "http://") || StartsWith(url, "https://") ==> r == url
  {
    if StartsWith(url, "http://") || StartsWith(url, "https://") then url
    else
      var r := "http://" + url;
      assert r[..7] == "http://";
      r
  }

  /** The URLs longer than 8 characters, each given a scheme when it has none, in order. */
  function LongPrefixed(urls: seq<string>): (r: seq<string>)
    ensures |r| <= |urls|
  {
    if |urls| == 0 then []
    else
      var rest := LongPrefixed(urls[1..]);
      if |urls[0]| > 8 then [Prefixed(urls[0])] + rest else rest
  }

  /** The filtered URLs are exactly the prefixed forms of the inputs longer than 8 characters. */
  lemma {:induction false} LongPrefixedMembers(urls: seq<string>)
    ensures forall x | x in LongPrefixed(urls) :: exists u | u in urls :: |u| > 8 && x == Prefixed(u)
    ensures forall u | u in urls && |u| > 8 :: Prefixed(u) in LongPrefixed(urls)
  {
    if |urls| > 0 {
      LongPrefixedMembers(urls[1..]);
      forall x | x in LongPrefixed(urls)
        ensures exists u | u in urls :: |u| > 8 && x == Prefixed(u)
      {
        if x !in LongPrefixed(urls[1..]) {
          assert urls[0] in urls;
        } else {
          var u :| u in urls[1..] && |u| > 8 && x == Prefixed(u);
          assert u in urls;
        }
      }
      forall u | u in urls && |u| > 8
        ensures Prefixed(u) in LongPrefixed(urls)
      {
        if u != urls[0] {
          assert u in urls[1..];
        }
      }
    }
  }

  /** The commands longer than 10 characters, in order. */
  function LongCommands(cmds: seq<string>): (r: seq<string>)
    ensures |r| <= |cmds|
  {
    if |cmds| == 0 then []
    else
      var rest := LongCommands(cmds[1..]);
      if |cmds[0]| > 10 then [cmds[0]] + rest else rest
  }

  lemma {:induction false} LongCommandsMembers(cmds: seq<string>)
    ensures forall c :: c in LongCommands(cmds) <==> c in cmds && |c| > 10
  {
    if |cmds| > 0 {
      LongCommandsMembers(cmds[1..]);
      assert forall c :: c in cmds <==> c == cmds[0] || c in cmds[1..];
    }
  }

  /** `sorted(list(set(...)))[:100]` over the long, prefixed URLs. */
  function FinalUrls(urls: seq<string>): (r: seq<string>)
    ensures StrictlySorted(r) && |r| <= 100
  {
    TakeStrictlySorted(SortUnique(LongPrefixed(urls)), 100);
    Take(SortUnique(LongPrefixed(urls)), 100)
  }

  function FinalCommands(cmds: seq<string>): (r: seq<string>)
    ensures StrictlySorted(r) && |r| <= 100
  {
    TakeStrictlySorted(SortUnique(LongCommands(cmds)), 100);
    Take(SortUnique(LongCommands(cmds)), 100)
  }

  function FinalBehavior(behavior: seq<string>): (r: seq<string>)
    ensures StrictlySorted(r) && |r| <= 100
  {
    TakeStrictlySorted(SortUnique(behavior), 100);
    Take(SortUnique(behavior), 100)
  }

  /**
   * The final URL list is strictly sorted (so free of duplicates), at most 100 long, and every entry
   * carries a scheme and comes from an input longer than 8 characters.
   */
  lemma FinalUrlsShape(urls: seq<string>)
    ensures StrictlySorted(FinalUrls(urls)) && |FinalUrls(urls)| <= 100
    ensures forall x | x in FinalUrls(urls) :: StartsWith(x, "http://") || StartsWith(x, "https://")
    ensures forall x | x in FinalUrls(urls) :: exists u | u in urls :: |u| > 8 && x == Prefixed(u)
  {
    var all := SortUnique(LongPrefixed(urls));
    TakeStrictlySorted(all, 100);
    LongPrefixedMembers(urls);
    SortUniqueMembers(LongPrefixed(urls));
    forall x | x in FinalUrls(urls)
      ensures exists u | u in urls :: |u| > 8 && x == Prefixed(u)
    {
      assert x in all;
    }
  }

  /**
   * With at most 100 distinct results nothing is lost; otherwise the cap keeps the least ones.
   */
  lemma FinalUrlsCap(urls: seq<string>)
    ensures |SortUnique(LongPrefixed(urls))| <= 100 ==> forall u | u in urls && |u| > 8 :: Prefixed(u) in FinalUrls(urls)
    ensures forall u | u in urls && |u| > 8 && Prefixed(u) !in FinalUrls(urls) ::
      forall x | x in FinalUrls(urls) :: Less(x, Prefixed(u))
  {
    var all := SortUnique(LongPrefixed(urls));
    LongPrefixedMembers(urls);
    SortUniqueMembers(LongPrefixed(urls));
    CapKeepsLeast(all, 100);
    forall u | u in urls && |u| > 8 && Prefixed(u) !in FinalUrls(urls)
      ensures forall x | x in FinalUrls(urls) :: Less(x, Prefixed(u))
    {
      assert Prefixed(u) in all;
      forall x | x in FinalUrls(urls)
        ensures Less(x, Prefixed(u))
      {
        var i :| 0 <= i < |Take(all, 100)| && Take(all, 100)[i] == x;
      }
    }
  }

  /** Cutting a strictly sorted list keeps exactly the least entries. */
  lemma CapKeepsLeast(all: seq<string>, n: nat)
    requires StrictlySorted(all)
    ensures forall u | u in all && u !in Take(all, n) :: forall i | 0 <= i < |Take(all, n)| :: Less(Take(all, n)[i], u)
  {
    forall u | u in all && u !in Take(all, n)
      ensures forall i | 0 <= i < |Take(all, n)| :: Less(Take(all, n)[i], u)
    {
      var k :| 0 <= k < |all| && all[k] == u;
      assert k >= n;
    }
  }

  /** Final commands are strictly sorted, longer than 10 characters, at most 100, and each an input. */
  lemma FinalCommandsShape(cmds: seq<string>)
    ensures var r := FinalCommands(cmds);
      StrictlySorted(r) && |r| <= 100 && (forall c | c in r :: |c| > 10 && c in cmds)
  {
    TakeStrictlySorted(SortUnique(LongCommands(cmds)), 100);
    LongCommandsMembers(cmds);
    SortUniqueMembers(LongCommands(cmds));
  }

  /** Final behaviours are strictly sorted, at most 100, and each a member of the list before. */
  lemma FinalBehaviorShape(behavior: seq<string>)
    ensures var r := FinalBehavior(behavior);
      StrictlySorted(r) && |r| <= 100 && (forall b | b in r :: b in behavior)
  {
    TakeStrictlySorted(SortUnique(behavior), 100);
    SortUniqueMembers(behavior);
  }

  /** A list whose entries already carry a scheme and are long passes the URL filter unchanged. */
  lemma {:induction false} LongPrefixedFixed(urls: seq<string>)
    requires forall i | 0 <= i < |urls| :: |urls[i]| > 8 && (StartsWith(urls[i], "http://") || StartsWith(urls[i], "https://"))
    ensures LongPrefixed(urls) == urls
  {
    if |urls| > 0 {
      LongPrefixedFixed(urls[1..]);
    }
  }

  lemma {:induction false} LongCommandsFixed(cmds: seq<string>)
    requires forall i | 0 <= i < |cmds| :: |cmds[i]| > 10
    ensures LongCommands(cmds) == cmds
  {
    if |cmds| > 0 {
      LongCommandsFixed(cmds[1..]);
    }
  }

  /** Normalising the normalised lists again changes nothing. */
  lemma NormalisationIdempotent(urls: seq<string>, cmds: seq<string>, behavior: seq<string>)
    ensures FinalUrls(FinalUrls(urls)) == FinalUrls(urls)
    ensures FinalCommands(FinalCommands(cmds)) == FinalCommands(cmds)
    ensures FinalBehavior(FinalBehavior(behavior)) == FinalBehavior(behavior)
  {
    var u := FinalUrls(urls);
    FinalUrlsShape(urls);
    forall i | 0 <= i < |u|
      ensures |u[i]| > 8
    {
      assert u[i] in u;
    }
    LongPrefixedFixed(u);
    SortUniqueOfSorted(u);

    var c := FinalCommands(cmds);
    FinalCommandsShape(cmds);
    LongCommandsFixed(c);
    SortUniqueOfSorted(c);

    var b := FinalBehavior(behavior);
    FinalBehaviorShape(behavior);
    SortUniqueOfSorted(b);
  }

  // ---------------------------------------------------------------------------------------------
  // The per-string scan

  /** The URL candidates the scan drops: any that mentions a local or example host. */
  predicate ExcludedUrl(u: string)
  {
    Contains(u, "localhost") || Contains(u, "example.com") || Contains(u, "127.0.0.1")
  }

  function KeptUrls(candidates: seq<string>): (r: seq<string>)
    ensures |r| <= |candidates|
  {
    if |candidates| == 0 then []
    else (if ExcludedUrl(candidates[0]) then [] else [candidates[0]]) + KeptUrls(candidates[1..])
  }

  lemma {:induction false} KeptUrlsMembers(candidates: seq<string>)
    ensures forall u :: u in KeptUrls(candidates) <==> u in candidates && !ExcludedUrl(u)
  {
    if |candidates| > 0 {
      KeptUrlsMembers(candidates[1..]);
      assert forall u :: u in candidates <==> u == candidates[0] || u in candidates[1..];
    }
  }

  /** The URLs appended while scanning `ss`; `urlsIn(s)` is what the URL pattern reports for `s`. */
  function UrlsFound(ss: seq<string>, urlsIn: string -> seq<string>): seq<string>
  {
    if |ss| == 0 then [] else UrlsFound(ss[..|ss| - 1], urlsIn) + KeptUrls(urlsIn(ss[|ss| - 1]))
  }

  /** The command entries appended while scanning `ss`; `isCommand(s)` is the command pattern's verdict. */
  function CommandsFound(ss: seq<string>, isCommand: string -> bool): seq<string>
  {
    if |ss| == 0 then []
    else CommandsFound(ss[..|ss| - 1], isCommand) + (if isCommand(ss[|ss| - 1]) then [Take(ss[|ss| - 1], 300)] else [])
  }

  /** The behaviour entries for one string from the patterns `ps`, in pattern order. */
  function PatternHits(s: string, ps: seq<(string, string)>): seq<string>
  {
    if |ps| == 0 then []
    else
      var p := ps[|ps| - 1];
      PatternHits(s, ps[..|ps| - 1]) + (if Contains(Lower(s), p.0) then [p.1 + ": " + Take(s, 300)] else [])
  }

  function BehaviorFound(ss: seq<string>): seq<string>
  {
    if |ss| == 0 then [] else BehaviorFound(ss[..|ss| - 1]) + PatternHits(ss[|ss| - 1], SuspiciousPatterns)
  }

  /**
   * Where `re.findall(p, text, re.IGNORECASE)` matches a plain lower-case word `p`, given the
   * lower-cased text `low` and scanning from `i`: the scan resumes after each match, so the matches
   * are in order and never overlap.
   */
  function MatchStarts(low: string, p: string, i: nat): (r: seq<nat>)
    requires |p| > 0
    ensures forall n | 0 <= n < |r| :: i <= r[n] && OccursAt(low, p, r[n])
    ensures forall n | 0 <= n < |r| - 1 :: r[n] + |p| <= r[n + 1]
    decreases |low| - i
  {
    if i + |p| > |low| then []
    else if OccursAt(low, p, i) then [i] + MatchStarts(low, p, i + |p|)
    else MatchStarts(low, p, i + 1)
  }

  /** The scan finds something exactly when `p` occurs at or after `i`, and its first match is the
      leftmost occurrence. */
  lemma {:induction false} MatchStartsLeftmost(low: string, p: string, i: nat)
    requires |p| > 0
    ensures |MatchStarts(low, p, i)| > 0 <==> exists j | i <= j :: OccursAt(low, p, j)
    ensures |MatchStarts(low, p, i)| > 0 ==> forall j | i <= j < MatchStarts(low, p, i)[0] :: !OccursAt(low, p, j)
    decreases |low| - i
  {
    var r := MatchStarts(low, p, i);
    if i + |p| > |low| {
      assert r == [];
      forall j | i <= j
        ensures !OccursAt(low, p, j)
      {
      }
    } else if OccursAt(low, p, i) {
      assert r[0] == i;
    } else {
      assert r == MatchStarts(low, p, i + 1);
      MatchStartsLeftmost(low, p, i + 1);
      if exists j | i <= j :: OccursAt(low, p, j) {
        var j :| i <= j && OccursAt(low, p, j);
        assert i + 1 <= j;
      }
    }
  }

  /** The entries for one pattern: its description and the text of each match, in text order;
      `low` is the lower-cased text. */
  function MatchEntries(text: string, low: string, p: (string, string)): seq<string>
    requires |low| == |text| && |p.0| > 0
  {
    var st := MatchStarts(low, p.0, 0);
    seq(|st|, n requires 0 <= n < |st| => p.1 + ": " + text[st[n]..st[n] + |p.0|])
  }

  /** The `desc: match` entries the search of the decompiled code yields, pattern by pattern. */
  function DecompiledHits(text: string, low: string, ps: seq<(string, string)>): seq<string>
    requires |low| == |text|
    requires forall k | 0 <= k < |ps| :: |ps[k].0| > 0
  {
    if |ps| == 0 then [] else DecompiledHits(text, low, ps[..|ps| - 1]) + MatchEntries(text, low, ps[|ps| - 1])
  }

  /** Each of one pattern's entries is its description followed by the text where it occurs in
      the lower-cased text `low`. */
  lemma MatchEntriesSound(text: string, low: string, p: (string, string))
    requires |low| == |text| && |p.0| > 0
    ensures forall b | b in MatchEntries(text, low, p) ::
      exists j | OccursAt(low, p.0, j) :: b == p.1 + ": " + text[j..j + |p.0|]
  {
    var st := MatchStarts(low, p.0, 0);
    var es := MatchEntries(text, low, p);
    forall b | b in es
      ensures exists j | OccursAt(low, p.0, j) :: b == p.1 + ": " + text[j..j + |p.0|]
    {
      var n :| 0 <= n < |es| && b == es[n];
      assert OccursAt(low, p.0, st[n]);
    }
  }

  /** A pattern has an entry exactly when it occurs, and its first entry is for its leftmost
      occurrence. */
  lemma MatchEntriesLeftmost(text: string, low: string, p: (string, string))
    requires |low| == |text| && |p.0| > 0
    ensures |MatchEntries(text, low, p)| > 0 <==> Contains(low, p.0)
    ensures Contains(low, p.0) ==>
      exists j | OccursAt(low, p.0, j) ::
        (forall i | 0 <= i < j :: !OccursAt(low, p.0, i)) && MatchEntries(text, low, p)[0] == p.1 + ": " + text[j..j + |p.0|]
  {
    var st := MatchStarts(low, p.0, 0);
    MatchStartsLeftmost(low, p.0, 0);
    if Contains(low, p.0) {
      var j0 :| 0 <= j0 <= |low| - |p.0| && OccursAt(low, p.0, j0);
      assert OccursAt(low, p.0, st[0]);
    }
    if |st| > 0 {
      assert OccursAt(low, p.0, st[0]);
    }
  }

  /** An entry of the whole search is an entry of one of the patterns, and every pattern's
      entries are kept. */
  lemma {:induction false} DecompiledHitsMembers(text: string, low: string, ps: seq<(string, string)>)
    requires |low| == |text|
    requires forall k | 0 <= k < |ps| :: |ps[k].0| > 0
    ensures forall b :: b in DecompiledHits(text, low, ps) <==>
      exists k | 0 <= k < |ps| :: b in MatchEntries(text, low, ps[k])
  {
    if |ps| > 0 {
      var init := ps[..|ps| - 1];
      DecompiledHitsMembers(text, low, init);
      forall k | 0 <= k < |init|
        ensures init[k] == ps[k]
      {
      }
    }
  }

  /** Every URL the strings contribute passed the host exclusion and came from some string. */
  lemma {:induction false} UrlsFoundShape(ss: seq<string>, urlsIn: string -> seq<string>)
    ensures forall u | u in UrlsFound(ss, urlsIn) :: !ExcludedUrl(u) && exists i | 0 <= i < |ss| :: u in urlsIn(ss[i])
  {
    if |ss| > 0 {
      var init := ss[..|ss| - 1];
      UrlsFoundShape(init, urlsIn);
      forall u | u in UrlsFound(ss, urlsIn)
        ensures !ExcludedUrl(u) && exists i | 0 <= i < |ss| :: u in urlsIn(ss[i])
      {
        if u in UrlsFound(init, urlsIn) {
          var i :| 0 <= i < |init| && u in urlsIn(init[i]);
          assert ss[i] == init[i];
        } else {
          assert u in KeptUrls(urlsIn(ss[|ss| - 1]));
          KeptUrlsMembers(urlsIn(ss[|ss| - 1]));
        }
      }
    }
  }

  /** Every command entry is the first 300 characters of a string the command pattern matched. */
  lemma {:induction false} CommandsFoundShape(ss: seq<string>, isCommand: string -> bool)
    ensures forall c | c in CommandsFound(ss, isCommand) ::
      |c| <= 300 && exists i | 0 <= i < |ss| :: isCommand(ss[i]) && c == Take(ss[i], 300)
  {
    if |ss| > 0 {
      var init := ss[..|ss| - 1];
      CommandsFoundShape(init, isCommand);
      forall c | c in CommandsFound(ss, isCommand)
        ensures |c| <= 300 && exists i | 0 <= i < |ss| :: isCommand(ss[i]) && c == Take(ss[i], 300)
      {
        if c in CommandsFound(init, isCommand) {
          var i :| 0 <= i < |init| && isCommand(init[i]) && c == Take(init[i], 300);
          assert ss[i] == init[i];
        }
      }
    }
  }

  /** Each hit for one string reads `<desc>: <s[:300]>` for a pattern found in it, ignoring case. */
  lemma {:induction false} PatternHitsShape(s: string, ps: seq<(string, string)>)
    ensures forall b | b in PatternHits(s, ps) ::
      exists k | 0 <= k < |ps| :: Contains(Lower(s), ps[k].0) && b == ps[k].1 + ": " + Take(s, 300)
  {
    if |ps| > 0 {
      var init := ps[..|ps| - 1];
      PatternHitsShape(s, init);
      forall b | b in PatternHits(s, ps)
        ensures exists k | 0 <= k < |ps| :: Contains(Lower(s), ps[k].0) && b == ps[k].1 + ": " + Take(s, 300)
      {
        if b in PatternHits(s, init) {
          var k :| 0 <= k < |init| && Contains(Lower(s), init[k].0) && b == init[k].1 + ": " + Take(s, 300);
          assert ps[k] == init[k];
        }
      }
    }
  }

  /** Every behaviour entry names a suspicious pattern found in some string, with that string cut at 300. */
  lemma {:induction false} BehaviorFoundShape(ss: seq<string>)
    ensures forall b | b in BehaviorFound(ss) ::
      exists i, k | 0 <= i < |ss| && 0 <= k < |SuspiciousPatterns| ::
        Contains(Lower(ss[i]), SuspiciousPatterns[k].0) && b == SuspiciousPatterns[k].1 + ": " + Take(ss[i], 300)
  {
    if |ss| > 0 {
      var init := ss[..|ss| - 1];
      var last := ss[|ss| - 1];
      BehaviorFoundShape(init);
      PatternHitsShape(last, SuspiciousPatterns);
      forall b | b in BehaviorFound(ss)
        ensures exists i, k | 0 <= i < |ss| && 0 <= k < |SuspiciousPatterns| ::
          Contains(Lower(ss[i]), SuspiciousPatterns[k].0) && b == SuspiciousPatterns[k].1 + ": " + Take(ss[i], 300)
      {
        if b in BehaviorFound(init) {
          var i, k :| 0 <= i < |init| && 0 <= k < |SuspiciousPatterns|
            && Contains(Lower(init[i]), SuspiciousPatterns[k].0) && b == SuspiciousPatterns[k].1 + ": " + Take(init[i], 300);
          assert ss[i] == init[i];
        } else {
          assert b in PatternHits(last, SuspiciousPatterns);
          var k :| 0 <= k < |SuspiciousPatterns| && Contains(Lower(last), SuspiciousPatterns[k].0)
            && b == SuspiciousPatterns[k].1 + ": " + Take(last, 300);
          assert ss[|ss| - 1] == last;
        }
      }
    }
  }

  // ---------------------------------------------------------------------------------------------
  // String extraction

  /** An ASCII letter: the characters outside `[\d\W_]`. */
  predicate Letter(c: char)
  {
    'a' <= c <= 'z' || 'A' <= c <= 'Z'
  }

  /** A line the filter keeps: `^[\d\W_]+$` does not match it, so it is empty or holds a letter. */
  predicate KeptLine(s: string)
  {
    |s| == 0 || exists i | 0 <= i < |s| :: Letter(s[i])
  }

  function KeptLines(lines: seq<string>): (r: seq<string>)
    ensures |r| <= |lines|
  {
    if |lines| == 0 then []
    else (if KeptLine(lines[0]) then [lines[0]] else []) + KeptLines(lines[1..])
  }

  lemma {:induction false} KeptLinesMembers(lines: seq<string>)
    ensures forall s :: s in KeptLines(lines) <==> s in lines && KeptLine(s)
  {
    if |lines| > 0 {
      KeptLinesMembers(lines[1..]);
      assert forall s :: s in lines <==> s == lines[0] || s in lines[1..];
    }
  }

  /** The list comprehension of `extract_strings`: the first 2000 kept lines, in order. */
  function ExtractedStrings(lines: seq<string>): (r: seq<string>)
    ensures |r| <= 2000 && r <= KeptLines(lines)
    ensures |KeptLines(lines)| <= 2000 ==> r == KeptLines(lines)
  {
    Take(KeptLines(lines), 2000)
  }

  /**
   * Every extracted string is a line of the output that is empty or holds a letter; a line made
   * only of digits, underscores and punctuation is dropped.
   */
  lemma ExtractedStringsFilter(lines: seq<string>)
    ensures forall s | s in ExtractedStrings(lines) :: s in lines && (s == "" || exists i | 0 <= i < |s| :: Letter(s[i]))
    ensures forall j | 0 <= j < |lines| && |lines[j]| > 0 && (forall i | 0 <= i < |lines[j]| :: !Letter(lines[j][i]))
      :: lines[j] !in ExtractedStrings(lines)
  {
    KeptLinesMembers(lines);
    forall s | s in ExtractedStrings(lines)
      ensures s in KeptLines(lines)
    {
      var i :| 0 <= i < |ExtractedStrings(lines)| && ExtractedStrings(lines)[i] == s;
      assert KeptLines(lines)[i] == s;
    }
  }

  // ---------------------------------------------------------------------------------------------
  // Subprocess outcomes

  /** How `strings -n 8` ended: with its exit code and its output split into lines, or by raising. */
  datatype StringsRun = StringsExited(returncode: int, lines: seq<string>) | StringsRaised(message: string)

  /** How the pyinstxtractor run ended: the files then found under the output directory, or a failure. */
  datatype Extraction = Extracted(walked: seq<string>) | ExtractionTimedOut | ExtractionFailed(message: string)

  /** How one pycdc run ended. */
  datatype PycdcRun = Completed(returncode: int, stdout: string) | TimedOut | Raised(message: string)

  /** Python's `str.isspace` for one character. */
  predicate PySpace(c: char)
  {
    c == ' ' || '\t' <= c <= '\r' || '\U{1c}' <= c <= '\U{1f}' || c == '\U{85}' || c == '\U{a0}'
    || c == '\U{1680}' || '\U{2000}' <= c <= '\U{200a}' || c == '\U{2028}' || c == '\U{2029}'
    || c == '\U{202f}' || c == '\U{205f}' || c == '\U{3000}'
  }

  /** The output holds something other than Python whitespace. */
  predicate NotBlank(s: string)
  {
    exists i | 0 <= i < |s| :: !PySpace(s[i])
  }

  predicate Decompiled(run: PycdcRun)
  {
    run.Completed? && run.returncode == 0 && NotBlank(run.stdout)
  }

  /** The suffixes recorded from the extraction directory. */
  predicate RecordedFile(path: string)
  {
    EndsWith(path, ".pyc") || EndsWith(path, ".py") || EndsWith(path, ".dll") || EndsWith(path, ".pyd") || EndsWith(path, ".json")
  }

  function RecordedFiles(walked: seq<string>): (r: seq<string>)
    ensures |r| <= |walked|
  {
    if |walked| == 0 then []
    else (if RecordedFile(walked[0]) then [walked[0]] else []) + RecordedFiles(walked[1..])
  }

  lemma {:induction false} RecordedFilesMembers(walked: seq<string>)
    ensures forall f :: f in RecordedFiles(walked) <==> f in walked && RecordedFile(f)
  {
    if |walked| > 0 {
      RecordedFilesMembers(walked[1..]);
      assert forall f :: f in walked <==> f == walked[0] || f in walked[1..];
    }
  }

  /** The warning a pycdc run leaves, if any. */
  function DecompileWarning(file: string, run: PycdcRun): seq<string>
  {
    match run
    case Completed(_, _) => []
    case TimedOut => ["Decompilation timed out for " + file]
    case Raised(message) => ["Failed to decompile " + file + ": " + message]
  }

  /**
   * The loop of `decompile_pyc_files` over `files`: the text it stores (if some `.pyc` decompiles)
   * and the warnings of the runs before it.
   */
  function DecompileScan(files: seq<string>, pycdc: string -> PycdcRun): (seq<string>, Option<string>)
  {
    if |files| == 0 then ([], None)
    else if !EndsWith(files[0], ".pyc") then DecompileScan(files[1..], pycdc)
    else if Decompiled(pycdc(files[0])) then ([], Some(Take(pycdc(files[0]).stdout, 10000)))
    else
      var rest := DecompileScan(files[1..], pycdc);
      (DecompileWarning(files[0], pycdc(files[0])) + rest.0, rest.1)
  }

  /**
   * The loop stores text exactly when some `.pyc` file decompiles, and then it is at most 10000
   * characters of the first such file's output; only `.pyc` files run, so only they leave warnings.
   */
  lemma {:induction false} DecompileFirstSuccess(files: seq<string>, pycdc: string -> PycdcRun)
    ensures var (warnings, text) := DecompileScan(files, pycdc);
      (text.Some? <==> exists i | 0 <= i < |files| :: EndsWith(files[i], ".pyc") && Decompiled(pycdc(files[i])))
      && (text.Some? ==> exists i | 0 <= i < |files| ::
            EndsWith(files[i], ".pyc") && Decompiled(pycdc(files[i])) && text.value == Take(pycdc(files[i]).stdout, 10000)
            && (forall j | 0 <= j < i :: !(EndsWith(files[j], ".pyc") && Decompiled(pycdc(files[j])))))
      && (text.Some? ==> |text.value| <= 10000)
      && |warnings| <= |files|
  {
    if |files| > 0 {
      var rest := files[1..];
      DecompileFirstSuccess(rest, pycdc);
      var (warnings, text) := DecompileScan(files, pycdc);
      if EndsWith(files[0], ".pyc") && Decompiled(pycdc(files[0])) {
      } else {
        assert DecompileScan(files, pycdc).1 == DecompileScan(rest, pycdc).1;
        if text.Some? {
          var i :| 0 <= i < |rest| && EndsWith(rest[i], ".pyc") && Decompiled(pycdc(rest[i]))
            && text.value == Take(pycdc(rest[i]).stdout, 10000)
            && (forall j | 0 <= j < i :: !(EndsWith(rest[j], ".pyc") && Decompiled(pycdc(rest[j]))));
          assert files[i + 1] == rest[i];
          forall j | 0 <= j < i + 1
            ensures !(EndsWith(files[j], ".pyc") && Decompiled(pycdc(files[j])))
          {
            if j > 0 {
              assert files[j] == rest[j - 1];
            }
          }
        } else {
          forall i | 0 <= i < |files|
            ensures !(EndsWith(files[i], ".pyc") && Decompiled(pycdc(files[i])))
          {
            if i > 0 {
              assert files[i] == rest[i - 1];
            }
          }
        }
      }
    }
  }

  /** The subprocesses and patterns the analysis consults, fixed for one upload. */
  datatype Tools = Tools(
    mentionsPyInstaller: bool,
    extraction: Extraction,
    pycdc: string -> PycdcRun,
    stringsRun: StringsRun,
    urlsIn: string -> seq<string>,
    isCommand: string -> bool,
    decompiledUrls: string -> seq<string>,
    decompiledCommands: string -> seq<string>)

  /** Python truthiness of the decompiled text: present and non-empty. */
  predicate Truthy(s: Option<string>)
  {
    s.Some? && s.value != ""
  }

  /** What the search of the decompiled code adds to each list; nothing when there is none. */
  function DecompiledUrls(decompiled: Option<string>, tools: Tools): seq<string>
  {
    if Truthy(decompiled) then tools.decompiledUrls(decompiled.value) else []
  }

  function DecompiledCommands(decompiled: Option<string>, tools: Tools): seq<string>
  {
    if Truthy(decompiled) then tools.decompiledCommands(decompiled.value) else []
  }

  function DecompiledBehavior(decompiled: Option<string>, tools: Tools): seq<string>
  {
    if Truthy(decompiled) then DecompiledHits(decompiled.value, Lower(decompiled.value), SuspiciousPatterns) else []
  }

  /**
   * The three lists `find_urls_and_commands` leaves, given the lists it starts from: the findings
   * of the strings, then those of the decompiled code, appended and normalised.
   */
  function IndicatorUrls(prior: seq<string>, strings: seq<string>, decompiled: Option<string>, tools: Tools): seq<string>
  {
    FinalUrls(prior + UrlsFound(strings, tools.urlsIn) + DecompiledUrls(decompiled, tools))
  }

  function IndicatorCommands(prior: seq<string>, strings: seq<string>, decompiled: Option<string>, tools: Tools): seq<string>
  {
    FinalCommands(prior + CommandsFound(strings, tools.isCommand) + DecompiledCommands(decompiled, tools))
  }

  function IndicatorBehavior(prior: seq<string>, strings: seq<string>, decompiled: Option<string>, tools: Tools): seq<string>
  {
    FinalBehavior(prior + BehaviorFound(strings) + DecompiledBehavior(decompiled, tools))
  }

  /** The warning `extract_pyinstaller` leaves, if any. */
  function ExtractionWarnings(extraction: Extraction): seq<string>
  {
    match extraction
    case Extracted(_) => []
    case ExtractionTimedOut => ["Extraction timed out"]
    case ExtractionFailed(message) => ["Extraction failed: " + message]
  }

  /** The files `extract_pyinstaller` records: none unless the extractor ran to completion. */
  function ExtractionFiles(extraction: Extraction): seq<string>
  {
    if extraction.Extracted? then RecordedFiles(extraction.walked) else []
  }

  /** The warning `extract_strings` leaves, if any. */
  function StringsWarnings(run: StringsRun): seq<string>
  {
    if run.StringsRaised? then ["Strings extraction failed: " + run.message] else []
  }

  /** The strings of a fresh result after `extract_strings`: empty unless `strings` exited with 0. */
  function PreparedStrings(run: StringsRun): seq<string>
  {
    if run.StringsExited? && run.returncode == 0 then ExtractedStrings(run.lines) else []
  }

  /** The extracted files of a fresh result after the PyInstaller branch, taken or not. */
  function PreparedFiles(tools: Tools): seq<string>
  {
    if tools.mentionsPyInstaller then ExtractionFiles(tools.extraction) else []
  }

  /** The decompiled text of a fresh result after the PyInstaller branch. */
  function PreparedDecompiled(tools: Tools): Option<string>
  {
    DecompileScan(PreparedFiles(tools), tools.pycdc).1
  }

  /** The warnings of a fresh result before the scan: extraction, decompilation, then `strings`. */
  function PreparedWarnings(tools: Tools): seq<string>
  {
    (if tools.mentionsPyInstaller then ExtractionWarnings(tools.extraction) + DecompileScan(PreparedFiles(tools), tools.pycdc).0 else [])
    + StringsWarnings(tools.stringsRun)
  }

  /**
   * What `analyze_executable` reports, from its subprocesses: at most 2000 strings; decompiled
   * text only for a PyInstaller executable whose extraction completed, and then the capped output
   * of the first extracted `.pyc` that decompiles; without PyInstaller no extraction or
   * decompilation warning and indicators from the strings alone; sorted, capped indicator lists.
   */
  lemma AnalysisFacts(tools: Tools)
    ensures |PreparedStrings(tools.stringsRun)| <= 2000
    ensures PreparedDecompiled(tools).Some? ==>
      tools.mentionsPyInstaller && tools.extraction.Extracted?
      && exists f | f in tools.extraction.walked :: EndsWith(f, ".pyc") && Decompiled(tools.pycdc(f))
                                                    && PreparedDecompiled(tools).value == Take(tools.pycdc(f).stdout, 10000)
    ensures !tools.mentionsPyInstaller ==>
      PreparedFiles(tools) == [] && PreparedWarnings(tools) == StringsWarnings(tools.stringsRun)
      && IndicatorUrls([], PreparedStrings(tools.stringsRun), PreparedDecompiled(tools), tools)
         == FinalUrls(UrlsFound(PreparedStrings(tools.stringsRun), tools.urlsIn))
      && IndicatorCommands([], PreparedStrings(tools.stringsRun), PreparedDecompiled(tools), tools)
         == FinalCommands(CommandsFound(PreparedStrings(tools.stringsRun), tools.isCommand))
    ensures tools.mentionsPyInstaller && tools.extraction.ExtractionTimedOut? ==>
      PreparedWarnings(tools)[0] == "Extraction timed out" && PreparedDecompiled(tools) == None
    ensures var s, d := PreparedStrings(tools.stringsRun), PreparedDecompiled(tools);
      StrictlySorted(IndicatorUrls([], s, d, tools)) && |IndicatorUrls([], s, d, tools)| <= 100
      && StrictlySorted(IndicatorCommands([], s, d, tools)) && |IndicatorCommands([], s, d, tools)| <= 100
      && StrictlySorted(IndicatorBehavior([], s, d, tools)) && |IndicatorBehavior([], s, d, tools)| <= 100
  {
    var files := PreparedFiles(tools);
    DecompileFirstSuccess(files, tools.pycdc);
    if PreparedDecompiled(tools).Some? {
      var i :| 0 <= i < |files| && EndsWith(files[i], ".pyc") && Decompiled(tools.pycdc(files[i]))
        && PreparedDecompiled(tools).value == Take(tools.pycdc(files[i]).stdout, 10000);
      RecordedFilesMembers(tools.extraction.walked);
      assert files[i] in files;
    }
    if !tools.mentionsPyInstaller {
      assert [] + UrlsFound(PreparedStrings(tools.stringsRun), tools.urlsIn) + [] == UrlsFound(PreparedStrings(tools.stringsRun), tools.urlsIn);
      assert [] + CommandsFound(PreparedStrings(tools.stringsRun), tools.isCommand) + []
          == CommandsFound(PreparedStrings(tools.stringsRun), tools.isCommand);
    }
  }

  /** The `result` dictionary of `analyze_executable`, with the lists of `result['analysis']` as fields. */
  class AnalysisResult {
    var filename: string
    var size: nat
    var isPython: bool
    var strings: seq<string>
    var urls: seq<string>
    var commands: seq<string>
    var behavior: seq<string>
    var decompiled: Option<string>
    var extractedFiles: seq<string>
    var warnings: seq<string>

    constructor (filename: string, size: nat)
      ensures this.filename == filename && this.size == size && !isPython
      ensures strings == [] && urls == [] && commands == [] && behavior == []
      ensures decompiled == None && extractedFiles == [] && warnings == []
    {
      this.filename, this.size, isPython := filename, size, false;
      strings, urls, commands, behavior := [], [], [], [];
      decompiled, extractedFiles, warnings := None, [], [];
    }

    /** `extract_pyinstaller`: records the extracted files with the listed suffixes, or a warning. */
    method ExtractPyInstaller(extraction: Extraction)
      modifies this`extractedFiles, this`warnings
      ensures extraction.Extracted? ==>
        extractedFiles == old(extractedFiles) + RecordedFiles(extraction.walked) && warnings == old(warnings)
      ensures extraction.ExtractionTimedOut? ==>
        extractedFiles == old(extractedFiles) && warnings == old(warnings) + ["Extraction timed out"]
      ensures extraction.ExtractionFailed? ==>
        extractedFiles == old(extractedFiles) && warnings == old(warnings) + ["Extraction failed: " + extraction.message]
    {
      match extraction {
        case Extracted(walked) =>
          for k := 0 to |walked|
            invariant extractedFiles == old(extractedFiles) + RecordedFiles(walked[..k])
            invariant warnings == old(warnings)
          {
            RecordedFilesSnoc(walked, k);
            if RecordedFile(walked[k]) {
              extractedFiles := extractedFiles + [walked[k]];
            }
          }
          assert walked[..|walked|] == walked;
        case ExtractionTimedOut =>
          warnings := warnings + ["Extraction timed out"];
        case ExtractionFailed(message) =>
          warnings := warnings + ["Extraction failed: " + message];
      }
    }

    /** `decompile_pyc_files`: tries the `.pyc` files in order and stops at the first that decompiles. */
    method DecompilePycFiles(pycdc: string -> PycdcRun)
      modifies this`decompiled, this`warnings
      ensures var (added, text) := DecompileScan(extractedFiles, pycdc);
        warnings == old(warnings) + added && decompiled == (if text.Some? then text else old(decompiled))
    {
      var k := 0;
      while k < |extractedFiles|
        invariant 0 <= k <= |extractedFiles|
        invariant decompiled == old(decompiled)
        invariant |old(warnings)| <= |warnings| && warnings[..|old(warnings)|] == old(warnings)
        invariant DecompileScan(extractedFiles, pycdc).0 == warnings[|old(warnings)|..] + DecompileScan(extractedFiles[k..], pycdc).0
        invariant DecompileScan(extractedFiles, pycdc).1 == DecompileScan(extractedFiles[k..], pycdc).1
      {
        var file := extractedFiles[k];
        assert extractedFiles[k..][0] == file && extractedFiles[k..][1..] == extractedFiles[k + 1..];
        if EndsWith(file, ".pyc") {
          var run := pycdc(file);
          if Decompiled(run) {
            decompiled := Some(Take(run.stdout, 10000));
            assert warnings == old(warnings) + warnings[|old(warnings)|..];
            return;
          }
          warnings := warnings + DecompileWarning(file, run);
        }
        k := k + 1;
      }
      assert warnings == old(warnings) + warnings[|old(warnings)|..];
    }

    /** The PyInstaller branch of `analyze_executable`: mark as Python, unpack, then decompile. */
    method UnpackPyInstaller(tools: Tools)
      requires extractedFiles == [] && decompiled == None
      modifies this`isPython, this`extractedFiles, this`decompiled, this`warnings
      ensures isPython
      ensures extractedFiles == ExtractionFiles(tools.extraction)
      ensures decompiled == DecompileScan(extractedFiles, tools.pycdc).1
      ensures warnings == old(warnings) + ExtractionWarnings(tools.extraction) + DecompileScan(extractedFiles, tools.pycdc).0
    {
      isPython := true;
      ExtractPyInstaller(tools.extraction);
      DecompilePycFiles(tools.pycdc);
    }

    /** The steps of `analyze_executable` before the scan, on a fresh result. */
    method Prepare(tools: Tools)
      requires !isPython && strings == [] && extractedFiles == [] && decompiled == None
      modifies this`isPython, this`extractedFiles, this`decompiled, this`warnings, this`strings
      ensures isPython == tools.mentionsPyInstaller
      ensures extractedFiles == PreparedFiles(tools) && decompiled == PreparedDecompiled(tools)
      ensures strings == PreparedStrings(tools.stringsRun)
      ensures warnings == old(warnings) + PreparedWarnings(tools)
    {
      ghost var before := warnings;
      if tools.mentionsPyInstaller {
        UnpackPyInstaller(tools);
        assert warnings == before + PreparedWarnings(tools)[..|warnings| - |before|];
      } else {
        assert warnings == before + PreparedWarnings(tools)[..0];
      }
      ExtractStrings(tools.stringsRun);
    }

    /** `extract_strings`: replaces the strings on a zero exit, records a warning if the run raised. */
    method ExtractStrings(run: StringsRun)
      modifies this`strings, this`warnings
      ensures run.StringsExited? && run.returncode == 0 ==> strings == ExtractedStrings(run.lines) && warnings == old(warnings)
      ensures run.StringsExited? && run.returncode != 0 ==> strings == old(strings) && warnings == old(warnings)
      ensures run.StringsRaised? ==> strings == old(strings) && warnings == old(warnings) + ["Strings extraction failed: " + run.message]
      ensures warnings == old(warnings) + StringsWarnings(run)
      ensures old(strings) == [] ==> strings == PreparedStrings(run)
    {
      match run {
        case StringsExited(returncode, lines) =>
          if returncode == 0 {
            strings := ExtractedStrings(lines);
          }
        case StringsRaised(message) =>
          warnings := warnings + ["Strings extraction failed: " + message];
      }
    }

    /** The inner loop of the scan: one behaviour entry per suspicious pattern found in `s`. */
    static method BehaviorHits(s: string) returns (hits: seq<string>)
      ensures hits == PatternHits(s, SuspiciousPatterns)
    {
      hits := [];
      for j := 0 to |SuspiciousPatterns|
        invariant hits == PatternHits(s, SuspiciousPatterns[..j])
      {
        var (pattern, desc) := SuspiciousPatterns[j];
        assert SuspiciousPatterns[..j + 1][..j] == SuspiciousPatterns[..j];
        if Contains(Lower(s), pattern) {
          hits := hits + [desc + ": " + Take(s, 300)];
        }
      }
      assert SuspiciousPatterns[..|SuspiciousPatterns|] == SuspiciousPatterns;
    }

    /** The loop over `strings` in `find_urls_and_commands`, before the decompiled code is searched. */
    method ScanStrings(urlsIn: string -> seq<string>, isCommand: string -> bool)
      modifies this`urls, this`commands, this`behavior
      ensures urls == old(urls) + UrlsFound(strings, urlsIn)
      ensures commands == old(commands) + CommandsFound(strings, isCommand)
      ensures behavior == old(behavior) + BehaviorFound(strings)
    {
      var ss := strings;
      var foundUrls, foundCommands, foundBehavior := [], [], [];
      for k := 0 to |ss|
        invariant foundUrls == UrlsFound(ss[..k], urlsIn)
        invariant foundCommands == CommandsFound(ss[..k], isCommand)
        invariant foundBehavior == BehaviorFound(ss[..k])
        invariant urls == old(urls) && commands == old(commands) && behavior == old(behavior)
      {
        var s := ss[k];
        ScanSnoc(ss, k, urlsIn, isCommand);
        foundUrls := foundUrls + KeptUrls(urlsIn(s));
        if isCommand(s) {
          foundCommands := foundCommands + [Take(s, 300)];
        }
        var hits := BehaviorHits(s);
        foundBehavior := foundBehavior + hits;
      }
      assert ss[..|ss|] == ss;
      urls := urls + foundUrls;
      commands := commands + foundCommands;
      behavior := behavior + foundBehavior;
    }

    /** `find_urls_and_commands`: the scan, the decompiled-code additions, then the final normalisation. */
    method FindUrlsAndCommands(tools: Tools)
      modifies this`urls, this`commands, this`behavior
      ensures urls == IndicatorUrls(old(urls), strings, decompiled, tools)
      ensures commands == IndicatorCommands(old(commands), strings, decompiled, tools)
      ensures behavior == IndicatorBehavior(old(behavior), strings, decompiled, tools)
      ensures StrictlySorted(urls) && |urls| <= 100
      ensures StrictlySorted(commands) && |commands| <= 100
      ensures StrictlySorted(behavior) && |behavior| <= 100
    {
      ScanStrings(tools.urlsIn, tools.isCommand);
      AddDecompiledFindings(tools);
      Normalise();
    }

    /** The search of the decompiled code, when there is some: the oracles' findings are appended. */
    method AddDecompiledFindings(tools: Tools)
      modifies this`urls, this`commands, this`behavior
      ensures urls == old(urls) + DecompiledUrls(decompiled, tools)
      ensures commands == old(commands) + DecompiledCommands(decompiled, tools)
      ensures behavior == old(behavior) + DecompiledBehavior(decompiled, tools)
    {
      if Truthy(decompiled) {
        urls := urls + tools.decompiledUrls(decompiled.value);
        commands := commands + tools.decompiledCommands(decompiled.value);
        behavior := behavior + DecompiledHits(decompiled.value, Lower(decompiled.value), SuspiciousPatterns);
      } else {
        assert urls == urls + [] && commands == commands + [] && behavior == behavior + [];
      }
    }

    /** The de-duplicating reassignments that close `find_urls_and_commands`. */
    method Normalise()
      modifies this`urls, this`commands, this`behavior
      ensures urls == FinalUrls(old(urls)) && commands == FinalCommands(old(commands)) && behavior == FinalBehavior(old(behavior))
    {
      urls := FinalUrls(urls);
      commands := FinalCommands(commands);
      behavior := FinalBehavior(behavior);
    }
  }

  /** One more string extends each scan result by that string's own contribution. */
  lemma ScanSnoc(ss: seq<string>, k: nat, urlsIn: string -> seq<string>, isCommand: string -> bool)
    requires k < |ss|
    ensures UrlsFound(ss[..k + 1], urlsIn) == UrlsFound(ss[..k], urlsIn) + KeptUrls(urlsIn(ss[k]))
    ensures CommandsFound(ss[..k + 1], isCommand) == CommandsFound(ss[..k], isCommand) + (if isCommand(ss[k]) then [Take(ss[k], 300)] else [])
    ensures BehaviorFound(ss[..k + 1]) == BehaviorFound(ss[..k]) + PatternHits(ss[k], SuspiciousPatterns)
  {
    assert ss[..k + 1][..k] == ss[..k];
  }

  lemma RecordedFilesSnoc(walked: seq<string>, k: nat)
    requires k < |walked|
    ensures RecordedFiles(walked[..k + 1]) == RecordedFiles(walked[..k]) + (if RecordedFile(walked[k]) then [walked[k]] else [])
  {
    RecordedFilesAppend(walked[..k], [walked[k]]);
    assert walked[..k] + [walked[k]] == walked[..k + 1];
  }

  lemma {:induction false} RecordedFilesAppend(a: seq<string>, b: seq<string>)
    ensures RecordedFiles(a + b) == RecordedFiles(a) + RecordedFiles(b)
  {
    if |a| > 0 {
      assert (a + b)[1..] == a[1..] + b;
      RecordedFilesAppend(a[1..], b);
    } else {
      assert a + b == b;
    }
  }

  /**
   * `analyze_executable`: the PyInstaller steps only when `strings` mentions PyInstaller, then the
   * string extraction and the scan, always.
   */
  method AnalyzeExecutable(filename: string, size: nat, tools: Tools) returns (r: AnalysisResult)
    ensures fresh(r) && r.filename == filename && r.size == size
    ensures r.isPython == tools.mentionsPyInstaller
    ensures r.strings == PreparedStrings(tools.stringsRun)
    ensures r.extractedFiles == PreparedFiles(tools) && r.decompiled == PreparedDecompiled(tools)
    ensures r.warnings == PreparedWarnings(tools)
    ensures r.urls == IndicatorUrls([], PreparedStrings(tools.stringsRun), PreparedDecompiled(tools), tools)
    ensures r.commands == IndicatorCommands([], PreparedStrings(tools.stringsRun), PreparedDecompiled(tools), tools)
    ensures r.behavior == IndicatorBehavior([], PreparedStrings(tools.stringsRun), PreparedDecompiled(tools), tools)
  {
    r := PreparedResult(filename, size, tools);
    r.FindUrlsAndCommands(tools);
  }

  /** The first half of `analyze_executable`: a new result, unpacked when marked, with its strings. */
  method PreparedResult(filename: string, size: nat, tools: Tools) returns (r: AnalysisResult)
    ensures fresh(r) && r.filename == filename && r.size == size
    ensures r.isPython == tools.mentionsPyInstaller
    ensures r.strings == PreparedStrings(tools.stringsRun)
    ensures r.extractedFiles == PreparedFiles(tools) && r.decompiled == PreparedDecompiled(tools)
    ensures r.warnings == PreparedWarnings(tools)
    ensures r.urls == [] && r.commands == [] && r.behavior == []
  {
    r := new AnalysisResult(filename, size);
    r.Prepare(tools);
  }
}
