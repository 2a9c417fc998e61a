/**
 * `NotObfuscated` of app/methods/notobf.py: finds the first Discord webhook URL in the plain
 * Python files of an extracted bundle.
 */
module NotObf {
  import opened Common
  import opened Text

  const WebhookPrefix: string := "https://discord.com/api/webhooks/"

  predicate Digit(c: char)
  {
    '0' <= c <= '9'
  }

  /** The characters of `[a-zA-Z0-9_-]`. */
  predicate TokenChar(c: char)
  {
    'a' <= c <= 'z' || 'A' <= c <= 'Z' || '0' <= c <= '9' || c == '_' || c == '-'
  }

  /** The length of the run of digits that starts at `j`. */
  function DigitRun(s: string, j: nat): (n: nat)
    requires j <= |s|
    ensures j + n <= |s|
    decreases |s| - j
  {
    if j == |s| || !Digit(s[j]) then 0 else 1 + DigitRun(s, j + 1)
  }

  /** The run is maximal: every character in it qualifies and the one after it, if any, does not. */
  lemma {:induction false} DigitRunMaximal(s: string, j: nat)
    requires j <= |s|
    ensures forall k | j <= k < j + DigitRun(s, j) :: Digit(s[k])
    ensures j + DigitRun(s, j) == |s| || !Digit(s[j + DigitRun(s, j)])
    decreases |s| - j
  {
    if j < |s| && Digit(s[j]) {
      DigitRunMaximal(s, j + 1);
    }
  }

  /** The length of the run of token characters that starts at `j`. */
  function TokenRun(s: string, j: nat): (n: nat)
    requires j <= |s|
    ensures j + n <= |s|
    decreases |s| - j
  {
    if j == |s| || !TokenChar(s[j]) then 0 else 1 + TokenRun(s, j + 1)
  }

  /** The run is maximal: every character in it qualifies and the one after it, if any, does not. */
  lemma {:induction false} TokenRunMaximal(s: string, j: nat)
    requires j <= |s|
    ensures forall k | j <= k < j + TokenRun(s, j) :: TokenChar(s[k])
    ensures j + TokenRun(s, j) == |s| || !TokenChar(s[j + TokenRun(s, j)])
    decreases |s| - j
  {
    if j < |s| && TokenChar(s[j]) {
      TokenRunMaximal(s, j + 1);
    }
  }

  /**
   * The length of the match of `https://discord\.com/api/webhooks/\d+/[a-zA-Z0-9_-]+` at `i`, if
   * one starts there. The digit run must be followed by `/`, so backtracking into it never helps
   * and both runs are taken whole.
   */
  function MatchAt(s: string, i: nat, prefix: string): Option<nat>
    requires i <= |s|
  {
    if !OccursAt(s, prefix, i) then None
    else
      var d := DigitRun(s, i + |prefix|);
      var slash := i + |prefix| + d;
      if d == 0 || slash == |s| || s[slash] != '/' then None
      else
        var t := TokenRun(s, slash + 1);
        if t == 0 then None else Some(|prefix| + d + 1 + t)
  }

  /** The leftmost match at or after `i`: its start and its text. */
  function FindFrom(s: string, i: nat, prefix: string): Option<(nat, string)>
    requires i <= |s|
    decreases |s| - i
  {
    match MatchAt(s, i, prefix)
    case Some(n) => Some((i, s[i..i + n]))
    case None => if i == |s| then None else FindFrom(s, i + 1, prefix)
  }

  /** `_find_webhook`: the first of the matches `re.findall` lists, which is the leftmost one. */
  function FindWebhook(content: string): Option<string>
  {
    match FindFrom(content, 0, WebhookPrefix)
    case Some((_, w)) => Some(w)
    case None => None
  }

  /**
   * The shape the pattern describes: the prefix, one or more digits, a slash, and one or more
   * token characters.
   */
  predicate WebhookShape(w: string, prefix: string)
  {
    StartsWith(w, prefix)
    && exists k | |prefix| < k < |w| - 1 ::
         (forall m | |prefix| <= m < k :: Digit(w[m]))
         && w[k] == '/'
         && (forall m | k < m < |w| :: TokenChar(w[m]))
  }

  lemma ShapeWitness(w: string, k: int, prefix: string)
    requires StartsWith(w, prefix) && |prefix| < k < |w| - 1
    requires forall m | |prefix| <= m < k :: Digit(w[m])
    requires w[k] == '/'
    requires forall m | k < m < |w| :: TokenChar(w[m])
    ensures WebhookShape(w, prefix)
  {
  }

  /** A match has the pattern's shape and its token part cannot be extended. */
  lemma MatchAtShape(s: string, i: nat, prefix: string)
    requires i <= |s| && MatchAt(s, i, prefix).Some?
    ensures i + MatchAt(s, i, prefix).value <= |s|
    ensures WebhookShape(s[i..i + MatchAt(s, i, prefix).value], prefix)
    ensures i + MatchAt(s, i, prefix).value == |s| || !TokenChar(s[i + MatchAt(s, i, prefix).value])
  {
    var p := |prefix|;
    var d := DigitRun(s, i + p);
    var k := p + d;
    var t := TokenRun(s, i + k + 1);
    var n := k + 1 + t;
    assert MatchAt(s, i, prefix) == Some(n);
    DigitRunMaximal(s, i + p);
    TokenRunMaximal(s, i + k + 1);
    var w := s[i..i + n];
    assert w[..p] == s[i..i + p];
    assert StartsWith(w, prefix);
    assert w[k] == '/';
    ShapeWitness(w, k, prefix);
  }

  lemma {:induction false} FindFromLeftmost(s: string, i: nat, prefix: string)
    requires i <= |s|
    ensures FindFrom(s, i, prefix).None? <==> forall j | i <= j <= |s| :: MatchAt(s, j, prefix).None?
    ensures FindFrom(s, i, prefix).Some? ==>
      var (j, w) := FindFrom(s, i, prefix).value;
      i <= j <= |s| && MatchAt(s, j, prefix).Some? && w == s[j..j + MatchAt(s, j, prefix).value]
      && forall l | i <= l < j :: MatchAt(s, l, prefix).None?
    decreases |s| - i
  {
    var here := MatchAt(s, i, prefix);
    if here.Some? {
      assert FindFrom(s, i, prefix) == Some((i, s[i..i + here.value]));
    } else if i == |s| {
      assert FindFrom(s, i, prefix) == None;
    } else {
      assert FindFrom(s, i, prefix) == FindFrom(s, i + 1, prefix);
      FindFromLeftmost(s, i + 1, prefix);
    }
  }

  /**
   * `_find_webhook` is None iff no position starts a match; otherwise it is the match at the
   * leftmost such position, a substring of the content of the pattern's shape whose token part
   * cannot be extended.
   */
  lemma FindWebhookSpec(content: string)
    ensures FindWebhook(content).None? <==> forall j | 0 <= j <= |content| :: MatchAt(content, j, WebhookPrefix).None?
    ensures FindWebhook(content).Some? ==>
      exists j | 0 <= j <= |content| && MatchAt(content, j, WebhookPrefix).Some? ::
        FindWebhook(content).value == content[j..j + MatchAt(content, j, WebhookPrefix).value]
        && (forall l | 0 <= l < j :: MatchAt(content, l, WebhookPrefix).None?)
        && WebhookShape(FindWebhook(content).value, WebhookPrefix)
        && (j + MatchAt(content, j, WebhookPrefix).value == |content| || !TokenChar(content[j + MatchAt(content, j, WebhookPrefix).value]))
  {
    FindFromLeftmost(content, 0, WebhookPrefix);
    if FindFrom(content, 0, WebhookPrefix).Some? {
      var (j, w) := FindFrom(content, 0, WebhookPrefix).value;
      MatchAtShape(content, j, WebhookPrefix);
    }
  }

  /** The entries `Deobfuscate` opens. */
  predicate Script(entry: string)
  {
    EndsWith(entry, ".pyc") || EndsWith(entry, ".py")
  }

  /**
   * The first webhook found in the scripts among `entries`, in order; `read` gives an entry's
   * content decoded as UTF-8 ignoring errors, or None when opening it raises.
   */
  function FirstWebhook(entries: seq<string>, read: string -> Option<string>): Option<string>
  {
    if |entries| == 0 then None
    else if Script(entries[0]) && read(entries[0]).Some? && FindWebhook(read(entries[0]).value).Some? then
      FindWebhook(read(entries[0]).value)
    else FirstWebhook(entries[1..], read)
  }

  /** Whether the entry at `k` is a readable script holding a webhook. */
  predicate Hit(entries: seq<string>, read: string -> Option<string>, k: int)
    requires 0 <= k < |entries|
  {
    Script(entries[k]) && read(entries[k]).Some? && FindWebhook(read(entries[k]).value).Some?
  }

  /**
   * The search returns the webhook of the first entry that is a readable script holding one, and
   * None when no entry is.
   */
  lemma {:induction false} FirstWebhookSpec(entries: seq<string>, read: string -> Option<string>)
    ensures FirstWebhook(entries, read).None? <==> forall k | 0 <= k < |entries| :: !Hit(entries, read, k)
    ensures FirstWebhook(entries, read).Some? ==>
      exists k | 0 <= k < |entries| && Hit(entries, read, k) ::
        FirstWebhook(entries, read) == FindWebhook(read(entries[k]).value)
        && forall l | 0 <= l < k :: !Hit(entries, read, l)
  {
    if |entries| > 0 {
      var rest := entries[1..];
      FirstWebhookSpec(rest, read);
      assert forall k | 1 <= k < |entries| :: Hit(entries, read, k) == Hit(rest, read, k - 1);
      if !Hit(entries, read, 0) && FirstWebhook(entries, read).Some? {
        var k' :| 0 <= k' < |rest| && Hit(rest, read, k') && FirstWebhook(rest, read) == FindWebhook(read(rest[k']).value)
          && forall l | 0 <= l < k' :: !Hit(rest, read, l);
        assert Hit(entries, read, k' + 1);
        assert forall l | 1 <= l < k' + 1 :: !Hit(entries, read, l) by {
          forall l | 1 <= l < k' + 1 ensures !Hit(entries, read, l) {
            assert !Hit(rest, read, l - 1);
          }
        }
      }
    }
  }

  class NotObfuscated {
    const extractionDir: string
    const entries: seq<string>

    constructor (extractionDir: string, entries: seq<string>)
      ensures this.extractionDir == extractionDir && this.entries == entries
    {
      this.extractionDir := extractionDir;
      this.entries := entries;
    }

    /** `Deobfuscate`: the loop over the entries that returns the first webhook found. */
    method Deobfuscate(read: string -> Option<string>) returns (webhook: Option<string>)
      ensures webhook == FirstWebhook(entries, read)
    {
      for k := 0 to |entries|
        invariant FirstWebhook(entries, read) == FirstWebhook(entries[k..], read)
      {
        assert entries[k..][0] == entries[k] && entries[k..][1..] == entries[k + 1..];
        var entry := entries[k];
        if EndsWith(entry, ".pyc") || EndsWith(entry, ".py") {
          match read(entry) {
            case None =>
            case Some(content) =>
              var found := FindWebhook(content);
              if found.Some? {
                return found;
              }
          }
        }
      }
      return None;
    }
  }
}
