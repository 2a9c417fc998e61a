/**
 * `LunaDeobf` of app/methods/luna.py: picks the bundle's main script and looks in its raw bytes for
 * a run of ASCII text that holds a Discord webhook URL.
 */
module Luna {
  import opened Common
  import opened Text

  const Marker: string := "discord.com/api/webhooks"

  predicate Ascii(b: bv8)
  {
    b < 0x80
  }

  /** The length of the run of bytes below 0x80 that starts at `j`. */
  function AsciiRun(s: seq<bv8>, j: nat): (n: nat)
    requires j <= |s|
    ensures j + n <= |s|
    decreases |s| - j
  {
    if j == |s| || !Ascii(s[j]) then 0 else 1 + AsciiRun(s, j + 1)
  }

  lemma {:induction false} AsciiRunAll(s: seq<bv8>, j: nat)
    requires j <= |s|
    ensures forall k | j <= k < j + AsciiRun(s, j) :: Ascii(s[k])
    decreases |s| - j
  {
    if j < |s| && Ascii(s[j]) {
      AsciiRunAll(s, j + 1);
    }
  }

  /**
   * What `re.findall(rb'[\x00-\x7F]{30,100}', content)` lists from position `p` on: a match is
   * tried at each position in turn; where at least 30 ASCII bytes follow it takes as many as it
   * can, up to 100, and the search resumes after it.
   */
  function Chunks(s: seq<bv8>, p: nat): seq<seq<bv8>>
    requires p <= |s|
    decreases |s| - p
  {
    if p == |s| then []
    else if AsciiRun(s, p) >= 30 then [s[p..p + ChunkLen(s, p)]] + Chunks(s, p + ChunkLen(s, p))
    else Chunks(s, p + 1)
  }

  /** The length of the match taken at `q`: the ASCII run there, capped at 100. */
  function ChunkLen(s: seq<bv8>, q: nat): (n: nat)
    requires q <= |s|
    ensures q + n <= |s|
  {
    var run := AsciiRun(s, q);
    if run < 100 then run else 100
  }

  /** The positions at which the matches of `Chunks(s, p)` start. */
  function ChunkStarts(s: seq<bv8>, p: nat): (r: seq<nat>)
    requires p <= |s|
    ensures forall i | 0 <= i < |r| :: p <= r[i] < |s|
    decreases |s| - p
  {
    if p == |s| then []
    else if AsciiRun(s, p) >= 30 then [p] + ChunkStarts(s, p + ChunkLen(s, p))
    else ChunkStarts(s, p + 1)
  }

  /** The run stops at the end of the content or at a byte of 0x80 or more. */
  lemma {:induction false} AsciiRunEnd(s: seq<bv8>, j: nat)
    requires j <= |s|
    ensures j + AsciiRun(s, j) == |s| || !Ascii(s[j + AsciiRun(s, j)])
    decreases |s| - j
  {
    if j < |s| && Ascii(s[j]) {
      AsciiRunEnd(s, j + 1);
    }
  }

  lemma {:induction false} ChunksCount(s: seq<bv8>, p: nat)
    requires p <= |s|
    ensures |Chunks(s, p)| == |ChunkStarts(s, p)|
    decreases |s| - p
  {
    if p < |s| {
      if AsciiRun(s, p) >= 30 {
        ChunksCount(s, p + ChunkLen(s, p));
      } else {
        ChunksCount(s, p + 1);
      }
    }
  }

  lemma {:induction false} ChunkAt(s: seq<bv8>, p: nat, i: nat)
    requires p <= |s| && i < |ChunkStarts(s, p)|
    ensures |Chunks(s, p)| == |ChunkStarts(s, p)|
    ensures var q := ChunkStarts(s, p)[i];
      AsciiRun(s, q) >= 30 && Chunks(s, p)[i] == s[q..q + ChunkLen(s, q)]
    decreases |s| - p
  {
    ChunksCount(s, p);
    if AsciiRun(s, p) >= 30 {
      var n := ChunkLen(s, p);
      assert ChunkStarts(s, p) == [p] + ChunkStarts(s, p + n);
      assert Chunks(s, p) == [s[p..p + n]] + Chunks(s, p + n);
      if i > 0 {
        ChunkAt(s, p + n, i - 1);
      }
    } else {
      ChunkAt(s, p + 1, i);
    }
  }

  /**
   * The i-th chunk is the slice at the i-th start, where at least 30 ASCII bytes follow, and it is
   * as long as the run there allows, up to 100 bytes.
   */
  lemma ChunksAtStarts(s: seq<bv8>, p: nat)
    requires p <= |s|
    ensures |Chunks(s, p)| == |ChunkStarts(s, p)|
    ensures forall i | 0 <= i < |ChunkStarts(s, p)| ::
      var q := ChunkStarts(s, p)[i];
      p <= q < |s| && AsciiRun(s, q) >= 30 && Chunks(s, p)[i] == s[q..q + ChunkLen(s, q)]
  {
    ChunksCount(s, p);
    forall i | 0 <= i < |ChunkStarts(s, p)|
      ensures var q := ChunkStarts(s, p)[i];
        AsciiRun(s, q) >= 30 && Chunks(s, p)[i] == s[q..q + ChunkLen(s, q)]
    {
      ChunkAt(s, p, i);
    }
  }

  /** A match shorter than 100 bytes ends at the end of the content or before a byte of 0x80 or more. */
  lemma ChunkEnd(s: seq<bv8>, q: nat)
    requires q <= |s| && ChunkLen(s, q) < 100
    ensures q + ChunkLen(s, q) == |s| || !Ascii(s[q + ChunkLen(s, q)])
  {
    AsciiRunEnd(s, q);
  }

  /** The matches are taken left to right without overlap: each starts at or after the end of the one before. */
  lemma {:induction false} ChunksOrdered(s: seq<bv8>, p: nat)
    requires p <= |s|
    ensures forall i | 0 <= i < |ChunkStarts(s, p)| - 1 ::
      ChunkStarts(s, p)[i] + ChunkLen(s, ChunkStarts(s, p)[i]) <= ChunkStarts(s, p)[i + 1]
    decreases |s| - p
  {
    if p < |s| {
      if AsciiRun(s, p) >= 30 {
        var n := ChunkLen(s, p);
        ChunksOrdered(s, p + n);
        var starts, rest := ChunkStarts(s, p), ChunkStarts(s, p + n);
        assert starts == [p] + rest;
        forall i | 0 <= i < |starts| - 1
          ensures starts[i] + ChunkLen(s, starts[i]) <= starts[i + 1]
        {
          assert starts[i + 1] == rest[i];
          if i > 0 {
            assert starts[i] == rest[i - 1];
          }
        }
      } else {
        ChunksOrdered(s, p + 1);
      }
    }
  }

  /**
   * No match is skipped: every position at or after `p` followed by at least 30 ASCII bytes lies
   * inside one of the chunks.
   */
  lemma {:induction false} ChunksCover(s: seq<bv8>, p: nat, q: nat)
    requires p <= q < |s| && AsciiRun(s, q) >= 30
    ensures exists i | 0 <= i < |ChunkStarts(s, p)| ::
      ChunkStarts(s, p)[i] <= q < ChunkStarts(s, p)[i] + ChunkLen(s, ChunkStarts(s, p)[i])
    decreases |s| - p
  {
    var starts := ChunkStarts(s, p);
    if AsciiRun(s, p) >= 30 {
      var n := ChunkLen(s, p);
      assert starts == [p] + ChunkStarts(s, p + n);
      if q < p + n {
        assert starts[0] <= q < starts[0] + ChunkLen(s, starts[0]);
      } else {
        ChunksCover(s, p + n, q);
        var i :| 0 <= i < |ChunkStarts(s, p + n)|
          && ChunkStarts(s, p + n)[i] <= q < ChunkStarts(s, p + n)[i] + ChunkLen(s, ChunkStarts(s, p + n)[i]);
        assert starts[i + 1] == ChunkStarts(s, p + n)[i];
      }
    } else {
      ChunksCover(s, p + 1, q);
    }
  }

  /** `c` lies in `s` at `q`. */
  predicate SliceAt(s: seq<bv8>, c: seq<bv8>, q: int)
  {
    0 <= q && q + |c| <= |s| && s[q..q + |c|] == c
  }

  /** A chunk is 30 to 100 ASCII bytes lying in `s` at or after `p`. */
  predicate ChunkOk(s: seq<bv8>, p: int, c: seq<bv8>)
  {
    30 <= |c| <= 100 && (forall k | 0 <= k < |c| :: Ascii(c[k])) && exists q | p <= q <= |s| :: SliceAt(s, c, q)
  }

  lemma ChunkOkWeaken(s: seq<bv8>, p: int, p': int, c: seq<bv8>)
    requires p <= p' && ChunkOk(s, p', c)
    ensures ChunkOk(s, p, c)
  {
    var q :| p' <= q <= |s| && SliceAt(s, c, q);
    assert p <= q;
  }

  /** Every chunk is 30 to 100 ASCII bytes lying in the content at or after `p`. */
  lemma {:induction false} ChunksShape(s: seq<bv8>, p: nat)
    requires p <= |s|
    ensures forall c | c in Chunks(s, p) :: ChunkOk(s, p, c)
    decreases |s| - p
  {
    if p < |s| {
      if AsciiRun(s, p) >= 30 {
        var n := ChunkLen(s, p);
        ChunksShape(s, p + n);
        AsciiRunAll(s, p);
        var first := s[p..p + n];
        assert SliceAt(s, first, p);
        assert ChunkOk(s, p, first);
        forall c | c in Chunks(s, p + n)
          ensures ChunkOk(s, p, c)
        {
          ChunkOkWeaken(s, p, p + n, c);
        }
        assert Chunks(s, p) == [first] + Chunks(s, p + n);
      } else {
        ChunksShape(s, p + 1);
        forall c | c in Chunks(s, p + 1)
          ensures ChunkOk(s, p, c)
        {
          ChunkOkWeaken(s, p, p + 1, c);
        }
        assert Chunks(s, p) == Chunks(s, p + 1);
      }
    }
  }

  /** `match.decode('utf-8')`, which for ASCII bytes maps each byte to its character. */
  function Decode(c: seq<bv8>): (r: string)
    ensures |r| == |c|
  {
    seq(|c|, i requires 0 <= i < |c| => (c[i] as int) as char)
  }

  /** The test a chunk must pass: it contains `discord`, then, decoded, the webhook path. */
  predicate Hit(c: seq<bv8>)
  {
    Contains(Decode(c), "discord") && Contains(Decode(c), Marker)
  }

  /** The first chunk passing the test, decoded. */
  function FirstHit(chunks: seq<seq<bv8>>): Option<string>
  {
    if |chunks| == 0 then None
    else if Hit(chunks[0]) then Some(Decode(chunks[0]))
    else FirstHit(chunks[1..])
  }

  lemma ContainsPrefix(s: string, long: string, short: string)
    requires short <= long && Contains(s, long)
    ensures Contains(s, short)
  {
    var i :| 0 <= i <= |s| - |long| && OccursAt(s, long, i);
    assert s[i..i + |short|] == s[i..i + |long|][..|short|];
    assert OccursAt(s, short, i);
  }

  /** The byte test for `discord` is implied by the webhook test, so only the latter decides. */
  lemma HitIsMarker(c: seq<bv8>)
    ensures Hit(c) <==> Contains(Decode(c), Marker)
  {
    if Contains(Decode(c), Marker) {
      assert "discord" <= Marker;
      ContainsPrefix(Decode(c), Marker, "discord");
    }
  }

  /**
   * `_extract_luna_webhook`: any result is the decoded text of the first chunk that holds the
   * webhook path; it is 30 to 100 ASCII characters taken from the content.
   */
  lemma {:induction false} FirstHitSpec(chunks: seq<seq<bv8>>)
    ensures FirstHit(chunks).None? <==> forall i | 0 <= i < |chunks| :: !Hit(chunks[i])
    ensures FirstHit(chunks).Some? ==>
      exists i | 0 <= i < |chunks| :: Hit(chunks[i]) && FirstHit(chunks).value == Decode(chunks[i])
        && forall j | 0 <= j < i :: !Hit(chunks[j])
  {
    if |chunks| > 0 && !Hit(chunks[0]) {
      FirstHitSpec(chunks[1..]);
      if FirstHit(chunks).Some? {
        var i :| 0 <= i < |chunks[1..]| && Hit(chunks[1..][i]) && FirstHit(chunks[1..]).value == Decode(chunks[1..][i])
          && forall j | 0 <= j < i :: !Hit(chunks[1..][j]);
        assert chunks[i + 1] == chunks[1..][i];
        assert forall j | 1 <= j < i + 1 :: chunks[j] == chunks[1..][j - 1];
      } else {
        assert forall i | 1 <= i < |chunks| :: chunks[i] == chunks[1..][i - 1];
      }
    }
  }

  /** The bytes of `content` at `q`, decoded, are `w`. */
  predicate DecodedAt(content: seq<bv8>, w: string, q: int)
  {
    0 <= q && q + |w| <= |content| && Decode(content[q..q + |w|]) == w
  }

  /** A result is 30 to 100 characters, holds the webhook path and is the decoding of bytes of the content. */
  lemma WebhookFromContent(content: seq<bv8>)
    ensures FirstHit(Chunks(content, 0)).Some? ==>
      var w := FirstHit(Chunks(content, 0)).value;
      30 <= |w| <= 100 && Contains(w, Marker) && exists q :: DecodedAt(content, w, q)
  {
    var chunks := Chunks(content, 0);
    FirstHitSpec(chunks);
    if FirstHit(chunks).Some? {
      ChunksShape(content, 0);
      var i :| 0 <= i < |chunks| && Hit(chunks[i]) && FirstHit(chunks).value == Decode(chunks[i]);
      assert chunks[i] in chunks;
      var c := chunks[i];
      assert ChunkOk(content, 0, c);
      var q :| 0 <= q <= |content| && SliceAt(content, c, q);
      assert |Decode(c)| == |c| && content[q..q + |c|] == c;
      assert DecodedAt(content, Decode(c), q);
    }
  }

  /** The name of the first entry whose lower-cased name contains `main`. */
  function MainScript(entries: seq<string>): Option<string>
  {
    if |entries| == 0 then None
    else if Contains(Lower(entries[0]), "main") then Some(entries[0])
    else MainScript(entries[1..])
  }

  class LunaDeobf {
    const extractionDir: string
    const entries: seq<string>

    constructor (extractionDir: string, entries: seq<string>)
      ensures this.extractionDir == extractionDir && this.entries == entries
    {
      this.extractionDir := extractionDir;
      this.entries := entries;
    }

    /** `_extract_luna_webhook`: the loop over the chunks that returns the first hit. */
    static method ExtractLunaWebhook(content: seq<bv8>) returns (r: Option<string>)
      ensures r == FirstHit(Chunks(content, 0))
    {
      var matches := Chunks(content, 0);
      for k := 0 to |matches|
        invariant FirstHit(matches) == FirstHit(matches[k..])
      {
        assert matches[k..][0] == matches[k] && matches[k..][1..] == matches[k + 1..];
        var decoded := Decode(matches[k]);
        if Contains(decoded, "discord") {
          if Contains(decoded, Marker) {
            return Some(decoded);
          }
        }
      }
      return None;
    }

    /**
     * `Deobfuscate`: the first entry naming `main` is read (`read` gives its bytes, or None when
     * opening it raises) and searched; no other entry is read.
     */
    method Deobfuscate(read: string -> Option<seq<bv8>>) returns (r: Option<string>)
      ensures MainScript(entries).None? ==> r == None
      ensures MainScript(entries).Some? && read(MainScript(entries).value).None? ==> r == None
      ensures MainScript(entries).Some? && read(MainScript(entries).value).Some? ==>
        r == FirstHit(Chunks(read(MainScript(entries).value).value, 0))
    {
      var mainScript: Option<string> := None;
      var k := 0;
      while k < |entries|
        invariant 0 <= k <= |entries|
        invariant mainScript.None? ==> MainScript(entries) == MainScript(entries[k..])
        invariant mainScript.Some? ==> MainScript(entries) == mainScript
        decreases |entries| - k, if mainScript.None? then 1 else 0
      {
        assert entries[k..][0] == entries[k] && entries[k..][1..] == entries[k + 1..];
        if Contains(Lower(entries[k]), "main") {
          mainScript := Some(entries[k]);
          break;
        }
        k := k + 1;
      }
      if mainScript.None? {
        assert entries[k..] == [];
        return None;
      }
      match read(mainScript.value) {
        case None => r := None;
        case Some(content) => r := ExtractLunaWebhook(content);
      }
    }
  }

  /** The selected script is the first entry naming `main`, and there is none exactly when no entry names it. */
  lemma {:induction false} MainScriptFirst(entries: seq<string>)
    ensures MainScript(entries).None? <==> forall k | 0 <= k < |entries| :: !Contains(Lower(entries[k]), "main")
    ensures MainScript(entries).Some? ==>
      exists k | 0 <= k < |entries| :: entries[k] == MainScript(entries).value && Contains(Lower(entries[k]), "main")
        && forall l | 0 <= l < k :: !Contains(Lower(entries[l]), "main")
  {
    if |entries| > 0 && !Contains(Lower(entries[0]), "main") {
      MainScriptFirst(entries[1..]);
      assert forall k | 1 <= k < |entries| :: entries[k] == entries[1..][k - 1];
      if MainScript(entries).Some? {
        var k :| 0 <= k < |entries[1..]| && entries[1..][k] == MainScript(entries).value
          && Contains(Lower(entries[1..][k]), "main") && forall l | 0 <= l < k :: !Contains(Lower(entries[1..][l]), "main");
        assert entries[k + 1] == entries[1..][k];
      }
    }
  }
}
