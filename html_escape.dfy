/**
 * `escapeHtml` of frontend/script.js: the one sanitisation boundary of the upload page.
 * Modelled as written, five global replacements chained with `&` first, and proved equal to
 * a character-by-character reference, safe for markup and reversible.
 */
module HtmlEscape {
  import opened Common
  import opened Text

  /** `s.replace(/c/g, rep)` for a one-character pattern. */
  function ReplaceAll(s: string, c: char, rep: string): string
  {
    if |s| == 0 then "" else (if s[0] == c then rep else [s[0]]) + ReplaceAll(s[1..], c, rep)
  }

  /** The replacement chain, in the order the source applies it. */
  function ReplaceChain(s: string): string
  {
    ReplaceAll(ReplaceAll(ReplaceAll(ReplaceAll(ReplaceAll(s, '&', "&amp;"), '<', "&lt;"), '>', "&gt;"), '"', "&quot;"), '\'', "&#039;")
  }

  /** `escapeHtml(unsafe)`: a falsy argument (absent or empty) gives the empty string. */
  function EscapeHtml(unsafe: Option<string>): string
  {
    match unsafe
    case None => ""
    case Some(s) => if s == "" then "" else ReplaceChain(s)
  }

  /** Reference definition: what each character becomes. */
  function EscapeChar(c: char): string
  {
    if c == '&' then "&amp;"
    else if c == '<' then "&lt;"
    else if c == '>' then "&gt;"
    else if c == '"' then "&quot;"
    else if c == '\'' then "&#039;"
    else [c]
  }

  /** Reference definition: every character escaped independently. */
  function EscapeEach(s: string): string
  {
    if |s| == 0 then "" else EscapeChar(s[0]) + EscapeEach(s[1..])
  }

  /** Decoding of the five entities that `escapeHtml` produces. */
  function Unescape(s: string): string
    decreases |s|
  {
    if |s| == 0 then ""
    else if StartsWith(s, "&amp;") then "&" + Unescape(s[5..])
    else if StartsWith(s, "&lt;") then "<" + Unescape(s[4..])
    else if StartsWith(s, "&gt;") then ">" + Unescape(s[4..])
    else if StartsWith(s, "&quot;") then "\"" + Unescape(s[6..])
    else if StartsWith(s, "&#039;") then "'" + Unescape(s[6..])
    else [s[0]] + Unescape(s[1..])
  }

  /** One of the five entities begins at index `i`. */
  predicate EntityAt(s: string, i: int)
  {
    OccursAt(s, "&amp;", i) || OccursAt(s, "&lt;", i) || OccursAt(s, "&gt;", i)
    || OccursAt(s, "&quot;", i) || OccursAt(s, "&#039;", i)
  }

  /** Markup-safe text: no raw `<`, `>`, `"` or `'`, and every `&` opens an entity. */
  predicate MarkupSafe(s: string)
  {
    forall i | 0 <= i < |s| ::
      s[i] != '<' && s[i] != '>' && s[i] != '"' && s[i] != '\'' && (s[i] == '&' ==> EntityAt(s, i))
  }

  lemma {:induction false} ReplaceAllAppend(a: string, b: string, c: char, rep: string)
    ensures ReplaceAll(a + b, c, rep) == ReplaceAll(a, c, rep) + ReplaceAll(b, c, rep)
  {
    if |a| > 0 {
      assert (a + b)[0] == a[0] && (a + b)[1..] == a[1..] + b;
      ReplaceAllAppend(a[1..], b, c, rep);
    } else {
      assert a + b == b;
    }
  }

  lemma {:induction false} ReplaceAllAbsent(s: string, c: char, rep: string)
    requires c !in s
    ensures ReplaceAll(s, c, rep) == s
  {
    if |s| > 0 {
      ReplaceAllAbsent(s[1..], c, rep);
    }
  }

  lemma ReplaceChainAppend(a: string, b: string)
    ensures ReplaceChain(a + b) == ReplaceChain(a) + ReplaceChain(b)
  {
    var a1, b1 := ReplaceAll(a, '&', "&amp;"), ReplaceAll(b, '&', "&amp;");
    ReplaceAllAppend(a, b, '&', "&amp;");
    var a2, b2 := ReplaceAll(a1, '<', "&lt;"), ReplaceAll(b1, '<', "&lt;");
    ReplaceAllAppend(a1, b1, '<', "&lt;");
    var a3, b3 := ReplaceAll(a2, '>', "&gt;"), ReplaceAll(b2, '>', "&gt;");
    ReplaceAllAppend(a2, b2, '>', "&gt;");
    var a4, b4 := ReplaceAll(a3, '"', "&quot;"), ReplaceAll(b3, '"', "&quot;");
    ReplaceAllAppend(a3, b3, '"', "&quot;");
    ReplaceAllAppend(a4, b4, '\'', "&#039;");
  }

  lemma ReplaceAllOne(c: char, d: char, rep: string)
    ensures ReplaceAll([c], d, rep) == if c == d then rep else [c]
  {
    assert [c][1..] == "";
  }

  /** The five steps of the chain applied to a one-character string. */
  lemma ReplaceChainChar(c: char)
    ensures ReplaceChain([c]) == EscapeChar(c)
  {
    if c == '&' { ChainAmp(); }
    else if c == '<' { ChainLt(); }
    else if c == '>' { ChainGt(); }
    else if c == '"' { ChainQuot(); }
    else if c == '\'' { ChainApos(); }
    else { ChainPlain(c); }
  }

  lemma ChainAmp()
    ensures ReplaceChain("&") == "&amp;"
  {
    var amp := "&amp;";
    assert ReplaceAll("&", '&', amp) == amp by {
      ReplaceAllOne('&', '&', amp);
    }
    assert '<' !in amp && '>' !in amp && '"' !in amp && '\'' !in amp;
    ReplaceAllAbsent(amp, '<', "&lt;");
    ReplaceAllAbsent(amp, '>', "&gt;");
    ReplaceAllAbsent(amp, '"', "&quot;");
    ReplaceAllAbsent(amp, '\'', "&#039;");
  }

  lemma ChainLt()
    ensures ReplaceChain("<") == "&lt;"
  {
    var lt := "&lt;";
    assert ReplaceAll("<", '&', "&amp;") == "<" by {
      ReplaceAllOne('<', '&', "&amp;");
    }
    assert ReplaceAll("<", '<', lt) == lt by {
      ReplaceAllOne('<', '<', lt);
    }
    assert '>' !in lt && '"' !in lt && '\'' !in lt;
    ReplaceAllAbsent(lt, '>', "&gt;");
    ReplaceAllAbsent(lt, '"', "&quot;");
    ReplaceAllAbsent(lt, '\'', "&#039;");
  }

  lemma ChainGt()
    ensures ReplaceChain(">") == "&gt;"
  {
    var gt := "&gt;";
    assert ReplaceAll(">", '&', "&amp;") == ">" by {
      ReplaceAllOne('>', '&', "&amp;");
    }
    assert ReplaceAll(">", '<', "&lt;") == ">" by {
      ReplaceAllOne('>', '<', "&lt;");
    }
    assert ReplaceAll(">", '>', gt) == gt by {
      ReplaceAllOne('>', '>', gt);
    }
    assert '"' !in gt && '\'' !in gt;
    ReplaceAllAbsent(gt, '"', "&quot;");
    ReplaceAllAbsent(gt, '\'', "&#039;");
  }

  lemma ChainQuot()
    ensures ReplaceChain("\"") == "&quot;"
  {
    var quot := "&quot;";
    assert ReplaceAll("\"", '&', "&amp;") == "\"" by {
      ReplaceAllOne('"', '&', "&amp;");
    }
    assert ReplaceAll("\"", '<', "&lt;") == "\"" by {
      ReplaceAllOne('"', '<', "&lt;");
    }
    assert ReplaceAll("\"", '>', "&gt;") == "\"" by {
      ReplaceAllOne('"', '>', "&gt;");
    }
    assert ReplaceAll("\"", '"', quot) == quot by {
      ReplaceAllOne('"', '"', quot);
    }
    assert '\'' !in quot;
    ReplaceAllAbsent(quot, '\'', "&#039;");
  }

  lemma ChainApos()
    ensures ReplaceChain("'") == "&#039;"
  {
    assert ReplaceAll("'", '&', "&amp;") == "'" by {
      ReplaceAllOne('\'', '&', "&amp;");
    }
    assert ReplaceAll("'", '<', "&lt;") == "'" by {
      ReplaceAllOne('\'', '<', "&lt;");
    }
    assert ReplaceAll("'", '>', "&gt;") == "'" by {
      ReplaceAllOne('\'', '>', "&gt;");
    }
    assert ReplaceAll("'", '"', "&quot;") == "'" by {
      ReplaceAllOne('\'', '"', "&quot;");
    }
    assert ReplaceAll("'", '\'', "&#039;") == "&#039;" by {
      ReplaceAllOne('\'', '\'', "&#039;");
    }
  }

  lemma ChainPlain(c: char)
    requires c != '&' && c != '<' && c != '>' && c != '"' && c != '\''
    ensures ReplaceChain([c]) == [c]
  {
    ReplaceAllOne(c, '&', "&amp;");
    ReplaceAllOne(c, '<', "&lt;");
    ReplaceAllOne(c, '>', "&gt;");
    ReplaceAllOne(c, '"', "&quot;");
    ReplaceAllOne(c, '\'', "&#039;");
  }

  /** The chained replacements escape each character on its own: replacing `&` first
      means no entity produced by a later step is escaped a second time. */
  lemma {:induction false} ReplaceChainIsEscapeEach(s: string)
    ensures ReplaceChain(s) == EscapeEach(s)
  {
    if |s| > 0 {
      assert s == [s[0]] + s[1..];
      ReplaceChainAppend([s[0]], s[1..]);
      ReplaceChainChar(s[0]);
      ReplaceChainIsEscapeEach(s[1..]);
    }
  }

  lemma NotStartsWith(u: string, p: string)
    requires |u| > 0 && |p| > 0 && u[0] != p[0]
    ensures !StartsWith(u, p)
  {
  }

  /** A character other than `&` decodes to itself. */
  lemma UnescapePlain(c: char, t: string)
    requires c != '&'
    ensures Unescape([c] + t) == [c] + Unescape(t)
  {
    var u := [c] + t;
    assert u[0] == c && u[1..] == t;
    NotStartsWith(u, "&amp;");
    NotStartsWith(u, "&lt;");
    NotStartsWith(u, "&gt;");
    NotStartsWith(u, "&quot;");
    NotStartsWith(u, "&#039;");
  }

  lemma UnescapeAfterEscapeChar(c: char, t: string)
    ensures Unescape(EscapeChar(c) + t) == [c] + Unescape(t)
  {
    if c == '&' {
      assert EscapeChar(c) == "&amp;";
      UnescapeAmp(t);
    } else if c == '<' {
      assert EscapeChar(c) == "&lt;";
      UnescapeLt(t);
    } else if c == '>' {
      assert EscapeChar(c) == "&gt;";
      UnescapeGt(t);
    } else if c == '"' {
      assert EscapeChar(c) == "&quot;";
      UnescapeQuot(t);
    } else if c == '\'' {
      assert EscapeChar(c) == "&#039;";
      UnescapeApos(t);
    } else {
      assert EscapeChar(c) == [c];
      UnescapePlain(c, t);
    }
  }

  lemma UnescapeAmp(t: string)
    ensures Unescape("&amp;" + t) == "&" + Unescape(t)
  {
    var u := "&amp;" + t;
    assert u[..5] == "&amp;" && u[5..] == t;
  }

  lemma UnescapeLt(t: string)
    ensures Unescape("&lt;" + t) == "<" + Unescape(t)
  {
    var u := "&lt;" + t;
    assert u[1] == 'l' && u[..4] == "&lt;" && u[4..] == t;
  }

  lemma UnescapeGt(t: string)
    ensures Unescape("&gt;" + t) == ">" + Unescape(t)
  {
    var u := "&gt;" + t;
    assert u[1] == 'g' && u[..4] == "&gt;" && u[4..] == t;
  }

  lemma UnescapeQuot(t: string)
    ensures Unescape("&quot;" + t) == "\"" + Unescape(t)
  {
    var u := "&quot;" + t;
    assert u[1] == 'q' && u[..6] == "&quot;" && u[6..] == t;
  }

  lemma UnescapeApos(t: string)
    ensures Unescape("&#039;" + t) == "'" + Unescape(t)
  {
    var u := "&#039;" + t;
    assert u[1] == '#' && u[..6] == "&#039;" && u[6..] == t;
  }

  lemma {:induction false} UnescapeEscapeEach(s: string)
    ensures Unescape(EscapeEach(s)) == s
  {
    if |s| > 0 {
      UnescapeAfterEscapeChar(s[0], EscapeEach(s[1..]));
      UnescapeEscapeEach(s[1..]);
    }
  }

  /** Decoding the five entities in the output of `escapeHtml` recovers its input. */
  lemma EscapeHtmlRoundTrip(s: string)
    ensures Unescape(EscapeHtml(Some(s))) == s
  {
    if s != "" {
      ReplaceChainIsEscapeEach(s);
      UnescapeEscapeEach(s);
    }
  }

  lemma OccursAtShift(p: string, t: string, sub: string, j: int)
    requires OccursAt(t, sub, j)
    ensures OccursAt(p + t, sub, j + |p|)
  {
    assert (p + t)[j + |p|..j + |p| + |sub|] == t[j..j + |sub|];
  }

  lemma OccursAtExtend(p: string, t: string, sub: string, j: int)
    requires OccursAt(p, sub, j)
    ensures OccursAt(p + t, sub, j)
  {
    assert (p + t)[j..j + |sub|] == p[j..j + |sub|];
  }

  lemma EntityAtExtend(a: string, b: string, i: int)
    requires EntityAt(a, i)
    ensures EntityAt(a + b, i)
  {
    if OccursAt(a, "&amp;", i) { OccursAtExtend(a, b, "&amp;", i); }
    else if OccursAt(a, "&lt;", i) { OccursAtExtend(a, b, "&lt;", i); }
    else if OccursAt(a, "&gt;", i) { OccursAtExtend(a, b, "&gt;", i); }
    else if OccursAt(a, "&quot;", i) { OccursAtExtend(a, b, "&quot;", i); }
    else { OccursAtExtend(a, b, "&#039;", i); }
  }

  lemma EntityAtShift(a: string, b: string, j: int)
    requires EntityAt(b, j)
    ensures EntityAt(a + b, j + |a|)
  {
    if OccursAt(b, "&amp;", j) { OccursAtShift(a, b, "&amp;", j); }
    else if OccursAt(b, "&lt;", j) { OccursAtShift(a, b, "&lt;", j); }
    else if OccursAt(b, "&gt;", j) { OccursAtShift(a, b, "&gt;", j); }
    else if OccursAt(b, "&quot;", j) { OccursAtShift(a, b, "&quot;", j); }
    else { OccursAtShift(a, b, "&#039;", j); }
  }

  /** Markup-safe text stays safe when joined: an entity near the seam is kept whole. */
  lemma MarkupSafeAppend(a: string, b: string)
    requires MarkupSafe(a) && MarkupSafe(b)
    ensures MarkupSafe(a + b)
  {
    var r := a + b;
    forall i | 0 <= i < |r| && r[i] == '&'
      ensures EntityAt(r, i)
    {
      if i < |a| {
        EntityAtExtend(a, b, i);
      } else {
        assert b[i - |a|] == '&';
        EntityAtShift(a, b, i - |a|);
      }
    }
  }

  lemma EntitySafe(e: string)
    requires e in ["&amp;", "&lt;", "&gt;", "&quot;", "&#039;"]
    ensures MarkupSafe(e)
  {
    assert OccursAt(e, e, 0);
  }

  lemma EscapeCharSafe(c: char)
    ensures MarkupSafe(EscapeChar(c))
  {
    if c == '&' || c == '<' || c == '>' || c == '"' || c == '\'' {
      EntitySafe(EscapeChar(c));
    }
  }

  lemma {:induction false} EscapeEachSafe(s: string)
    ensures MarkupSafe(EscapeEach(s))
  {
    if |s| > 0 {
      EscapeEachSafe(s[1..]);
      EscapeCharSafe(s[0]);
      MarkupSafeAppend(EscapeChar(s[0]), EscapeEach(s[1..]));
    }
  }

  /** `escapeHtml` output contains no raw `<`, `>`, `"`, `'`, and every `&` begins an entity. */
  lemma EscapeHtmlSafe(unsafe: Option<string>)
    ensures MarkupSafe(EscapeHtml(unsafe))
  {
    if unsafe.Some? && unsafe.value != "" {
      ReplaceChainIsEscapeEach(unsafe.value);
      EscapeEachSafe(unsafe.value);
    }
  }

  /** Text with none of the five special characters passes through unchanged. */
  lemma {:induction false} EscapePlainText(s: string)
    requires forall i | 0 <= i < |s| :: s[i] !in "&<>\"'"
    ensures EscapeHtml(Some(s)) == s
  {
    if s != "" {
      ReplaceChainIsEscapeEach(s);
      EscapeEachPlain(s);
    }
  }

  lemma {:induction false} EscapeEachPlain(s: string)
    requires forall i | 0 <= i < |s| :: s[i] !in "&<>\"'"
    ensures EscapeEach(s) == s
  {
    if |s| > 0 {
      EscapeEachPlain(s[1..]);
    }
  }
}
