/**
 Escaping text for HTML attribute values and element content, as the edit
 form does before it places stored record fields into its markup.
 */
module Html {

  /** `s` with every occurrence of `c` replaced by `rep`, like a global
      single-character regular-expression replace. */
  function ReplaceAll(s: string, c: char, rep: string): string {
    if |s| == 0 then ""
    else (if s[0] == c then rep else [s[0]]) + ReplaceAll(s[1..], c, rep)
  }

  /** The five replacements in the order the source applies them; the
      ampersand goes first so the entities added later are not re-escaped.
      Empty text gives empty text. */
  function EscapeHtml(text: string): string {
    if |text| == 0 then ""
    else
      var s1 := ReplaceAll(text, '&', "&amp;");
      var s2 := ReplaceAll(s1, '<', "&lt;");
      var s3 := ReplaceAll(s2, '>', "&gt;");
      var s4 := ReplaceAll(s3, '"', "&quot;");
      ReplaceAll(s4, '\'', "&#039;")
  }

  /** The entity for one character, or the character itself. */
  function EscapeChar(c: char): string {
    match c
    case '&' => "&amp;"
    case '<' => "&lt;"
    case '>' => "&gt;"
    case '"' => "&quot;"
    case '\'' => "&#039;"
    case _ => [c]
  }

  /** Reference definition: each character escaped on its own, in one pass. */
  function EscapeEach(s: string): string {
    if |s| == 0 then "" else EscapeChar(s[0]) + EscapeEach(s[1..])
  }

  predicate IsMarkup(c: char) {
    c == '<' || c == '>' || c == '"' || c == '\''
  }

  lemma {:induction false} ReplaceAllConcat(a: string, b: string, c: char, rep: string)
    ensures ReplaceAll(a + b, c, rep) == ReplaceAll(a, c, rep) + ReplaceAll(b, c, rep)
  {
    if |a| == 0 {
      assert a + b == b;
    } else {
      assert (a + b)[1..] == a[1..] + b;
      ReplaceAllConcat(a[1..], b, c, rep);
    }
  }

  lemma {:induction false} ReplaceAllAbsent(s: string, c: char, rep: string)
    requires c !in s
    ensures ReplaceAll(s, c, rep) == s
  {
    if |s| > 0 {
      assert s[0] != c;
      assert c !in s[1..];
      ReplaceAllAbsent(s[1..], c, rep);
    }
  }

  lemma ReplaceOne(x: char, c: char, rep: string)
    ensures ReplaceAll([x], c, rep) == if x == c then rep else [x]
  {
    assert [x][1..] == [];
  }

  /** One replacement pass applied to a character after `passes - 1` passes. */
  lemma PassStep(x: char, passes: int, c: char, rep: string)
    requires 1 <= passes <= 5
    requires c == ['&', '<', '>', '"', '\''][passes - 1]
    requires rep == ["&amp;", "&lt;", "&gt;", "&quot;", "&#039;"][passes - 1]
    ensures ReplaceAll(EscapeThrough(x, passes - 1), c, rep) == EscapeThrough(x, passes)
  {
    var before := EscapeThrough(x, passes - 1);
    if before == [x] {
      ReplaceOne(x, c, rep);
    } else {
      ReplaceAllAbsent(before, c, rep);
    }
  }

  /** The five passes applied to a single character give its entity. */
  lemma OneCharacter(c: char)
    ensures EscapeHtml([c]) == EscapeChar(c)
  {
    var e4 := ReplaceAll(ReplaceAll(ReplaceAll(ReplaceAll([c], '&', "&amp;"), '<', "&lt;"), '>', "&gt;"), '"', "&quot;");
    FourPasses(c);
    assert EscapeHtml([c]) == ReplaceAll(e4, '\'', "&#039;");
    PassStep(c, 5, '\'', "&#039;");
    assert EscapeThrough(c, 5) == EscapeChar(c);
  }

  /** The first four passes applied to a single character. */
  lemma FourPasses(c: char)
    ensures ReplaceAll(ReplaceAll(ReplaceAll(ReplaceAll([c], '&', "&amp;"), '<', "&lt;"), '>', "&gt;"), '"', "&quot;")
            == EscapeThrough(c, 4)
  {
    var e1 := ReplaceAll([c], '&', "&amp;");
    assert e1 == EscapeThrough(c, 1) by { PassStep(c, 1, '&', "&amp;"); }
    var e2 := ReplaceAll(e1, '<', "&lt;");
    assert e2 == EscapeThrough(c, 2) by { PassStep(c, 2, '<', "&lt;"); }
    var e3 := ReplaceAll(e2, '>', "&gt;");
    assert e3 == EscapeThrough(c, 3) by { PassStep(c, 3, '>', "&gt;"); }
    PassStep(c, 4, '"', "&quot;");
  }

  /** A character after the first `passes` replacements. */
  function EscapeThrough(c: char, passes: int): string {
    if c == '&' && passes >= 1 then "&amp;"
    else if c == '<' && passes >= 2 then "&lt;"
    else if c == '>' && passes >= 3 then "&gt;"
    else if c == '"' && passes >= 4 then "&quot;"
    else if c == '\'' && passes >= 5 then "&#039;"
    else [c]
  }

  /** The five successive replacements equal escaping every character once:
      no entity introduced by an earlier pass is touched by a later one. */
  lemma {:induction false} EscapeIsSinglePass(s: string)
    ensures EscapeHtml(s) == EscapeEach(s)
  {
    if |s| > 0 {
      var head, tail := [s[0]], s[1..];
      assert s == head + tail;
      var t1 := ReplaceAll(tail, '&', "&amp;");
      var t2 := ReplaceAll(t1, '<', "&lt;");
      var t3 := ReplaceAll(t2, '>', "&gt;");
      var t4 := ReplaceAll(t3, '"', "&quot;");
      var h1 := ReplaceAll(head, '&', "&amp;");
      var h2 := ReplaceAll(h1, '<', "&lt;");
      var h3 := ReplaceAll(h2, '>', "&gt;");
      var h4 := ReplaceAll(h3, '"', "&quot;");
      ReplaceAllConcat(head, tail, '&', "&amp;");
      ReplaceAllConcat(h1, t1, '<', "&lt;");
      ReplaceAllConcat(h2, t2, '>', "&gt;");
      ReplaceAllConcat(h3, t3, '"', "&quot;");
      ReplaceAllConcat(h4, t4, '\'', "&#039;");
      OneCharacter(s[0]);
      EscapeIsSinglePass(tail);
      if |tail| == 0 {
        assert ReplaceAll(t4, '\'', "&#039;") == "";
      }
    }
  }

  /** Escaped text contains no `<`, `>`, `"` or `'`. */
  lemma {:induction false} EscapedHasNoMarkup(s: string)
    ensures forall i :: 0 <= i < |EscapeHtml(s)| ==> !IsMarkup(EscapeHtml(s)[i])
  {
    EscapeIsSinglePass(s);
    EscapeEachHasNoMarkup(s);
  }

  lemma {:induction false} EscapeEachHasNoMarkup(s: string)
    ensures forall i :: 0 <= i < |EscapeEach(s)| ==> !IsMarkup(EscapeEach(s)[i])
  {
    if |s| > 0 {
      EscapeEachHasNoMarkup(s[1..]);
      var e := EscapeChar(s[0]);
      assert forall i :: 0 <= i < |e| ==> !IsMarkup(e[i]);
    }
  }

  /** Decodes the five entities back into their characters. */
  function Unescape(s: string): string
    decreases |s|
  {
    if |s| == 0 then ""
    else if |s| >= 5 && s[..5] == "&amp;" then "&" + Unescape(s[5..])
    else if |s| >= 4 && s[..4] == "&lt;" then "<" + Unescape(s[4..])
    else if |s| >= 4 && s[..4] == "&gt;" then ">" + Unescape(s[4..])
    else if |s| >= 6 && s[..6] == "&quot;" then "\"" + Unescape(s[6..])
    else if |s| >= 6 && s[..6] == "&#039;" then "'" + Unescape(s[6..])
    else [s[0]] + Unescape(s[1..])
  }

  lemma UnescapeStep(c: char, rest: string)
    ensures Unescape(EscapeChar(c) + rest) == [c] + Unescape(rest)
  {
    var e := EscapeChar(c) + rest;
    if c == '&' {
      assert e[..5] == "&amp;" && e[5..] == rest;
    } else if c == '<' {
      assert e[1] == 'l' && e[..4] == "&lt;" && e[4..] == rest;
      assert |e| >= 5 ==> e[..5] != "&amp;" by { if |e| >= 5 { assert e[..5][1] == 'l'; } }
    } else if c == '>' {
      assert e[1] == 'g' && e[..4] == "&gt;" && e[4..] == rest;
      assert |e| >= 5 ==> e[..5] != "&amp;" by { if |e| >= 5 { assert e[..5][1] == 'g'; } }
      assert e[..4] != "&lt;" by { assert e[..4][1] == 'g'; }
    } else if c == '"' {
      assert e[..6] == "&quot;" && e[6..] == rest;
      assert e[..5] != "&amp;" by { assert e[..5][1] == 'q'; }
      assert e[..4] != "&lt;" && e[..4] != "&gt;" by { assert e[..4][1] == 'q'; }
    } else if c == '\'' {
      assert e[..6] == "&#039;" && e[6..] == rest;
      assert e[..5] != "&amp;" by { assert e[..5][1] == '#'; }
      assert e[..4] != "&lt;" && e[..4] != "&gt;" by { assert e[..4][1] == '#'; }
      assert e[..6] != "&quot;" by { assert e[..6][1] == '#'; }
    } else {
      assert e[0] == c && e[1..] == rest;
      assert |e| >= 5 ==> e[..5] != "&amp;" by { if |e| >= 5 { assert e[..5][0] == c; } }
      assert |e| >= 4 ==> e[..4] != "&lt;" && e[..4] != "&gt;" by { if |e| >= 4 { assert e[..4][0] == c; } }
      assert |e| >= 6 ==> e[..6] != "&quot;" && e[..6] != "&#039;" by { if |e| >= 6 { assert e[..6][0] == c; } }
    }
  }

  /** Escaping loses nothing: decoding the entities restores the text. */
  lemma {:induction false} EscapeRoundTrip(s: string)
    ensures Unescape(EscapeHtml(s)) == s
  {
    EscapeIsSinglePass(s);
    EscapeEachRoundTrip(s);
  }

  lemma {:induction false} EscapeEachRoundTrip(s: string)
    ensures Unescape(EscapeEach(s)) == s
  {
    if |s| > 0 {
      EscapeEachRoundTrip(s[1..]);
      UnescapeStep(s[0], EscapeEach(s[1..]));
      assert s == [s[0]] + s[1..];
    }
  }
}
