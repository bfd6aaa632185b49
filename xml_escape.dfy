/**
 * `escapeXml` (electronic-forms-system/script.js): the chain of five global
 * replacements that turns the markup characters of a text into the
 * predefined entities of section 4.6 of XML 1.0, ampersand first.
 */
module XmlEscape {
  import opened JsText

  /**
   * `escapeXml`, in the order the source chains the calls.  Each replacement
   * removes its character for good, so the escaped text holds no `<`, `>`,
   * `"` or `'`.
   */
  function EscapeXml(text: string): (r: string)
    ensures '<' !in r && '>' !in r
    ensures '"' !in r && '\'' !in r
  {
    var amp := ReplaceAll(text, '&', "&amp;");
    var lt := ReplaceAll(amp, '<', "&lt;");
    assert '<' !in lt;
    var gt := ReplaceAll(lt, '>', "&gt;");
    assert '<' !in gt && '>' !in gt;
    var quot := ReplaceAll(gt, '"', "&quot;");
    assert '<' !in quot && '>' !in quot && '"' !in quot;
    ReplaceAll(quot, '\'', "&apos;")
  }

  /** The predefined entity of a markup character; any other character stands for itself. */
  function EntityOf(c: char): string {
    match c
    case '&' => "&amp;"
    case '<' => "&lt;"
    case '>' => "&gt;"
    case '"' => "&quot;"
    case '\'' => "&apos;"
    case _ => [c]
  }

  /** Reference definition: each character replaced by its entity, independently of the others. */
  function EscapeEach(s: string): string {
    if s == [] then [] else EntityOf(s[0]) + EscapeEach(s[1..])
  }

  predicate IsMarkup(c: char) {
    c == '&' || c == '<' || c == '>' || c == '"' || c == '\''
  }

  /** The five replacements applied to one character give its entity. */
  lemma {:induction false} EscapeXmlOfChar(c: char)
    ensures EscapeXml([c]) == EntityOf(c)
  {
    var s := [c];
    if c == '&' {
      Hit(s, '&', "&amp;");
      EscapeRestOf("&amp;");
    } else if c == '<' {
      Miss(s, '&', "&amp;");
      Hit(s, '<', "&lt;");
      EscapeRestOf("&lt;");
    } else if c == '>' {
      Miss(s, '&', "&amp;");
      Miss(s, '<', "&lt;");
      Hit(s, '>', "&gt;");
      EscapeRestOf("&gt;");
    } else if c == '"' {
      Miss(s, '&', "&amp;");
      Miss(s, '<', "&lt;");
      Miss(s, '>', "&gt;");
      Hit(s, '"', "&quot;");
      EscapeRestOf("&quot;");
    } else if c == '\'' {
      Miss(s, '&', "&amp;");
      Miss(s, '<', "&lt;");
      Miss(s, '>', "&gt;");
      Miss(s, '"', "&quot;");
      Hit(s, '\'', "&apos;");
    } else {
      Miss(s, '&', "&amp;");
      Miss(s, '<', "&lt;");
      Miss(s, '>', "&gt;");
      Miss(s, '"', "&quot;");
      Miss(s, '\'', "&apos;");
    }
  }

  lemma {:induction false} Hit(s: string, d: char, rep: string)
    requires s == [d]
    ensures ReplaceAll(s, d, rep) == rep
  {
    assert ReplaceAll(s, d, rep) == rep + ReplaceAll([], d, rep);
  }

  lemma {:induction false} Miss(s: string, d: char, rep: string)
    requires d !in s
    ensures ReplaceAll(s, d, rep) == s
  {
    ReplaceAllAbsent(s, d, rep);
  }

  /** An entity made by an earlier step of the chain passes the later steps unchanged. */
  lemma {:induction false} EscapeRestOf(e: string)
    requires forall i :: 0 <= i < |e| ==> e[i] != '<' && e[i] != '>' && e[i] != '"' && e[i] != '\''
    ensures ReplaceAll(e, '<', "&lt;") == e && ReplaceAll(e, '>', "&gt;") == e
    ensures ReplaceAll(e, '"', "&quot;") == e && ReplaceAll(e, '\'', "&apos;") == e
  {
    ReplaceAllAbsent(e, '<', "&lt;");
    ReplaceAllAbsent(e, '>', "&gt;");
    ReplaceAllAbsent(e, '"', "&quot;");
    ReplaceAllAbsent(e, '\'', "&apos;");
  }

  /** The chain of global replacements equals the character-by-character escape. */
  lemma {:induction false} EscapeXmlIsCharwise(s: string)
    ensures EscapeXml(s) == EscapeEach(s)
  {
    if s != [] {
      EscapeXmlAppend([s[0]], s[1..]);
      assert [s[0]] + s[1..] == s;
      EscapeXmlOfChar(s[0]);
      EscapeXmlIsCharwise(s[1..]);
    } else {
      assert EscapeXml(s) == [];
    }
  }

  /** `escapeXml` distributes over concatenation. */
  lemma {:induction false} EscapeXmlAppend(a: string, b: string)
    ensures EscapeXml(a + b) == EscapeXml(a) + EscapeXml(b)
  {
    ReplaceAllAppend(a, b, '&', "&amp;");
    var a1, b1 := ReplaceAll(a, '&', "&amp;"), ReplaceAll(b, '&', "&amp;");
    ReplaceAllAppend(a1, b1, '<', "&lt;");
    var a2, b2 := ReplaceAll(a1, '<', "&lt;"), ReplaceAll(b1, '<', "&lt;");
    ReplaceAllAppend(a2, b2, '>', "&gt;");
    var a3, b3 := ReplaceAll(a2, '>', "&gt;"), ReplaceAll(b2, '>', "&gt;");
    ReplaceAllAppend(a3, b3, '"', "&quot;");
    var a4, b4 := ReplaceAll(a3, '"', "&quot;"), ReplaceAll(b3, '"', "&quot;");
    ReplaceAllAppend(a4, b4, '\'', "&apos;");
  }

  /** A text with none of the five characters comes out unchanged. */
  lemma {:induction false} EscapeXmlIdentity(s: string)
    requires forall i :: 0 <= i < |s| ==> !IsMarkup(s[i])
    ensures EscapeXml(s) == s
  {
    ReplaceAllAbsent(s, '&', "&amp;");
    ReplaceAllAbsent(s, '<', "&lt;");
    ReplaceAllAbsent(s, '>', "&gt;");
    ReplaceAllAbsent(s, '"', "&quot;");
    ReplaceAllAbsent(s, '\'', "&apos;");
  }

  predicate StartsWith(s: string, p: string) {
    |p| <= |s| && s[..|p|] == p
  }

  /** Reading back the five predefined entities; any other character stands for itself. */
  function UnescapeXml(s: string): string
    decreases |s|
  {
    if s == [] then []
    else if StartsWith(s, "&amp;") then ['&'] + UnescapeXml(s[5..])
    else if StartsWith(s, "&lt;") then ['<'] + UnescapeXml(s[4..])
    else if StartsWith(s, "&gt;") then ['>'] + UnescapeXml(s[4..])
    else if StartsWith(s, "&quot;") then ['"'] + UnescapeXml(s[6..])
    else if StartsWith(s, "&apos;") then ['\''] + UnescapeXml(s[6..])
    else [s[0]] + UnescapeXml(s[1..])
  }

  lemma {:induction false} PrefixDiffers(s: string, p: string, i: nat)
    requires i < |s| && i < |p| && s[i] != p[i]
    ensures !StartsWith(s, p)
  {
  }

  lemma {:induction false} PrefixOf(e: string, t: string)
    ensures StartsWith(e + t, e) && (e + t)[|e|..] == t
  {
    assert (e + t)[..|e|] == e;
  }

  /** Reading back one entity, followed by anything. */
  lemma {:induction false} UnescapeEntity(c: char, t: string)
    ensures UnescapeXml(EntityOf(c) + t) == [c] + UnescapeXml(t)
  {
    var e := EntityOf(c);
    var s := e + t;
    PrefixOf(e, t);
    if !IsMarkup(c) {
      PrefixDiffers(s, "&amp;", 0);
      PrefixDiffers(s, "&lt;", 0);
      PrefixDiffers(s, "&gt;", 0);
      PrefixDiffers(s, "&quot;", 0);
      PrefixDiffers(s, "&apos;", 0);
    } else if c == '<' {
      PrefixDiffers(s, "&amp;", 1);
    } else if c == '>' {
      PrefixDiffers(s, "&amp;", 1);
      PrefixDiffers(s, "&lt;", 1);
    } else if c == '"' {
      PrefixDiffers(s, "&amp;", 1);
      PrefixDiffers(s, "&lt;", 1);
      PrefixDiffers(s, "&gt;", 1);
    } else if c == '\'' {
      PrefixDiffers(s, "&amp;", 2);
      PrefixDiffers(s, "&lt;", 1);
      PrefixDiffers(s, "&gt;", 1);
      PrefixDiffers(s, "&quot;", 1);
    }
  }

  /** Escaping loses nothing: reading the entities back gives the original text. */
  lemma {:induction false} UnescapeEscape(s: string)
    ensures UnescapeXml(EscapeXml(s)) == s
  {
    EscapeXmlIsCharwise(s);
    UnescapeEach(s);
  }

  lemma {:induction false} UnescapeEach(s: string)
    ensures UnescapeXml(EscapeEach(s)) == s
  {
    if s != [] {
      UnescapeEntity(s[0], EscapeEach(s[1..]));
      UnescapeEach(s[1..]);
    }
  }
}
