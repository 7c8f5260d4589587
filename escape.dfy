/**
 * `escapeHtml` of the admin dashboard (script2.js): the value is turned into
 * a string with `String(...)`, and each of the five characters that are
 * special in HTML is replaced by its character entity before the text is
 * interpolated into table markup.
 */
module Escape {
  import opened JsValues

  /** One of the characters matched by `/[&<>"']/g`. */
  predicate Special(ch: char) {
    ch == '&' || ch == '<' || ch == '>' || ch == '"' || ch == '\''
  }

  /** A character that could open or close a tag or an attribute value. */
  predicate Markup(ch: char) {
    ch == '<' || ch == '>' || ch == '"' || ch == '\''
  }

  /** What the replacement callback `m => map[m]` yields, or the character itself. */
  function Entity(ch: char): (e: string)
    ensures Special(ch) ==> |e| >= 4 && e[0] == '&' && e[|e| - 1] == ';'
    ensures !Special(ch) ==> e == [ch]
    ensures forall i :: 0 <= i < |e| ==> !Markup(e[i])
  {
    match ch
    case '&' => "&amp;"
    case '<' => "&lt;"
    case '>' => "&gt;"
    case '"' => "&quot;"
    case '\'' => "&#039;"
    case _ => [ch]
  }

  /** `text.replace(/[&<>"']/g, m => map[m])` on a string. */
  function EscapeHtml(text: string): (r: string)
    ensures |r| >= |text|
    ensures forall i :: 0 <= i < |r| ==> !Markup(r[i])
    ensures (forall i :: 0 <= i < |text| ==> !Special(text[i])) ==> r == text
  {
    if |text| == 0 then ""
    else Entity(text[0]) + EscapeHtml(text[1..])
  }

  /** Escaping works character by character, so it distributes over concatenation. */
  lemma {:induction false} EscapeHtmlAppend(a: string, b: string)
    ensures EscapeHtml(a + b) == EscapeHtml(a) + EscapeHtml(b)
    decreases |a|
  {
    if |a| == 0 {
      assert a + b == b;
    } else {
      assert (a + b)[1..] == a[1..] + b;
      EscapeHtmlAppend(a[1..], b);
    }
  }

  /** Does `s` begin with `prefix`? */
  predicate StartsWith(s: string, prefix: string) {
    |prefix| <= |s| && s[..|prefix|] == prefix
  }

  /** The browser's reading of the five entities: the inverse of escaping. */
  function Unescape(s: string): (r: string)
    ensures |r| <= |s|
    decreases |s|
  {
    if |s| == 0 then ""
    else if StartsWith(s, "&amp;") then "&" + Unescape(s[5..])
    else if StartsWith(s, "&lt;") then "<" + Unescape(s[4..])
    else if StartsWith(s, "&gt;") then ">" + Unescape(s[4..])
    else if StartsWith(s, "&quot;") then "\"" + Unescape(s[6..])
    else if StartsWith(s, "&#039;") then "'" + Unescape(s[6..])
    else [s[0]] + Unescape(s[1..])
  }

  /** Reading back one escaped character. */
  lemma UnescapeEntity(ch: char, rest: string)
    ensures Unescape(Entity(ch) + rest) == [ch] + Unescape(rest)
  {
    var e := Entity(ch);
    var s := e + rest;
    assert s[..|e|] == e;
    assert s[|e|..] == rest;
    if !Special(ch) {
      assert s[0] == ch && s[1..] == rest;
      assert !StartsWith(s, "&amp;") && !StartsWith(s, "&lt;") && !StartsWith(s, "&gt;");
      assert !StartsWith(s, "&quot;") && !StartsWith(s, "&#039;");
    } else if ch == '&' {
      assert StartsWith(s, "&amp;");
    } else if ch == '<' {
      assert s[1] == 'l';
      assert StartsWith(s, "&lt;");
    } else if ch == '>' {
      assert s[1] == 'g' && s[2] == 't';
      assert StartsWith(s, "&gt;");
    } else if ch == '"' {
      assert s[1] == 'q';
      assert StartsWith(s, "&quot;");
    } else {
      assert s[1] == '#';
      assert StartsWith(s, "&#039;");
    }
  }

  /** Escaping loses nothing: the browser shows exactly the original text. */
  lemma {:induction false} UnescapeEscapeHtml(text: string)
    ensures Unescape(EscapeHtml(text)) == text
    decreases |text|
  {
    if |text| > 0 {
      UnescapeEntity(text[0], EscapeHtml(text[1..]));
      UnescapeEscapeHtml(text[1..]);
      assert [text[0]] + text[1..] == text;
    }
  }

  /** Two different texts never escape to the same markup. */
  lemma EscapeHtmlInjective(a: string, b: string)
    requires EscapeHtml(a) == EscapeHtml(b)
    ensures a == b
  {
    UnescapeEscapeHtml(a);
    UnescapeEscapeHtml(b);
  }

  /** A tag typed into a form field is shown as text. */
  lemma ExampleTagEscaped()
    ensures EscapeHtml("<b>") == "&lt;b&gt;"
  {
  }

  /** `String(v)` for a value read from a record; `undefined` reads as "undefined". */
  function JsString(v: Option<Json>): string {
    match v
    case None => "undefined"
    case Some(j) => ValueString(j)
  }

  /** `String(j)`: arrays are joined with commas (`null` elements become empty), objects are opaque. */
  function ValueString(j: Json): string
    decreases j
  {
    match j
    case JNull => "null"
    case JBool(b) => if b then "true" else "false"
    case JNum(n) => if n < 0 then "-" + NatToString(-n) else NatToString(n)
    case JStr(s) => s
    case JArr(items) => Join(items)
    case JObj(_) => "[object Object]"
  }

  /** `items.join(',')` */
  function Join(items: seq<Json>): string
    decreases items
  {
    if |items| == 0 then ""
    else
      var first := if items[0].JNull? then "" else ValueString(items[0]);
      if |items| == 1 then first else first + "," + Join(items[1..])
  }

  /** `escapeHtml(value)` as the dashboard calls it on record fields. */
  function EscapeValue(v: Option<Json>): (r: string)
    ensures forall i :: 0 <= i < |r| ==> !Markup(r[i])
    ensures Unescape(r) == JsString(v)
  {
    UnescapeEscapeHtml(JsString(v));
    EscapeHtml(JsString(v))
  }
}
