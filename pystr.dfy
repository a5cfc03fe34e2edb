/**
 * The few Python string operations the bot relies on, written out so that
 * their edge cases are part of the model: `str.strip()`, `str(int)`,
 * `s.split(":", 1)[1]` and `html.escape(s)`.
 */
module PyStr {

  // ---------------------------------------------------------------------------
  // str.strip()
  // ---------------------------------------------------------------------------

  /** The characters for which CPython's `str.isspace()` holds. */
  predicate IsSpace(c: char)
  {
    ('\U{0009}' <= c <= '\U{000D}') || ('\U{001C}' <= c <= '\U{0020}')
    || c == '\U{0085}' || c == '\U{00A0}' || c == '\U{1680}'
    || ('\U{2000}' <= c <= '\U{200A}') || c == '\U{2028}' || c == '\U{2029}'
    || c == '\U{202F}' || c == '\U{205F}' || c == '\U{3000}'
  }

  predicate AllSpace(s: string)
  {
    forall i :: 0 <= i < |s| ==> IsSpace(s[i])
  }

  /** Where the run of whitespace that starts at `i` ends. */
  function LeadEnd(s: string, i: nat): (b: nat)
    requires i <= |s|
    ensures i <= b <= |s|
    ensures forall k :: i <= k < b ==> IsSpace(s[k])
    ensures b < |s| ==> !IsSpace(s[b])
    decreases |s| - i
  {
    if i < |s| && IsSpace(s[i]) then LeadEnd(s, i + 1) else i
  }

  /** Where the run of whitespace that ends at `j` starts. */
  function TrailStart(s: string, j: nat): (e: nat)
    requires j <= |s|
    ensures e <= j
    ensures forall k :: e <= k < j ==> IsSpace(s[k])
    ensures 0 < e ==> !IsSpace(s[e - 1])
  {
    if 0 < j && IsSpace(s[j - 1]) then TrailStart(s, j - 1) else j
  }

  /**
   * `s.strip()`: the slice of `s` that starts where its leading whitespace
   * ends; every character outside it is whitespace, it neither starts nor
   * ends with whitespace, and it is empty exactly when `s` is whitespace only.
   */
  function Strip(s: string): (r: string)
    ensures LeadEnd(s, 0) + |r| <= |s| && r == s[LeadEnd(s, 0)..LeadEnd(s, 0) + |r|]
    ensures forall k :: 0 <= k < |s| && !(LeadEnd(s, 0) <= k < LeadEnd(s, 0) + |r|) ==> IsSpace(s[k])
    ensures r != [] ==> !IsSpace(r[0]) && !IsSpace(r[|r| - 1])
    ensures r == [] <==> AllSpace(s)
  {
    var b := LeadEnd(s, 0);
    if b == |s| then []
    else
      var e := TrailStart(s, |s|);
      assert !IsSpace(s[b]);
      s[b..e]
  }

  /** A string that neither starts nor ends with whitespace is its own strip. */
  lemma StripTrimmed(t: string)
    requires t != [] ==> !IsSpace(t[0]) && !IsSpace(t[|t| - 1])
    ensures Strip(t) == t
  {
    if t != [] {
      assert LeadEnd(t, 0) == 0;
      assert TrailStart(t, |t|) == |t|;
      assert t[0..|t|] == t;
    }
  }

  lemma StripIdempotent(s: string)
    ensures Strip(Strip(s)) == Strip(s)
  {
    StripTrimmed(Strip(s));
  }

  lemma AllSpaceConcat(a: string, b: string)
    ensures AllSpace(a + b) <==> AllSpace(a) && AllSpace(b)
  {
    if AllSpace(a) && AllSpace(b) {
      forall k | 0 <= k < |a + b| ensures IsSpace((a + b)[k]) {
        if k < |a| { assert (a + b)[k] == a[k]; } else { assert (a + b)[k] == b[k - |a|]; }
      }
    }
    if AllSpace(a + b) {
      forall k | 0 <= k < |a| ensures IsSpace(a[k]) { assert (a + b)[k] == a[k]; }
      forall k | 0 <= k < |b| ensures IsSpace(b[k]) { assert (a + b)[|a| + k] == b[k]; }
    }
  }

  // ---------------------------------------------------------------------------
  // sep.join(p for p in parts if p)
  // ---------------------------------------------------------------------------

  /** The parts that are not empty, in order. */
  function NonEmptyParts(parts: seq<string>): seq<string>
  {
    if parts == [] then []
    else (if parts[0] == "" then [] else [parts[0]]) + NonEmptyParts(parts[1..])
  }

  /** `sep.join(parts)`. */
  function Join(sep: string, parts: seq<string>): string
  {
    if parts == [] then ""
    else if |parts| == 1 then parts[0]
    else parts[0] + sep + Join(sep, parts[1..])
  }

  // ---------------------------------------------------------------------------
  // str(n) for an int
  // ---------------------------------------------------------------------------

  predicate IsDigit(c: char)
  {
    '0' <= c <= '9'
  }

  function DigitChar(d: nat): (c: char)
    requires d < 10
    ensures IsDigit(c) && (c as int) - ('0' as int) == d
  {
    (('0' as int) + d) as char
  }

  /** The value of a string of decimal digits, read most significant first. */
  function DecimalValue(s: string): nat
    requires forall i :: 0 <= i < |s| ==> IsDigit(s[i])
  {
    if s == [] then 0
    else
      assert IsDigit(s[|s| - 1]);
      DecimalValue(s[..|s| - 1]) * 10 + ((s[|s| - 1] as int) - ('0' as int))
  }

  /** The decimal digits of `n` as Python's `str(n)` writes them: no leading zero. */
  function NatToDecimal(n: nat): (r: string)
    ensures r != []
    ensures forall i :: 0 <= i < |r| ==> IsDigit(r[i])
    ensures r[0] == '0' ==> r == "0"
    ensures DecimalValue(r) == n
  {
    if n < 10 then [DigitChar(n)]
    else
      var r := NatToDecimal(n / 10) + [DigitChar(n % 10)];
      assert r[..|r| - 1] == NatToDecimal(n / 10);
      r
  }

  /** Python's `str(i)`: a minus sign before the digits of a negative number. */
  function IntToDecimal(i: int): (r: string)
    ensures r != []
    ensures i < 0 ==> r[0] == '-' && r[1..] == NatToDecimal(-i)
    ensures i >= 0 ==> r == NatToDecimal(i)
    ensures (r[0] == '-') <==> i < 0
  {
    if i < 0 then "-" + NatToDecimal(-i) else NatToDecimal(i)
  }

  // ---------------------------------------------------------------------------
  // data.split(":", 1)[1]
  // ---------------------------------------------------------------------------

  /** The position of the first ':' in `s`. */
  function ColonIndex(s: string): (i: nat)
    requires ':' in s
    ensures i < |s| && s[i] == ':'
    ensures forall k :: 0 <= k < i ==> s[k] != ':'
  {
    if s[0] == ':' then 0
    else
      assert ':' in s[1..] by {
        var j :| 0 <= j < |s| && s[j] == ':';
        assert s[1..][j - 1] == ':';
      }
      1 + ColonIndex(s[1..])
  }

  /** `s.split(":", 1)[1]`: everything after the first ':'. */
  function AfterFirstColon(s: string): (r: string)
    requires ':' in s
    ensures |r| < |s| && r == s[|s| - |r|..]
    ensures s[|s| - |r| - 1] == ':' && ':' !in s[..|s| - |r| - 1]
  {
    s[ColonIndex(s) + 1..]
  }

  /** Splitting `prefix + ":" + rest` at its first ':' gives back `rest` whatever it holds. */
  lemma AfterFirstColonOf(prefix: string, rest: string)
    requires ':' !in prefix
    ensures ':' in prefix + ":" + rest
    ensures AfterFirstColon(prefix + ":" + rest) == rest
  {
    var s := prefix + ":" + rest;
    assert s[|prefix|] == ':';
    assert forall k :: 0 <= k < |prefix| ==> s[k] == prefix[k];
    var i := ColonIndex(s);
    assert i == |prefix|;
    assert s[i + 1..] == rest;
  }

  // ---------------------------------------------------------------------------
  // html.escape(s) (quote=True)
  // ---------------------------------------------------------------------------

  /** The replacement html.escape makes for one character ('&' is replaced first,
      so the five replacements never act on each other's output). */
  function EscapeChar(c: char): string
  {
    match c
    case '&' => "&amp;"
    case '<' => "&lt;"
    case '>' => "&gt;"
    case '"' => "&quot;"
    case '\'' => "&#x27;"
    case _ => [c]
  }

  predicate IsMarkup(c: char)
  {
    c == '<' || c == '>' || c == '"' || c == '\''
  }

  function HtmlEscape(s: string): (r: string)
    ensures |r| >= |s|
    ensures forall i :: 0 <= i < |r| ==> !IsMarkup(r[i])
    ensures (forall i :: 0 <= i < |s| ==> !IsMarkup(s[i]) && s[i] != '&') ==> r == s
  {
    if s == [] then []
    else
      var t := HtmlEscape(s[1..]);
      assert forall i :: 0 <= i < |EscapeChar(s[0])| ==> !IsMarkup(EscapeChar(s[0])[i]);
      EscapeChar(s[0]) + t
  }

  /** The inverse of HtmlEscape: decodes the five references it produces. */
  function HtmlUnescape(s: string): string
    decreases |s|
  {
    if s == [] then []
    else if "&amp;" <= s then "&" + HtmlUnescape(s[5..])
    else if "&lt;" <= s then "<" + HtmlUnescape(s[4..])
    else if "&gt;" <= s then ">" + HtmlUnescape(s[4..])
    else if "&quot;" <= s then "\"" + HtmlUnescape(s[6..])
    else if "&#x27;" <= s then "'" + HtmlUnescape(s[6..])
    else [s[0]] + HtmlUnescape(s[1..])
  }

  /** Decoding a reference in front of `t`. */
  lemma UnescapeEntity(entity: string, c: char, t: string)
    requires (entity, c) in {("&amp;", '&'), ("&lt;", '<'), ("&gt;", '>'), ("&quot;", '"'), ("&#x27;", '\'')}
    ensures HtmlUnescape(entity + t) == [c] + HtmlUnescape(t)
  {
    var s := entity + t;
    assert entity <= s && s[|entity|..] == t;
    assert s[0] == '&' && s[1] == entity[1];
  }

  /** A plain character in front of `t` is passed through. */
  lemma UnescapePlain(c: char, t: string)
    requires c != '&'
    ensures HtmlUnescape([c] + t) == [c] + HtmlUnescape(t)
  {
    var s := [c] + t;
    assert s[0] == c && s[1..] == t;
  }

  lemma UnescapeEscapedChar(c: char, t: string)
    ensures HtmlUnescape(EscapeChar(c) + t) == [c] + HtmlUnescape(t)
  {
    match c
    case '&' => UnescapeEntity("&amp;", c, t);
    case '<' => UnescapeEntity("&lt;", c, t);
    case '>' => UnescapeEntity("&gt;", c, t);
    case '"' => UnescapeEntity("&quot;", c, t);
    case '\'' => UnescapeEntity("&#x27;", c, t);
    case _ => UnescapePlain(c, t);
  }

  /** Escaping loses nothing: the stored text is recoverable from its rendering. */
  lemma {:induction false} HtmlEscapeRoundTrip(s: string)
    ensures HtmlUnescape(HtmlEscape(s)) == s
  {
    if s != [] {
      HtmlEscapeRoundTrip(s[1..]);
      UnescapeEscapedChar(s[0], HtmlEscape(s[1..]));
      assert s == [s[0]] + s[1..];
    }
  }
}
