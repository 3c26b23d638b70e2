/** `src/api/logger.rs`: escaping, truncation, and their composition `sanitize_log_text`. */
module Escaping {
  import opened Types
  import opened Numerals
  import opened LogText

  /** `char::is_control`: the Unicode category Cc. */
  predicate IsControl(c: char) {
    c as int <= 0x1F || 0x7F <= c as int <= 0x9F
  }

  /** `is_format_char`. */
  predicate IsFormatChar(c: char) {
    var n := c as int;
    || n == 0xAD || 0x600 <= n <= 0x605 || n == 0x61C || n == 0x6DD || n == 0x70F
    || 0x890 <= n <= 0x891 || n == 0x8E2 || n == 0x180E || 0x200B <= n <= 0x200F
    || 0x202A <= n <= 0x202E || 0x2060 <= n <= 0x2064 || 0x2066 <= n <= 0x206F
    || n == 0xFEFF || 0xFFF9 <= n <= 0xFFFB || n == 0x110BD || n == 0x110CD
    || 0x13430 <= n <= 0x1343F || 0x1BCA0 <= n <= 0x1BCA3 || 0x1D173 <= n <= 0x1D17A
    || n == 0xE0001 || 0xE0020 <= n <= 0xE007F
  }

  /** A character that would break or visually reorder a log line. */
  predicate Unsafe(c: char) {
    IsControl(c) || IsFormatChar(c) || c as int == 0x2028 || c as int == 0x2029
  }

  function EscapeChar(c: char): (s: string)
    ensures |s| > 0
  {
    if c == '\\' then "\\\\"
    else if c == '\n' then "\\n"
    else if c == '\r' then "\\r"
    else if c == '\t' then "\\t"
    else if Unsafe(c) then "\\u{" + Hex(c as int) + "}"
    else [c]
  }

  function Escaped(text: string): string {
    if text == "" then "" else Escaped(text[..|text| - 1]) + EscapeChar(text[|text| - 1])
  }

  /** `escape_control`. */
  method EscapeControl(text: string) returns (out: string)
    ensures out == Escaped(text)
  {
    out := "";
    var i := 0;
    while i < |text|
      invariant 0 <= i <= |text|
      invariant out == Escaped(text[..i])
    {
      assert text[..i + 1][..i] == text[..i];
      out := out + EscapeChar(text[i]);
      i := i + 1;
    }
    assert text[..i] == text;
  }

  // ----- escaped text can be read back -----

  /** Reads one escaped character off the front: its value and the length it took. */
  function ReadChar(s: string): Option<(char, nat)>
    requires s != ""
  {
    if s[0] != '\\' then Some((s[0], 1))
    else if |s| < 2 then None
    else if s[1] == '\\' then Some(('\\', 2))
    else if s[1] == 'n' then Some(('\n', 2))
    else if s[1] == 'r' then Some(('\r', 2))
    else if s[1] == 't' then Some(('\t', 2))
    else if s[1] == 'u' && |s| > 2 && s[2] == '{' then
      var (value, digits) := ReadHex(s[3..]);
      if IsScalar(value) && 3 + digits < |s| && s[3 + digits] == '}' then Some((value as char, 4 + digits)) else None
    else None
  }

  predicate IsScalar(n: int) {
    0 <= n < 0xD800 || 0xE000 <= n < 0x11_0000
  }

  function Unescaped(s: string): Option<string>
    decreases |s|
  {
    if s == "" then Some("")
    else
      match ReadChar(s) {
        case Some((c, n)) =>
          if 0 < n <= |s| then
            match Unescaped(s[n..]) { case Some(rest) => Some([c] + rest) case None => None }
          else None
        case None => None
      }
  }

  lemma ReadsBack(c: char, rest: string)
    ensures ReadChar(EscapeChar(c) + rest) == Some((c, |EscapeChar(c)|))
  {
    if Unsafe(c) && c != '\n' && c != '\r' && c != '\t' {
      HexEscapeReadsBack(c, Hex(c as int), rest);
      Assoc("\\u{" + Hex(c as int), "}", rest);
    } else {
      hide Hex, ReadHex;
    }
  }

  lemma HexEscapeReadsBack(c: char, hex: string, rest: string)
    requires hex == Hex(c as int)
    ensures ReadChar("\\u{" + hex + ("}" + rest)) == Some((c, 4 + |hex|))
  {
    var s := "\\u{" + hex + ("}" + rest);
    HexReadsBack(c as int, "}" + rest);
    assert s[3..] == hex + ("}" + rest);
    hide Hex, ReadHex;
  }

  lemma EscapedBack(text: string, c: char)
    ensures Escaped(text + [c]) == Escaped(text) + EscapeChar(c)
  {
    assert (text + [c])[..|text|] == text;
  }

  /** The front-to-back view of the loop's result. */
  lemma {:induction false} EscapedFront(c: char, text: string)
    ensures Escaped([c] + text) == EscapeChar(c) + Escaped(text)
    decreases |text|
  {
    if text == "" {
      EscapedBack("", c);
      assert [c] + text == "" + [c];
    } else {
      var front, last := text[..|text| - 1], text[|text| - 1];
      assert text == front + [last] && [c] + text == ([c] + front) + [last];
      EscapedBack([c] + front, last);
      EscapedBack(front, last);
      hide Escaped, EscapeChar;
      EscapedFront(c, front);
      Assoc(EscapeChar(c), Escaped(front), EscapeChar(last));
    }
  }

  /** A decoder recovers every text from its escaped form. */
  lemma {:induction false} UnescapedEscaped(text: string)
    ensures Unescaped(Escaped(text)) == Some(text)
    decreases |text|
  {
    if text == "" {
    } else {
      var c, rest := text[0], text[1..];
      assert text == [c] + rest;
      EscapedFront(c, rest);
      ReadsBack(c, Escaped(rest));
      assert (EscapeChar(c) + Escaped(rest))[|EscapeChar(c)|..] == Escaped(rest);
      UnescapedEscaped(rest);
    }
  }

  lemma EscapingIsInjective(a: string, b: string)
    requires Escaped(a) == Escaped(b)
    ensures a == b
  {
    UnescapedEscaped(a);
    UnescapedEscaped(b);
  }

  lemma EscapeCharIsSafe(c: char)
    ensures forall k :: 0 <= k < |EscapeChar(c)| ==> !Unsafe(EscapeChar(c)[k])
  {
    HexIsDigits(c as int);
  }

  /** Escaped text stays on its line: no control, format or line-separator character is left. */
  lemma {:induction false} EscapedIsOneLine(text: string)
    ensures forall k :: 0 <= k < |Escaped(text)| ==> !Unsafe(Escaped(text)[k])
    decreases |text|
  {
    if text == "" {
    } else {
      EscapedIsOneLine(text[..|text| - 1]);
      EscapeCharIsSafe(text[|text| - 1]);
    }
  }

  // ----- which characters are escaped -----

  /** The characters between the control, format and line-separator characters, but for the
      backslash. */
  predicate Plain(c: char) {
    var n := c as int;
    || 0x20 <= n <= 0x5B || 0x5D <= n <= 0x7E || 0xA0 <= n <= 0xAC || 0xAE <= n <= 0x5FF
    || 0x606 <= n <= 0x61B || 0x61D <= n <= 0x6DC || 0x6DE <= n <= 0x70E || 0x710 <= n <= 0x88F
    || 0x892 <= n <= 0x8E1 || 0x8E3 <= n <= 0x180D || 0x180F <= n <= 0x200A || 0x2010 <= n <= 0x2027
    || 0x202F <= n <= 0x205F || n == 0x2065 || 0x2070 <= n <= 0xFEFE || 0xFF00 <= n <= 0xFFF8
    || 0xFFFC <= n <= 0x110BC || 0x110BE <= n <= 0x110CC || 0x110CE <= n <= 0x1342F
    || 0x13440 <= n <= 0x1BC9F || 0x1BCA4 <= n <= 0x1D172 || 0x1D17B <= n <= 0xE0000
    || 0xE0002 <= n <= 0xE001F || 0xE0080 <= n
  }

  lemma PlainMeans(c: char)
    ensures Plain(c) <==> !Unsafe(c) && c != '\\'
  {
  }

  lemma EscapeCharChanges(c: char)
    ensures Plain(c) ==> EscapeChar(c) == [c]
    ensures !Plain(c) ==> |EscapeChar(c)| > 1
  {
    PlainMeans(c);
  }

  lemma {:induction false} EscapedLength(text: string)
    ensures |Escaped(text)| >= |text|
    ensures |Escaped(text)| == |text| <==> forall k :: 0 <= k < |text| ==> Plain(text[k])
    decreases |text|
  {
    hide Plain, EscapeChar;
    if text != "" {
      var front, last := text[..|text| - 1], text[|text| - 1];
      EscapedLength(front);
      EscapeCharChanges(last);
      assert text == front + [last];
    }
  }

  lemma {:induction false} PlainStays(text: string)
    requires forall k :: 0 <= k < |text| ==> Plain(text[k])
    ensures Escaped(text) == text
    decreases |text|
  {
    hide Plain, EscapeChar;
    if text != "" {
      PlainStays(text[..|text| - 1]);
      EscapeCharChanges(text[|text| - 1]);
    }
  }

  /** Escaping leaves a text alone exactly if every character of it is plain. */
  lemma UnchangedExactlyIf(text: string)
    ensures Escaped(text) == text <==> forall k :: 0 <= k < |text| ==> Plain(text[k])
  {
    hide Plain;
    EscapedLength(text);
    if forall k :: 0 <= k < |text| ==> Plain(text[k]) {
      PlainStays(text);
    }
  }

  /** What is left to read in a log line: plain characters, and the backslashes of the escapes. */
  lemma EscapedIsPlain(text: string, k: nat)
    requires k < |Escaped(text)|
    ensures Plain(Escaped(text)[k]) || Escaped(text)[k] == '\\'
  {
    EscapedIsOneLine(text);
    PlainMeans(Escaped(text)[k]);
  }

  lemma HexOfOverride()
    ensures Hex(0x202E) == "202e"
  {
    assert Hex(2) == "2";
    assert Hex(0x20) == "20";
    assert Hex(0x202) == "202";
  }

  /** The escapes spelled out. */
  lemma EscapesSpelled(c: char)
    ensures EscapeChar('\n') == ['\\', 'n'] && EscapeChar('\r') == ['\\', 'r'] && EscapeChar('\t') == ['\\', 't']
    ensures EscapeChar('\\') == ['\\', '\\']
    ensures !Plain(c) && c != '\\' && c != '\n' && c != '\r' && c != '\t' ==>
              EscapeChar(c) == ['\\', 'u', '{'] + Hex(c as int) + ['}']
  {
    hide Hex;
    PlainMeans(c);
  }

  /** The right-to-left override shows as its number. */
  lemma OverrideShows()
    ensures Escaped(['\U{202E}']) == ['\\', 'u', '{', '2', '0', '2', 'e', '}']
  {
    EscapedBack("", '\U{202E}');
    assert "" + ['\U{202E}'] == ['\U{202E}'];
    HexOfOverride();
    EscapesSpelled('\U{202E}');
    hide Hex, Escaped, EscapeChar;
  }

  // ----- truncation -----

  function Utf8Len(c: char): (n: nat)
    ensures 1 <= n <= 4
  {
    if c as int < 0x80 then 1 else if c as int < 0x800 then 2 else if c as int < 0x1_0000 then 3 else 4
  }

  /** How many characters a UTF-8 sequence of `n` bytes can tell apart: each byte after the first
      carries six bits (section 3 of RFC 3629). */
  function Capacity(n: nat): nat
    requires 1 <= n <= 4
  {
    if n == 1 then 0x80 else if n == 2 then 32 * 64 else if n == 3 then 16 * 64 * 64 else 8 * 64 * 64 * 64
  }

  /** A character takes the shortest sequence that can hold it. */
  lemma Utf8LenIsShortest(c: char)
    ensures (c as int) < Capacity(Utf8Len(c))
    ensures Utf8Len(c) > 1 ==> c as int >= Capacity(Utf8Len(c) - 1)
  {
  }

  /** `str::len`: the length in UTF-8 bytes. */
  function ByteLen(text: string): nat {
    if text == "" then 0 else ByteLen(text[..|text| - 1]) + Utf8Len(text[|text| - 1])
  }

  /** The number of characters before byte `b`, if `b` is a character boundary. */
  function CharsBefore(text: string, b: nat): (k: Option<nat>)
    ensures k.Some? ==> k.value <= |text| && ByteLen(text[..k.value]) == b
  {
    if ByteLen(text) == b then
      assert text[..|text|] == text;
      Some(|text|)
    else if text == "" then None
    else
      var front := text[..|text| - 1];
      var k := CharsBefore(front, b);
      assert k.Some? ==> front[..k.value] == text[..k.value];
      k
  }

  lemma {:induction false} ByteLenGrows(text: string, k: nat)
    requires k <= |text|
    ensures ByteLen(text[..k]) + (|text| - k) <= ByteLen(text)
    decreases |text|
  {
    if k < |text| {
      assert text[..|text| - 1][..k] == text[..k];
      ByteLenGrows(text[..|text| - 1], k);
    } else {
      assert text[..k] == text;
    }
  }

  lemma ByteLenOrder(text: string, j: nat, k: nat)
    requires j < k <= |text|
    ensures ByteLen(text[..j]) < ByteLen(text[..k])
  {
    assert text[..k][..j] == text[..j];
    ByteLenGrows(text[..k], j);
  }

  /** `is_char_boundary` finds every boundary. */
  lemma {:induction false} BoundaryFound(text: string, k: nat)
    requires k <= |text|
    ensures CharsBefore(text, ByteLen(text[..k])) == Some(k)
    decreases |text|
  {
    if k == |text| {
      assert text[..k] == text;
    } else {
      ByteLenOrder(text, k, |text|);
      assert text[..|text|] == text;
      assert text[..|text| - 1][..k] == text[..k];
      BoundaryFound(text[..|text| - 1], k);
    }
  }

  /** `k` characters are the most that fit into `limit` bytes. */
  predicate LongestFit(text: string, limit: nat, k: nat) {
    k <= |text| && ByteLen(text[..k]) <= limit && (k < |text| ==> ByteLen(text[..k + 1]) > limit)
  }

  function Kept(text: string, limit: nat): (k: nat)
    ensures k <= |text|
  {
    if ByteLen(text) <= limit then |text| else Kept(text[..|text| - 1], limit)
  }

  lemma {:induction false} KeptIsLongestFit(text: string, limit: nat)
    ensures LongestFit(text, limit, Kept(text, limit))
    decreases |text|
  {
    if ByteLen(text) <= limit {
      assert text[..|text|] == text;
    } else {
      var front := text[..|text| - 1];
      KeptIsLongestFit(front, limit);
      var k := Kept(text, limit);
      assert front[..k] == text[..k];
      if k < |front| {
        assert front[..k + 1] == text[..k + 1];
      } else {
        assert text[..k + 1] == text;
      }
    }
  }

  /** The longest fit is one number of characters. */
  lemma LongestFitIsUnique(text: string, limit: nat, j: nat, k: nat)
    requires LongestFit(text, limit, j) && LongestFit(text, limit, k)
    ensures j == k
  {
    if j < k {
      assert text[..k][..j + 1] == text[..j + 1];
      ByteLenGrows(text[..k], j + 1);
    } else if k < j {
      assert text[..j][..k + 1] == text[..k + 1];
      ByteLenGrows(text[..j], k + 1);
    }
  }

  /** The bytes of `text` that `kept`, a prefix of it, leaves out. */
  function Cut(text: string, kept: string): nat {
    if ByteLen(kept) <= ByteLen(text) then ByteLen(text) - ByteLen(kept) else 0
  }

  const ELLIPSIS: char := '\U{2026}'

  function Marker(cut: nat): string {
    [ELLIPSIS] + "[truncated " + Decimal(cut) + " bytes]"
  }

  lemma MarkerIsOneLine(cut: nat)
    ensures forall k :: 0 <= k < |Marker(cut)| ==> !Unsafe(Marker(cut)[k])
  {
    DecimalIsDigits(cut);
  }

  /** The marker says in decimal how many bytes were cut, and with them the text is whole. */
  lemma TruncationAddsUp(text: string, limit: nat) returns (digits: string)
    requires ByteLen(text) > limit
    ensures var kept := text[..Kept(text, limit)];
            && Marker(Cut(text, kept)) == [ELLIPSIS] + "[truncated " + digits + " bytes]"
            && IsNumeral(digits) && ByteLen(kept) + Value(digits) == ByteLen(text)
            && ByteLen(kept) <= limit
  {
    var kept := text[..Kept(text, limit)];
    KeptIsLongestFit(text, limit);
    digits := Decimal(Cut(text, kept));
    DecimalIsNumeral(Cut(text, kept));
    DecimalReadsBack(Cut(text, kept));
  }

  /** The loop that steps back from the limit to a character boundary. */
  method KeptChars(text: string, limit: nat) returns (k: nat, end: nat)
    requires ByteLen(text) > limit
    ensures k == Kept(text, limit) && end == ByteLen(text[..k])
  {
    end := limit;
    var at := CharsBefore(text, end);
    while at.None?
      invariant end <= limit && at == CharsBefore(text, end)
      invariant forall j :: 0 <= j <= |text| && ByteLen(text[..j]) <= limit ==> ByteLen(text[..j]) <= end
      decreases end
    {
      BoundaryFound(text, 0);
      assert text[..0] == "";
      forall j | 0 <= j <= |text| && ByteLen(text[..j]) <= limit ensures ByteLen(text[..j]) <= end - 1 {
        BoundaryFound(text, j);
      }
      end := end - 1;
      at := CharsBefore(text, end);
    }
    k := at.value;
    if k < |text| {
      ByteLenOrder(text, k, k + 1);
    }
    KeptIsLongestFit(text, limit);
    LongestFitIsUnique(text, limit, k, Kept(text, limit));
  }

  /** `sanitize_log_text`: the redacted text if it fits, or else its longest fitting prefix and the
      exact number of bytes cut; always on one line. */
  method SanitizeLogText(text: string, maxBytes: nat) returns (out: string)
    ensures var redacted := Redacted(text, 0);
            && (ByteLen(redacted) <= maxBytes ==> out == Escaped(redacted))
            && (ByteLen(redacted) > maxBytes ==>
                  var kept := redacted[..Kept(redacted, maxBytes)];
                  out == Escaped(kept) + Marker(Cut(redacted, kept)))
    ensures forall k :: 0 <= k < |out| ==> !Unsafe(out[k])
  {
    var redacted := RedactUrlUserinfo(text);
    EscapedIsOneLine(redacted);
    if ByteLen(redacted) <= maxBytes {
      out := EscapeControl(redacted);
      return;
    }
    var kept, end := KeptChars(redacted, maxBytes);
    out := EscapeControl(redacted[..kept]);
    ByteLenGrows(redacted, kept);
    EscapedIsOneLine(redacted[..kept]);
    MarkerIsOneLine(ByteLen(redacted) - end);
    out := out + Marker(ByteLen(redacted) - end);
  }
}
