/** The JavaScript string operations the application relies on:
    `Number.prototype.toString` on a clock reading (every id), `String.prototype.trim`
    (the empty-message test), `toLowerCase` restricted to ASCII, and `includes`. */
module Text {

  function DigitChar(d: nat): (c: char)
    requires d < 10
    ensures '0' <= c <= '9'
  {
    (d + 48) as char
  }

  /** The decimal numeral of `n`, as `n.toString()` yields for a non-negative integer. */
  function Decimal(n: nat): (r: string)
    ensures |r| >= 1 && (n >= 10 ==> |r| >= 2)
    ensures forall i :: 0 <= i < |r| ==> '0' <= r[i] <= '9'
    decreases n
  {
    if n < 10 then [DigitChar(n)] else Decimal(n / 10) + [DigitChar(n % 10)]
  }

  /** Distinct clock readings give distinct ids, and only distinct readings do. */
  lemma {:induction false} DecimalInjective(a: nat, b: nat)
    ensures Decimal(a) == Decimal(b) <==> a == b
    decreases a
  {
    if Decimal(a) == Decimal(b) {
      if a < 10 && b < 10 {
        assert Decimal(a)[0] == DigitChar(a) && Decimal(b)[0] == DigitChar(b);
      } else if a >= 10 && b >= 10 {
        var da, db := Decimal(a / 10), Decimal(b / 10);
        assert Decimal(a) == da + [DigitChar(a % 10)];
        assert Decimal(b) == db + [DigitChar(b % 10)];
        assert Decimal(a)[|Decimal(a)| - 1] == DigitChar(a % 10);
        assert Decimal(b)[|Decimal(b)| - 1] == DigitChar(b % 10);
        assert da == Decimal(a)[..|Decimal(a)| - 1];
        assert db == Decimal(b)[..|Decimal(b)| - 1];
        DecimalInjective(a / 10, b / 10);
      }
    }
  }

  /** The characters ECMAScript's `trim` removes: WhiteSpace (tab, vertical tab,
      form feed, space, no-break space, byte-order mark and the Zs category) and
      LineTerminator (LF, CR, line and paragraph separators). */
  predicate IsJsWhitespace(c: char) {
    c == '\t' || c == '\U{000B}' || c == '\U{000C}' || c == ' ' || c == '\U{00A0}' || c == '\U{FEFF}'
    || c == '\U{1680}' || ('\U{2000}' <= c <= '\U{200A}') || c == '\U{202F}' || c == '\U{205F}' || c == '\U{3000}'
    || c == '\n' || c == '\r' || c == '\U{2028}' || c == '\U{2029}'
  }

  predicate IsBlank(s: string) {
    forall i :: 0 <= i < |s| ==> IsJsWhitespace(s[i])
  }

  function TrimStart(s: string): (r: string)
    ensures |r| <= |s| && r == s[|s| - |r|..]
    ensures r == [] <==> IsBlank(s)
    ensures r != [] ==> !IsJsWhitespace(r[0])
    decreases |s|
  {
    if s != [] && IsJsWhitespace(s[0]) then TrimStart(s[1..]) else s
  }

  function TrimEnd(s: string): (r: string)
    ensures |r| <= |s| && r == s[..|r|]
    ensures r == [] <==> IsBlank(s)
    ensures r != [] ==> !IsJsWhitespace(r[|r| - 1])
    decreases |s|
  {
    if s != [] && IsJsWhitespace(s[|s| - 1]) then TrimEnd(s[..|s| - 1]) else s
  }

  /** `s.trim()`; `!text.trim()` holds exactly for the empty and the
      whitespace-only strings. */
  function Trim(s: string): (r: string)
    ensures r == [] <==> IsBlank(s)
    ensures r != [] ==> !IsJsWhitespace(r[0]) && !IsJsWhitespace(r[|r| - 1])
  {
    TrimEnd(TrimStart(s))
  }

  /** `toLowerCase` on the ASCII letters; every other character is kept. */
  function LowerChar(c: char): (r: char)
    ensures 'A' <= c <= 'Z' ==> 'a' <= r <= 'z'
    ensures !('A' <= c <= 'Z') ==> r == c
  {
    if 'A' <= c <= 'Z' then (c as int + 32) as char else c
  }

  function Lower(s: string): (r: string)
    ensures |r| == |s|
    ensures forall i :: 0 <= i < |s| ==> r[i] == LowerChar(s[i])
  {
    seq(|s|, i requires 0 <= i < |s| => LowerChar(s[i]))
  }

  /** `needle` occurs in `hay` starting at position `i`. */
  predicate OccursAt(hay: string, needle: string, i: int) {
    0 <= i && i + |needle| <= |hay| && hay[i..i + |needle|] == needle
  }

  /** `hay.includes(needle)`: a left-to-right scan for an occurrence. */
  function Contains(hay: string, needle: string): (r: bool)
    ensures r <==> exists i :: OccursAt(hay, needle, i)
    decreases |hay|
  {
    if |needle| > |hay| then false
    else if hay[..|needle|] == needle then (assert OccursAt(hay, needle, 0); true)
    else
      var rest := Contains(hay[1..], needle);
      if rest then
        var i :| OccursAt(hay[1..], needle, i);
        assert hay[1..][i..i + |needle|] == hay[i + 1..i + 1 + |needle|];
        assert OccursAt(hay, needle, i + 1);
        true
      else
        assert forall i :: OccursAt(hay, needle, i) && i > 0 ==> OccursAt(hay[1..], needle, i - 1) by {
          forall i | OccursAt(hay, needle, i) && i > 0 ensures OccursAt(hay[1..], needle, i - 1) {
            assert hay[1..][i - 1..i - 1 + |needle|] == hay[i..i + |needle|];
          }
        }
        false
  }

  /** The needle of a concatenation `before + needle + after` occurs in it. */
  lemma ContainsInMiddle(before: string, needle: string, after: string)
    ensures Contains(before + needle + after, needle)
  {
    var hay := before + needle + after;
    assert hay[|before|..|before| + |needle|] == needle;
    assert OccursAt(hay, needle, |before|);
  }

  /** The UTF-16 code units of one character: two for a character outside the
      Basic Multilingual Plane, which JavaScript stores as a surrogate pair. */
  function Utf16Units(c: char): nat {
    if c as int >= 0x1_0000 then 2 else 1
  }

  /** JavaScript's `length` of a string: its number of UTF-16 code units. It
      equals the number of characters exactly when none lies outside the Basic
      Multilingual Plane. */
  function Utf16Length(s: string): (r: nat)
    ensures |s| <= r <= 2 * |s|
    ensures r == |s| <==> forall i :: 0 <= i < |s| ==> s[i] as int < 0x1_0000
    decreases |s|
  {
    if s == [] then 0
    else
      var rest := Utf16Length(s[1..]);
      assert forall i :: 1 <= i < |s| ==> s[i] == s[1..][i - 1];
      Utf16Units(s[0]) + rest
  }
}
