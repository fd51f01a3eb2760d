/**
 * Go's `strconv.Quote`, which the `%q` verb of `fmt` applies: how each
 * character is written between the double quotes.
 */
module Quote {
  /** A character `strconv.Quote` writes as an escape: `"`, `\` and the ASCII control characters. */
  predicate NeedsEscape(c: char)
  {
    c == '"' || c == '\\' || c as int < 0x20 || c as int == 0x7F
  }

  /** A string `strconv.Quote` writes out as it is. */
  predicate NoEscapes(s: string)
  {
    forall i | 0 <= i < |s| :: !NeedsEscape(s[i])
  }

  const LowerHex: string := "0123456789abcdef"

  /** The two lower-case hexadecimal digits of a byte. */
  function HexByte(n: int): (r: string)
    requires 0 <= n < 256
    ensures |r| == 2 && r[1] != '"'
  {
    [LowerHex[n / 16], LowerHex[n % 16]]
  }

  /** The letter of a control character's named escape (`\a`, `\b`, `\f`, `\n`, `\r`, `\t`, `\v`), or `x` for the others. */
  function ControlLetter(n: int): char
  {
    if n == 0x07 then 'a'
    else if n == 0x08 then 'b'
    else if n == 0x0C then 'f'
    else if n == 0x0A then 'n'
    else if n == 0x0D then 'r'
    else if n == 0x09 then 't'
    else if n == 0x0B then 'v'
    else 'x'
  }

  /**
   * What `strconv.Quote` writes after the backslash of an escaped
   * character: the character itself for `"` and `\`, the letter of a named
   * escape, or `x` and two hexadecimal digits.
   */
  function EscapeTail(c: char): (r: string)
    requires NeedsEscape(c)
    ensures r != [] && (r[|r| - 1] == '"' <==> c == '"')
  {
    var n := c as int;
    if c == '"' || c == '\\' then [c]
    else if ControlLetter(n) != 'x' then [ControlLetter(n)]
    else ['x'] + HexByte(n)
  }

  /** How `strconv.Quote` writes one character between the quotes. */
  function Escape(c: char): (r: string)
    ensures r == [c] <==> !NeedsEscape(c)
    ensures NeedsEscape(c) ==> |r| >= 2 && r[0] == '\\'
    ensures r[|r| - 1] == '"' <==> c == '"'
  {
    if NeedsEscape(c) then ['\\'] + EscapeTail(c) else [c]
  }

  /**
   * The characters of `s` as `strconv.Quote` writes them between the
   * quotes; the result is never shorter, and empty only for the empty string.
   */
  function EscapeAll(s: string): (r: string)
    ensures |r| >= |s|
    ensures r == [] <==> s == []
    decreases |s|
  {
    if s == [] then [] else EscapeAll(s[..|s| - 1]) + Escape(s[|s| - 1])
  }

  /** The escaped form never begins with a quote, and ends with one exactly when the string does. */
  lemma {:induction false} EscapeAllEnds(s: string)
    requires s != []
    ensures EscapeAll(s)[0] != '"'
    ensures EscapeAll(s)[|EscapeAll(s)| - 1] == '"' <==> s[|s| - 1] == '"'
    decreases |s|
  {
    var init, c := s[..|s| - 1], s[|s| - 1];
    var e, t := EscapeAll(init), Escape(c);
    assert EscapeAll(s) == e + t;
    if init != [] {
      EscapeAllEnds(init);
      assert EscapeAll(s)[0] == e[0];
    } else {
      assert EscapeAll(s)[0] == t[0];
    }
    assert EscapeAll(s)[|EscapeAll(s)| - 1] == t[|t| - 1];
  }

  /**
   * Escaping leaves a string as it is exactly when nothing in it needs an
   * escape; otherwise the escaped form is longer and holds a backslash.
   */
  lemma {:induction false} EscapeAllPlain(s: string)
    ensures NoEscapes(s) ==> EscapeAll(s) == s
    ensures !NoEscapes(s) ==> |EscapeAll(s)| > |s| && '\\' in EscapeAll(s)
    decreases |s|
  {
    if s != [] {
      var init := s[..|s| - 1];
      var c := s[|s| - 1];
      assert s == init + [c];
      assert forall i | 0 <= i < |init| :: init[i] == s[i];
      EscapeAllPlain(init);
      if NoEscapes(init) && !NeedsEscape(c) {
        assert NoEscapes(s) by {
          forall i | 0 <= i < |s|
            ensures !NeedsEscape(s[i])
          {
            if i < |init| {
              assert s[i] == init[i];
            }
          }
        }
      } else if !NoEscapes(init) {
        assert !NoEscapes(s);
      } else {
        assert !NoEscapes(s);
        assert Escape(c)[0] == '\\';
      }
    }
  }

  lemma EscapeAllSnoc(s: string, c: char)
    ensures EscapeAll(s + [c]) == EscapeAll(s) + Escape(c)
  {
    assert (s + [c])[..|s|] == s;
  }

  /**
   * A string ending in a quote is escaped as the rest of it, a backslash
   * and that quote; the part before the quote has no quote at either end.
   */
  lemma EscapedEndQuote(s: string)
    requires s != [] && s[|s| - 1] == '"'
    ensures var e := EscapeAll(s[..|s| - 1]) + "\\";
      EscapeAll(s) == e + "\"" && e[0] != '"' && e[|e| - 1] != '"'
  {
    var init := s[..|s| - 1];
    if init != [] {
      EscapeAllEnds(init);
    }
    assert Escape('"') == ['\\', '"'];
    ConcatPair(EscapeAll(init), '\\', '"');
  }

  lemma ConcatPair(a: string, x: char, y: char)
    ensures a + [x, y] == a + [x] + [y]
  {
  }
}
