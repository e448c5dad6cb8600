/** Byte strings, as Go has them: every character of a `string` stands for one byte, so it is below 256.
    Only the handful of library operations the modelled code relies on are defined here. */
module Text {

  datatype Option<+T> = None | Some(value: T)

  /** Plain equality, whatever the type. */
  ghost predicate Same<T>(a: T, b: T)
  {
    a == b
  }

  lemma ConcatIsAssociative(a: string, b: string, c: string)
    ensures a + b + c == a + (b + c)
  {
  }

  /** The index of the first `c` in `s`, or |s| when there is none. */
  function Find(s: string, c: char): (n: nat)
    ensures n <= |s|
    ensures forall i :: 0 <= i < n ==> s[i] != c
    ensures n < |s| ==> s[n] == c
  {
    if s == "" || s[0] == c then 0 else 1 + Find(s[1..], c)
  }

  lemma {:induction false} FindAt(s: string, c: char, n: nat)
    requires n <= |s|
    requires forall i :: 0 <= i < n ==> s[i] != c
    requires n < |s| ==> s[n] == c
    ensures Find(s, c) == n
  {
    if n > 0 {
      FindAt(s[1..], c, n - 1);
    }
  }

  predicate HasSuffix(s: string, suffix: string)
  {
    |suffix| <= |s| && s[|s| - |suffix|..] == suffix
  }

  function TrimSuffix(s: string, suffix: string): string
  {
    if HasSuffix(s, suffix) then s[..|s| - |suffix|] else s
  }

  predicate Contains(s: string, part: string)
  {
    |part| <= |s| && (part <= s || Contains(s[1..], part))
  }

  predicate AsciiSpace(c: char)
  {
    9 <= c as int <= 13 || c == ' '
  }

  /** Printable ASCII other than the space. */
  predicate Visible(c: char)
  {
    '!' <= c <= '~'
  }

  /** The length of the white-space rune `s` begins with, in UTF-8; 0 when it does not begin with one. */
  function SpaceAtStart(s: string): (n: nat)
    ensures n <= |s|
    ensures s != "" && Visible(s[0]) ==> n == 0
  {
    if |s| >= 1 && AsciiSpace(s[0]) then 1
    else if |s| >= 2 && TwoByteSpace(s[0], s[1]) then 2
    else if |s| >= 3 && ThreeByteSpace(s[0], s[1], s[2]) then 3
    else 0
  }

  function SpaceAtEnd(s: string): (n: nat)
    ensures n <= |s|
    ensures s != "" && Visible(s[|s| - 1]) ==> n == 0
  {
    if |s| >= 1 && AsciiSpace(s[|s| - 1]) then 1
    else if |s| >= 2 && TwoByteSpace(s[|s| - 2], s[|s| - 1]) then 2
    else if |s| >= 3 && ThreeByteSpace(s[|s| - 3], s[|s| - 2], s[|s| - 1]) then 3
    else 0
  }

  /** The UTF-8 forms of the white-space runes beyond ASCII: none ends in a visible character. */
  predicate TwoByteSpace(a: char, b: char)
  {
    a as int == 0xC2 && (b as int == 0x85 || b as int == 0xA0)
  }

  predicate ThreeByteSpace(a: char, b: char, c: char)
  {
    || (a as int == 0xE1 && b as int == 0x9A && c as int == 0x80)
    || (a as int == 0xE2 && b as int == 0x80 &&
        (0x80 <= c as int <= 0x8A || 0xA8 <= c as int <= 0xA9 || c as int == 0xAF))
    || (a as int == 0xE2 && b as int == 0x81 && c as int == 0x9F)
    || (a as int == 0xE3 && b as int == 0x80 && c as int == 0x80)
  }

  function TrimLeft(s: string): (r: string)
    ensures s == "" || Visible(s[0]) ==> r == s
    decreases |s|
  {
    var n := SpaceAtStart(s);
    if n == 0 then s else TrimLeft(s[n..])
  }

  function TrimRight(s: string): (r: string)
    ensures s == "" || Visible(s[|s| - 1]) ==> r == s
    decreases |s|
  {
    var n := SpaceAtEnd(s);
    if n == 0 then s else TrimRight(s[..|s| - n])
  }

  /** `strings.TrimSpace`. */
  function Trim(s: string): string
  {
    TrimRight(TrimLeft(s))
  }

  /** `strings.ToLower`, as far as ASCII results go. Besides the capital letters only two runes have an ASCII
      lower case: U+0130 and U+212A. Every other rune stays outside ASCII and is left as it is here. */
  function Lower(s: string): (r: string)
  {
    if s == "" then ""
    else if |s| >= 2 && s[0] as int == 0xC4 && s[1] as int == 0xB0 then "i" + Lower(s[2..])
    else if |s| >= 3 && s[0] as int == 0xE2 && s[1] as int == 0x84 && s[2] as int == 0xAA then "k" + Lower(s[3..])
    else if 'A' <= s[0] <= 'Z' then [(s[0] as int + 32) as char] + Lower(s[1..])
    else [s[0]] + Lower(s[1..])
  }

  predicate Capital(c: char)
  {
    'A' <= c <= 'Z'
  }

  lemma {:induction false} LowerKeeps(s: string)
    requires forall i :: 0 <= i < |s| ==> s[i] < (0x80 as char) && !Capital(s[i])
    ensures Lower(s) == s
  {
    if s != "" {
      LowerKeeps(s[1..]);
    }
  }

  lemma {:induction false} LowerHasNoCapital(s: string)
    ensures forall i :: 0 <= i < |Lower(s)| ==> !Capital(Lower(s)[i])
  {
    if s == "" {
    } else if |s| >= 2 && s[0] as int == 0xC4 && s[1] as int == 0xB0 {
      LowerHasNoCapital(s[2..]);
    } else if |s| >= 3 && s[0] as int == 0xE2 && s[1] as int == 0x84 && s[2] as int == 0xAA {
      LowerHasNoCapital(s[3..]);
    } else {
      LowerHasNoCapital(s[1..]);
    }
  }

  /** Well-formed UTF-8, section 4 of RFC 3629. */
  predicate ValidUtf8(s: string)
  {
    if s == "" then true
    else
      var a := s[0] as int;
      if a < 0x80 then ValidUtf8(s[1..])
      else if 0xC2 <= a <= 0xDF then |s| >= 2 && Tail(s[1]) && ValidUtf8(s[2..])
      else if 0xE0 <= a <= 0xEF then
        && |s| >= 3 && Tail(s[1]) && Tail(s[2])
        && (a == 0xE0 ==> s[1] as int >= 0xA0) && (a == 0xED ==> s[1] as int <= 0x9F)
        && ValidUtf8(s[3..])
      else if 0xF0 <= a <= 0xF4 then
        && |s| >= 4 && Tail(s[1]) && Tail(s[2]) && Tail(s[3])
        && (a == 0xF0 ==> s[1] as int >= 0x90) && (a == 0xF4 ==> s[1] as int <= 0x8F)
        && ValidUtf8(s[4..])
      else false
  }

  predicate Tail(c: char)
  {
    0x80 <= c as int <= 0xBF
  }

  /** A line `scanner.Scan` delivers loses one trailing carriage return. */
  function DropCR(s: string): string
  {
    if |s| > 0 && s[|s| - 1] == '\r' then s[..|s| - 1] else s
  }
}
