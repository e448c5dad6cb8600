/** The VMX format of internal/vmx/parser.go: parser, printer and the laws that tie them together. */
module Vmx {
  import opened Text

  type Config = map<string, string>

  /** The longest line plus one that the scanner accepts (its buffer is 1 MiB). */
  const MAX_TOKEN := 0x10_0000

  // ---------------------------------------------------------------------------------------------
  // Escapes

  function Hex(n: nat): (c: char)
    requires n < 16
  {
    if n < 10 then ('0' as int + n) as char else ('A' as int + n - 10) as char
  }

  function Unhex(c: char): Option<nat>
  {
    if '0' <= c <= '9' then Some(c as int - '0' as int)
    else if 'A' <= c <= 'F' then Some(c as int - 'A' as int + 10)
    else if 'a' <= c <= 'f' then Some(c as int - 'a' as int + 10)
    else None
  }

  predicate Escaped(c: char)
  {
    c == '|' || c == '"' || c as int < 32 || c as int == 127
  }

  function EncodeChar(c: char): string
  {
    if Escaped(c) then ['|', Hex(c as int / 16), Hex(c as int % 16)] else [c]
  }

  function Encoded(s: string): string
  {
    if s == "" then "" else EncodeChar(s[0]) + Encoded(s[1..])
  }

  /** The bytes a quoted value stands for; no text check yet. */
  function Unescaped(s: string): Option<string>
  {
    if s == "" then Some("")
    else if s[0] != '|' then
      var rest := Unescaped(s[1..]);
      if rest.None? then None else Some([s[0]] + rest.value)
    else if |s| < 3 || Unhex(s[1]).None? || Unhex(s[2]).None? then None
    else
      var rest := Unescaped(s[3..]);
      if rest.None? then None else Some([(Unhex(s[1]).value * 16 + Unhex(s[2]).value) as char] + rest.value)
  }

  predicate PlainText(s: string)
  {
    ValidUtf8(s) && 0 as char !in s
  }

  function Decoded(s: string): Option<string>
  {
    var r := Unescaped(s);
    if r.Some? && PlainText(r.value) then r else None
  }

  lemma UnescapeStep(s: string, i: nat)
    requires i < |s|
    ensures s[i] != '|' ==>
              var rest := Unescaped(s[i + 1..]);
              Unescaped(s[i..]) == if rest.None? then None else Some([s[i]] + rest.value)
    ensures s[i] == '|' && (i + 2 >= |s| || Unhex(s[i + 1]).None? || Unhex(s[i + 2]).None?) ==>
      Unescaped(s[i..]) == None
    ensures s[i] == '|' && i + 2 < |s| && Unhex(s[i + 1]).Some? && Unhex(s[i + 2]).Some? ==>
              var rest, c := Unescaped(s[i + 3..]), Unhex(s[i + 1]).value * 16 + Unhex(s[i + 2]).value;
              Unescaped(s[i..]) == if rest.None? then None else Some([c as char] + rest.value)
  {
    assert s[i..][1..] == s[i + 1..];
    if i + 2 < |s| {
      assert s[i..][3..] == s[i + 3..];
    }
  }

  lemma {:induction false} UnescapeEncoded(s: string)
    ensures Unescaped(Encoded(s)) == Some(s)
  {
    if s != "" {
      UnescapeEncoded(s[1..]);
      var rest := Encoded(s[1..]);
      var e := EncodeChar(s[0]) + rest;
      assert s == [s[0]] + s[1..];
      if Escaped(s[0]) {
        assert e[3..] == rest && e[0] == '|' && e[1] == Hex(s[0] as int / 16) && e[2] == Hex(s[0] as int % 16);
      } else {
        assert e[1..] == rest;
      }
    }
  }

  lemma {:induction false} EncodedIsQuotable(s: string)
    ensures forall i :: 0 <= i < |Encoded(s)| ==> Encoded(s)[i] != '"' && Encoded(s)[i] != '\n'
  {
    if s != "" {
      EncodedIsQuotable(s[1..]);
    }
  }

  lemma EncodeStep(s: string, i: nat)
    requires i < |s|
    ensures Encoded(s[i..]) == EncodeChar(s[i]) + Encoded(s[i + 1..])
  {
    assert s[i..][1..] == s[i + 1..];
  }

  method Encode(s: string) returns (b: string)
    ensures b == Encoded(s)
  {
    b := "";
    for i := 0 to |s|
      invariant b + Encoded(s[i..]) == Encoded(s)
    {
      EncodeStep(s, i);
      ConcatIsAssociative(b, EncodeChar(s[i]), Encoded(s[i + 1..]));
      b := b + EncodeChar(s[i]);
    }
  }

  method Decode(s: string) returns (r: Option<string>)
    ensures r == Decoded(s)
  {
    var b, i := "", 0;
    while i < |s|
      invariant 0 <= i <= |s|
      invariant Unescaped(s).Some? <==> Unescaped(s[i..]).Some?
      invariant Unescaped(s).Some? ==> Unescaped(s).value == b + Unescaped(s[i..]).value
    {
      UnescapeStep(s, i);
      if s[i] == '|' {
        if i + 2 >= |s| || Unhex(s[i + 1]).None? || Unhex(s[i + 2]).None? {
          return None;
        }
        b := b + [(Unhex(s[i + 1]).value * 16 + Unhex(s[i + 2]).value) as char];
        i := i + 3;
      } else {
        b := b + [s[i]];
        i := i + 1;
      }
    }
    assert s[i..] == "" && b + "" == b;
    return if PlainText(b) then Some(b) else None;
  }

  // ---------------------------------------------------------------------------------------------
  // Lines

  datatype Line = Blank | Entry(key: string, value: string) | Bad

  predicate KeyChar(c: char)
  {
    'a' <= c <= 'z' || 'A' <= c <= 'Z' || '0' <= c <= '9' || c == '_' || c == '.' || c == ':' || c == '-'
  }

  predicate KeyPattern(k: string)
  {
    k != "" && forall i :: 0 <= i < |k| ==> KeyChar(k[i])
  }

  function ParseLine(line: string): Line
  {
    var t := Trim(line);
    if t == "" || t[0] == '#' then Blank else ParseEntry(t)
  }

  function ParseEntry(t: string): Line
  {
    var n := Find(t, '=');
    if n == |t| then Bad
    else
      var k, value := Lower(Trim(t[..n])), ParseValue(Trim(t[n + 1..]));
      if !KeyPattern(k) || value.None? then Bad else Entry(k, value.value)
  }

  /** A quoted value, with nothing but white space or a comment after it. */
  function ParseValue(v: string): Option<string>
  {
    if v == "" || v[0] != '"' then None
    else
      var end := 1 + Find(v[1..], '"');
      if end == |v| then None
      else
        var rest := Trim(v[end + 1..]);
        if rest != "" && rest[0] != '#' then None else Decoded(v[1..end])
  }

  /** What `bufio.Scanner` delivers: the lines without their line ends, or None when one is too long. */
  function Lines(text: string): Option<seq<string>>
    decreases |text|
  {
    if text == "" then Some([])
    else
      var n := Find(text, '\n');
      var rest := Lines(if n < |text| then text[n + 1..] else "");
      if n >= MAX_TOKEN || rest.None? then None else Some([DropCR(text[..n])] + rest.value)
  }

  /** The configuration one line adds to `c`; None when it is malformed or names a key again. */
  function AddLine(c: Config, line: string): Option<Config>
  {
    match ParseLine(line)
    case Blank => Some(c)
    case Bad => None
    case Entry(k, v) => if k in c then None else Some(c[k := v])
  }

  /** The configuration the lines add to `c`. */
  function ParseLines(lines: seq<string>, c: Config): Option<Config>
  {
    if lines == [] then Some(c)
    else
      var next := AddLine(c, lines[0]);
      if next.None? then None else ParseLines(lines[1..], next.value)
  }

  /** What scanning and parsing the rest of a text makes of `c`. */
  function Resume(text: string, c: Config): Option<Config>
  {
    var lines := Lines(text);
    if lines.None? then None else ParseLines(lines.value, c)
  }

  lemma ParseLinesStep(line: string, lines: seq<string>, c: Config)
    ensures ParseLines([line] + lines, c) ==
      var next := AddLine(c, line);
      if next.None? then None else ParseLines(lines, next.value)
  {
    assert ([line] + lines)[1..] == lines;
  }

  lemma ResumeStep(text: string, c: Config)
    requires text != ""
    ensures var n := Find(text, '\n');
            var next := AddLine(c, DropCR(text[..n]));
            Resume(text, c) ==
              if n >= MAX_TOKEN || next.None? then None
              else Resume(if n < |text| then text[n + 1..] else "", next.value)
  {
    var n := Find(text, '\n');
    var rest := Lines(if n < |text| then text[n + 1..] else "");
    if rest.Some? {
      ParseLinesStep(DropCR(text[..n]), rest.value, c);
    }
  }

  predicate Utf8Encoding(c: Config)
  {
    ".encoding" in c ==> Lower(c[".encoding"]) == "utf-8" && |c[".encoding"]| == 5
  }

  function Parsed(text: string): Option<Config>
  {
    var r := Resume(text, map[]);
    if r.Some? && r.value != map[] && Utf8Encoding(r.value) then r else None
  }

  method Parse(text: string) returns (r: Option<Config>)
    ensures r == Parsed(text)
  {
    var c: Config, rest := map[], text;
    while rest != ""
      invariant Resume(text, map[]) == Resume(rest, c)
      decreases |rest|
    {
      ResumeStep(rest, c);
      var n := Find(rest, '\n');
      if n >= MAX_TOKEN {
        return None;
      }
      var next := AddLine(c, DropCR(rest[..n]));
      if next.None? {
        return None;
      }
      c, rest := next.value, if n < |rest| then rest[n + 1..] else "";
    }
    return if c == map[] || !Utf8Encoding(c) then None else Some(c);
  }

  // ---------------------------------------------------------------------------------------------
  // Printing

  function PrintLine(k: string, v: string): string
  {
    k + " = \"" + Encoded(v) + "\"\n"
  }

  function Printed(keys: seq<string>, c: Config): string
    requires forall i :: 0 <= i < |keys| ==> keys[i] in c
  {
    if keys == [] then "" else PrintLine(keys[0], c[keys[0]]) + Printed(keys[1..], c)
  }

  /** Byte-wise order, as `sort.Strings` uses it. */
  predicate Before(a: string, b: string)
  {
    if b == "" then false
    else if a == "" then true
    else a[0] < b[0] || (a[0] == b[0] && Before(a[1..], b[1..]))
  }

  lemma {:induction false} BeforeIsTotal(a: string, b: string)
    ensures Before(a, b) || Before(b, a) || a == b
  {
    if a != "" && b != "" && a[0] == b[0] {
      BeforeIsTotal(a[1..], b[1..]);
      if a[1..] == b[1..] {
        assert a == [a[0]] + a[1..];
      }
    }
  }

  lemma {:induction false} BeforeIsTransitive(a: string, b: string, c: string)
    requires Before(a, b) && Before(b, c)
    ensures Before(a, c)
  {
    if a != "" && a[0] == b[0] && b[0] == c[0] {
      BeforeIsTransitive(a[1..], b[1..], c[1..]);
    }
  }

  lemma {:induction false} BeforeIsIrreflexive(a: string)
    ensures !Before(a, a)
  {
    if a != "" {
      BeforeIsIrreflexive(a[1..]);
    }
  }

  predicate Increasing(s: seq<string>)
  {
    forall i, j :: 0 <= i < j < |s| ==> Before(s[i], s[j])
  }

  ghost predicate Enumerates(keys: seq<string>, c: Config)
  {
    && (forall k :: k in keys <==> k in c)
    && (forall i, j :: 0 <= i < j < |keys| ==> keys[i] != keys[j])
  }

  /** The order of the keys in the printed text is determined by the set of keys. */
  lemma {:induction false} IncreasingIsUnique(a: seq<string>, b: seq<string>)
    requires Increasing(a) && Increasing(b)
    requires forall k :: k in a <==> k in b
    ensures a == b
  {
    assert b == [] || b[0] in b;
    if a != [] {
      assert a[0] in b;
      assert b[0] in a;
      var i :| 0 <= i < |b| && b[i] == a[0];
      var j :| 0 <= j < |a| && a[j] == b[0];
      if i != 0 || j != 0 {
        assert i == 0 || Before(b[0], a[0]);
        assert j == 0 || Before(a[0], b[0]);
        if i != 0 && j != 0 {
          BeforeIsTransitive(a[0], b[0], a[0]);
        }
        BeforeIsIrreflexive(a[0]);
        assert false;
      }
      forall k ensures k in a[1..] <==> k in b[1..] {
        BeforeIsIrreflexive(a[0]);
        if k in a[1..] {
          var n :| 1 <= n < |a| && a[n] == k;
          assert Before(a[0], k);
          assert k in b;
        }
        if k in b[1..] {
          var n :| 1 <= n < |b| && b[n] == k;
          assert Before(b[0], k);
          assert k in a;
        }
      }
      IncreasingIsUnique(a[1..], b[1..]);
      assert a == [a[0]] + a[1..] && b == [b[0]] + b[1..];
    }
  }

  method InsertSorted(keys: seq<string>, k: string) returns (r: seq<string>)
    requires Increasing(keys) && k !in keys
    ensures Increasing(r) && multiset(r) == multiset(keys) + multiset{k}
  {
    var i := 0;
    while i < |keys| && Before(keys[i], k)
      invariant 0 <= i <= |keys|
      invariant forall j :: 0 <= j < i ==> Before(keys[j], k)
    {
      i := i + 1;
    }
    if i < |keys| {
      BeforeIsTotal(keys[i], k);
      forall j | i < j < |keys| ensures Before(k, keys[j]) {
        BeforeIsTransitive(k, keys[i], keys[j]);
      }
    }
    r := keys[..i] + [k] + keys[i..];
    assert keys == keys[..i] + keys[i..];
  }

  method SortedKeys(c: Config) returns (keys: seq<string>)
    ensures Increasing(keys) && forall k :: k in keys <==> k in c
  {
    var todo := c.Keys;
    keys := [];
    while todo != {}
      invariant todo <= c.Keys && Increasing(keys)
      invariant forall k :: k in keys <==> k in c.Keys - todo
    {
      var k :| k in todo;
      var next := InsertSorted(keys, k);
      assert forall x :: x in next <==> x in multiset(next);
      assert forall x :: x in keys <==> x in multiset(keys);
      keys, todo := next, todo - {k};
    }
  }

  /** `Config.String`: the keys in order, one line each. */
  method String(c: Config) returns (text: string)
    ensures PrintOf(c, text)
  {
    var sorted := SortedKeys(c);
    forall i, j | 0 <= i < j < |sorted| ensures sorted[i] != sorted[j] {
      BeforeIsIrreflexive(sorted[i]);
    }
    text := PrintAll(sorted, c);
    assert Enumerates(sorted, c);
  }

  /** The text lists every key once, in order, with its encoded value. */
  ghost predicate PrintOf(c: Config, text: string)
  {
    exists keys :: Enumerates(keys, c) && Increasing(keys) && text == Printed(keys, c)
  }

  method PrintAll(sorted: seq<string>, c: Config) returns (text: string)
    requires forall k :: k in sorted ==> k in c
    ensures text == Printed(sorted, c)
  {
    var rest := sorted;
    text := "";
    while rest != []
      invariant forall k :: k in rest ==> k in c
      invariant text + Printed(rest, c) == Printed(sorted, c)
      decreases |rest|
    {
      var value := Encode(c[rest[0]]);
      ghost var before := text;
      text := text + (rest[0] + " = \"" + value + "\"\n");
      assert before + Printed(rest, c) == text + Printed(rest[1..], c);
      rest := rest[1..];
    }
  }

  // ---------------------------------------------------------------------------------------------
  // Laws

  predicate LegalKey(k: string)
  {
    KeyPattern(k) && forall i :: 0 <= i < |k| ==> !Capital(k[i])
  }

  /** What every parsed configuration satisfies. */
  predicate Legal(c: Config)
  {
    c != map[] && Utf8Encoding(c) && forall k :: k in c ==> LegalKey(k) && PlainText(c[k])
  }

  predicate Fits(c: Config)
  {
    forall k :: k in c ==> |PrintLine(k, c[k])| <= MAX_TOKEN
  }

  lemma EntryIsLegal(t: string)
    requires ParseEntry(t).Entry?
    ensures LegalKey(ParseEntry(t).key) && PlainText(ParseEntry(t).value)
  {
    LowerHasNoCapital(Trim(t[..Find(t, '=')]));
  }

  lemma {:induction false} ParseLinesIsLegal(lines: seq<string>, c: Config)
    requires forall k :: k in c ==> LegalKey(k) && PlainText(c[k])
    ensures var r := ParseLines(lines, c);
            r.Some? ==> forall k :: k in r.value ==> LegalKey(k) && PlainText(r.value[k])
  {
    if lines != [] {
      if ParseLine(lines[0]).Entry? {
        EntryIsLegal(Trim(lines[0]));
      }
      var next := AddLine(c, lines[0]);
      if next.Some? {
        ParseLinesIsLegal(lines[1..], next.value);
      }
    }
  }

  lemma ParsedIsLegal(text: string)
    requires Parsed(text).Some?
    ensures Legal(Parsed(text).value)
  {
    ParseLinesIsLegal(Lines(text).value, map[]);
  }

  lemma ValueRoundTrip(v: string)
    requires PlainText(v)
    ensures ParseValue("\"" + Encoded(v) + "\"") == Some(v)
  {
    var e := Encoded(v);
    var q := "\"" + e + "\"";
    EncodedIsQuotable(v);
    assert q[1..] == e + "\"";
    FindAt(q[1..], '"', |e|);
    assert q[1..1 + |e|] == e;
    assert q[|e| + 2..] == "";
    UnescapeEncoded(v);
  }

  lemma TrimSpaceAfterKey(k: string)
    requires LegalKey(k)
    ensures Trim(k + " ") == k
  {
    var s := k + " ";
    assert s[0] == k[0] && KeyChar(k[0]) && KeyChar(k[|k| - 1]);
    assert s[..|s| - 1] == k;
    assert TrimRight(s) == TrimRight(k);
  }

  lemma TrimSpaceBeforeValue(q: string)
    requires q != "" && q[0] == '"' && q[|q| - 1] == '"'
    ensures Trim(" " + q) == q
  {
    assert (" " + q)[1..] == q;
    assert TrimLeft(" " + q) == TrimLeft(q);
  }

  lemma EntryParts(k: string, q: string)
    requires LegalKey(k) && q != "" && q[0] == '"' && q[|q| - 1] == '"'
    ensures var t := k + " = " + q;
            && Trim(t) == t && t[0] == k[0] && Find(t, '=') == |k| + 1
            && t[..|k| + 1] == k + " " && t[|k| + 2..] == " " + q
  {
    EntryEnds(k, q);
    EntryFind(k, q);
    EntrySplit(k, q);
  }

  lemma EntryEnds(k: string, q: string)
    requires LegalKey(k) && q != "" && q[0] == '"' && q[|q| - 1] == '"'
    ensures var t := k + " = " + q; Trim(t) == t && t[0] == k[0]
  {
    var t := k + " = " + q;
    assert t[0] == k[0] && KeyChar(k[0]) && t[|t| - 1] == '"';
    assert TrimLeft(t) == t && TrimRight(t) == t;
  }

  lemma EntryFind(k: string, q: string)
    requires LegalKey(k)
    ensures Find(k + " = " + q, '=') == |k| + 1
  {
    var t := k + " = " + q;
    assert forall i :: 0 <= i < |k| ==> t[i] == k[i] && KeyChar(k[i]);
    FindAt(t, '=', |k| + 1);
  }

  lemma EntrySplit(k: string, q: string)
    ensures var t := k + " = " + q; t[..|k| + 1] == k + " " && t[|k| + 2..] == " " + q
  {
  }

  lemma EntryRoundTrip(k: string, q: string, v: string)
    requires LegalKey(k) && q != "" && q[0] == '"' && q[|q| - 1] == '"' && ParseValue(q) == Some(v)
    ensures ParseLine(k + " = " + q) == Entry(k, v)
  {
    EntryParts(k, q);
    TrimSpaceAfterKey(k);
    LowerKeeps(k);
    TrimSpaceBeforeValue(q);
    assert KeyChar(k[0]);
  }

  /** One printed line, without its newline, parses to exactly the entry it prints. */
  lemma LineRoundTrip(k: string, v: string)
    requires LegalKey(k) && PlainText(v)
    ensures var line := PrintLine(k, v);
            Find(line, '\n') == |line| - 1 && ParseLine(DropCR(line[..|line| - 1])) == Entry(k, v)
  {
    EncodedIsQuotable(v);
    var line := PrintLine(k, v);
    var q := "\"" + Encoded(v) + "\"";
    var t := k + " = " + q;
    assert line == t + "\n" && line[..|line| - 1] == t;
    assert forall i :: 0 <= i < |k| ==> t[i] == k[i] && KeyChar(k[i]);
    FindAt(line, '\n', |line| - 1);
    ValueRoundTrip(v);
    EntryRoundTrip(k, q, v);
  }

  function Added(keys: seq<string>, c: Config, done: Config): Config
    requires forall i :: 0 <= i < |keys| ==> keys[i] in c
  {
    if keys == [] then done else Added(keys[1..], c, done[keys[0] := c[keys[0]]])
  }

  lemma {:induction false} AddedAt(keys: seq<string>, c: Config, done: Config)
    requires forall i :: 0 <= i < |keys| ==> keys[i] in c
    ensures forall k :: k in Added(keys, c, done) <==> k in done || k in keys
    ensures forall k :: k in keys ==> Added(keys, c, done)[k] == c[k]
    ensures forall k :: k in done && k !in keys ==> Added(keys, c, done)[k] == done[k]
  {
    if keys != [] {
      AddedAt(keys[1..], c, done[keys[0] := c[keys[0]]]);
      assert forall k :: k in keys <==> k == keys[0] || k in keys[1..];
    }
  }

  predicate AllFit(keys: seq<string>, c: Config)
    requires forall i :: 0 <= i < |keys| ==> keys[i] in c
  {
    keys == [] || (|PrintLine(keys[0], c[keys[0]])| <= MAX_TOKEN && AllFit(keys[1..], c))
  }

  lemma {:induction false} AllFitIsFits(keys: seq<string>, c: Config)
    requires forall i :: 0 <= i < |keys| ==> keys[i] in c
    ensures AllFit(keys, c) <==> forall k :: k in keys ==> |PrintLine(k, c[k])| <= MAX_TOKEN
  {
    if keys != [] {
      AllFitIsFits(keys[1..], c);
      assert forall k :: k in keys <==> k == keys[0] || k in keys[1..];
    }
  }

  function Bodies(keys: seq<string>, c: Config): seq<string>
    requires forall i :: 0 <= i < |keys| ==> keys[i] in c
  {
    if keys == [] then [] else [Body(keys[0], c[keys[0]])] + Bodies(keys[1..], c)
  }

  /** A printed line as the scanner delivers it. */
  function Body(k: string, v: string): string
  {
    var line := PrintLine(k, v);
    DropCR(line[..|line| - 1])
  }

  lemma AddBody(k: string, v: string, done: Config)
    requires LegalKey(k) && PlainText(v) && k !in done
    ensures AddLine(done, Body(k, v)) == Some(done[k := v])
  {
    LineRoundTrip(k, v);
  }

  lemma FirstLine(line: string, rest: string)
    requires line != "" && Find(line, '\n') == |line| - 1
    ensures Lines(line + rest) ==
      if |line| > MAX_TOKEN || Lines(rest).None? then None
      else Some([DropCR(line[..|line| - 1])] + Lines(rest).value)
  {
    var text := line + rest;
    FindAt(text, '\n', |line| - 1);
    assert text[..|line| - 1] == line[..|line| - 1];
    assert text[|line|..] == rest;
  }

  /** The scanner splits printed text into its entries, and fails exactly when one of the lines is too long. */
  lemma {:induction false} LinesOfPrinted(keys: seq<string>, c: Config)
    requires forall i :: 0 <= i < |keys| ==> keys[i] in c
    requires forall k :: k in c ==> LegalKey(k) && PlainText(c[k])
    ensures Lines(Printed(keys, c)) == if AllFit(keys, c) then Some(Bodies(keys, c)) else None
  {
    if keys != [] {
      var line := PrintLine(keys[0], c[keys[0]]);
      LineRoundTrip(keys[0], c[keys[0]]);
      FirstLine(line, Printed(keys[1..], c));
      LinesOfPrinted(keys[1..], c);
    }
  }

  lemma {:induction false} ParseBodies(keys: seq<string>, c: Config, done: Config)
    requires forall i :: 0 <= i < |keys| ==> keys[i] in c && keys[i] !in done
    requires forall i, j :: 0 <= i < j < |keys| ==> keys[i] != keys[j]
    requires forall k :: k in c ==> LegalKey(k) && PlainText(c[k])
    ensures ParseLines(Bodies(keys, c), done) == Some(Added(keys, c, done))
  {
    if keys != [] {
      var k, v := keys[0], c[keys[0]];
      AddBody(k, v, done);
      ParseLinesStep(Body(k, v), Bodies(keys[1..], c), done);
      ParseBodies(keys[1..], c, done[k := v]);
    }
  }

  /** For every configuration a parse can produce, printing and parsing again gives it back exactly when no
      printed line exceeds the scanner's limit; otherwise the text is refused. */
  lemma {:induction false} RoundTrip(keys: seq<string>, c: Config)
    requires Legal(c) && Enumerates(keys, c)
    ensures Parsed(Printed(keys, c)) == if Fits(c) then Some(c) else None
  {
    assert forall i :: 0 <= i < |keys| ==> keys[i] in keys;
    LinesOfPrinted(keys, c);
    ParseBodies(keys, c, map[]);
    AddedAll(keys, c);
    AllFitIsFits(keys, c);
  }

  lemma AddedAll(keys: seq<string>, c: Config)
    requires Enumerates(keys, c)
    ensures Added(keys, c, map[]) == c
  {
    AddedAt(keys, c, map[]);
  }

  lemma SplitAt(a: string, x: string, b: string, y: string, c: char)
    requires a + [c] + x == b + [c] + y && c !in a && c !in b
    ensures a == b && x == y
  {
    var s, s' := a + [c] + x, b + [c] + y;
    assert forall i :: 0 <= i < |a| ==> s[i] == a[i];
    assert forall i :: 0 <= i < |b| ==> s'[i] == b[i];
    FindAt(s, c, |a|);
    FindAt(s', c, |b|);
    assert s[..|a|] == a && s'[..|b|] == b && s[|a| + 1..] == x && s'[|b| + 1..] == y;
  }

  lemma LinesDiffer(k: string, v: string, rest: string, k': string, v': string, rest': string)
    requires LegalKey(k) && LegalKey(k')
    requires PrintLine(k, v) + rest == PrintLine(k', v') + rest'
    ensures k == k' && v == v' && rest == rest'
  {
    var x, y := Encoded(v) + "\"" + ("\n" + rest), Encoded(v') + "\"" + ("\n" + rest');
    assert PrintLine(k, v) + rest == k + " " + ("= \"" + x);
    assert PrintLine(k', v') + rest' == k' + " " + ("= \"" + y);
    assert ' ' !in k && ' ' !in k' by {
      assert forall i :: 0 <= i < |k| ==> KeyChar(k[i]);
      assert forall i :: 0 <= i < |k'| ==> KeyChar(k'[i]);
    }
    SplitAt(k, "= \"" + x, k', "= \"" + y, ' ');
    assert ("= \"" + x)[3..] == x && ("= \"" + y)[3..] == y;
    EncodedIsQuotable(v);
    EncodedIsQuotable(v');
    SplitAt(Encoded(v), "\n" + rest, Encoded(v'), "\n" + rest', '"');
    assert ("\n" + rest)[1..] == rest && ("\n" + rest')[1..] == rest';
    UnescapeEncoded(v);
    UnescapeEncoded(v');
  }

  /** Equal texts come from equal configurations, whatever the order of the keys and however long the lines:
      comparing two printed configurations compares the configurations. */
  lemma {:induction false} PrintedIsInjective(keys: seq<string>, c: Config, keys': seq<string>, c': Config)
    requires forall i :: 0 <= i < |keys| ==> keys[i] in c && LegalKey(keys[i])
    requires forall i :: 0 <= i < |keys'| ==> keys'[i] in c' && LegalKey(keys'[i])
    requires Printed(keys, c) == Printed(keys', c')
    ensures keys == keys' && forall i :: 0 <= i < |keys| ==> c[keys[i]] == c'[keys[i]]
  {
    assert keys != [] ==> |PrintLine(keys[0], c[keys[0]])| > 0;
    assert keys' != [] ==> |PrintLine(keys'[0], c'[keys'[0]])| > 0;
    if keys != [] {
      LinesDiffer(keys[0], c[keys[0]], Printed(keys[1..], c), keys'[0], c'[keys'[0]], Printed(keys'[1..], c'));
      PrintedIsInjective(keys[1..], c, keys'[1..], c');
      assert keys == [keys[0]] + keys[1..] && keys' == [keys'[0]] + keys'[1..];
      forall i | 0 <= i < |keys| ensures c[keys[i]] == c'[keys[i]] {
        if i > 0 {
          assert keys[i] == keys[1..][i - 1];
        }
      }
    }
  }

  lemma {:induction false} PrintedDetermines(keys: seq<string>, c: Config, keys': seq<string>, c': Config)
    requires Enumerates(keys, c) && Enumerates(keys', c')
    requires forall k :: k in c ==> LegalKey(k)
    requires forall k :: k in c' ==> LegalKey(k)
    ensures Printed(keys, c) == Printed(keys', c') ==> c == c'
    ensures Increasing(keys) && Increasing(keys') && c == c' ==> Printed(keys, c) == Printed(keys', c')
  {
    assert forall i :: 0 <= i < |keys| ==> keys[i] in keys;
    assert forall i :: 0 <= i < |keys'| ==> keys'[i] in keys';
    if Printed(keys, c) == Printed(keys', c') {
      PrintedIsInjective(keys, c, keys', c');
      assert forall k :: k in c ==> k in keys;
      assert forall k :: k in c' ==> k in keys';
      assert c.Keys == c'.Keys;
    }
    if Increasing(keys) && Increasing(keys') && c == c' {
      IncreasingIsUnique(keys, keys');
    }
  }

  /** Printing and parsing gives every legal configuration back exactly when its lines fit. */
  lemma {:induction false} ParsePrint(c: Config, text: string)
    requires Legal(c) && PrintOf(c, text)
    ensures Parsed(text) == if Fits(c) then Some(c) else None
  {
    var keys :| Enumerates(keys, c) && Increasing(keys) && text == Printed(keys, c);
    RoundTrip(keys, c);
  }

  /** Comparing printed forms compares configurations, however long their lines. */
  lemma {:induction false} ComparePrints(c: Config, text: string, c': Config, text': string)
    requires PrintOf(c, text) && PrintOf(c', text')
    requires (forall k :: k in c ==> LegalKey(k)) && forall k :: k in c' ==> LegalKey(k)
    ensures text == text' <==> c == c'
  {
    var keys :| Enumerates(keys, c) && Increasing(keys) && text == Printed(keys, c);
    var keys' :| Enumerates(keys', c') && Increasing(keys') && text' == Printed(keys', c');
    PrintedDetermines(keys, c, keys', c');
  }
}
