/** VMDK text descriptors: internal/vmdk/descriptor.go and the snapshot test of internal/migration/snapshot.go. */
module Vmdk {
  import opened Text

  datatype Extent = Extent(sectors: int, kind: string, file: string)

  datatype Descriptor = Descriptor(
    cid: string, parentCid: string, parentHint: string, createType: string,
    extents: seq<Extent>, thin: bool, bytes: int, fields: map<string, string>)
  {
    /** No parent, one plain VMFS extent, nothing encrypted. */
    predicate Standalone() {
      && Lower(parentCid) == "ffffffff" && parentHint == ""
      && createType == "vmfs"
      && |extents| == 1 && extents[0].kind == "VMFS"
      && forall k :: k in fields ==> !Contains(k, "encrypt") && !Contains(k, "keyid")
    }

    /** What `DiskSnapshot` refuses: a numbered name, a parent, a sparse type or a snapshot extent. */
    predicate SnapshotOf(file: string) {
      || NumberedName(Lower(file))
      || Lower(parentCid) != "ffffffff" || parentHint != ""
      || Contains(Lower(createType), "sparse")
      || exists e :: e in extents &&
           (HasSuffix(Lower(e.file), "-delta.vmdk") || HasSuffix(Lower(e.file), "-sesparse.vmdk"))
    }
  }

  predicate Digit(c: char)
  {
    '0' <= c <= '9'
  }

  /** `-[0-9]{6,}\.vmdk$`, on a lower-case name. */
  predicate NumberedName(file: string)
  {
    HasSuffix(file, ".vmdk") && DashAndDigits(file[..|file| - 5], 0)
  }

  predicate DashAndDigits(s: string, digits: nat)
    decreases |s|
  {
    s != "" && (
      if Digit(s[|s| - 1]) then DashAndDigits(s[..|s| - 1], digits + 1)
      else s[|s| - 1] == '-' && digits >= 6)
  }

  // -----------------------------------------------------------------------------------------------
  // Parsing

  const MAX_INT64: int := 0x7FFF_FFFF_FFFF_FFFF

  /** `bufio.MaxScanTokenSize`. */
  const MAX_LINE: nat := 0x1_0000

  /** What the lines so far amount to. */
  datatype Draft = Draft(extents: seq<Extent>, bytes: int, fields: map<string, string>)

  /** How many characters at the start of `s` are of one kind. */
  function Span(s: string, kind: char -> bool): (n: nat)
    ensures n <= |s| && forall i :: 0 <= i < n ==> kind(s[i])
  {
    if s == "" || !kind(s[0]) then 0 else 1 + Span(s[1..], kind)
  }

  predicate Blank(c: char)
  {
    c == ' ' || c == '\t' || c == '\n' || c == '\r' || c == 12 as char
  }

  predicate Alnum(c: char)
  {
    Digit(c) || 'a' <= c <= 'z' || 'A' <= c <= 'Z'
  }

  predicate InQuotes(c: char)
  {
    c != '"' && c != '\r' && c != '\n'
  }

  /** The number the digits spell. */
  function Number(s: string): nat
    requires forall i :: 0 <= i < |s| ==> Digit(s[i])
  {
    if s == "" then 0
    else
      assert Digit(s[|s| - 1]);
      Number(s[..|s| - 1]) * 10 + (s[|s| - 1] as int - '0' as int)
  }

  /** `RW <sectors> <kind> "<file>"`, with an offset of 0 or none. */
  function ParseExtent(t: string): Option<Extent>
  {
    if !("RW" <= t) then None
    else
      var a := Span(t[2..], Blank);
      var s := t[2 + a..];
      var d := Span(s, Digit);
      var b := Span(s[d..], Blank);
      var u := s[d + b..];
      var k := Span(u, Alnum);
      var c := Span(u[k..], Blank);
      var v := u[k + c..];
      if a == 0 || d == 0 || b == 0 || k == 0 || c == 0 || v == "" || v[0] != '"' then None
      else
        var f := Span(v[1..], InQuotes);
        var w := v[1 + f..];
        if f == 0 || w == "" || w[0] != '"' || !(w == "\"" ||
            (Span(w[1..], Blank) > 0 && w[1 + Span(w[1..], Blank)..] == "0")) then None
        else Some(Extent(Number(s[..d]), u[..k], v[1..1 + f]))
  }

  predicate FieldChar(c: char)
  {
    Alnum(c) || c == '_' || c == '.'
  }

  predicate Quoted(v: string)
  {
    |v| >= 2 && v[0] == '"' && v[|v| - 1] == '"' && '"' !in v[1..|v| - 1]
  }

  /** What one line adds; None where the descriptor is refused. */
  function AddText(d: Draft, line: string): Option<Draft>
  {
    var t := Trim(line);
    if t == "" || t[0] == '#' then Some(d)
    else if ParseExtent(t).Some? then AddExtent(d, ParseExtent(t).value)
    else
      var n := Find(t, '=');
      if n == |t| then None
      else
        var k, v := Lower(Trim(t[..n])), Trim(t[n + 1..]);
        var value := if v != "" && v[0] == '"' then (if Quoted(v) then Some(v[1..|v| - 1]) else None) else Some(v);
        if k == "" || Span(k, FieldChar) < |k| || v == "" || value.None? || k in d.fields then None
        else Some(d.(fields := d.fields[k := value.value]))
  }

  /** The size is kept in an int64, and refused before it would overflow. */
  function AddExtent(d: Draft, e: Extent): Option<Draft>
  {
    if e.sectors <= 0 || e.sectors > MAX_INT64 || e.sectors > MAX_INT64 / 512 - d.bytes / 512 then None
    else Some(d.(extents := d.extents + [e], bytes := d.bytes + e.sectors * 512))
  }

  function Field(fields: map<string, string>, k: string): string
  {
    if k in fields then fields[k] else ""
  }

  predicate Cid(s: string)
  {
    |s| == 8 && forall i :: 0 <= i < 8 ==> Digit(s[i]) || 'a' <= s[i] <= 'f' || 'A' <= s[i] <= 'F'
  }

  /** The descriptor a finished draft makes, if it is complete. */
  function Finished(d: Draft): Option<Descriptor>
  {
    var f := d.fields;
    var r := Descriptor(Field(f, "cid"), Field(f, "parentcid"), Field(f, "parentfilenamehint"), Field(f, "createtype"),
                        d.extents, Field(f, "ddb.thinprovisioned") == "1", d.bytes, f);
    var version := Field(f, "version");
    if (version == "1" || version == "2" || version == "3") && Cid(r.cid) && Cid(r.parentCid) && r.extents != [] &&
        r.createType != ""
    then Some(r) else None
  }

  function Sectors(extents: seq<Extent>): int
  {
    if extents == [] then 0 else Sectors(extents[..|extents| - 1]) + extents[|extents| - 1].sectors
  }

  /** The size is exactly 512 bytes for each sector, and an int64 holds it. */
  ghost predicate Sized(extents: seq<Extent>, bytes: int)
  {
    bytes == 512 * Sectors(extents) && 0 <= bytes <= MAX_INT64 && forall e :: e in extents ==>
        0 < e.sectors <= bytes / 512
  }

  /** An extent is refused exactly when it is empty or the size would no longer fit an int64. */
  lemma AddExtentIsExact(d: Draft, e: Extent)
    requires Sized(d.extents, d.bytes)
    ensures AddExtent(d, e).None? <==> e.sectors <= 0 || d.bytes + 512 * e.sectors > MAX_INT64
    ensures AddExtent(d, e).Some? ==> Sized(AddExtent(d, e).value.extents, AddExtent(d, e).value.bytes)
  {
    assert (d.extents + [e])[..|d.extents|] == d.extents;
    assert MAX_INT64 / 512 == 0x3F_FFFF_FFFF_FFFF && d.bytes / 512 == Sectors(d.extents);
  }

  lemma AddTextKeepsSize(d: Draft, line: string)
    requires Sized(d.extents, d.bytes)
    ensures AddText(d, line).Some? ==> Sized(AddText(d, line).value.extents, AddText(d, line).value.bytes)
  {
    var t := Trim(line);
    if t != "" && ParseExtent(t).Some? {
      AddExtentIsExact(d, ParseExtent(t).value);
    }
  }

  /** What the rest of a text makes of a draft. */
  function Resumed(text: string, d: Draft): Option<Draft>
    decreases |text|
  {
    if text == "" then Some(d)
    else
      var n := Find(text, '\n');
      var next := AddText(d, DropCR(text[..n]));
      if n >= MAX_LINE || next.None? then None else Resumed(if n < |text| then text[n + 1..] else "", next.value)
  }

  function Described(text: string): Option<Descriptor>
  {
    if |text| > 0x10_0000 || (0 as char) in text then None
    else
      var d := Resumed(text, Draft([], 0, map[]));
      if d.None? then None else Finished(d.value)
  }

  /** Every descriptor that is accepted has a size, of exactly 512 bytes for each of its sectors, without overflow. */
  method ParseDescriptor(text: string) returns (r: Option<Descriptor>)
    ensures r == Described(text)
    ensures r.Some? ==> Sized(r.value.extents, r.value.bytes) && r.value.bytes > 0
    ensures r.Some? ==> Cid(r.value.cid) && Cid(r.value.parentCid) && r.value.createType != ""
  {
    if |text| > 0x10_0000 || (0 as char) in text {
      return None;
    }
    var d, rest := Draft([], 0, map[]), text;
    while rest != ""
      invariant Resumed(text, Draft([], 0, map[])) == Resumed(rest, d)
      invariant Sized(d.extents, d.bytes)
      decreases |rest|
    {
      var n := Find(rest, '\n');
      var next := AddText(d, DropCR(rest[..n]));
      if n >= MAX_LINE || next.None? {
        return None;
      }
      AddTextKeepsSize(d, DropCR(rest[..n]));
      d, rest := next.value, if n < |rest| then rest[n + 1..] else "";
    }
    r := Finished(d);
    if r.Some? {
      assert d.extents[0] in d.extents;
    }
  }
}
