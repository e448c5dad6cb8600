/** The device analysis of internal/vmx/analyzer.go. */
module Devices {
  import opened Text
  import opened Vmx

  datatype DiskRef = DiskRef(key: string, file: string)

  datatype Kind = Iso | Floppy | Port | External

  datatype Reference = Reference(key: string, file: string, kind: Kind)

  datatype Analysis = Analysis(disks: seq<DiskRef>, references: seq<Reference>, blocks: nat)

  function Value(c: Config, k: string): string
  {
    if k in c then c[k] else ""
  }

  predicate True(c: Config, k: string)
  {
    Lower(Value(c, Lower(k))) == "true"
  }

  predicate Bus(k: string)
  {
    "scsi" <= k || "sata" <= k || "ide" <= k || "nvme" <= k
  }

  function AfterDigits(s: string): string
  {
    if s != "" && '0' <= s[0] <= '9' then AfterDigits(s[1..]) else s
  }

  /** `[0-9]+:[0-9]+\.filename$` */
  predicate Slot(s: string)
  {
    var a := AfterDigits(s);
    var b := if a != "" then AfterDigits(a[1..]) else "";
    a != s && a != "" && a[0] == ':' && b != a[1..] && b == ".filename"
  }

  predicate DiskKey(k: string)
  {
    ("scsi" <= k && Slot(k[4..])) || ("sata" <= k && Slot(k[4..])) || ("ide" <= k && Slot(k[3..])) ||
        ("nvme" <= k && Slot(k[4..]))
  }

  function Base(k: string): string
  {
    TrimSuffix(k, ".filename")
  }

  predicate NamesFile(k: string)
  {
    HasSuffix(k, ".filename")
  }

  predicate NamesVmdk(c: Config, k: string)
    requires k in c
  {
    NamesFile(k) && HasSuffix(Lower(c[k]), ".vmdk")
  }

  /** An active disk in a slot of a known controller. */
  predicate Active(c: Config, k: string)
    requires k in c
  {
    NamesVmdk(c, k) && DiskKey(k) && True(c, Base(k) + ".present")
  }

  function KindOf(k: string, low: string): Kind
  {
    if HasSuffix(low, ".iso") then Iso
    else if "floppy" <= k then Floppy
    else if "serial" <= k || "parallel" <= k then Port
    else External
  }

  /** How many of the conditions on one key block the migration. */
  function KeyBlocks(c: Config, k: string): nat
    requires k in c
  {
    var low := Lower(c[k]);
    var b := Base(k);
    One(k == "uuid.action" && low != "" && low != "keep")
    + One(Contains(k, "encrypt") || Contains(k, "vtpm") || "tpm." <= k || Contains(k, "keyid"))
    + One((Contains(k, "sharing") && low != "none" && low != "") || Contains(low, "multi-writer") ||
        (HasSuffix(k, "sharedbus") && low != "none"))
    + One(HasSuffix(k, ".mode") && Bus(k) && low != "persistent" && low != "")
    + One(HasSuffix(k, ".redo") && c[k] != "")
    + One((Contains(k, "ctk") && low == "true") || (k == "checkpoint.vmstate" && c[k] != ""))
    + One(HasSuffix(k, ".devicetype") && (Contains(low, "raw") || Contains(low, "passthru")))
    + One("pcipassthru" <= k && HasSuffix(k, ".present") && low == "true")
    + if !NamesFile(k) then 0
      else if NamesVmdk(c, k) then One(!Active(c, k))
      else
        var kind := KindOf(k, low);
        One(kind == Port && Lower(Value(c, b + ".filetype")) == "file")
        + One(kind == Floppy && True(c, b + ".present"))
        + One(True(c, b + ".present") && kind == External)
  }

  function One(b: bool): nat
  {
    if b then 1 else 0
  }

  /** What one key contributes to the analysis. */
  datatype Finding = Finding(blocks: nat, disk: bool, reference: Option<Kind>)

  function Classify(c: Config, k: string): (f: Finding)
    requires k in c
    ensures f.disk <==> Active(c, k)
    ensures f.reference == if NamesFile(k) && !NamesVmdk(c, k) then Some(KindOf(k, Lower(c[k]))) else None
    ensures f.blocks == KeyBlocks(c, k)
  {
    Finding(KeyBlocks(c, k), Active(c, k),
            if NamesFile(k) && !NamesVmdk(c, k) then Some(KindOf(k, Lower(c[k]))) else None)
  }

  function Findings(c: Config): (f: map<string, Finding>)
    ensures f.Keys == c.Keys && forall k :: k in c ==> f[k] == Classify(c, k)
  {
    map k | k in c :: Classify(c, k)
  }

  /** Nothing blocks and there is a disk. */
  ghost predicate Clean(f: map<string, Finding>)
  {
    (forall k :: k in f ==> f[k].blocks == 0) && exists k :: k in f && f[k].disk
  }

  predicate SortedRefs(s: seq<DiskRef>)
  {
    forall i, j :: 0 <= i < j < |s| ==> Before(s[i].key, s[j].key)
  }

  method InsertDisk(s: seq<DiskRef>, d: DiskRef) returns (r: seq<DiskRef>)
    requires SortedRefs(s) && forall x :: x in s ==> x.key != d.key
    ensures SortedRefs(r) && forall x :: x in r <==> x in s || x == d
  {
    var i := 0;
    while i < |s| && Before(s[i].key, d.key)
      invariant 0 <= i <= |s|
      invariant forall j :: 0 <= j < i ==> Before(s[j].key, d.key)
    {
      i := i + 1;
    }
    if i < |s| {
      BeforeIsTotal(s[i].key, d.key);
      forall j | i < j < |s| ensures Before(d.key, s[j].key) {
        BeforeIsTransitive(d.key, s[i].key, s[j].key);
      }
    }
    r := s[..i] + [d] + s[i..];
    assert s == s[..i] + s[i..];
  }

  method Collect(c: Config, f: map<string, Finding>) returns (a: Analysis)
    requires f.Keys == c.Keys
    ensures SortedRefs(a.disks)
    ensures forall d :: d in a.disks <==> d.key in c && d.file == c[d.key] && f[d.key].disk
    ensures forall x :: x in a.references <==> x.key in c && x.file == c[x.key] && f[x.key].reference == Some(x.kind)
    ensures a.blocks == 0 <==> Clean(f)
  {
    var disks: seq<DiskRef>, references: seq<Reference>, blocks: nat := [], [], 0;
    var todo := c.Keys;
    while todo != {}
      invariant todo <= c.Keys && SortedRefs(disks)
      invariant forall d :: d in disks <==> d.key in c && d.key !in todo && d.file == c[d.key] && f[d.key].disk
      invariant forall x :: x in references <==>
                  x.key in c && x.key !in todo && x.file == c[x.key] && f[x.key].reference == Some(x.kind)
      invariant blocks == 0 <==> forall k :: k in c && k !in todo ==> f[k].blocks == 0
    {
      var k :| k in todo;
      blocks := blocks + f[k].blocks;
      if f[k].disk {
        disks := InsertDisk(disks, DiskRef(k, c[k]));
      }
      if f[k].reference.Some? {
        references := references + [Reference(k, c[k], f[k].reference.value)];
      }
      todo := todo - {k};
    }
    if disks == [] {
      assert forall k :: k in c && f[k].disk ==> DiskRef(k, c[k]) in disks;
      blocks := blocks + 1;
    } else {
      assert disks[0] in disks;
    }
    a := Analysis(disks, references, blocks);
  }

  /** The disks, in the order of their keys, are exactly the active ones; there is no block exactly when the
      configuration is clean. */
  method Analyze(c: Config) returns (a: Analysis)
    ensures SortedRefs(a.disks)
    ensures forall d :: d in a.disks <==> d.key in c && d.file == c[d.key] && Findings(c)[d.key].disk
    ensures forall x :: x in a.references <==>
              x.key in c && x.file == c[x.key] && Findings(c)[x.key].reference == Some(x.kind)
    ensures a.blocks == 0 <==> Clean(Findings(c))
  {
    a := Collect(c, Findings(c));
  }
}
