/** The report of an analysis and the target configuration it plans: `check` and `advised` of
    internal/migration/types.go, the loops over disks, configuration files and references of `inspect` in
    internal/migration/analyzer.go, and `Rewrite` of internal/vmx/analyzer.go. */
module Plans {
  import opened Text
  import opened Vmx
  import D = Devices

  // -----------------------------------------------------------------------------------------------
  // The report

  datatype Status = Okay | Warning | Block

  datatype Row = Row(name: string, status: Status, detail: string, title: string)

  /** `strings.Cut` at the first ": ". */
  function Cut(s: string): Option<(string, string)>
  {
    if |s| < 2 then None
    else if s[..2] == ": " then Some(("", s[2..]))
    else
      var r := Cut(s[1..]);
      if r.None? then None else Some(([s[0]] + r.value.0, r.value.1))
  }

  class Report {
    var ready: bool
    var checks: seq<Row>

    /** Ready holds exactly when no row blocks. */
    ghost predicate Valid()
      reads this
    {
      ready <==> forall i :: 0 <= i < |checks| ==> checks[i].status != Block
    }

    constructor ()
      ensures Valid() && ready && checks == []
    {
      ready, checks := true, [];
    }

    /** The row an advised check is folded into: the same problem under another key. */
    predicate Folds(i: nat, name: string, status: Status, detail: string, title: string)
      reads this
      requires i < |checks|
    {
      var c := Cut(detail);
      title != "" && c.Some? && checks[i].name == name && checks[i].status == status && checks[i].title == title
      && c.value.0 + ": " <= checks[i].detail
    }

    /** Adds a row, or the key to the first row of the same problem. Either way the report stays ready exactly when it
        was and the check does not block, and no earlier row is lost. */
    method Advised(name: string, status: Status, detail: string, title: string)
      requires Valid()
      modifies this
      ensures Valid() && (ready <==> old(ready) && status != Block)
      ensures |old(checks)| <= |checks|
      ensures exists i :: 0 <= i < |checks| &&
                checks[i].name == name && checks[i].status == status && checks[i].title == title
      ensures forall i :: 0 <= i < |old(checks)| ==>
                checks[i] == old(checks)[i] || (old(checks)[i].name == name && old(checks)[i].status == status &&
                  checks[i] == old(checks)[i].(detail := checks[i].detail) && old(checks)[i].detail <= checks[i].detail)
      ensures |checks| == |old(checks)| || (|checks| == |old(checks)| + 1 &&
                checks == old(checks) + [Row(name, status, detail, title)])
      ensures |checks| == |old(checks)| <==>
                exists i :: 0 <= i < |old(checks)| && old(Folds(i, name, status, detail, title))
    {
      if status == Block {
        ready := false;
      }
      var i := 0;
      while i < |checks| && !Folds(i, name, status, detail, title)
        invariant 0 <= i <= |checks| && forall k :: 0 <= k < i ==> !old(Folds(k, name, status, detail, title))
      {
        i := i + 1;
      }
      if i < |checks| {
        assert old(Folds(i, name, status, detail, title));
        checks := checks[i := checks[i].(detail := checks[i].detail + ", " + Cut(detail).value.1)];
      } else {
        checks := checks + [Row(name, status, detail, title)];
      }
      assert checks[i].name == name && checks[i].status == status && checks[i].title == title;
      assert forall k :: 0 <= k < |old(checks)| ==> checks[k].status == old(checks)[k].status;
    }
  }

  // -----------------------------------------------------------------------------------------------
  // The target configuration

  /** What the checks of one disk or configuration file lead to; `Rejected` and `Misplaced` block. */
  datatype Outcome = Misplaced | Rejected | Accepted(name: string)

  /** Runtime paths that the classification lets pass. */
  predicate Exempt(k: string)
  {
    || k == "sched.swap.derivedname" || k == "workingdir" || k == "snapshot.directory" || k == "checkpoint.vmstate"
    || k == "migrate.hostlog" || k == "log.filename"
  }

  /** Runtime paths that `Rewrite` leaves out. */
  predicate Generated(k: string)
  {
    || k == "sched.swap.derivedname" || k == "workingdir" || k == "snapshot.directory" || k == "checkpoint.vmstate"
    || k == "migrate.hostlog" || k == "log.filename"
  }

  predicate PathBearing(v: string)
  {
    Contains(v, "/vmfs/") || "[" <= v
  }

  /** None when a key to rewrite is missing. */
  method Rewrite(c: Config, replacements: map<string, string>) returns (r: Option<Config>)
    ensures r.Some? <==> replacements.Keys <= c.Keys
    ensures r.Some? ==> forall k :: k in r.value <==> k in c && !Generated(k)
    ensures r.Some? ==> forall k :: k in r.value ==> r.value[k] == if k in replacements then replacements[k] else c[k]
  {
    if !(replacements.Keys <= c.Keys) {
      return None;
    }
    return Some(map k | k in c && !Generated(k) :: if k in replacements then replacements[k] else c[k]);
  }

  /** Plans the disks in the order of their keys. */
  method PlanDisks(refs: seq<D.DiskRef>, outcome: string -> Outcome)
    returns (disks: seq<(string, string)>, misplaced: set<string>, blocked: bool)
    ensures forall d :: d in disks ==> outcome(d.0) == Accepted(d.1) && exists r :: r in refs && r.key == d.0
    ensures !blocked ==> |disks| == |refs| && misplaced == {} && forall i :: 0 <= i < |refs| ==>
              disks[i].0 == refs[i].key
  {
    disks, misplaced, blocked := [], {}, false;
    for i := 0 to |refs|
      invariant forall d :: d in disks ==> outcome(d.0) == Accepted(d.1) && exists r :: r in refs && r.key == d.0
      invariant !blocked ==> |disks| == i && misplaced == {} && forall k :: 0 <= k < i ==> disks[k].0 == refs[k].key
    {
      var key := refs[i].key;
      assert refs[i] in refs;
      match outcome(key)
      case Misplaced => misplaced, blocked := misplaced + {key}, true;
      case Rejected => blocked := true;
      case Accepted(name) => disks := disks + [(key, name)];
    }
  }

  /** The two configuration files a VMX may name. */
  method PlanFiles(c: Config, outcome: string -> Outcome) returns (files: map<string, string>, blocked: bool)
    ensures forall k :: k in files ==>
              (k == "nvram" || k == "extendedconfigfile") && k in c && outcome(k) == Accepted(files[k])
    ensures !blocked ==> forall k :: (k == "nvram" || k == "extendedconfigfile") && D.Value(c, k) != "" ==> k in files
  {
    files, blocked := map[], false;
    var keys := ["nvram", "extendedconfigfile"];
    for i := 0 to |keys|
      invariant forall k :: k in files ==>
                  (k == "nvram" || k == "extendedconfigfile") && k in c && outcome(k) == Accepted(files[k])
      invariant !blocked ==> forall n :: 0 <= n < i && D.Value(c, keys[n]) != "" ==> keys[n] in files
    {
      if D.Value(c, keys[i]) != "" {
        var o := outcome(keys[i]);
        if o.Accepted? {
          files := files[keys[i] := o.name];
        } else {
          blocked := true;
        }
      }
    }
    assert keys[0] == "nvram" && keys[1] == "extendedconfigfile";
  }

  /** An ISO stays where it is and is named by its full path. */
  method PlanIsos(refs: seq<D.Reference>, resolve: string -> Option<string>)
    returns (isos: map<string, string>, blocked: bool)
    ensures forall k :: k in isos ==>
              (exists r :: r in refs && r.key == k && r.kind.Iso?) && resolve(k) == Some(isos[k])
  {
    isos, blocked := map[], false;
    for i := 0 to |refs|
      invariant forall k :: k in isos ==>
                  (exists r :: r in refs && r.key == k && r.kind.Iso?) && resolve(k) == Some(isos[k])
    {
      if refs[i].kind.Iso? {
        assert refs[i] in refs;
        var full := resolve(refs[i].key);
        if full.Some? {
          isos := isos[refs[i].key := full.value];
        } else {
          blocked := true;
        }
      }
    }
  }

  /** No value names a datastore path, but those that are rewritten, were reported before, or are left out. */
  ghost predicate Classified(c: Config, replacements: map<string, string>, misplaced: set<string>)
  {
    forall k :: k in c && k !in replacements && k !in misplaced && PathBearing(c[k]) ==> Exempt(k)
  }

  method Classify(c: Config, replacements: map<string, string>, misplaced: set<string>) returns (blocked: bool)
    ensures !blocked <==> Classified(c, replacements, misplaced)
  {
    var todo := c.Keys;
    blocked := false;
    while todo != {}
      invariant todo <= c.Keys
      invariant !blocked <==> forall k :: k in c && k !in todo && k !in replacements && k !in misplaced &&
                                          PathBearing(c[k])
                                          ==> Exempt(k)
    {
      var k :| k in todo;
      if k !in replacements && k !in misplaced && PathBearing(c[k]) && !Exempt(k) {
        blocked := true;
      }
      todo := todo - {k};
    }
  }

  function Named(disks: seq<(string, string)>): map<string, string>
  {
    if disks == [] then map[] else Named(disks[..|disks| - 1])[disks[|disks| - 1].0 := disks[|disks| - 1].1]
  }

  lemma {:induction false} NamedIs(disks: seq<(string, string)>)
    ensures forall k :: k in Named(disks) ==> (k, Named(disks)[k]) in disks
    ensures forall d :: d in disks ==> d.0 in Named(disks)
  {
    if disks != [] {
      NamedIs(disks[..|disks| - 1]);
    }
  }

  /** What the target VMX is when the plan is ready: the source's own, with the disks and files named in the target
      folder, the ISOs by their full paths, and without runtime paths. */
  ghost predicate Planned(c: Config, move: bool, names: map<string, string>, target: Config)
  {
    && (forall k :: k in target && k != "uuid.action" ==>
         k in c && !Generated(k) && target[k] == if k in names then names[k] else c[k])
    && (forall k :: k in c && !Generated(k) && k != "uuid.action" ==> k in target)
    && (if move then "uuid.action" in target && target["uuid.action"] == "keep" else "uuid.action" !in target)
  }

  /** Every active disk of the VMX has exactly one entry, in the order of the keys. */
  ghost predicate OneEntryEach(c: Config, disks: seq<(string, string)>)
  {
    && (forall d :: d in disks ==> d.0 in c && D.Active(c, d.0))
    && (forall k :: k in c && D.Active(c, k) ==> exists d :: d in disks && d.0 == k)
    && (forall i, j :: 0 <= i < j < |disks| ==> Before(disks[i].0, disks[j].0))
  }

  /** The keys of ISO images. */
  ghost predicate IsIso(c: Config, k: string)
  {
    k in c && D.NamesFile(k) && !D.NamesVmdk(c, k) && D.KindOf(k, Lower(c[k])).Iso?
  }

  /** Only an ISO is still named by a datastore path. */
  ghost predicate OnlyIsos(c: Config, iso: string -> Option<string>, target: Config)
  {
    forall k :: k in target && Contains(target[k], "/vmfs/") ==> IsIso(c, k) && iso(k) == Some(target[k])
  }

  lemma {:induction false} ContainsChar(s: string, part: string)
    requires part != "" && Contains(s, part)
    ensures part[0] in s
  {
    if part <= s {
      assert s[0] == part[0];
    } else {
      ContainsChar(s[1..], part);
    }
  }

  predicate Local(o: Outcome)
  {
    o.Accepted? ==> '/' !in o.name
  }

  lemma TargetIsLocal(
    c: Config, move: bool, disks: map<string, string>, files: map<string, string>, isos: map<string, string>,
    iso: string -> Option<string>, target: Config)
    requires Classified(c, disks + files + isos, {}) && Planned(c, move, disks + files + isos, target)
    requires forall k :: k in disks ==> '/' !in disks[k]
    requires forall k :: k in files ==> '/' !in files[k]
    requires forall k :: k in isos ==> IsIso(c, k) && iso(k) == Some(isos[k])
    ensures OnlyIsos(c, iso, target)
  {
    var names := disks + files + isos;
    assert '/' !in "keep" && forall k :: k in names && k !in isos ==> '/' !in names[k];
    forall k | k in target && Contains(target[k], "/vmfs/") ensures IsIso(c, k) && iso(k) == Some(target[k]) {
      ContainsChar(target[k], "/vmfs/");
    }
  }

  /** What a migration relies on: legal keys, and every disk of the plan among them. */
  ghost predicate Sound(disks: seq<(string, string)>, target: Config)
  {
    (forall k :: k in target ==> LegalKey(k)) && forall d :: d in disks ==> d.0 in target
  }

  lemma BusIsKept(k: string)
    requires D.Bus(k)
    ensures !Generated(k) && k != "uuid.action"
  {
    assert |k| >= 3 && ((k[0] == 's' && ((k[1] == 'c' && k[2] == 's') || k[1] == 'a')) || k[0] == 'i' || k[0] == 'n');
  }

  lemma DiskKeyIsOnABus(k: string)
    requires D.DiskKey(k)
    ensures D.Bus(k)
  {
  }

  lemma TargetIsSound(c: Config, move: bool, disks: seq<(string, string)>, names: map<string, string>, target: Config)
    requires (forall k :: k in c ==> LegalKey(k)) && OneEntryEach(c, disks) && Planned(c, move, names, target)
    ensures Sound(disks, target)
  {
    forall d | d in disks ensures d.0 in target {
      DiskKeyIsOnABus(d.0);
      BusIsKept(d.0);
    }
    assert LegalKey("uuid.action");
  }

  /** What the disks, files and ISOs of a VMX are renamed to. */
  datatype Renames = Renames(disks: seq<(string, string)>, files: map<string, string>, isos: map<string, string>,
    misplaced: set<string>, blocked: bool)
  {
    function All(): map<string, string> {
      Named(disks) + files + isos
    }
  }

  ghost predicate Consistent(c: Config, disk: string -> Outcome, file: string -> Outcome, iso: string -> Option<string>,
    r: Renames)
  {
    && (forall d :: d in r.disks ==> d.0 in c && disk(d.0) == Accepted(d.1))
    && (forall k :: k in r.files ==> k in c && file(k) == Accepted(r.files[k]))
    && (forall k :: k in r.isos ==> IsIso(c, k) && iso(k) == Some(r.isos[k]))
    && (!r.blocked ==> r.misplaced == {} && OneEntryEach(c, r.disks))
  }

  /** What `Analyze` promises of its disks and references. */
  ghost predicate Analyzed(c: Config, a: D.Analysis)
  {
    && D.SortedRefs(a.disks)
    && (forall d :: d in a.disks <==> d.key in c && d.file == c[d.key] && D.Active(c, d.key))
    && (forall x :: x in a.references && x.kind.Iso? ==> IsIso(c, x.key))
  }

  method Analyze(c: Config) returns (a: D.Analysis)
    ensures Analyzed(c, a)
  {
    a := D.Analyze(c);
    forall d ensures d in a.disks <==> d.key in c && d.file == c[d.key] && D.Active(c, d.key) {
      if d.key in c {
        FindingIs(c, d.key);
      }
    }
    forall x | x in a.references && x.kind.Iso? ensures IsIso(c, x.key) {
      FindingIs(c, x.key);
    }
  }

  lemma FindingIs(c: Config, k: string)
    requires k in c
    ensures D.Findings(c)[k].disk <==> D.Active(c, k)
    ensures D.Findings(c)[k].reference == Some(D.Iso) ==> IsIso(c, k)
  {
  }

  lemma EntriesAre(c: Config, a: D.Analysis, disks: seq<(string, string)>)
    requires Analyzed(c, a) && |disks| == |a.disks| && forall i :: 0 <= i < |a.disks| ==> disks[i].0 == a.disks[i].key
    ensures OneEntryEach(c, disks)
  {
    forall d | d in disks ensures d.0 in c && D.Active(c, d.0) {
      var i :| 0 <= i < |disks| && disks[i] == d;
      assert a.disks[i] in a.disks;
    }
    forall k | k in c && D.Active(c, k) ensures exists d :: d in disks && d.0 == k {
      assert D.DiskRef(k, c[k]) in a.disks;
      var i :| 0 <= i < |a.disks| && a.disks[i] == D.DiskRef(k, c[k]);
      assert disks[i] in disks;
    }
  }

  method Rename(c: Config, disk: string -> Outcome, file: string -> Outcome, iso: string -> Option<string>)
    returns (r: Renames)
    ensures Consistent(c, disk, file, iso, r)
  {
    var a := Analyze(c);
    var disks, misplaced, noDisk := PlanDisks(a.disks, disk);
    var files, noFile := PlanFiles(c, file);
    var isos, noIso := PlanIsos(a.references, iso);
    if !noDisk {
      EntriesAre(c, a, disks);
    }
    r := Renames(disks, files, isos, misplaced, a.blocks > 0 || disks == [] || noDisk || noFile || noIso);
  }

  /** The plan of an analysis. In one that is ready every active disk of the VMX has exactly one entry, and no value of
      the target VMX names a datastore path but that of an ISO. */
  method MakePlan(c: Config, move: bool, disk: string -> Outcome, file: string -> Outcome,
    iso: string -> Option<string>)
    returns (ready: bool, r: Renames, target: Config)
    requires forall k :: Local(disk(k)) && Local(file(k))
    ensures Planned(c, move, r.All(), target)
    ensures ready ==> OneEntryEach(c, r.disks) && OnlyIsos(c, iso, target)
    ensures ready && (forall k :: k in c ==> LegalKey(k)) ==> Sound(r.disks, target)
  {
    r := Rename(c, disk, file, iso);
    NamedIs(r.disks);
    var unclassified := Classify(c, r.All(), r.misplaced);
    var t := Rewrite(c, r.All());
    target := if move then t.value["uuid.action" := "keep"] else t.value - {"uuid.action"};
    ready := !r.blocked && !unclassified;
    if ready {
      TargetIsLocal(c, move, Named(r.disks), r.files, r.isos, iso, target);
      if forall k :: k in c ==> LegalKey(k) {
        TargetIsSound(c, move, r.disks, r.All(), target);
      }
    }
  }
}
