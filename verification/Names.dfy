/** The names of the files a plan puts into the target folder: `freeName` of internal/migration/external.go, the disk
    loop of internal/migration/analyzer.go and the collision check of `liveDeltas` in internal/migration/live.go. */
module Names {
  import opened Text

  // -----------------------------------------------------------------------------------------------
  // Decimal numbers

  /** `strconv.Itoa` of a natural number. */
  function Itoa(n: nat): (s: string)
    ensures s != "" && (|s| > 1 ==> s[0] != '0')
  {
    var d := ['0' + (n % 10) as char];
    if n < 10 then d else Itoa(n / 10) + d
  }

  lemma {:induction false} ItoaIsInjective(a: nat, b: nat)
    requires Itoa(a) == Itoa(b)
    ensures a == b
  {
    var s, t := Itoa(a), Itoa(b);
    assert s[|s| - 1] == '0' + (a % 10) as char && t[|t| - 1] == '0' + (b % 10) as char;
    if a >= 10 && b >= 10 {
      assert s[..|s| - 1] == Itoa(a / 10) && t[..|t| - 1] == Itoa(b / 10);
      ItoaIsInjective(a / 10, b / 10);
    }
  }

  // -----------------------------------------------------------------------------------------------
  // freeName

  /** The extension of a name: from its last dot on. */
  function Ext(name: string): (e: string)
    ensures HasSuffix(name, e) && (e != "" ==> e[0] == '.')
  {
    if name == "" || name[|name| - 1] == '/' then ""
    else if name[|name| - 1] == '.' then "."
    else
      var e := Ext(name[..|name| - 1]);
      if e == "" then "" else e + [name[|name| - 1]]
  }

  function Stem(name: string): string
  {
    TrimSuffix(name, Ext(name))
  }

  function Numbered(stem: string, i: nat): string
  {
    (if i == 0 then stem else stem + "_" + Itoa(i)) + ".vmdk"
  }

  /** The name `vmkfstools` gives the data file of a disk. */
  function Flat(name: string): string
  {
    TrimSuffix(name, ".vmdk") + "-flat.vmdk"
  }

  /** Folding keeps the names with two different numbers apart. */
  ghost predicate Apart(fold: string -> string, stem: string, i: nat, j: nat)
  {
    fold(Numbered(stem, i)) != fold(Numbered(stem, j)) && fold(Flat(Numbered(stem, i))) != fold(Flat(Numbered(stem, j)))
  }

  ghost predicate KeepsNumbers(fold: string -> string)
  {
    forall stem, i, j :: 0 < i < j ==> Apart(fold, stem, i, j)
  }

  predicate Taken(fold: string -> string, used: set<string>, name: string)
  {
    exists k :: k in used && fold(k) == fold(name)
  }

  /** Neither the name nor that of its data file is used, whatever the case. */
  predicate Free(fold: string -> string, used: set<string>, name: string)
  {
    !Taken(fold, used, name) && !Taken(fold, used, Flat(name))
  }

  /** What a taken number uses up: a used name, as the disk or as its data file. */
  function Hit(fold: string -> string, used: set<string>, stem: string, i: nat): (string, bool)
  {
    var name := Numbered(stem, i);
    if Taken(fold, used, name) then (fold(name), false) else (fold(Flat(name)), true)
  }

  /** The used names the numbers from 1 to `i` have not met yet. */
  ghost function Left(fold: string -> string, used: set<string>, stem: string, i: nat): set<(string, bool)>
  {
    (set k, b | k in used && b in {false, true} :: (fold(k), b)) - (set j | 0 < j < i :: Hit(fold, used, stem, j))
  }

  lemma EachHitIsNew(fold: string -> string, used: set<string>, stem: string, i: nat)
    requires KeepsNumbers(fold) && i > 0 && !Free(fold, used, Numbered(stem, i))
    ensures Left(fold, used, stem, i + 1) < Left(fold, used, stem, i)
  {
    var hit := Hit(fold, used, stem, i);
    forall j | 0 < j < i ensures Hit(fold, used, stem, j) != hit {
      assert Apart(fold, stem, j, i);
    }
    assert hit in Left(fold, used, stem, i) && hit !in Left(fold, used, stem, i + 1);
  }

  /** The first of `stem.vmdk`, `stem_1.vmdk`, ... that is free. It ends, because every number that is not uses up
      another name, and there are finitely many. */
  method FreeName(fold: string -> string, name: string, used: set<string>) returns (free: string, ghost i: nat)
    requires KeepsNumbers(fold)
    ensures free == Numbered(Stem(name), i) && Free(fold, used, free)
    ensures forall j :: 0 <= j < i ==> !Free(fold, used, Numbered(Stem(name), j))
  {
    var stem := Stem(name);
    free := Numbered(stem, 0);
    var n := 0;
    while !Free(fold, used, free)
      invariant free == Numbered(stem, n)
      invariant forall j :: 0 <= j < n ==> !Free(fold, used, Numbered(stem, j))
      decreases n == 0, Left(fold, used, stem, n)
    {
      if n > 0 {
        EachHitIsNew(fold, used, stem, n);
      }
      n := n + 1;
      free := Numbered(stem, n);
    }
    i := n;
  }

  /** Characters every case folding leaves alone and apart. */
  predicate Plain(s: string)
  {
    forall i :: 0 <= i < |s| ==> 'a' <= s[i] <= 'z' || '0' <= s[i] <= '9' || s[i] == '_' || s[i] == '-' || s[i] == '.'
  }

  /** Folding goes rune by rune and lets a lower-case letter stand for its class, so plain text after an underscore is
      folded to itself whatever comes before it. */
  ghost predicate RuneByRune(fold: string -> string)
  {
    forall a, b :: b != "" && b[0] == '_' && Plain(b) ==> fold(a + b) == fold(a) + b
  }

  lemma {:induction false} ItoaIsPlain(n: nat)
    ensures Plain(Itoa(n))
  {
    if n >= 10 {
      ItoaIsPlain(n / 10);
    }
  }

  lemma TailIsPlain(i: nat, tail: string)
    requires Plain(tail)
    ensures Plain("_" + Itoa(i) + tail)
  {
    ItoaIsPlain(i);
  }

  lemma SameTails(fold: string -> string, stem: string, i: nat, j: nat, tail: string)
    requires RuneByRune(fold) && Plain(tail) && fold(stem + ("_" + Itoa(i) + tail)) ==
              fold(stem + ("_" + Itoa(j) + tail))
    ensures i == j
  {
    TailIsPlain(i, tail);
    TailIsPlain(j, tail);
    var s, t := "_" + Itoa(i) + tail, "_" + Itoa(j) + tail;
    assert (fold(stem) + s)[|fold(stem)|..] == s && (fold(stem) + t)[|fold(stem)|..] == t;
    assert s[1..1 + |Itoa(i)|] == Itoa(i) && t[1..1 + |Itoa(j)|] == Itoa(j);
    ItoaIsInjective(i, j);
  }

  lemma NumberedIs(stem: string, i: nat)
    requires i > 0
    ensures Numbered(stem, i) == stem + ("_" + Itoa(i) + ".vmdk")
  {
    assert Numbered(stem, i) == stem + "_" + Itoa(i) + ".vmdk";
  }

  lemma FlatIs(stem: string, i: nat)
    requires i > 0
    ensures Flat(Numbered(stem, i)) == stem + ("_" + Itoa(i) + "-flat.vmdk")
  {
    var front := stem + "_" + Itoa(i);
    assert Numbered(stem, i) == front + ".vmdk";
    assert (front + ".vmdk")[|front|..] == ".vmdk" && (front + ".vmdk")[..|front|] == front;
    assert stem + ("_" + Itoa(i) + "-flat.vmdk") == front + "-flat.vmdk";
  }

  lemma NamesApart(fold: string -> string, stem: string, i: nat, j: nat)
    requires RuneByRune(fold) && 0 < i < j
    ensures fold(Numbered(stem, i)) != fold(Numbered(stem, j))
  {
    NumberedIs(stem, i);
    NumberedIs(stem, j);
    if fold(Numbered(stem, i)) == fold(Numbered(stem, j)) {
      SameTails(fold, stem, i, j, ".vmdk");
    }
  }

  lemma FlatsApart(fold: string -> string, stem: string, i: nat, j: nat)
    requires RuneByRune(fold) && 0 < i < j
    ensures fold(Flat(Numbered(stem, i))) != fold(Flat(Numbered(stem, j)))
  {
    FlatIs(stem, i);
    FlatIs(stem, j);
    if fold(Flat(Numbered(stem, i))) == fold(Flat(Numbered(stem, j))) {
      SameTails(fold, stem, i, j, "-flat.vmdk");
    }
  }

  /** So every such folding keeps numbered names apart, and `FreeName` ends with it. */
  lemma FoldingKeepsNumbers(fold: string -> string)
    requires RuneByRune(fold)
    ensures KeepsNumbers(fold)
  {
    forall stem, i, j | 0 < i < j ensures Apart(fold, stem, i, j) {
      NamesApart(fold, stem, i, j);
      FlatsApart(fold, stem, i, j);
    }
  }

  // -----------------------------------------------------------------------------------------------
  // The disk loop

  /** A disk of the VMX: the name of its file, and whether it lies outside the VM folder. */
  datatype Found = Found(base: string, external: bool)

  predicate Distinct<T(==)>(s: seq<T>)
  {
    forall i, j :: 0 <= i < j < |s| ==> s[i] != s[j]
  }

  /** The data file the plan reserves for a disk. */
  function Extent(name: string): string
  {
    Stem(name) + "-flat.vmdk"
  }

  function Pairs(names: seq<string>): seq<string>
  {
    if names == [] then [] else Pairs(names[..|names| - 1]) + [names[|names| - 1], Extent(names[|names| - 1])]
  }

  /** Every name the plan puts into the target folder. */
  function Reserved(vmx: string, names: seq<string>, configs: seq<string>): seq<string>
  {
    [vmx] + Pairs(names) + configs
  }

  lemma DistinctMore<T>(s: seq<T>, x: T)
    ensures Distinct(s + [x]) <==> Distinct(s) && x !in s
  {
    if Distinct(s + [x]) {
      forall i, j | 0 <= i < j < |s| ensures s[i] != s[j] {
        assert (s + [x])[i] != (s + [x])[j];
      }
      forall i | 0 <= i < |s| ensures s[i] != x {
        assert (s + [x])[i] != (s + [x])[|s|];
      }
    }
  }

  lemma ExtentDiffers(name: string)
    ensures name != Extent(name)
  {
    var stem, ext := Stem(name), Ext(name);
    assert name == stem + ext;
    assert (stem + ext)[|stem|..] == ext && Extent(name)[|stem|..] == "-flat.vmdk";
  }

  ghost predicate Holds(dest: set<string>, s: seq<string>)
  {
    forall x :: x in dest <==> x in s
  }

  lemma ReserveMore(vmx: string, names: seq<string>, name: string, dest: set<string>)
    requires Holds(dest, Reserved(vmx, names, []))
    ensures Holds(dest + {name, Extent(name)}, Reserved(vmx, names + [name], []))
    ensures Distinct(Reserved(vmx, names + [name], [])) <==>
              Distinct(Reserved(vmx, names, [])) && name !in dest && Extent(name) !in dest
  {
    var r := Reserved(vmx, names, []);
    ReserveIs(vmx, names, name);
    ExtentDiffers(name);
    DistinctTwo(r, name, Extent(name));
    HoldsTwo(dest, r, name, Extent(name));
  }

  lemma DistinctTwo(r: seq<string>, x: string, y: string)
    ensures Distinct(r + [x] + [y]) <==> Distinct(r) && x !in r && y !in r && x != y
  {
    DistinctMore(r, x);
    DistinctMore(r + [x], y);
  }

  lemma HoldsTwo(dest: set<string>, r: seq<string>, x: string, y: string)
    requires Holds(dest, r)
    ensures Holds(dest + {x, y}, r + [x] + [y])
  {
  }

  lemma ReserveIs(vmx: string, names: seq<string>, name: string)
    ensures Reserved(vmx, names + [name], []) == Reserved(vmx, names, []) + [name] + [Extent(name)]
  {
    assert (names + [name])[..|names|] == names;
  }

  /** The name of one disk: its own, or for one from elsewhere the first that is free. */
  ghost predicate Named(fold: string -> string, found: Found, used: set<string>, name: string)
  {
    if found.external then
      exists i: nat :: name == Numbered(Stem(found.base), i) && Free(fold, used, name) &&
        forall j :: 0 <= j < i ==> !Free(fold, used, Numbered(Stem(found.base), j))
    else name == found.base
  }

  method NameDisk(fold: string -> string, found: Found, used: set<string>) returns (name: string)
    requires KeepsNumbers(fold)
    ensures Named(fold, found, used, name)
  {
    name := found.base;
    if found.external {
      ghost var i;
      name, i := FreeName(fold, name, used);
    }
  }

  /** What was used when each disk got its name. */
  ghost predicate Uses(vmx: string, names: seq<string>, folder: set<string>, uses: seq<set<string>>)
  {
    && |uses| == |names|
    && (forall i :: 0 <= i < |names| ==> folder <= uses[i] && vmx in uses[i])
    && (forall i, j :: 0 <= j < i < |names| ==> names[j] in uses[i] && Extent(names[j]) in uses[i])
  }

  /** The first disks have got their names. */
  ghost predicate AllNamed(fold: string -> string, found: seq<Found>, uses: seq<set<string>>, names: seq<string>)
  {
    |uses| == |names| <= |found| && forall i :: 0 <= i < |names| ==> Named(fold, found[i], uses[i], names[i])
  }

  lemma NamedMore(fold: string -> string, found: seq<Found>, uses: seq<set<string>>, names: seq<string>,
    used: set<string>, name: string)
    requires AllNamed(fold, found, uses, names) && |names| < |found| && Named(fold, found[|names|], used, name)
    ensures AllNamed(fold, found, uses + [used], names + [name])
  {
  }

  lemma UsesMore(vmx: string, names: seq<string>, folder: set<string>, uses: seq<set<string>>, name: string,
    used: set<string>)
    requires Uses(vmx, names, folder, uses) && folder <= used && vmx in used
    requires forall j :: 0 <= j < |names| ==> names[j] in used && Extent(names[j]) in used
    ensures Uses(vmx, names + [name], folder, uses + [used])
  {
  }

  lemma {:induction false} ReservedHasAll(vmx: string, names: seq<string>)
    ensures vmx in Reserved(vmx, names, [])
    ensures forall j :: 0 <= j < |names| ==>
              names[j] in Reserved(vmx, names, []) && Extent(names[j]) in Reserved(vmx, names, [])
  {
    assert Reserved(vmx, names, [])[0] == vmx;
    PairsHasAll(names);
  }

  lemma {:induction false} PairsHasAll(names: seq<string>)
    ensures forall j :: 0 <= j < |names| ==> names[j] in Pairs(names) && Extent(names[j]) in Pairs(names)
  {
    if names != [] {
      var n := |names| - 1;
      PairsHasAll(names[..n]);
      assert Pairs(names)[|Pairs(names[..n])|] == names[n] && Pairs(names)[|Pairs(names[..n])| + 1] == Extent(names[n]);
      forall j | 0 <= j < n ensures names[j] in Pairs(names) && Extent(names[j]) in Pairs(names) {
        assert names[..n][j] == names[j];
      }
    }
  }

  method NameDisks(fold: string -> string, vmx: string, found: seq<Found>, folder: set<string>)
    returns (names: seq<string>, ready: bool, dest: set<string>, ghost uses: seq<set<string>>)
    requires KeepsNumbers(fold)
    ensures Uses(vmx, names, folder, uses) && |names| == |found| && AllNamed(fold, found, uses, names)
    ensures ready <==> Distinct(Reserved(vmx, names, []))
    ensures Holds(dest, Reserved(vmx, names, []))
  {
    names, ready, dest, uses := [], true, {vmx}, [];
    for i := 0 to |found|
      invariant |names| == i && Uses(vmx, names, folder, uses) && AllNamed(fold, found, uses, names)
      invariant ready <==> Distinct(Reserved(vmx, names, []))
      invariant Holds(dest, Reserved(vmx, names, []))
    {
      var name := NameDisk(fold, found[i], folder + dest);
      ReserveMore(vmx, names, name, dest);
      ReservedHasAll(vmx, names);
      UsesMore(vmx, names, folder, uses, name, folder + dest);
      NamedMore(fold, found, uses, names, folder + dest, name);
      ready := ready && name !in dest && Extent(name) !in dest;
      names, uses, dest := names + [name], uses + [folder + dest], dest + {name, Extent(name)};
    }
  }

  /** The names of the configuration files come after those of the disks. */
  method NameFiles(fold: string -> string, vmx: string, found: seq<Found>, configs: seq<string>, folder: set<string>)
    returns (names: seq<string>, ready: bool, ghost uses: seq<set<string>>)
    requires KeepsNumbers(fold)
    ensures Uses(vmx, names, folder, uses) && |names| == |found| && AllNamed(fold, found, uses, names)
    ensures ready <==> Distinct(Reserved(vmx, names, configs))
  {
    var dest: set<string>;
    names, ready, dest, uses := NameDisks(fold, vmx, found, folder);
    assert Reserved(vmx, names, configs[..0]) == Reserved(vmx, names, []);
    for i := 0 to |configs|
      invariant ready <==> Distinct(Reserved(vmx, names, configs[..i]))
      invariant Holds(dest, Reserved(vmx, names, configs[..i]))
    {
      DistinctMore(Reserved(vmx, names, configs[..i]), configs[i]);
      assert Reserved(vmx, names, configs[..i + 1]) == Reserved(vmx, names, configs[..i]) + [configs[i]];
      ready := ready && configs[i] !in dest;
      dest := dest + {configs[i]};
    }
    assert configs[..|configs|] == configs;
  }

  // -----------------------------------------------------------------------------------------------
  // The deltas of a live migration

  /** The names `liveDeltas` takes to be in use in the target folder. */
  function InUse(vmx: string, names: seq<string>, configs: seq<string>): seq<string>
  {
    [vmx] + Twins(names) + configs
  }

  function Twins(names: seq<string>): seq<string>
  {
    if names == [] then [] else [names[0], Flat(names[0])] + Twins(names[1..])
  }

  /** The new files share no name with those in use nor with each other, whatever the case. */
  ghost predicate Separate(fold: string -> string, inUse: seq<string>, files: seq<string>)
  {
    && (forall f, u :: f in files && u in inUse ==> fold(f) != fold(u))
    && (forall i, j :: 0 <= i < j < |files| ==> fold(files[i]) != fold(files[j]))
  }

  /** The descriptors and extents of the deltas, in turn. */
  method DeltasFit(fold: string -> string, vmx: string, names: seq<string>, configs: seq<string>, files: seq<string>)
    returns (ok: bool)
    ensures ok <==> Separate(fold, InUse(vmx, names, configs), files)
  {
    var inUse := InUse(vmx, names, configs);
    var taken := set x | x in inUse :: fold(x);
    for i := 0 to |files|
      invariant Separate(fold, inUse, files[..i])
      invariant forall y :: y in taken <==>
                  (exists x :: x in inUse && fold(x) == y) || exists k :: 0 <= k < i && fold(files[k]) == y
    {
      if fold(files[i]) in taken {
        if x :| x in inUse && fold(x) == fold(files[i]) {
        } else {
          var k :| 0 <= k < i && fold(files[k]) == fold(files[i]);
        }
        return false;
      }
      assert files[..i + 1] == files[..i] + [files[i]];
      taken := taken + {fold(files[i])};
    }
    assert files[..|files|] == files;
    return true;
  }

  predicate Gives(name: string, x: string)
  {
    x == name || x == Extent(name)
  }

  lemma {:induction false} PairsHasOnly(names: seq<string>, x: string) returns (i: nat)
    requires x in Pairs(names)
    ensures i < |names| && Gives(names[i], x)
  {
    i := |names| - 1;
    if x in Pairs(names[..i]) {
      i := PairsHasOnly(names[..i], x);
    }
  }

  lemma {:induction false} TwinsHasAll(names: seq<string>, n: string)
    requires n in names
    ensures n in Twins(names) && Flat(n) in Twins(names)
  {
    var t := Twins(names);
    assert t[0] == names[0] && t[1] == Flat(names[0]) && t[2..] == Twins(names[1..]);
    if n != names[0] {
      TwinsHasAll(names[1..], n);
    }
  }

  lemma {:induction false} ExtOfSuffix(name: string, i: nat)
    requires i < |name| && name[i] == '.' && forall k :: i < k < |name| ==> name[k] != '.' && name[k] != '/'
    ensures Ext(name) == name[i..]
  {
    var n := |name| - 1;
    if i < n {
      ExtOfSuffix(name[..n], i);
      assert name[i..] == name[..n][i..] + [name[n]];
    }
  }

  /** The two readings of a disk's data file agree for the extension `.vmdk`, and where there is none. */
  lemma ExtentIsFlat(name: string)
    ensures Extent(name) == Flat(name) <==> Ext(name) == ".vmdk" || Ext(name) == ""
  {
    if HasSuffix(name, ".vmdk") {
      assert name[|name| - 5..] == ".vmdk";
      ExtOfSuffix(name, |name| - 5);
    } else if Ext(name) != "" {
      assert |Extent(name)| < |Flat(name)|;
    }
  }

  /** The true data file of each disk has, whatever the case, a name that is taken to be in use. */
  ghost predicate Covered(fold: string -> string, vmx: string, names: seq<string>, configs: seq<string>)
  {
    forall n :: n in names ==> CoveredName(fold, InUse(vmx, names, configs), n)
  }

  ghost predicate CoveredName(fold: string -> string, inUse: seq<string>, n: string)
  {
    exists v :: v in inUse && fold(v) == fold(Extent(n))
  }

  lemma CoveredIsSeparate(fold: string -> string, vmx: string, names: seq<string>, configs: seq<string>,
    files: seq<string>)
    requires Covered(fold, vmx, names, configs) && Separate(fold, InUse(vmx, names, configs), files)
    ensures Separate(fold, Reserved(vmx, names, configs), files)
  {
    var inUse, reserved := InUse(vmx, names, configs), Reserved(vmx, names, configs);
    forall f, u | f in files && u in reserved ensures fold(f) != fold(u) {
      if u in Pairs(names) {
        var i := PairsHasOnly(names, u);
        TwinsHasAll(names, names[i]);
        assert CoveredName(fold, inUse, names[i]);
      }
    }
  }

  lemma UncoveredCollides(fold: string -> string, vmx: string, names: seq<string>, configs: seq<string>, n: string)
    requires n in names && !CoveredName(fold, InUse(vmx, names, configs), n)
    ensures Separate(fold, InUse(vmx, names, configs), [Extent(n)]) && Extent(n) in Reserved(vmx, names, configs)
  {
    PairsHasAll(names);
    var i :| 0 <= i < |names| && names[i] == n;
    assert Extent(names[i]) in Pairs(names);
  }

  lemma Collides(fold: string -> string, inUse: seq<string>, files: seq<string>, f: string)
    requires f in files && f in inUse
    ensures !Separate(fold, inUse, files)
  {
  }

  /** The deltas that pass are new to the target folder, whatever they are called, if and only if the data file of each
      disk has a name that is taken to be in use. */
  lemma DeltasAreNew(fold: string -> string, vmx: string, names: seq<string>, configs: seq<string>)
    ensures (forall files :: Separate(fold, InUse(vmx, names, configs), files) ==>
              Separate(fold, Reserved(vmx, names, configs), files))
       <==> Covered(fold, vmx, names, configs)
  {
    if Covered(fold, vmx, names, configs) {
      forall files | Separate(fold, InUse(vmx, names, configs), files) ensures Separate(fold,
          Reserved(vmx, names, configs), files) {
        CoveredIsSeparate(fold, vmx, names, configs, files);
      }
    } else {
      var n :| n in names && !CoveredName(fold, InUse(vmx, names, configs), n);
      UncoveredCollides(fold, vmx, names, configs, n);
      Collides(fold, Reserved(vmx, names, configs), [Extent(n)], Extent(n));
    }
  }

  /** They are where the two readings agree, which is what a clone demands. */
  lemma DescriptorsAreCovered(fold: string -> string, vmx: string, names: seq<string>, configs: seq<string>)
    requires forall n :: n in names ==> Ext(n) == ".vmdk" || Ext(n) == ""
    ensures Covered(fold, vmx, names, configs)
  {
    forall n | n in names ensures CoveredName(fold, InUse(vmx, names, configs), n) {
      TwinsHasAll(names, n);
      ExtentIsFlat(n);
      assert Flat(n) in InUse(vmx, names, configs);
    }
  }

  /** Case folding keeps the length of an ASCII name. */
  ghost predicate KeepsLength(fold: string -> string)
  {
    forall s :: (forall i :: 0 <= i < |s| ==> s[i] < (0x80 as char)) ==> |fold(s)| == |s|
  }

  lemma Unlike(fold: string -> string)
    requires KeepsLength(fold)
    ensures forall v :: v in ["v.vmx", "D.VMDK", "D.VMDK-flat.vmdk"] ==> fold(v) != fold("D-flat.vmdk")
  {
    assert |fold("v.vmx")| == 5 && |fold("D.VMDK")| == 6 && |fold("D.VMDK-flat.vmdk")| == 16 &&
        |fold("D-flat.vmdk")| == 11;
  }

  lemma TwinsOfOne(name: string)
    ensures Twins([name]) == [name, Flat(name)]
  {
    assert [name][1..] == [];
    assert Twins([name][1..]) == [];
  }

  lemma TwoReadings()
    ensures Extent("D.VMDK") == "D-flat.vmdk" && Flat("D.VMDK") == "D.VMDK-flat.vmdk"
  {
    var name := "D.VMDK";
    ExtOfSuffix(name, 1);
    assert name[1..] == ".VMDK" && Stem(name) == "D";
  }

  /** Elsewhere they need not be: `D-flat.vmdk` passes beside the disk `D.VMDK`, whose data file has that name. */
  lemma OtherExtension(fold: string -> string)
    requires KeepsLength(fold)
    ensures Separate(fold, InUse("v.vmx", ["D.VMDK"], []), ["D-flat.vmdk"])
    ensures "D-flat.vmdk" in Reserved("v.vmx", ["D.VMDK"], [])
  {
    var name := "D.VMDK";
    var names := [name];
    TwoReadings();
    TwinsOfOne(name);
    assert InUse("v.vmx", names, []) == ["v.vmx", name, Flat(name)];
    Unlike(fold);
    UncoveredCollides(fold, "v.vmx", names, [], name);
  }
}
