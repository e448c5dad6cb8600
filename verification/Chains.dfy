/** Whether another registered VM can reach the disks of the source: `sharedCheck` and `otherChain` of
    internal/migration/analyzer.go. The files of the host do not change meanwhile. */
module Chains {
  import opened Text
  import opened Vmx
  import opened Vmdk
  import D = Devices

  /** What the reads of one analysis give; None stands for an error. */
  datatype Files = Files(
    resolve: (string, string) -> Option<string>,     // a reference, from the folder it is made in, to a canonical path
    folder: string -> string,                        // `path.Dir`
    configs: map<string, Config>,                    // the VMX files that can be read and parsed
    descriptors: map<string, Descriptor>)            // the disk descriptors that can

  datatype Other = Other(id: nat, vmx: string)

  /** The longest chain that is followed, in descriptors. */
  const MAX_CHAIN: nat := 33

  predicate IsBase(d: Descriptor)
  {
    Lower(d.parentCid) == "ffffffff" && d.parentHint == ""
  }

  /** Every extent lies in the folder and is none of the source's files. */
  predicate ExtentsApart(f: Files, backings: set<string>, dir: string, extents: seq<Extent>)
  {
    forall x :: x in extents ==>
      var p := f.resolve(x.file, dir);
      p.Some? && p.value !in backings && f.folder(p.value) == dir
  }

  /** The next descriptor of a chain, when it lies in the same folder and is none of the source's files. */
  function Parent(f: Files, backings: set<string>, dir: string, d: Descriptor): Option<Descriptor>
  {
    var p := if d.parentHint == "" then None else f.resolve(d.parentHint, dir);
    if p.None? || p.value in backings || f.folder(p.value) != dir || p.value !in f.descriptors then None
    else Some(f.descriptors[p.value])
  }

  /** A whole chain, from the disk to its base, apart from the source and in one folder. */
  ghost predicate Isolated(f: Files, backings: set<string>, dir: string, chain: seq<Descriptor>)
  {
    && chain != [] && IsBase(chain[|chain| - 1])
    && (forall i :: 0 <= i < |chain| ==> ExtentsApart(f, backings, dir, chain[i].extents))
    && (forall i :: 0 <= i < |chain| - 1 ==>
         !IsBase(chain[i]) && Parent(f, backings, dir, chain[i]) == Some(chain[i + 1]))
  }

  method CheckExtents(f: Files, backings: set<string>, dir: string, extents: seq<Extent>) returns (ok: bool)
    ensures ok <==> ExtentsApart(f, backings, dir, extents)
  {
    for i := 0 to |extents|
      invariant ExtentsApart(f, backings, dir, extents[..i])
    {
      var p := f.resolve(extents[i].file, dir);
      if p.None? || p.value in backings || f.folder(p.value) != dir {
        return false;
      }
      assert extents[..i + 1] == extents[..i] + [extents[i]];
    }
    assert extents[..|extents|] == extents;
    return true;
  }

  /** A chain beginning with these links cannot be any other. */
  lemma {:induction false} SameChain(f: Files, backings: set<string>, dir: string, a: seq<Descriptor>,
    b: seq<Descriptor>, n: nat)
    requires Isolated(f, backings, dir, a) && Walked(f, backings, dir, b) && a[0] == b[0] && n < |a| && n < |b|
    ensures a[n] == b[n]
  {
    if n > 0 {
      SameChain(f, backings, dir, a, b, n - 1);
    }
  }

  /** The part of a chain that was followed. */
  ghost predicate Walked(f: Files, backings: set<string>, dir: string, walk: seq<Descriptor>)
  {
    && walk != []
    && (forall i :: 0 <= i < |walk| - 1 ==> ExtentsApart(f, backings, dir, walk[i].extents))
    && (forall i :: 0 <= i < |walk| - 1 ==> !IsBase(walk[i]) && Parent(f, backings, dir, walk[i]) == Some(walk[i + 1]))
  }

  lemma NoLongerChain(f: Files, backings: set<string>, dir: string, walk: seq<Descriptor>, chain: seq<Descriptor>)
    requires Walked(f, backings, dir, walk) && Isolated(f, backings, dir, chain) && chain[0] == walk[0]
    ensures |walk| <= |chain|
    ensures |walk| == |chain| ==> walk[|walk| - 1] == chain[|chain| - 1]
    ensures |walk| < |chain| ==> walk[|walk| - 1] == chain[|walk| - 1]
  {
    if |walk| > |chain| {
      SameChain(f, backings, dir, chain, walk, |chain| - 1);
    } else {
      SameChain(f, backings, dir, chain, walk, |walk| - 1);
    }
  }

  /** No isolated chain goes through this descriptor. */
  predicate Blocked(f: Files, backings: set<string>, dir: string, d: Descriptor)
  {
    !ExtentsApart(f, backings, dir, d.extents) || (!IsBase(d) && Parent(f, backings, dir, d).None?)
  }

  lemma NotBlocked(f: Files, backings: set<string>, dir: string, walk: seq<Descriptor>, chain: seq<Descriptor>)
    requires Walked(f, backings, dir, walk) && Isolated(f, backings, dir, chain) && chain[0] == walk[0]
    ensures !Blocked(f, backings, dir, walk[|walk| - 1])
  {
    NoLongerChain(f, backings, dir, walk, chain);
    var n := |walk| - 1;
    assert chain[n] == walk[n] && ExtentsApart(f, backings, dir, chain[n].extents);
    if n < |chain| - 1 {
      assert Parent(f, backings, dir, chain[n]) == Some(chain[n + 1]);
    }
  }

  lemma WalkOn(f: Files, backings: set<string>, dir: string, walk: seq<Descriptor>, d: Descriptor)
    requires Walked(f, backings, dir, walk)
    requires var last := walk[|walk| - 1];
             ExtentsApart(f, backings, dir, last.extents) && !IsBase(last) && Parent(f, backings, dir, last) == Some(d)
    ensures Walked(f, backings, dir, walk + [d])
  {
  }

  /** `otherChain`: accepts exactly the isolated chains of at most 33 descriptors. A cycle ends after as many. */
  method OtherChain(f: Files, backings: set<string>, dir: string, first: Descriptor)
    returns (ok: bool, ghost chain: seq<Descriptor>)
    ensures ok ==> Isolated(f, backings, dir, chain) && chain[0] == first && |chain| <= MAX_CHAIN
    ensures !ok ==> forall c :: Isolated(f, backings, dir, c) && c[0] == first ==> |c| > MAX_CHAIN
  {
    var d := first;
    chain := [first];
    for depth := 0 to MAX_CHAIN
      invariant |chain| == depth + 1 && chain[0] == first && chain[depth] == d && Walked(f, backings, dir, chain)
    {
      var apart := CheckExtents(f, backings, dir, d.extents);
      if apart && IsBase(d) {
        return true, chain;
      }
      var next := Parent(f, backings, dir, d);
      if !apart || next.None? {
        forall c | c != [] && c[0] == first ensures !Isolated(f, backings, dir, c) {
          if Isolated(f, backings, dir, c) {
            NotBlocked(f, backings, dir, chain, c);
          }
        }
        return false, chain;
      }
      WalkOn(f, backings, dir, chain, next.value);
      d := next.value;
      chain := chain + [d];
    }
    forall c | Isolated(f, backings, dir, c) && c[0] == first ensures |c| > MAX_CHAIN {
      NoLongerChain(f, backings, dir, chain, c);
    }
    return false, chain;
  }

  // -----------------------------------------------------------------------------------------------
  // Every other VM

  /** A disk of another VM is apart: its descriptor is not the source's, and its chain is isolated and not too long. */
  ghost predicate DiskApart(f: Files, backings: set<string>, p: string)
  {
    && p !in backings && p in f.descriptors
    && exists c :: Isolated(f, backings, f.folder(p), c) && c[0] == f.descriptors[p] && |c| <= MAX_CHAIN
  }

  predicate NamesVmdk(c: Config, k: string)
    requires k in c
  {
    HasSuffix(Lower(c[k]), ".vmdk")
  }

  /** Every value that names a VMDK is one of a `.filename` key, and its disk is apart. */
  ghost predicate ConfigApart(f: Files, backings: set<string>, dir: string, c: Config)
  {
    forall k :: k in c && NamesVmdk(c, k) ==> KeyApart(f, backings, dir, c, k)
  }

  ghost predicate KeyApart(f: Files, backings: set<string>, dir: string, c: Config, k: string)
    requires k in c
  {
    D.NamesFile(k) && var p := f.resolve(c[k], dir); p.Some? && DiskApart(f, backings, p.value)
  }

  ghost predicate VmApart(f: Files, backings: set<string>, vm: Other)
  {
    var p := f.resolve(vm.vmx, "");
    p.Some? && p.value in f.configs && ConfigApart(f, backings, f.folder(p.value), f.configs[p.value])
  }

  method CheckKey(f: Files, backings: set<string>, dir: string, c: Config, k: string) returns (ok: bool)
    requires k in c && NamesVmdk(c, k)
    ensures ok <==> KeyApart(f, backings, dir, c, k)
  {
    if !D.NamesFile(k) {
      return false;
    }
    var p := f.resolve(c[k], dir);
    if p.None? || p.value in backings || p.value !in f.descriptors {
      return false;
    }
    ghost var chain;
    ok, chain := OtherChain(f, backings, f.folder(p.value), f.descriptors[p.value]);
  }

  method CheckConfig(f: Files, backings: set<string>, dir: string, c: Config) returns (ok: bool)
    ensures ok <==> ConfigApart(f, backings, dir, c)
  {
    var todo := c.Keys;
    while todo != {}
      invariant todo <= c.Keys
      invariant forall k :: k in c && k !in todo && NamesVmdk(c, k) ==> KeyApart(f, backings, dir, c, k)
    {
      var k :| k in todo;
      if NamesVmdk(c, k) {
        ok := CheckKey(f, backings, dir, c, k);
        if !ok {
          return;
        }
      }
      todo := todo - {k};
    }
    return true;
  }

  /** `sharedCheck`: passes exactly when every other registered VM is apart from the source. */
  method SharedCheck(f: Files, vms: seq<Other>, id: nat, backings: set<string>) returns (ok: bool)
    ensures ok <==> forall vm :: vm in vms && vm.id != id ==> VmApart(f, backings, vm)
  {
    for i := 0 to |vms|
      invariant forall k :: 0 <= k < i && vms[k].id != id ==> VmApart(f, backings, vms[k])
    {
      if vms[i].id != id {
        var p := f.resolve(vms[i].vmx, "");
        if p.None? || p.value !in f.configs {
          return false;
        }
        ok := CheckConfig(f, backings, f.folder(p.value), f.configs[p.value]);
        if !ok {
          return;
        }
      }
    }
    return true;
  }

  // -----------------------------------------------------------------------------------------------
  // What other VMs can reach

  /** A path that leads from a disk through parents: each link resolves in the folder of the descriptor it is in. */
  ghost predicate Path(f: Files, path: seq<string>)
  {
    && path != [] && path[0] in f.descriptors
    && forall i :: 0 <= i < |path| - 1 ==>
         && path[i] in f.descriptors && f.descriptors[path[i]].parentHint != ""
         && f.resolve(f.descriptors[path[i]].parentHint, f.folder(path[i])) == Some(path[i + 1])
  }

  /** The file is a descriptor on the path, or an extent of one. */
  ghost predicate On(f: Files, path: seq<string>, file: string)
  {
    exists i :: 0 <= i < |path| && (path[i] == file || OfDescriptor(f, path[i], file))
  }

  ghost predicate OfDescriptor(f: Files, at: string, file: string)
  {
    at in f.descriptors && exists x :: x in f.descriptors[at].extents && f.resolve(x.file, f.folder(at)) == Some(file)
  }

  /** A VM reaches a file when one of its disks leads to it, through any number of parents. */
  ghost predicate Reaches(f: Files, vm: Other, file: string)
  {
    exists p, k, path ::
      && f.resolve(vm.vmx, "") == Some(p) && p in f.configs && k in f.configs[p] && NamesVmdk(f.configs[p], k)
      && path != [] && f.resolve(f.configs[p][k], f.folder(p)) == Some(path[0])
      && Path(f, path) && On(f, path, file)
  }

  /** A path stays on the isolated chain it begins with. */
  lemma {:induction false} PathOnChain(f: Files, backings: set<string>, dir: string, path: seq<string>,
    chain: seq<Descriptor>, n: nat)
    requires Path(f, path) && Isolated(f, backings, dir, chain) && chain[0] == f.descriptors[path[0]] &&
              path[0] !in backings
    requires n < |path| && f.folder(path[0]) == dir
    ensures f.folder(path[n]) == dir
    ensures n < |chain| && path[n] in f.descriptors && f.descriptors[path[n]] == chain[n] && path[n] !in backings
  {
    if n > 0 {
      PathOnChain(f, backings, dir, path, chain, n - 1);
      assert f.resolve(f.descriptors[path[n - 1]].parentHint, dir) == Some(path[n]);
      assert !IsBase(chain[n - 1]) && IsBase(chain[|chain| - 1]);
      assert Parent(f, backings, dir, chain[n - 1]) == Some(chain[n]);
    }
  }

  /** So when the check passes, no file of the source can be reached from any other registered VM. */
  lemma {:induction false} NothingShared(f: Files, vms: seq<Other>, id: nat, backings: set<string>, vm: Other,
    file: string)
    requires forall o :: o in vms && o.id != id ==> VmApart(f, backings, o)
    requires vm in vms && vm.id != id && Reaches(f, vm, file)
    ensures file !in backings
  {
    var p: string, k: string, path: seq<string> :|
      && f.resolve(vm.vmx, "") == Some(p) && p in f.configs && k in f.configs[p] && NamesVmdk(f.configs[p], k)
      && path != [] && f.resolve(f.configs[p][k], f.folder(p)) == Some(path[0])
      && Path(f, path) && On(f, path, file);
    assert KeyApart(f, backings, f.folder(p), f.configs[p], k);
    var dir := f.folder(path[0]);
    var chain: seq<Descriptor> :| Isolated(f, backings, dir, chain) && chain[0] == f.descriptors[path[0]] &&
        |chain| <= MAX_CHAIN;
    var i :| 0 <= i < |path| && (path[i] == file || OfDescriptor(f, path[i], file));
    PathOnChain(f, backings, dir, path, chain, i);
    assert ExtentsApart(f, backings, dir, chain[i].extents);
  }
}
