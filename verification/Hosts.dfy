/** The ESXi host as the migration engine sees it. `World` is what is true on the host; a command may take effect
    or not, and its reply may be lost either way. Every command, the reply the tool saw and the truth before and
    after it go into a ghost trace, over which the safety of whole runs is stated. */
module Hosts {
  import opened Text
  import opened Vmx
  import opened Vmdk
  import D = Devices
  import J = Jobs

  // ---------------------------------------------------------------------------------------------
  // The reviewed plan

  /** `target` is the name of the clone in the target folder. */
  datatype Disk = Disk(key: string, target: string, provisioned: int, cid: string)

  datatype ConfigFile = ConfigFile(source: string, target: string)

  datatype Plan = Plan(
    id: string, vm: nat, move: bool, live: bool, powerOn: bool, ready: bool, snapshot: string,
    sourceVmx: string, targetVmx: string, disks: seq<Disk>, configFiles: seq<ConfigFile>,
    sourceConfig: Config, targetConfig: Config)
  {
    predicate DiskKey(k: string) {
      exists d :: d in disks && d.key == k
    }

    /** The configuration the target must get: the reviewed one, in which a live cutover names each disk's delta, under
        its own name, as `deltas` gives it. */
    ghost predicate Reviewed(c: Config, deltas: Option<map<string, string>>) {
      && (live ==> deltas.Some?)
      && (forall k :: k in c <==> k in targetConfig)
      && forall k :: k in c ==>
           c[k] == if live && DiskKey(k) then BaseName(D.Value(deltas.value, k)) else targetConfig[k]
    }
  }

  /** The last element of a path that does not end in a slash. */
  function BaseName(p: string): string
  {
    var i := Find(p, '/');
    if i < |p| then BaseName(p[i + 1..]) else p
  }

  // ---------------------------------------------------------------------------------------------
  // The truth

  datatype Power = Off | On | Suspended

  datatype Clone = Running | Exited(code: nat)

  /** The directory `active`: absent, without its `job.meta`, or marked with a job. */
  datatype Lock = Free | Unmarked | Held(id: string)

  /** The inventory ids of the two VMX files, 0 for one that is not registered. */
  datatype Registry = Registry(src: nat, dst: nat)

  /** The snapshot names of the two VMs and what their VMX files say. */
  datatype Trees = Trees(src: seq<string>, dst: seq<string>, srcVmx: Config, dstVmx: Config)

  datatype Store = Store(lock: Lock, targetDir: bool, files: map<string, string>)

  datatype World = World(
    reg: Registry, srcPower: Power, dstPower: Power, trees: Trees, store: Store, clones: map<nat, Clone>)

  ghost predicate SameRegistrations(a: World, b: World)
  {
    Same(a.reg, b.reg)
  }

  ghost predicate SameTrees(a: World, b: World)
  {
    Same(a.trees, b.trees)
  }

  ghost predicate SameFiles(a: World, b: World)
  {
    Same(a.store, b.store)
  }

  /** A running guest may have powered off; nothing else changes a power state by itself. */
  predicate Fades(a: Power, b: Power)
  {
    (b == On ==> a == On) && (a == Off ==> b == Off) && (a == Suspended <==> b == Suspended)
  }

  /** A VM was told to power off. */
  predicate Lowers(a: Power, b: Power)
  {
    (b == On ==> a == On) && (a == Off ==> b == Off) && (b == Suspended ==> a == Suspended)
  }

  ghost predicate SourcePower(a: World, b: World)
  {
    Fades(a.srcPower, b.srcPower)
  }

  ghost predicate TargetPower(a: World, b: World)
  {
    Fades(a.dstPower, b.dstPower)
  }

  ghost predicate SamePowers(a: World, b: World)
  {
    a.srcPower == b.srcPower && a.dstPower == b.dstPower
  }

  /** What happens without the tool: guests may power off and workers may end. Nobody else acts. */
  ghost predicate Env(a: World, b: World)
  {
    Steady(a, b) && Drift(a.clones, b.clones)
  }

  ghost predicate Steady(a: World, b: World)
  {
    && SameRegistrations(a, b) && SameTrees(a, b) && SameFiles(a, b) && SourcePower(a, b) && TargetPower(a, b)
    && Same(a.clones.Keys, b.clones.Keys)
  }

  predicate Drift(a: map<nat, Clone>, b: map<nat, Clone>)
  {
    a.Keys == b.Keys && forall i :: i in a && a[i].Exited? ==> b[i] == a[i]
  }

  function Ended(clones: map<nat, Clone>): (r: map<nat, Clone>)
    ensures Drift(clones, r) && forall i :: i in r ==> r[i].Exited?
  {
    map i | i in clones :: if clones[i].Running? then Exited(0) else clones[i]
  }

  // ---------------------------------------------------------------------------------------------
  // Commands, with the reply the tool saw

  datatype Side = Source | Target

  datatype Status = Alive(logged: bool) | Done(code: nat)

  datatype Check = Chain | Shape | Size | Cid | DeltaText | DeltaChain | DeltaSize

  /** What a cutover copies: of each disk the delta's descriptor and extent, then the memory file and the snapshot
      list. */
  datatype DeltaFile = Text(disk: nat) | Data(disk: nat) | Memory | Snapshots

  datatype Question = NoQuestion | Question(answerable: bool)

  datatype Cmd =
    | Acquire(ok: bool)
    | Archive(ok: bool)
    | CreateTarget(ok: bool)
    | Write(path: string, content: string, ok: bool)
    | Copy(file: DeltaFile, ok: bool)
    | Launch(disk: nat, ok: bool)
    | Kill(disk: nat, at: int)
    | ShutDown(id: nat, force: bool)
    | PowerOn(id: nat)
    | Answer(id: nat)
    | Register(side: Side)
    | Unregister(id: nat)
    | CreateSnapshot(id: nat, name: string)
    | Merge(id: nat)
    | Poll(disk: nat, status: Option<Status>)
    | PowerRead(id: nat, power: Option<Power>)
    | ConfigRead(config: Option<Config>)
    | CheckRead(check: Check, disk: nat, ok: bool)
    | GuardRead(ok: bool)
    | MessageRead(id: nat, question: Option<Question>)
    | MetaRead(ok: bool)
    | SpaceRead(read: Space)
    | DeltasRead(names: Option<map<string, string>>)
    | InventoryRead(seen: Option<(nat, nat)>)
    | StopRead(stop: bool)
    | Order(action: J.Action)
    | OtherRead

  /** The least free space on the source's datastores, if it could be read, and when. */
  datatype Space = Space(bytes: Option<int>, at: int)

  /** Commands that change the host under the operation lock. */
  predicate Mutates(c: Cmd)
  {
    || c.Archive? || c.CreateTarget? || c.Write? || c.Copy? || c.Launch? || c.Kill? || c.ShutDown? || c.PowerOn?
    || c.Answer? || c.Register? || c.Unregister? || c.CreateSnapshot? || c.Merge?
  }

  /** Commands there is a rule for. */
  predicate Ruled(c: Cmd)
  {
    Mutates(c) || c.Acquire?
  }

  /** Everything a command may have done, whatever its reply. A success of `mkdir`, `mv` or `cat` is true, and so
      are an exit marker, a power state and the registrations that were read. */
  ghost predicate Effect(plan: Plan, c: Cmd, a: World, b: World)
  {
    match c
    case Acquire(ok) =>
      && b == a.(store := a.store.(lock := b.store.lock))
      && (b.store.lock == a.store.lock || (a.store.lock == Free &&
           (b.store.lock == Unmarked || b.store.lock == Held(plan.id))))
      && (ok ==> a.store.lock == Free && b.store.lock == Held(plan.id))
    case Archive(ok) =>
      && b == a.(store := a.store.(lock := b.store.lock))
      && (b.store.lock == a.store.lock || (a.store.lock != Free && b.store.lock == Free))
      && (ok ==> b.store.lock == Free)
    case CreateTarget(ok) =>
      && b == a.(store := a.store.(targetDir := b.store.targetDir))
      && (a.store.targetDir ==> b.store.targetDir && !ok)
      && (ok ==> b.store.targetDir)
    case Write(path, _, _) =>
      && b == a.(store := a.store.(files := b.store.files), trees := a.trees.(dstVmx := b.trees.dstVmx))
      && (forall p :: p in a.store.files ==> p in b.store.files && b.store.files[p] == a.store.files[p])
      && (path != plan.targetVmx ==> b.trees.dstVmx == a.trees.dstVmx)
    case Launch(i, _) => b == a || (i !in a.clones && b == a.(clones := a.clones[i := Running]))
    case ShutDown(id, _) => PowerEffect(id, Off, a, b)
    case PowerOn(id) => PowerEffect(id, On, a, b)
    case Register(Source) =>
      b == a || (a.reg.src == 0 && b.reg.src != 0 && b.reg.src != a.reg.dst && b == a.(reg := a.reg.(src := b.reg.src)))
    case Register(Target) =>
      || b == a
      || (a.reg.dst == 0 && b.reg.dst != 0 && b.reg.dst != a.reg.src && b.dstPower == Off &&
          b == a.(reg := a.reg.(dst := b.reg.dst), dstPower := b.dstPower, trees := a.trees.(dst := b.trees.dst)))
    case Unregister(id) =>
      || b == a
      || (id != 0 && id == a.reg.src && b == a.(reg := a.reg.(src := 0)))
      || (id != 0 && id == a.reg.dst && id != a.reg.src && b == a.(reg := a.reg.(dst := 0)))
    case CreateSnapshot(id, name) =>
      || b == a
      || (id == a.reg.src && (b.trees.src == a.trees.src || b.trees.src == a.trees.src + [name]) &&
          b == a.(trees := a.trees.(src := b.trees.src, srcVmx := b.trees.srcVmx)))
    case Merge(id) =>
      || b == a
      || (id == a.reg.src && (b.trees.src == a.trees.src || b.trees.src == []) &&
          b == a.(trees := a.trees.(src := b.trees.src, srcVmx := b.trees.srcVmx)))
      || (id == a.reg.dst && id != a.reg.src && (b.trees.dst == a.trees.dst || b.trees.dst == []) &&
          b == a.(trees := a.trees.(dst := b.trees.dst, dstVmx := b.trees.dstVmx)))
    case Poll(i, Some(Done(code))) => b == a && i in a.clones && a.clones[i] == Exited(code)
    case PowerRead(id, Some(p)) => b == a && id != 0 && p == if id == a.reg.src then a.srcPower else a.dstPower
    case InventoryRead(Some(seen)) => b == a && seen == (a.reg.src, a.reg.dst)
    case _ => b == a
  }

  ghost predicate PowerEffect(id: nat, p: Power, a: World, b: World)
  {
    || b == a
    || (id != 0 && id == a.reg.src && b == a.(srcPower := p))
    || (id != 0 && id == a.reg.dst && id != a.reg.src && b == a.(dstPower := p))
  }

  // ---------------------------------------------------------------------------------------------
  // The trace and what has been observed along it

  datatype Step = Step(cmd: Cmd, before: World, after: World)

  datatype Trace = Start(world: World) | Then(prev: Trace, step: Step)

  /** What has been seen of the copy. */
  datatype Copied = Copied(
    launched: set<nat>,         // disks for which a clone launch was issued
    pending: set<nat>,          // of these, the ones whose exit marker was not seen yet
    zero: set<nat>,             // the ones whose marker said 0
    passed: set<(Check, nat)>,  // verification reads that passed after such a marker
    again: set<(Check, nat)>,   // of these, the ones that passed since the target VMX was last read
    config: Option<Config>,     // what the last read of the target VMX parsed to
    deltas: Option<map<string, string>>,  // what the source VMX last named for each disk, on the snapshot
    copies: set<DeltaFile>,     // the files of the snapshot that were copied
    meta: bool)                 // the copied snapshot metadata was compared

  /** How many commands of a kind were issued. */
  datatype Counts = Counts(
    registration: nat,          // register, unregister and power-on commands
    unregistered: nat,          // the unregister commands among them
    answers: nat,               // answers to a VM's question
    acquires: nat,              // attempts to take the lock
    archives: nat)              // attempts to release it

  /** What the operator said. */
  datatype Orders = Orders(
    force: bool,                // the last order was to power off by force, and it was not carried out yet
    unstopped: bool)            // no stop was requested when last asked, and nothing was launched or polled since

  /** The watch over the clone launched last: the free space reads since, and when it was first told to stop. */
  datatype Waiting = Waiting(space: seq<Space>, kill: Option<int>)

  datatype View = View(
    copy: Copied,
    low: Option<nat>,           // the VM whose power was read last, if it was Off, and nothing was started since
    guard: bool,                // a full check of the source passed, and nothing has happened to it since
    inventory: Option<(nat, nat)>,  // the ids of the two VMX files in the last inventory, nothing registered since
    orders: Orders,
    wait: Waiting,
    counts: Counts)

  const NOTHING_SEEN := View(
    Copied({}, {}, {}, {}, {}, None, None, {}, false), None, false, None, Orders(false, false),
    Waiting([], None), Counts(0, 0, 0, 0, 0))

  /** A comparison with the original counts only for what was copied. */
  predicate There(v: Copied, c: Check, i: nat)
  {
    && (c.DeltaText? || c.DeltaChain? ==> Text(i) in v.copies)
    && (c.DeltaSize? || c.DeltaChain? ==> Data(i) in v.copies)
  }

  function Passing(v: Copied, c: Check, i: nat, ok: bool): Copied
  {
    if ok && i in v.zero && There(v, c, i) then v.(passed := v.passed + {(c, i)}, again := v.again + {(c, i)}) else v
  }

  function Launching(v: Copied, i: nat): Copied
  {
    v.(launched := v.launched + {i}, pending := v.pending + {i}, zero := v.zero - {i},
       passed := (set x | x in v.passed && x.1 != i), again := (set x | x in v.again && x.1 != i))
  }

  function Polling(v: Copied, i: nat, code: nat): Copied
  {
    v.(pending := v.pending - {i}, zero := if code == 0 && i in v.launched then v.zero + {i} else v.zero - {i})
  }

  function Copying(v: Copied, f: DeltaFile, ok: bool): Copied
  {
    if ok then v.(copies := v.copies + {f}) else v
  }

  function Comparing(v: Copied, ok: bool): Copied
  {
    v.(meta := ok && Memory in v.copies && Snapshots in v.copies)
  }

  function PowerSeen(v: View, id: nat, p: Option<Power>): View
  {
    v.(low := if p == Some(Off) then Some(id) else None)
  }

  function Reading(v: Copied, config: Option<Config>): Copied
  {
    v.(config := config, again := {})
  }

  /** A registration command: what the inventory said is not known any more. */
  function Registering(v: View, unregisters: nat): View
  {
    v.(guard := false, inventory := None,
       counts := v.counts.(registration := v.counts.registration + 1,
           unregistered := v.counts.unregistered + unregisters))
  }

  function Polled(v: View): View
  {
    v.(guard := false, orders := v.orders.(unstopped := false))
  }

  function Next(plan: Plan, v: View, c: Cmd): View
  {
    match c
    case Acquire(_) => v.(counts := v.counts.(acquires := v.counts.acquires + 1))
    case Archive(_) => v.(counts := v.counts.(archives := v.counts.archives + 1))
    case Launch(i, _) => Polled(v).(copy := Launching(v.copy, i), wait := Waiting([], None))
    case Kill(_, at) => v.(wait := v.wait.(kill := if v.wait.kill.Some? then v.wait.kill else Some(at)))
    case Poll(i, Some(Done(code))) => Polled(v).(copy := Polling(v.copy, i, code))
    case Poll(_, _) => Polled(v)
    case CheckRead(check, i, ok) => v.(copy := Passing(v.copy, check, i, ok))
    case ConfigRead(config) => v.(copy := Reading(v.copy, config))
    case MetaRead(ok) => v.(copy := Comparing(v.copy, ok))
    case Copy(f, ok) => v.(copy := Copying(v.copy, f, ok))
    case DeltasRead(names) => v.(copy := v.copy.(deltas := names))
    case PowerRead(id, p) => PowerSeen(v, id, p)
    case GuardRead(ok) => v.(guard := ok)
    case SpaceRead(read) => v.(wait := v.wait.(space := v.wait.space + [read]))
    case InventoryRead(seen) => v.(inventory := seen)
    case StopRead(stop) => v.(orders := v.orders.(unstopped := !stop))
    case Order(action) => v.(guard := false, orders := v.orders.(force := action == J.Force))
    case Write(_, _, _) => v.(guard := false)
    case ShutDown(_, _) => v.(guard := false, orders := v.orders.(force := false))
    case CreateSnapshot(_, _) => v.(guard := false)
    case Merge(_) => v.(guard := false)
    case Answer(_) => v.(counts := v.counts.(answers := v.counts.answers + 1))
    case Register(_) => Registering(v, 0)
    case PowerOn(_) => v.(guard := false, low := None, counts := v.counts.(registration := v.counts.registration + 1))
    case Unregister(_) => Registering(v, 1)
    case _ => v
  }

  // ---------------------------------------------------------------------------------------------
  // Safety

  predicate DiskVerified(plan: Plan, v: Copied, i: nat)
  {
    && i in v.zero && (Chain, i) in v.again && (Shape, i) in v.again && (Size, i) in v.again
    && (plan.live ==> (Cid, i) in v.passed && (DeltaText, i) in v.again && (DeltaChain, i) in v.again &&
                      (DeltaSize, i) in v.again)
  }

  /** A clone that ended well and passed its first checks. */
  predicate FirstVerified(v: Copied, i: nat)
  {
    i in v.zero && (Chain, i) in v.passed && (Shape, i) in v.passed && (Size, i) in v.passed
  }

  /** The target holds everything the plan asks for, as far as reads can show. */
  ghost predicate TargetVerified(plan: Plan, v: Copied)
  {
    && (forall i :: 0 <= i < |plan.disks| ==> DiskVerified(plan, v, i))
    && v.pending == {}
    && v.config.Some? && plan.Reviewed(v.config.value, v.deltas)
    && (plan.live ==> v.meta)
  }

  /** The two VMs have different ids; and once the job asked for the lock, which it does only where the target is not
      registered, never two running VMs, and two registered ones only while a live COPY merges, both off. */
  ghost predicate OneVm(plan: Plan, v: View, w: World)
  {
    && Apart(w)
    && (v.counts.acquires > 0 ==> AtMostOne(plan, w))
  }

  predicate Apart(w: World)
  {
    w.reg.src != 0 ==> w.reg.src != w.reg.dst
  }

  predicate AtMostOne(plan: Plan, w: World)
  {
    && !(w.srcPower == On && w.reg.dst != 0 && w.dstPower == On)
    && (w.reg.src != 0 && w.reg.dst != 0 ==> plan.live && !plan.move && w.srcPower == Off && w.dstPower == Off)
  }

  /** A clone may start when nothing can write to the base disks: the source is off or runs on the job's snapshot. */
  predicate Frozen(plan: Plan, w: World)
  {
    if plan.live then w.trees.src == [plan.snapshot] else w.srcPower == Off
  }

  predicate MayLaunch(plan: Plan, v: View, i: nat, w: World)
  {
    && i < |plan.disks| && i !in v.copy.launched && v.copy.pending == {} && v.guard && v.orders.unstopped
    && Frozen(plan, w)
    && forall k :: k in v.copy.launched ==> FirstVerified(v.copy, k)
  }

  predicate MaySnapshot(plan: Plan, v: View, id: nat, name: string, w: World)
  {
    plan.live && v.guard && id == w.reg.src && name == plan.snapshot && w.trees.src == [] && v.copy.launched == {}
  }

  predicate MayCopy(plan: Plan, v: View, w: World)
  {
    plan.live && v.guard && v.copy.pending == {} && w.srcPower == Off && w.trees.src == [plan.snapshot]
  }

  /** Only the job's own snapshot is merged, and never under a clone that may still be reading; a copy only when it was
      read off. */
  predicate MayMerge(plan: Plan, v: View, id: nat, w: World)
  {
    && plan.live && v.copy.pending == {} && id != 0
    && ((id == w.reg.src && w.trees.src == [plan.snapshot]) ||
         (id == w.reg.dst && id != w.reg.src && w.trees.dst == [plan.snapshot] && (plan.move || SeenOff(v, id, w))))
  }

  /** The target was the VM last read off, nothing was started since, and it is off. */
  predicate SeenOff(v: View, id: nat, w: World)
  {
    v.low == Some(id) && w.dstPower == Off
  }

  /** A VM leaves the inventory only when that showed it, and it was seen to be off and is; the source only for a fully
      verified target that was not in the inventory. */
  ghost predicate MayUnregister(plan: Plan, v: View, id: nat, w: World)
  {
    && v.copy.pending == {} && id != 0 && v.inventory.Some? && (id == w.reg.src || id == w.reg.dst)
    && (id == w.reg.src ==> MayLeave(plan, v, id, w))
    && v.low == Some(id) && (id != w.reg.src ==> v.inventory.value.1 == id && w.dstPower == Off)
  }

  ghost predicate MayLeave(plan: Plan, v: View, id: nat, w: World)
  {
    && plan.move && v.inventory == Some((id, 0)) && w.reg.dst == 0 && TargetVerified(plan, v.copy)
    && w.srcPower == Off && (plan.live || v.guard)
  }

  /** A VM enters the inventory only when that showed it missing; in a MOVE, both missing. */
  ghost predicate MayRegister(plan: Plan, v: View, side: Side, w: World)
  {
    match side
    case Source => v.copy.pending == {} && v.inventory == Some((0, 0)) && w.reg.src == 0 && w.reg.dst == 0
    case Target =>
      && TargetVerified(plan, v.copy) && v.inventory.Some? && v.inventory.value.1 == 0 && w.reg.dst == 0 &&
           w.srcPower == Off
      && if plan.move then v.inventory.value.0 == 0 && w.reg.src == 0 else plan.live
  }

  /** Only the target is started, when the inventory showed it and not the source. */
  ghost predicate MayPowerOn(plan: Plan, v: View, id: nat, w: World)
  {
    && plan.move && plan.powerOn && TargetVerified(plan, v.copy) && v.inventory == Some((0, id))
    && id != 0 && id == w.reg.dst && w.reg.src == 0 && w.srcPower == Off
  }

  /** The lock is asked for once, right after a full check, which a registered target does not pass. */
  predicate MayAcquire(v: View, w: World)
  {
    v.counts.acquires == 0 && v.counts.archives == 0 && v.guard && w.reg.dst == 0
  }

  /** What must hold when a change is issued, in the world it is issued in. */
  ghost predicate MayIssue(plan: Plan, v: View, c: Cmd, w: World)
  {
    match c
    case Acquire(_) => MayAcquire(v, w)
    case Archive(_) => v.copy.pending == {}
    case Launch(i, _) => MayLaunch(plan, v, i, w)
    case CreateSnapshot(id, name) => MaySnapshot(plan, v, id, name, w)
    case Copy(_, _) => MayCopy(plan, v, w)
    case Merge(id) => MayMerge(plan, v, id, w)
    case Unregister(id) => MayUnregister(plan, v, id, w)
    case Register(side) => MayRegister(plan, v, side, w)
    case PowerOn(id) => MayPowerOn(plan, v, id, w)
    case CreateTarget(_) => plan.live || v.guard
    case ShutDown(id, force) => id == w.reg.src && v.guard && (force ==> v.orders.force)
    case _ => true
  }

  // ---------------------------------------------------------------------------------------------
  // Judging a trace

  /** What a trace amounts to: what has been observed, the present truth, and three verdicts over all its steps. */
  datatype Verdict = Verdict(
    view: View, first: World, world: World,
    history: bool,  // the environment moves between the steps and each step has its effect
    safe: bool,     // every change was allowed when it was issued, and OneVm held throughout
    owned: bool)    // every change was issued while the lock was held by this job

  ghost function Advance(plan: Plan, v: Verdict, s: Step): Verdict
  {
    Verdict(
      Next(plan, v.view, s.cmd), v.first, s.after,
      v.history && Env(v.world, s.before) && Effect(plan, s.cmd, s.before, s.after),
      v.safe && (Ruled(s.cmd) ==> MayIssue(plan, v.view, s.cmd, s.before)) && OneVm(plan, v.view, s.before) &&
          OneVm(plan, Next(plan, v.view, s.cmd), s.after),
      v.owned && (Mutates(s.cmd) ==> s.before.store.lock == Held(plan.id)))
  }

  ghost function Judge(plan: Plan, t: Trace): Verdict
  {
    match t
    case Start(w) => Verdict(NOTHING_SEEN, w, w, true, OneVm(plan, NOTHING_SEEN, w), true)
    case Then(prev, s) => Advance(plan, Judge(plan, prev), s)
  }

  /** `judge` judges as `Judge` does. */
  ghost predicate Law(plan: Plan, judge: Trace -> Verdict)
  {
    && plan.sourceVmx != plan.targetVmx
    && forall t, s {:trigger judge(Then(t, s))} ::
         judge(Then(t, s)) == Advance(plan, judge(t), s) && (judge(t).safe ==>
             OneVm(plan, judge(t).view, judge(t).world))
  }

  lemma {:induction false} SafeIsOneVm(plan: Plan, t: Trace)
    ensures Judge(plan, t).safe ==> OneVm(plan, Judge(plan, t).view, Judge(plan, t).world)
  {
  }

  // ---------------------------------------------------------------------------------------------
  // The host

  predicate Roomy(bytes: Option<int>)
  {
    bytes.Some? && bytes.value >= MIN_SOURCE_FREE
  }

  datatype VM = VM(id: nat, path: string)

  /** A live migration needs 1 GiB on every datastore a delta grows on. */
  const MIN_SOURCE_FREE: int := 0x4000_0000

  /** The limit of an ordinary command, in milliseconds. */
  const COMMAND_LIMIT: int := 45_000

  predicate GoodShape(disk: Disk, d: Descriptor)
  {
    && !d.SnapshotOf(disk.target) && d.Standalone()
    && d.thin && d.bytes == disk.provisioned
    && LocalName(d.extents[0].file)
  }

  /** A name `path.Base` leaves alone, without the characters the verification excludes. */
  predicate LocalName(name: string)
  {
    (name == "/" || (name != "" && '/' !in name)) && '\r' !in name && '\n' !in name && 0 as char !in name
  }

  /** What the target VMX must name for each disk once it is merged: the cloned base disk. */
  function DiskNames(disks: seq<Disk>): map<string, string>
  {
    if disks == [] then map[] else DiskNames(disks[..|disks| - 1])[disks[|disks| - 1].key := disks[|disks| - 1].target]
  }

  /** What a VMX names for each disk of the plan. */
  function DeltaNames(plan: Plan, c: Config): map<string, string>
  {
    map k | k in c && plan.DiskKey(k) :: c[k]
  }

  predicate Listing(plan: Plan, src: nat, dst: nat, vms: seq<VM>)
  {
    && (forall v :: v in vms ==> v.id != 0)
    && (forall v :: v in vms && v.path == plan.sourceVmx ==> v.id == src)
    && (forall v :: v in vms && v.path == plan.targetVmx ==> v.id == dst)
    && (src != 0 ==> VM(src, plan.sourceVmx) in vms)
    && (dst != 0 ==> VM(dst, plan.targetVmx) in vms)
  }

  /** One row of the inventory; None when one of the two files shows up a second time. */
  function Seen(plan: Plan, sofar: (nat, nat), v: VM): Option<(nat, nat)>
  {
    if v.path == plan.sourceVmx then (if sofar.0 != 0 then None else Some((v.id, sofar.1)))
    else if v.path == plan.targetVmx then (if sofar.1 != 0 then None else Some((sofar.0, v.id)))
    else Some(sofar)
  }

  /** The first `n` rows together. */
  function SeenIn(plan: Plan, vms: seq<VM>, n: nat): Option<(nat, nat)>
    requires n <= |vms|
  {
    if n == 0 then Some((0, 0))
    else if SeenIn(plan, vms, n - 1).None? then None
    else Seen(plan, SeenIn(plan, vms, n - 1).value, vms[n - 1])
  }

  /** What a whole listing says of the two files. */
  function SeenOf(plan: Plan, vms: Option<seq<VM>>): Option<(nat, nat)>
  {
    if vms.None? then None else SeenIn(plan, vms.value, |vms.value|)
  }

  lemma {:induction false} SeenInFinds(plan: Plan, src: nat, dst: nat, vms: seq<VM>, n: nat)
    requires Listing(plan, src, dst, vms) && n <= |vms| && plan.sourceVmx != plan.targetVmx
    ensures SeenIn(plan, vms, n).Some? ==>
              var r := SeenIn(plan, vms, n).value;
              && r.0 == (if exists k :: 0 <= k < n && vms[k].path == plan.sourceVmx then src else 0)
              && r.1 == (if exists k :: 0 <= k < n && vms[k].path == plan.targetVmx then dst else 0)
    ensures Once(plan, vms) ==> SeenIn(plan, vms, n).Some?
  {
    if n > 0 {
      SeenInFinds(plan, src, dst, vms, n - 1);
      assert vms[n - 1] in vms;
    }
  }

  lemma SeenInAll(plan: Plan, src: nat, dst: nat, vms: seq<VM>)
    requires Listing(plan, src, dst, vms) && plan.sourceVmx != plan.targetVmx
    ensures SeenIn(plan, vms, |vms|).Some? ==> SeenIn(plan, vms, |vms|).value == (src, dst)
    ensures Once(plan, vms) ==> SeenIn(plan, vms, |vms|).Some?
  {
    SeenInFinds(plan, src, dst, vms, |vms|);
    assert src != 0 ==> VM(src, plan.sourceVmx) in vms;
    assert dst != 0 ==> VM(dst, plan.targetVmx) in vms;
  }

  /** Neither of the two VMX files is listed twice. */
  predicate Once(plan: Plan, vms: seq<VM>)
  {
    forall i, j :: 0 <= i < j < |vms| && vms[i].path == vms[j].path ==>
                   vms[i].path != plan.sourceVmx && vms[i].path != plan.targetVmx
  }

  datatype Clock = Clock(now: int, patience: nat)

  /** What the ghost record of a run holds: its trace, and what the trace amounts to. */
  datatype Log = Log(trace: Trace, view: View, safe: bool, owned: bool)

  class Host {
    const plan: Plan
    /** A host on which every command takes effect, every reply arrives and every clone succeeds. */
    const reliable: bool
    /** What the clone of each disk leaves in its target descriptor. */
    const made: seq<Descriptor>
    /** What its source VMX says while the VM runs on the job's snapshot. */
    const shadow: Config
    /** How late a timer may fire. */
    const slack: nat

    var w: World
    /** The time, and the number of pauses the context survives. */
    var clock: Clock
    ghost var log: Log
    /** The host as the run found it. */
    ghost const start: World
    /** `Judge` for this plan, as a value. */
    ghost const judge: Trace -> Verdict

    ghost predicate Valid()
      reads this
    {
      && Same(judge(log.trace), Verdict(log.view, start, w, true, log.safe, log.owned))
      && Law(plan, judge)
    }

    /** Reads only: nothing but the environment moved, over any number of commands. */
    twostate predicate Still()
      reads this
    {
      && Steady(old(w), w) && (reliable ==> SamePowers(old(w), w))
      && log.safe == old(log).safe && log.owned == old(log).owned && old(clock).now <= clock.now &&
           clock.patience == old(clock).patience
    }

    twostate predicate SameCopy()
      reads this
    {
      Same(log.view.copy, old(log).view.copy)
    }

    twostate predicate SameCounts()
      reads this
    {
      Same(log.view.counts, old(log).view.counts)
    }

    /** Nothing of the view but the copy. */
    twostate predicate SameRest()
      reads this
    {
      Same(log.view, old(log).view.(copy := log.view.copy))
    }

    /** Nothing of the copy but what the source names on its snapshot. */
    twostate predicate SameClones()
      reads this
    {
      Same(log.view.copy, old(log).view.copy.(deltas := log.view.copy.deltas))
    }

    /** Of the view only what a guard reads. */
    twostate predicate OnlyGuards()
      reads this
    {
      && SameClones()
      && Same(log.view, old(log).view.(guard := log.view.guard, inventory := log.view.inventory, copy := log.view.copy))
    }

    /** Nothing was counted but answers. */
    twostate predicate OnlyAnswers()
      reads this
    {
      Same(log.view.counts, old(log).view.counts.(answers := log.view.counts.answers))
    }

    /** Nothing was counted but attempts at the lock. */
    twostate predicate OnlyLocks()
      reads this
    {
      Same(log.view.counts, old(log).view.counts.(acquires := log.view.counts.acquires,
          archives := log.view.counts.archives))
    }

    /** The last command. */
    ghost predicate LastWas(c: Cmd)
      reads this
    {
      log.trace.Then? && log.trace.step.cmd == c
    }

    /** One command was added to the trace. */
    twostate predicate Logged(c: Cmd)
      reads this
    {
      log.trace.Then? && log.trace.prev == old(log).trace && log.trace.step.cmd == c && log.trace.step.after == w
    }

    /** It took no longer than an ordinary command may. */
    twostate predicate Quick()
      reads this
    {
      clock.now <= old(clock).now + COMMAND_LIMIT
    }

    constructor (plan: Plan, reliable: bool, made: seq<Descriptor>, shadow: Config, slack: nat, w: World, patience: nat)
      requires plan.sourceVmx != plan.targetVmx && Apart(w)
      ensures Valid() && log.trace == Start(w) && log.view == NOTHING_SEEN && log.safe && log.owned
      ensures this.plan == plan && this.reliable == reliable && this.made == made && this.shadow == shadow &&
                this.w == w == start
      ensures this.slack == slack && clock == Clock(0, patience)
      ensures forall t :: judge(t) == Judge(plan, t)
    {
      this.plan, this.reliable, this.made, this.shadow, this.slack := plan, reliable, made, shadow, slack;
      this.w, start, clock := w, w, Clock(0, patience);
      judge := (t: Trace) => Judge(plan, t);
      log := Log(Start(w), NOTHING_SEEN, true, true);
      new;
      forall t ensures judge(t).safe ==> OneVm(plan, judge(t).view, judge(t).world) {
        SafeIsOneVm(plan, t);
      }
    }

    lemma SafeNow()
      requires Valid() && log.safe
      ensures OneVm(plan, log.view, w)
    {
      ghost var next := judge(Then(log.trace, Step(OtherRead, w, w)));
    }

    /** The environment moves; a single ordinary command ends within its limit. */
    method Turn(single: bool := false)
      modifies this`w, this`clock
      ensures clock.patience == old(clock).patience
      ensures Env(old(w), w) && old(clock).now <= clock.now && (single ==> Quick())
      ensures reliable ==> SamePowers(old(w), w) && w.clones == Ended(old(w).clones)
    {
      var d: int := *;
      clock := clock.(now := clock.now + if 0 <= d && (single ==> d <= COMMAND_LIMIT) then d else 0);
      if reliable {
        w := w.(clones := Ended(w.clones));
      } else {
        var clones: map<nat, Clone> := *;
        if !Drift(w.clones, clones) {
          clones := w.clones;
        }
        var srcOff: bool, dstOff: bool := *, *;
        w := w.(clones := clones,
                srcPower := if srcOff && w.srcPower == On then Off else w.srcPower,
                dstPower := if dstOff && w.dstPower == On then Off else w.dstPower);
      }
    }

    ghost method Record(c: Cmd, before: World)
      modifies this`log
      ensures log.trace == Then(old(log).trace, Step(c, before, w))
      ensures var v := judge(log.trace); log.view == v.view && log.safe == v.safe && log.owned == v.owned
    {
      var next := Then(log.trace, Step(c, before, w));
      log := Log(next, judge(next).view, judge(next).safe, judge(next).owned);
    }

    // Reads ---------------------------------------------------------------------------------------

    method Power(id: nat) returns (p: Option<Power>)
      requires Valid()
      modifies this
      ensures Valid() && Logged(PowerRead(id, p)) && Still()
      ensures Same(log.view, PowerSeen(old(log).view, id, p))
      ensures p.Some? ==>
                id != 0 && p.value == (if id == w.reg.src then w.srcPower else w.dstPower) &&
                (id == w.reg.src || id == w.reg.dst)
      ensures reliable && id != 0 && (id == w.reg.src || id == w.reg.dst) ==> p.Some?
    {
      Turn();
      var lost: bool := *;
      p := if (reliable || !lost) && id != 0 && (id == w.reg.src || id == w.reg.dst)
           then Some(if id == w.reg.src then w.srcPower else w.dstPower) else None;
      Record(PowerRead(id, p), w);
    }

    method AnyListing() returns (vms: seq<VM>)
      requires plan.sourceVmx != plan.targetVmx
      ensures Listing(plan, w.reg.src, w.reg.dst, vms) && (reliable ==> Once(plan, vms))
    {
      vms := *;
      if !Listing(plan, w.reg.src, w.reg.dst, vms) || (reliable && !Once(plan, vms)) {
        vms := (if w.reg.src != 0 then [VM(w.reg.src, plan.sourceVmx)] else [])
             + (if w.reg.dst != 0 then [VM(w.reg.dst, plan.targetVmx)] else []);
      }
    }

    /** `vmsvc/getallvms`. Other VMs may come and go; the two of this job are listed as they are. */
    method VMs() returns (vms: Option<seq<VM>>)
      requires Valid()
      modifies this
      ensures Valid() && Logged(InventoryRead(SeenOf(plan, vms))) && Still()
      ensures Same(log.view, old(log).view.(inventory := SeenOf(plan, vms)))
      ensures vms.Some? ==> Listing(plan, w.reg.src, w.reg.dst, vms.value)
      ensures reliable ==> vms.Some? && Once(plan, vms.value)
    {
      Turn();
      var lost: bool := *;
      if !reliable && lost {
        vms := None;
      } else {
        var s := AnyListing();
        vms := Some(s);
        SeenInAll(plan, w.reg.src, w.reg.dst, s);
      }
      Record(InventoryRead(SeenOf(plan, vms)), w);
    }

    /** A read whose answer is not modelled: mounted datastores, a canonical path. */
    method Lookup() returns (ok: bool)
      requires Valid()
      modifies this
      ensures Valid() && Logged(OtherRead) && Still() && Same(log.view, old(log).view)
      ensures reliable ==> ok
    {
      Turn();
      ok := *;
      ok := ok || reliable;
      Record(OtherRead, w);
    }

    /** The least free space on a datastore a snapshot delta grows on, as the last read of a guard. */
    method GuardFree() returns (bytes: Option<int>)
      requires Valid()
      modifies this
      ensures Valid() && Logged(GuardRead(Roomy(bytes))) && Still() &&
                Same(log.view, old(log).view.(guard := Roomy(bytes)))
      ensures reliable ==> Roomy(bytes)
    {
      Turn();
      bytes := *;
      if reliable {
        bytes := Some(MIN_SOURCE_FREE);
      }
      Record(GuardRead(Roomy(bytes)), w);
    }

    /** The same while a clone runs. */
    method SourceFree() returns (bytes: Option<int>)
      requires Valid()
      modifies this
      ensures Valid() && Logged(SpaceRead(Space(bytes, clock.now))) && Still() && Quick()
      ensures Same(log.view,
                old(log).view.(wait := old(log).view.wait.(space := old(log).view.wait.space
                + [Space(bytes, clock.now)])))
      ensures reliable ==> Roomy(bytes)
    {
      Turn(true);
      bytes := *;
      if reliable {
        bytes := Some(MIN_SOURCE_FREE);
      }
      Record(SpaceRead(Space(bytes, clock.now)), w);
    }

    /** Whether a stop was requested, asked through the job. */
    method StopRequested(j: J.Job) returns (stop: bool)
      requires Valid() && j.Valid()
      modifies this`log, j`stop, j`actions, j`approved
      ensures Valid() && j.Valid() && Logged(StopRead(stop)) && stop == j.stop && (old(j.stop) ==> j.stop)
      ensures j.stop ==> old(j.stop) || (!j.state.complete && !j.final && J.Stoppable(j.state.phase))
      ensures Same(log.view, old(log).view.(orders := old(log).view.orders.(unstopped := !stop)))
      ensures log.safe == old(log).safe && log.owned == old(log).owned
    {
      stop := j.StopRequested();
      Record(StopRead(stop), w);
    }

    /** The operator's order, received through the job; None when the context ends first. */
    method Receive(j: J.Job) returns (action: Option<J.Action>)
      requires Valid() && j.Valid()
      modifies this`log, j`stop, j`actions, j`approved
      ensures Valid() && j.Valid() && (old(j.stop) ==> j.stop) && (action == Some(J.Stop) ==> j.stop)
      ensures j.stop ==> old(j.stop) || (!j.state.complete && !j.final && J.Stoppable(j.state.phase))
      ensures action.Some? ==> Logged(Order(action.value))
      ensures Same(log.view, if action.None? then old(log).view
                             else old(log).view.(guard := false,
                                 orders := old(log).view.orders.(force := action.value == J.Force)))
      ensures log.safe == old(log).safe && log.owned == old(log).owned
    {
      action := j.Receive();
      if action.Some? {
        Record(Order(action.value), w);
      }
    }

    /** `inspect` followed by `matchPlan`: the power state when the fresh report is Ready and matches the plan. */
    method Inspect(ownLock: bool, created: bool) returns (p: Option<Power>)
      requires Valid()
      modifies this
      ensures Valid() && Logged(GuardRead(p.Some?)) && Still() && Same(log.view, old(log).view.(guard := p.Some?))
      ensures p.Some? ==>
                Unchanged(ownLock, created, w) && p.value != Suspended && (p.value == w.srcPower || p.value == On)
      ensures p.Some? && plan.live ==> p.value == On
      ensures reliable && Unchanged(ownLock, created, w) && w.srcPower != Suspended && (plan.live ==> w.srcPower == On)
              ==> p == Some(w.srcPower)
    {
      Turn();
      p := Report(ownLock, created);
      Record(GuardRead(p.Some?), w);
    }

    method Report(ownLock: bool, created: bool) returns (p: Option<Power>)
      ensures p.Some? ==>
                && Unchanged(ownLock, created, w) && p.value != Suspended && (p.value == w.srcPower || p.value == On)
                && (plan.live ==> p.value == On)
      ensures reliable && Unchanged(ownLock, created, w) && w.srcPower != Suspended && (plan.live ==> w.srcPower == On)
              ==> p == Some(w.srcPower)
    {
      p := None;
      var lost: bool, stale: bool := *, *;
      if (reliable || !lost) && Unchanged(ownLock, created, w) && w.srcPower != Suspended {
        p := Some(if stale && !reliable then On else w.srcPower);
        if plan.live && p.value != On {
          p := None;
        }
      }
    }

    /** What a Ready report that matches the plan says about the host. Before the target folder is created no target
        can be registered: every other registered VM must be readable, and one in a folder that is not there is not. */
    predicate Unchanged(ownLock: bool, created: bool, w: World)
    {
      && w.reg.src == plan.vm && w.reg.src != 0 && w.trees.src == []
      && DeltaNames(plan, w.trees.srcVmx) == DeltaNames(plan, plan.sourceConfig)
      && (ownLock || w.store.lock == Free) && (created || (!w.store.targetDir && w.reg.dst == 0))
    }

    method Snapshot(id: nat) returns (names: Option<seq<string>>)
      requires Valid()
      modifies this
      ensures Valid() && Logged(OtherRead) && Still() && Same(log.view, old(log).view)
      ensures names.Some? ==> id != 0 && (id == w.reg.src || id == w.reg.dst)
      ensures names.Some? ==> names.value == if id == w.reg.src then w.trees.src else w.trees.dst
      ensures reliable && id != 0 && (id == w.reg.src || id == w.reg.dst) ==> names.Some?
    {
      Turn();
      var lost: bool := *;
      names := if (reliable || !lost) && id != 0 && (id == w.reg.src || id == w.reg.dst)
               then Some(if id == w.reg.src then w.trees.src else w.trees.dst) else None;
      Record(OtherRead, w);
    }

    /** A VMX read back and parsed. */
    method ReadVmx(side: Side) returns (c: Option<Config>)
      requires Valid()
      modifies this
      ensures Valid() && Logged(OtherRead) && Still() && Same(log.view, old(log).view)
      ensures c.Some? ==> c.value == if side.Source? then w.trees.srcVmx else w.trees.dstVmx
      ensures reliable ==> c.Some?
    {
      Turn();
      var lost: bool := *;
      c := if reliable || !lost then Some(if side.Source? then w.trees.srcVmx else w.trees.dstVmx) else None;
      Record(OtherRead, w);
    }

    /** The snapshot deltas the source VMX names, each of them attached to its base disk. */
    method ReadDeltas() returns (names: Option<map<string, string>>)
      requires Valid()
      modifies this
      ensures Valid() && Logged(DeltasRead(names)) && Still()
      ensures Same(log.view, old(log).view.(copy := old(log).view.copy.(deltas := names)))
      ensures names.Some? ==> names.value == DeltaNames(plan, w.trees.srcVmx)
      ensures reliable ==> names.Some?
    {
      Turn();
      var lost: bool := *;
      names := if reliable || !lost then Some(DeltaNames(plan, w.trees.srcVmx)) else None;
      Record(DeltasRead(names), w);
    }

    method ReadFile(path: string) returns (text: Option<string>)
      requires Valid()
      modifies this
      ensures Valid() && Still()
      ensures Logged(if path == plan.targetVmx then ConfigRead(if text.Some? then Parsed(text.value) else None)
                else OtherRead)
      ensures SameRest()
      ensures if path == plan.targetVmx
              then Same(log.view.copy, Reading(old(log).view.copy, if text.Some? then Parsed(text.value) else None))
                  else SameCopy()
      ensures text.Some? ==> path in w.store.files && text.value == w.store.files[path]
      ensures reliable && path in w.store.files ==> text.Some?
    {
      Turn();
      var lost: bool := *;
      text := if (reliable || !lost) && path in w.store.files then Some(w.store.files[path]) else None;
      Record(if path == plan.targetVmx then ConfigRead(if text.Some? then Parsed(text.value) else None)
          else OtherRead, w);
    }

    /** `vmkfstools -e` on the target disk, or on the copied delta of the disk. */
    method VerifyChain(i: nat, delta: bool) returns (ok: bool)
      requires Valid()
      modifies this
      ensures Valid() && Logged(CheckRead(if delta then DeltaChain else Chain, i, ok)) && Still()
      ensures SameRest() && Same(log.view.copy, Passing(old(log).view.copy, if delta then DeltaChain else Chain, i, ok))
      ensures reliable ==> ok
    {
      Turn();
      ok := *;
      ok := ok || reliable;
      Record(CheckRead(if delta then DeltaChain else Chain, i, ok), w);
    }

    /** The target descriptor, read for its shape or for its content id. */
    method ReadDescriptor(i: nat, check: Check) returns (d: Option<Descriptor>)
      requires Valid() && i < |plan.disks| && (check.Shape? || check.Cid?)
      modifies this
      ensures Valid() && Logged(CheckRead(check, i, Good(check, i, d))) && Still()
      ensures SameRest() && Same(log.view.copy, Passing(old(log).view.copy, check, i, Good(check, i, d)))
      ensures reliable && i < |made| ==> d == Some(made[i])
    {
      Turn();
      d := *;
      if reliable && i < |made| {
        d := Some(made[i]);
      }
      Record(CheckRead(check, i, Good(check, i, d)), w);
    }

    predicate Good(check: Check, i: nat, d: Option<Descriptor>)
      requires i < |plan.disks|
    {
      d.Some? && if check.Shape? then GoodShape(plan.disks[i], d.value)
          else Lower(d.value.cid) == Lower(plan.disks[i].cid)
    }

    method Size(i: nat) returns (n: Option<int>)
      requires Valid() && i < |plan.disks|
      modifies this
      ensures Valid() && Logged(CheckRead(Check.Size, i, n == Some(plan.disks[i].provisioned))) && Still()
      ensures SameRest() &&
                Same(log.view.copy, Passing(old(log).view.copy, Check.Size, i, n == Some(plan.disks[i].provisioned)))
      ensures reliable ==> n == Some(plan.disks[i].provisioned)
    {
      Turn();
      n := *;
      if reliable {
        n := Some(plan.disks[i].provisioned);
      }
      Record(CheckRead(Check.Size, i, n == Some(plan.disks[i].provisioned)), w);
    }

    /** Whether the copied delta of the disk equals the original: its descriptor, or the size of its extent. */
    method CompareDelta(i: nat, check: Check) returns (same: bool)
      requires Valid() && (check.DeltaText? || check.DeltaSize?)
      modifies this
      ensures Valid() && Logged(CheckRead(check, i, same)) && Still()
      ensures SameRest() && Same(log.view.copy, Passing(old(log).view.copy, check, i, same))
      ensures reliable ==> same
    {
      Turn();
      same := *;
      same := same || reliable;
      Record(CheckRead(check, i, same), w);
    }

    /** Whether the copied snapshot metadata equals what it should be. */
    method CompareMeta() returns (same: bool)
      requires Valid()
      modifies this
      ensures Valid() && Logged(MetaRead(same)) && Still()
      ensures SameRest() && Same(log.view.copy, Comparing(old(log).view.copy, same))
      ensures reliable ==> same
    {
      Turn();
      same := *;
      same := same || reliable;
      Record(MetaRead(same), w);
    }

    /** A poll of the detached worker; None when it failed or the worker's state is not known. */
    method CloneStatus(i: nat) returns (s: Option<Status>)
      requires Valid()
      modifies this
      ensures Valid() && Logged(Poll(i, s)) && Still() && Quick()
      ensures s.Some? && s.value.Done? ==> i in w.clones && w.clones[i] == Exited(s.value.code)
      ensures Same(log.view, if s.Some? &&
                s.value.Done? then Polled(old(log).view).(copy := Polling(old(log).view.copy, i, s.value.code))
                             else Polled(old(log).view))
      ensures reliable && i in old(w).clones && old(w).clones[i].Running? ==> s == Some(Done(0))
    {
      Turn(true);
      var lost: bool, logged: bool := *, *;
      s := if !reliable && lost then None
           else if i in w.clones && w.clones[i].Exited? then Some(Done(w.clones[i].code)) else Some(Alive(logged));
      Record(Poll(i, s), w);
    }

    method Message(id: nat) returns (q: Option<Question>)
      requires Valid()
      modifies this
      ensures Valid() && Logged(MessageRead(id, q)) && Still() && Same(log.view, old(log).view)
      ensures reliable ==> q == Some(NoQuestion)
    {
      Turn();
      q := *;
      if reliable {
        q := Some(NoQuestion);
      }
      Record(MessageRead(id, q), w);
    }

    /** Waits; false when the context ends instead. */
    method Pause(d: int) returns (ok: bool)
      requires Valid()
      modifies this`clock
      ensures Valid() && clock.now >= old(clock).now && clock.patience <= old(clock).patience
      ensures ok ==> clock.now >= old(clock).now + d && clock.patience < old(clock).patience
      ensures clock.now <= old(clock).now + (if d > 0 then d else 0) + slack
    {
      var more: int, ended: bool := *, *;
      if clock.patience == 0 || ended {
        return false;
      }
      clock := Clock(clock.now + (if d > 0 then d else 0) + (if 0 <= more <= slack then more else 0),
          clock.patience - 1);
      return true;
    }

    // Changes -------------------------------------------------------------------------------------

    /** The clock and the ownership of a change. */
    twostate predicate Changed(c: Cmd)
      reads this
    {
      && Logged(c) && old(clock).now <= clock.now && clock.patience == old(clock).patience
      && (!c.Launch? ==> Same(w.clones.Keys, old(w).clones.Keys))
      && (Mutates(c) ==> (log.owned <==> old(log).owned && old(w).store.lock == Held(plan.id)))
    }

    method Acquire() returns (ok: bool)
      requires Valid()
      modifies this
      ensures Valid() && Changed(Cmd.Acquire(ok)) && log.owned == old(log).owned
      ensures Same(log.view,
                old(log).view.(counts := old(log).view.counts.(acquires := old(log).view.counts.acquires + 1)))
      ensures old(log).safe && MayAcquire(old(log).view, old(w)) ==> log.safe
      ensures SameRegistrations(old(w), w) && SameTrees(old(w), w) && SourcePower(old(w), w) && TargetPower(old(w), w)
      ensures Same(w.store, old(w).store.(lock := w.store.lock))
      ensures if ok then old(w).store.lock == Free && w.store.lock == Held(plan.id)
              else
                || w.store.lock == old(w).store.lock
                || (old(w).store.lock == Free && (w.store.lock == Unmarked || w.store.lock == Held(plan.id)))
      ensures reliable && old(w).store.lock == Free ==> ok && SamePowers(old(w), w)
    {
      Turn();
      ghost var before := w;
      var made: bool, marked: bool, heard: bool := *, *, *;
      ok := false;
      if w.store.lock == Free && (reliable || made) {
        w := w.(store := w.store.(lock := if reliable || marked then Held(plan.id) else Unmarked));
        ok := reliable || (marked && heard);
      }
      Record(Cmd.Acquire(ok), before);
    }

    method ReadMeta() returns (own: bool)
      requires Valid()
      modifies this
      ensures Valid() && Logged(OtherRead) && Still() && Same(log.view, old(log).view)
      ensures own ==> w.store.lock == Held(plan.id)
      ensures reliable && w.store.lock == Held(plan.id) ==> own
    {
      Turn();
      var lost: bool := *;
      own := (reliable || !lost) && w.store.lock == Held(plan.id);
      Record(OtherRead, w);
    }

    method ArchiveActive() returns (ok: bool)
      requires Valid()
      modifies this
      ensures Valid() && Changed(Archive(ok)) 
      ensures Same(log.view,
                old(log).view.(counts := old(log).view.counts.(archives := old(log).view.counts.archives + 1)))
      ensures SameRegistrations(old(w), w) && SameTrees(old(w), w) && SourcePower(old(w), w) && TargetPower(old(w), w)
      ensures Same(w.store, old(w).store.(lock := w.store.lock)) && (ok ==> w.store.lock == Free)
      ensures w.store.lock == old(w).store.lock || w.store.lock == Free
      ensures old(log).safe && old(log).view.copy.pending == {} ==> log.safe
      ensures reliable && old(w).store.lock != Free ==> ok && SamePowers(old(w), w)
    {
      Turn();
      ghost var before := w;
      var took: bool, heard: bool := *, *;
      ok := false;
      if w.store.lock != Free && (reliable || took) {
        w := w.(store := w.store.(lock := Free));
        ok := reliable || heard;
      }
      Record(Archive(ok), before);
    }

    method CreateTarget() returns (ok: bool)
      requires Valid()
      modifies this
      ensures Valid() && Changed(Cmd.CreateTarget(ok)) && Same(log.view, old(log).view)
      ensures SameRegistrations(old(w), w) && SameTrees(old(w), w) && SourcePower(old(w), w) && TargetPower(old(w), w)
      ensures Same(w.store, old(w).store.(targetDir := w.store.targetDir))
      ensures (ok ==> !old(w).store.targetDir && w.store.targetDir) && (old(w).store.targetDir ==> w.store.targetDir)
      ensures old(log).safe && (plan.live || old(log).view.guard) ==> log.safe
      ensures reliable && !old(w).store.targetDir ==> ok && SamePowers(old(w), w)
    {
      Turn();
      ghost var before := w;
      var took: bool, heard: bool := *, *;
      ok := false;
      if !w.store.targetDir && (reliable || took) {
        w := w.(store := w.store.(targetDir := true));
        ok := reliable || heard;
      }
      Record(Cmd.CreateTarget(ok), before);
    }

    method Put(path: string, content: string) returns (took: bool)
      modifies this`w
      ensures Effect(plan, Write(path, content, took), old(w), w)
      ensures forall p :: p != path && p !in old(w).store.files ==> p !in w.store.files
      ensures reliable && path !in old(w).store.files ==>
                took && path in w.store.files && w.store.files[path] == content
    {
      var written: string := *;
      took := *;
      took := path !in w.store.files && (reliable || took);
      if took {
        var text := if reliable then content else written;
        w := w.(store := w.store.(files := w.store.files[path := text]));
        if path == plan.targetVmx {
          w := w.(trees := w.trees.(dstVmx := if Parsed(text).Some? then Parsed(text).value else map[]));
        }
      }
    }

    /** Writes a new file in the target folder, in part or as a whole; it never overwrites. */
    method WriteTarget(path: string, content: string) returns (ok: bool)
      requires Valid()
      modifies this
      ensures Valid() && Changed(Write(path, content, ok)) && Same(log.view, old(log).view.(guard := false))
      ensures SameRegistrations(old(w), w) && SourcePower(old(w), w) && TargetPower(old(w), w)
      ensures Same(w.trees, old(w).trees.(dstVmx := w.trees.dstVmx))
      ensures Same(w.store, old(w).store.(files := w.store.files))
      ensures forall p :: p in old(w).store.files ==> p in w.store.files && w.store.files[p] == old(w).store.files[p]
      ensures forall p :: p != path && p !in old(w).store.files ==> p !in w.store.files
      ensures old(log).safe ==> log.safe
      ensures reliable ==> SamePowers(old(w), w)
      ensures reliable && path !in old(w).store.files ==>
                ok && path in w.store.files && w.store.files[path] == content
    {
      Turn();
      ghost var before := w;
      var free := path !in w.store.files;
      var took := Put(path, content);
      var heard: bool := *;
      ok := free && took && (reliable || heard);
      Record(Write(path, content, ok), before);
    }

    method CopyToTarget(file: DeltaFile) returns (ok: bool)
      requires Valid()
      modifies this
      ensures Valid() && Changed(Copy(file, ok)) && Steady(old(w), w)
      ensures SameRest() && Same(log.view.copy, Copying(old(log).view.copy, file, ok))
      ensures old(log).safe && MayCopy(plan, old(log).view, old(w)) ==> log.safe
      ensures reliable ==> ok && SamePowers(old(w), w)
    {
      Turn();
      ok := *;
      ok := ok || reliable;
      Record(Copy(file, ok), w);
    }

    method StartClone(i: nat) returns (ok: bool)
      requires Valid()
      modifies this
      ensures Valid() && Changed(Launch(i, ok))
      ensures Same(log.view, Polled(old(log).view).(copy := Launching(old(log).view.copy, i),
                wait := Waiting([], None)))
      ensures SameRegistrations(old(w), w) && SameTrees(old(w), w) && SameFiles(old(w), w)
      ensures SourcePower(old(w), w) && TargetPower(old(w), w)
      ensures old(log).safe && MayLaunch(plan, old(log).view, i, old(w)) ==> log.safe
      ensures reliable ==> ok && i in w.clones && SamePowers(old(w), w)
      ensures reliable && i !in old(w).clones ==> w.clones[i] == Running
      ensures reliable ==> w.clones.Keys == old(w).clones.Keys + {i}
    {
      Turn();
      ghost var before := w;
      var took: bool := *;
      ok := *;
      ok := ok || reliable;
      if i !in w.clones && (reliable || took) {
        w := w.(clones := w.clones[i := Running]);
      }
      Record(Launch(i, ok), before);
    }

    method StopClone(i: nat) returns (ok: bool)
      requires Valid()
      modifies this
      ensures Valid() && Changed(Kill(i, clock.now)) && Quick()
      ensures Steady(old(w), w) && (reliable ==> SamePowers(old(w), w))
      ensures Same(log.view,
                old(log).view.(wait := old(log).view.wait.(kill := if old(log).view.wait.kill.Some?
                then old(log).view.wait.kill else Some(clock.now))))
      ensures old(log).safe ==> log.safe
    {
      Turn(true);
      ok := *;
      Record(Kill(i, clock.now), w);
    }

    method SwitchPower(id: nat, p: Power)
      modifies this`w
      ensures PowerEffect(id, p, old(w), w)
      ensures reliable && id != 0 && id == w.reg.src ==> w.srcPower == p
      ensures reliable && id != 0 && id == w.reg.dst && id != w.reg.src ==> w.dstPower == p
    {
      var took: bool := *;
      if id != 0 && (reliable || took) {
        if id == w.reg.src {
          w := w.(srcPower := p);
        } else if id == w.reg.dst {
          w := w.(dstPower := p);
        }
      }
    }

    method Shutdown(id: nat, force: bool) returns (ok: bool)
      requires Valid()
      modifies this
      ensures Valid() && Changed(Cmd.ShutDown(id, force)) &&
                Same(log.view, old(log).view.(guard := false, orders := old(log).view.orders.(force := false)))
      ensures SameRegistrations(old(w), w) && SameTrees(old(w), w) && SameFiles(old(w), w)
      ensures id != 0 && id == old(w).reg.src ==> Lowers(old(w).srcPower, w.srcPower) && TargetPower(old(w), w)
      ensures old(log).safe && id == old(w).reg.src && id != 0 && old(log).view.guard &&
              (force ==> old(log).view.orders.force)
              ==> log.safe
      ensures reliable && id != 0 && id == old(w).reg.src ==>
                ok && w.srcPower == Off && w.dstPower == old(w).dstPower
    {
      Turn();
      ghost var before := w;
      SwitchPower(id, Off);
      ok := *;
      ok := ok || reliable;
      Record(Cmd.ShutDown(id, force), before);
    }

    method StartVm(id: nat) returns (ok: bool)
      requires Valid()
      modifies this
      ensures Valid() && Changed(Cmd.PowerOn(id))
      ensures Same(log.view,
                old(log).view.(guard := false, low := None,
                counts := old(log).view.counts.(registration := old(log).view.counts.registration + 1)))
      ensures SameRegistrations(old(w), w) && SameTrees(old(w), w) && SameFiles(old(w), w)
      ensures id == old(w).reg.dst && id != old(w).reg.src ==> SourcePower(old(w), w)
      ensures old(log).safe && MayPowerOn(plan, old(log).view, id, old(w)) ==> log.safe
      ensures reliable && id != 0 && id == old(w).reg.dst && id != old(w).reg.src ==>
                ok && w.dstPower == On && w.srcPower == old(w).srcPower
    {
      Turn();
      ghost var before := w;
      SwitchPower(id, On);
      ok := *;
      ok := ok || reliable;
      Record(Cmd.PowerOn(id), before);
    }

    method Answer(id: nat) returns (ok: bool)
      requires Valid()
      modifies this
      ensures Valid() && Changed(Cmd.Answer(id)) 
      ensures Steady(old(w), w) && (reliable ==> SamePowers(old(w), w))
      ensures Same(log.view,
                old(log).view.(counts := old(log).view.counts.(answers := old(log).view.counts.answers + 1)))
      ensures old(log).safe ==> log.safe
    {
      Turn();
      ok := *;
      Record(Cmd.Answer(id), w);
    }

    method Enlist(side: Side)
      modifies this`w
      ensures Effect(plan, Cmd.Register(side), old(w), w)
      ensures reliable && side.Source? ==> w.reg.src != 0
      ensures reliable && side.Target? ==> w.reg.dst != 0
      ensures reliable && side.Target? && old(w).reg.dst == 0 ==>
                w.dstPower == Off && w.trees.dst == if plan.live then [plan.snapshot] else []
    {
      var took: bool, tree: seq<string> := *, *;
      if reliable || took {
        if side.Source? && w.reg.src == 0 {
          w := w.(reg := w.reg.(src := w.reg.dst + 1));
        } else if side.Target? && w.reg.dst == 0 {
          var names := if !reliable then tree else if plan.live then [plan.snapshot] else [];
          w := w.(reg := w.reg.(dst := w.reg.src + 1), dstPower := Off, trees := w.trees.(dst := names));
        }
      }
    }

    /** `solo/registervm`; 0 when the reply gives no id. */
    method Register(side: Side) returns (id: nat)
      requires Valid()
      modifies this
      ensures Valid() && Changed(Cmd.Register(side))
      ensures Same(log.view, Registering(old(log).view, 0))
      ensures side.Source? ==>
                && w.reg.dst == old(w).reg.dst && SameTrees(old(w), w) && TargetPower(old(w), w)
                && (w.reg.src == old(w).reg.src || (old(w).reg.src == 0 && w.reg.src != w.reg.dst))
      ensures side.Target? ==>
                && w.reg.src == old(w).reg.src && Same(w.trees, old(w).trees.(dst := w.trees.dst))
                && (w.reg.dst == old(w).reg.dst || (old(w).reg.dst == 0 && w.reg.dst != w.reg.src && w.dstPower == Off))
      ensures SameFiles(old(w), w) && SourcePower(old(w), w) && (reliable ==> w.srcPower == old(w).srcPower)
      ensures old(log).safe && MayRegister(plan, old(log).view, side, old(w)) ==> log.safe
      ensures reliable && side.Source? && old(w).reg.src == 0 ==>
                w.reg.src != 0 && id == w.reg.src && SamePowers(old(w), w)
      ensures reliable && side.Target? && old(w).reg.dst == 0 ==>
                && w.reg.dst != 0 && id == w.reg.dst && w.dstPower == Off &&
                     w.trees.dst == (if plan.live then [plan.snapshot] else [])
    {
      Turn();
      ghost var before := w;
      Enlist(side);
      id := *;
      if reliable {
        id := if side.Source? then w.reg.src else w.reg.dst;
      }
      Record(Cmd.Register(side), before);
    }

    method Delist(id: nat)
      modifies this`w
      ensures Effect(plan, Cmd.Unregister(id), old(w), w)
      ensures reliable && id != 0 && id == old(w).reg.src ==> w.reg.src == 0
      ensures reliable && id != 0 && id == old(w).reg.dst && id != old(w).reg.src ==> w.reg.dst == 0
    {
      var took: bool := *;
      if id != 0 && (reliable || took) {
        if id == w.reg.src {
          w := w.(reg := w.reg.(src := 0));
        } else if id == w.reg.dst {
          w := w.(reg := w.reg.(dst := 0));
        }
      }
    }

    method Unregister(id: nat) returns (ok: bool)
      requires Valid()
      modifies this
      ensures Valid() && Changed(Cmd.Unregister(id))
      ensures Same(log.view, Registering(old(log).view, 1))
      ensures SameTrees(old(w), w) && SameFiles(old(w), w) && SourcePower(old(w), w) && TargetPower(old(w), w)
      ensures w.reg.src == old(w).reg.src || (id == old(w).reg.src && w.reg.src == 0)
      ensures w.reg.dst == old(w).reg.dst || (id == old(w).reg.dst && w.reg.dst == 0)
      ensures old(log).safe && MayUnregister(plan, old(log).view, id, old(w)) ==> log.safe
      ensures reliable && id != 0 && id == old(w).reg.src ==> ok && w.reg.src == 0 && SamePowers(old(w), w)
      ensures reliable && id != 0 && id == old(w).reg.dst && id != old(w).reg.src ==>
                ok && w.reg.dst == 0 && SamePowers(old(w), w)
    {
      Turn();
      ghost var before := w;
      Delist(id);
      ok := *;
      ok := ok || reliable;
      Record(Cmd.Unregister(id), before);
    }

    method CreateSnapshot(id: nat, name: string) returns (ok: bool)
      requires Valid()
      modifies this
      ensures Valid() && Changed(Cmd.CreateSnapshot(id, name)) && Same(log.view, old(log).view.(guard := false))
      ensures SameRegistrations(old(w), w) && SameFiles(old(w), w) && SourcePower(old(w), w) && TargetPower(old(w), w)
      ensures Same(w.trees, old(w).trees.(src := w.trees.src, srcVmx := w.trees.srcVmx))
      ensures w.trees.src == old(w).trees.src || w.trees.src == old(w).trees.src + [name]
      ensures old(log).safe && MaySnapshot(plan, old(log).view, id, name, old(w)) ==> log.safe
      ensures reliable && id == old(w).reg.src ==>
                ok && w.trees.src == old(w).trees.src + [name] && w.trees.srcVmx == shadow && SamePowers(old(w), w)
    {
      Turn();
      ghost var before := w;
      var took: bool, whole: bool, names: Config := *, *, *;
      ok := *;
      ok := ok || reliable;
      if id == w.reg.src && (reliable || took) {
        w := w.(trees := w.trees.(src := if reliable || whole then w.trees.src + [name] else w.trees.src,
                                  srcVmx := if reliable then shadow else names));
      }
      Record(Cmd.CreateSnapshot(id, name), before);
    }

    method Consolidate(id: nat)
      modifies this`w
      ensures Effect(plan, Cmd.Merge(id), old(w), w)
      ensures reliable && id == w.reg.src ==> w.trees.src == [] && w.trees.srcVmx == plan.sourceConfig
      ensures reliable && id == w.reg.dst && id != w.reg.src ==>
                w.trees.dst == [] && w.trees.dstVmx == DiskNames(plan.disks)
    {
      var took: bool, whole: bool, names: Config := *, *, *;
      if id == w.reg.src && (reliable || took) {
        w := w.(trees := w.trees.(src := if reliable || whole then [] else w.trees.src,
                                  srcVmx := if reliable then plan.sourceConfig else names));
      } else if id == w.reg.dst && (reliable || took) {
        w := w.(trees := w.trees.(dst := if reliable || whole then [] else w.trees.dst,
                                  dstVmx := if reliable then DiskNames(plan.disks) else names));
      }
    }

    method RemoveAllSnapshots(id: nat) returns (ok: bool)
      requires Valid()
      modifies this
      ensures Valid() && Changed(Cmd.Merge(id)) && Same(log.view, old(log).view.(guard := false))
      ensures SameRegistrations(old(w), w) && SameFiles(old(w), w) && SourcePower(old(w), w) && TargetPower(old(w), w)
      ensures w.trees.src == old(w).trees.src || (id == old(w).reg.src && w.trees.src == [])
      ensures w.trees.dst == old(w).trees.dst || (id == old(w).reg.dst && w.trees.dst == [])
      ensures old(log).safe && MayMerge(plan, old(log).view, id, old(w)) ==> log.safe
      ensures reliable && id == old(w).reg.src ==>
                && ok && w.trees.src == [] && w.trees.srcVmx == plan.sourceConfig && SamePowers(old(w), w)
      ensures reliable && id == old(w).reg.dst && id != old(w).reg.src ==>
                && ok && w.trees.dst == [] && w.trees.dstVmx == DiskNames(plan.disks) && SamePowers(old(w), w)
    {
      Turn();
      ghost var before := w;
      Consolidate(id);
      ok := *;
      ok := ok || reliable;
      Record(Cmd.Merge(id), before);
    }
  }
}
