/** The space arithmetic of internal/migration/analyzer.go, in int64. */
module Space {
  import opened Text
  import opened Vmdk

  const GIB: int := 0x4000_0000

  predicate Int64(n: int)
  {
    -MAX_INT64 - 1 <= n <= MAX_INT64
  }

  /** `reserve`: 15 percent and 1 GiB on top. Nothing in it overflows where it accepts. */
  function Reserve(bytes: int): (r: Option<int>)
    ensures r.Some? ==>
              bytes + GIB <= r.value && Int64(bytes / 100 * 15) && Int64(bytes + bytes / 100 * 15) && Int64(r.value)
    ensures bytes >= 0 && 115 * (bytes / 100) + 215 + GIB <= MAX_INT64 ==> r.Some?
  {
    if bytes < 0 || bytes > (MAX_INT64 - GIB) / 115 * 100 then None
    else Some(bytes + bytes / 100 * 15 + GIB)
  }

  /** What a disk takes less, the reserve asks for less. */
  lemma ReserveShrinks(bytes: int, less: int)
    requires 0 <= less <= bytes && Reserve(bytes).Some?
    ensures Reserve(bytes - less).Some? && Reserve(bytes - less).value <= Reserve(bytes).value - less
  {
    assert (bytes - less) / 100 <= bytes / 100;
  }

  // -----------------------------------------------------------------------------------------------
  // The totals of a plan

  /** The capacity of a disk and what `du` says it takes. */
  datatype Measured = Measured(bytes: int, du: Option<int>)

  function Allocated(m: Measured): int
  {
    if m.du.Some? && 0 <= m.du.value <= m.bytes then m.du.value else m.bytes
  }

  function SumBytes(disks: seq<Measured>): int
  {
    if disks == [] then 0 else SumBytes(disks[..|disks| - 1]) + disks[|disks| - 1].bytes
  }

  function SumAllocated(disks: seq<Measured>): int
  {
    if disks == [] then 0 else SumAllocated(disks[..|disks| - 1]) + Allocated(disks[|disks| - 1])
  }

  lemma {:induction false} SumsGrow(disks: seq<Measured>, n: nat)
    requires n <= |disks| && forall m :: m in disks ==> m.bytes >= 0
    ensures 0 <= SumBytes(disks[..n]) <= SumBytes(disks) && 0 <= SumAllocated(disks[..n]) <= SumAllocated(disks)
    ensures SumAllocated(disks[..n]) <= SumBytes(disks[..n])
  {
    if disks == [] {
      assert disks[..n] == [];
    } else if n == |disks| {
      assert disks[..n] == disks && disks[|disks| - 1] in disks;
      SumsGrow(disks[..|disks| - 1], |disks| - 1);
      assert disks[..|disks| - 1][..|disks| - 1] == disks[..|disks| - 1];
    } else {
      SumsGrow(disks[..|disks| - 1], n);
      assert disks[..|disks| - 1][..n] == disks[..n] && disks[|disks| - 1] in disks;
    }
  }

  /** Adds the disks up; None exactly when the capacities together do not fit an int64. What is allocated never exceeds
      the capacity. */
  method Totals(disks: seq<Measured>) returns (r: Option<(int, int)>)
    requires forall m :: m in disks ==> 0 <= m.bytes <= MAX_INT64
    ensures r.None? <==> SumBytes(disks) > MAX_INT64
    ensures r.Some? ==> r.value == (SumBytes(disks), SumAllocated(disks)) && 0 <= r.value.1 <= r.value.0 <= MAX_INT64
  {
    var provisioned, taken := 0, 0;
    for i := 0 to |disks|
      invariant provisioned == SumBytes(disks[..i]) && taken == SumAllocated(disks[..i])
      invariant 0 <= taken <= provisioned <= MAX_INT64
    {
      assert disks[..i + 1][..i] == disks[..i] && disks[i] in disks;
      if provisioned > MAX_INT64 - disks[i].bytes {
        SumsGrow(disks, i + 1);
        return None;
      }
      provisioned := provisioned + disks[i].bytes;
      taken := taken + Allocated(disks[i]);
    }
    assert disks[..|disks|] == disks;
    return Some((provisioned, taken));
  }

  // -----------------------------------------------------------------------------------------------
  // The free-space check and the guards that repeat it

  datatype Verdict = Refused | Block | Warning | Enough

  function AtLeast0(n: int): int
  {
    if n < 0 then 0 else n
  }

  /** The check for a target with `free` bytes left when the job's clones are expected to have taken `consumed`. */
  function Check(free: int, provisioned: int, taken: int, consumed: int): Verdict
  {
    var required, full := Reserve(AtLeast0(taken - consumed)), Reserve(AtLeast0(provisioned - consumed));
    if required.None? || full.None? then Refused
    else if free < required.value then Block
    else if free < full.value then Warning
    else Enough
  }

  predicate Passes(v: Verdict)
  {
    v == Warning || v == Enough
  }

  lemma CheckShrinks(free: int, provisioned: int, taken: int, consumed: int, used: int)
    requires 0 <= used <= consumed <= taken <= provisioned && Passes(Check(free, provisioned, taken, 0))
    ensures Passes(Check(free - used, provisioned, taken, consumed))
  {
    ReserveShrinks(taken, consumed);
    ReserveShrinks(provisioned, consumed);
  }

  /** Once the check has passed for a whole plan, no later guard fails on space, as long as each finished clone took no
      more than was allocated: the clones leave at least as much room as the guard then asks for. */
  lemma {:induction false} NoLaterBlock(disks: seq<Measured>, free: int, n: nat, used: int)
    requires n <= |disks| && (forall m :: m in disks ==> 0 <= m.bytes <= MAX_INT64) && SumBytes(disks) <= MAX_INT64
    requires Passes(Check(free, SumBytes(disks), SumAllocated(disks), 0))
    requires 0 <= used <= SumAllocated(disks[..n])
    ensures Passes(Check(free - used, SumBytes(disks), SumAllocated(disks), SumAllocated(disks[..n])))
    ensures Int64(SumAllocated(disks[..n])) && Int64(SumAllocated(disks) - SumAllocated(disks[..n]))
  {
    SumsGrow(disks, n);
    SumsGrow(disks, |disks|);
    assert disks[..|disks|] == disks;
    CheckShrinks(free, SumBytes(disks), SumAllocated(disks), SumAllocated(disks[..n]), used);
  }

  /** That condition is needed: after a clone that takes one byte more, the next guard may block. */
  lemma OneByteMore()
    ensures var disks := [Measured(85, Some(85))];
            && Passes(Check(85 + GIB, SumBytes(disks), SumAllocated(disks), 0))
            && Check(85 + GIB - 86, SumBytes(disks), SumAllocated(disks), SumAllocated(disks[..1])) == Block
  {
    var disks := [Measured(85, Some(85))];
    assert disks[..1] == disks && disks[..0] == [];
    assert SumBytes(disks) == SumBytes([]) + 85 && SumAllocated(disks) == SumAllocated([]) + 85;
  }
}
