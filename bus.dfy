/** The system address bus (Bus.cs): devices register windows for reading
    and/or writing, a lazily rebuilt 64 KiB table resolves an address to a
    device and an offset, and a one-flag token arbitrates bus masters. */
module AddressBus {
  import opened Bytes
  import opened Wrappers

  /** A bus slave, identified by an index chosen by whoever wires the system. */
  type DeviceId = nat

  /** A registered window: `baseAddress`, the slave and its `size`. */
  datatype Registration = Registration(base: Word, device: DeviceId, size: Word)

  /** What `FindSlave` returns: the slave and the offset inside its window. */
  datatype Target = Target(device: DeviceId, offset: Word)

  /** The `SlaveAccess` flags of one registration. */
  datatype Access = Access(read: bool, write: bool)

  /** `Bus.Range`; `end` is kept as an integer so that an untruncated end
      (up to 0x1FFFE) can be represented too. */
  datatype Range = Range(start: int, end: int) {
    /** `Range.Overlaps`, exactly as written. */
    predicate Overlaps(other: Range) {
      (start >= other.start && other.end > start) || (other.start >= start && end > other.start)
    }

    predicate Contains(x: int) { start <= x < end }
  }

  /** The range built for a window as written: `End = (ushort)(base + size)`. */
  function TruncatedRange(r: Registration): Range {
    Range(r.base, Wrap16(r.base + r.size))
  }

  /** The range a window actually covers: `[base, base + size)`. */
  function WindowRange(r: Registration): Range {
    Range(r.base, r.base + r.size)
  }

  lemma OverlapsSymmetric(r: Range, o: Range)
    ensures r.Overlaps(o) == o.Overlaps(r)
  {
  }

  /** For non-empty ranges `Overlaps` is exactly "the half-open intervals
      share an address". */
  lemma OverlapsIffIntersect(r: Range, o: Range)
    requires r.start < r.end && o.start < o.end
    ensures r.Overlaps(o) <==> exists x :: r.Contains(x) && o.Contains(x)
  {
    if r.Overlaps(o) {
      var x := if r.start >= o.start then r.start else o.start;
      assert r.Contains(x) && o.Contains(x);
    }
  }

  /** As written, a window that ends exactly at 0x10000 gets `End == 0`, and
      the overlap test then misses a window registered inside it: the
      cartridge window 0x4020 + 0xBFE0 does not clash with 0x5000 + 0x10. */
  lemma TruncatedEndMissesOverlap()
    ensures var cart := Registration(0x4020, 1, 0xBFE0);
            var inner := Registration(0x5000, 2, 0x10);
            !TruncatedRange(inner).Overlaps(TruncatedRange(cart))
            && WindowRange(inner).Overlaps(WindowRange(cart))
            && WindowRange(cart).Contains(0x5000) && WindowRange(inner).Contains(0x5000)
  {
  }

  /** The offset test of `FindSlaveRaw`: `key <= address` and
      `address - key < size`. */
  predicate Selects(r: Registration, a: Word) {
    r.base <= a && a - r.base < r.size
  }

  lemma SelectsIsContains(r: Registration, a: Word)
    ensures Selects(r, a) <==> WindowRange(r).Contains(a)
  {
  }

  /** The `SortedList` order under the comparer `(x, y) => y - x`:
      strictly decreasing base addresses, keys unique. */
  ghost predicate Descending(regs: seq<Registration>) {
    forall i, j :: 0 <= i < j < |regs| ==> regs[i].base > regs[j].base
  }

  /** No two registered windows share an address. */
  ghost predicate NonOverlapping(regs: seq<Registration>) {
    forall i, j :: 0 <= i < |regs| && 0 <= j < |regs| && i != j ==>
      !WindowRange(regs[i]).Overlaps(WindowRange(regs[j]))
  }

  predicate HasKey(regs: seq<Registration>, base: Word) {
    exists i :: 0 <= i < |regs| && regs[i].base == base
  }

  /** `FindSlaveRaw` over one list: the first window, in list order, whose
      offset test accepts the address. */
  function Lookup(regs: seq<Registration>, a: Word): Option<Target> {
    if regs == [] then None
    else if Selects(regs[0], a) then Some(Target(regs[0].device, a - regs[0].base))
    else Lookup(regs[1..], a)
  }

  /** `Lookup` finds the first accepting window and nothing else: it returns
      None exactly when no window accepts the address. */
  lemma {:induction false} LookupFirst(regs: seq<Registration>, a: Word)
    ensures Lookup(regs, a).None? <==> forall i :: 0 <= i < |regs| ==> !Selects(regs[i], a)
    ensures Lookup(regs, a).Some? ==>
      exists i :: 0 <= i < |regs| && Selects(regs[i], a)
        && Lookup(regs, a) == Some(Target(regs[i].device, a - regs[i].base))
        && forall j :: 0 <= j < i ==> !Selects(regs[j], a)
  {
    if regs != [] && !Selects(regs[0], a) {
      LookupFirst(regs[1..], a);
      if Lookup(regs, a).Some? {
        var k :| 0 <= k < |regs[1..]| && Selects(regs[1..][k], a)
          && Lookup(regs[1..], a) == Some(Target(regs[1..][k].device, a - regs[1..][k].base))
          && forall j :: 0 <= j < k ==> !Selects(regs[1..][j], a);
        assert Selects(regs[k + 1], a);
        assert forall j :: 0 <= j < k + 1 ==> !Selects(regs[j], a) by {
          forall j | 0 <= j < k + 1 ensures !Selects(regs[j], a) {
            if j > 0 { assert regs[j] == regs[1..][j - 1]; }
          }
        }
      } else {
        forall i | 0 <= i < |regs| ensures !Selects(regs[i], a) {
          if i > 0 { assert regs[i] == regs[1..][i - 1]; }
        }
      }
    }
  }

  /** Among non-overlapping windows the lookup is the unique window that
      covers the address, at offset `address - base`. */
  lemma LookupUnique(regs: seq<Registration>, i: nat, a: Word)
    requires NonOverlapping(regs) && i < |regs| && Selects(regs[i], a)
    ensures Lookup(regs, a) == Some(Target(regs[i].device, a - regs[i].base))
  {
    LookupFirst(regs, a);
  }

  /** `SortedList.Add` for a fresh key. */
  function Insert(regs: seq<Registration>, r: Registration): seq<Registration> {
    if regs == [] then [r]
    else if r.base > regs[0].base then [r] + regs
    else [regs[0]] + Insert(regs[1..], r)
  }

  /** Insertion adds exactly the new entry. */
  lemma {:induction false} InsertElements(regs: seq<Registration>, r: Registration)
    ensures multiset(Insert(regs, r)) == multiset(regs) + multiset{r}
  {
    if regs != [] && r.base <= regs[0].base {
      InsertElements(regs[1..], r);
      assert regs == [regs[0]] + regs[1..];
    }
  }

  /** Every entry of an insertion is the new one or an old one. */
  lemma InsertMember(regs: seq<Registration>, r: Registration, i: nat)
    requires i < |Insert(regs, r)|
    ensures Insert(regs, r)[i] == r || exists k :: 0 <= k < |regs| && regs[k] == Insert(regs, r)[i]
  {
    InsertElements(regs, r);
    var s := Insert(regs, r);
    assert s[i] in multiset(s);
  }

  /** Insertion keeps the list sorted. */
  lemma {:induction false} InsertSorted(regs: seq<Registration>, r: Registration)
    requires Descending(regs) && !HasKey(regs, r.base)
    ensures Descending(Insert(regs, r))
  {
    if regs != [] && r.base <= regs[0].base {
      var tail := regs[1..];
      InsertSorted(tail, r);
      var rest := Insert(tail, r);
      assert r.base < regs[0].base by { assert regs[0].base != r.base; }
      forall j | 0 <= j < |rest| ensures rest[j].base < regs[0].base {
        InsertMember(tail, r, j);
      }
    }
  }

  /** Inserting a window that overlaps none of the others keeps the windows
      non-overlapping. */
  lemma InsertNonOverlapping(regs: seq<Registration>, r: Registration)
    requires Descending(regs) && !HasKey(regs, r.base) && NonOverlapping(regs)
    requires forall i :: 0 <= i < |regs| ==> !WindowRange(r).Overlaps(WindowRange(regs[i]))
    ensures NonOverlapping(Insert(regs, r))
  {
    InsertSorted(regs, r);
    var s := Insert(regs, r);
    forall i, j | 0 <= i < |s| && 0 <= j < |s| && i != j
      ensures !WindowRange(s[i]).Overlaps(WindowRange(s[j]))
    {
      InsertMember(regs, r, i);
      InsertMember(regs, r, j);
      assert s[i] != s[j] by { assert s[i].base > s[j].base || s[i].base < s[j].base; }
      if s[i] == r {
        var k :| 0 <= k < |regs| && regs[k] == s[j];
        OverlapsSymmetric(WindowRange(r), WindowRange(regs[k]));
      } else if s[j] == r {
        var k :| 0 <= k < |regs| && regs[k] == s[i];
        OverlapsSymmetric(WindowRange(r), WindowRange(regs[k]));
      } else {
        var k :| 0 <= k < |regs| && regs[k] == s[i];
        var l :| 0 <= l < |regs| && regs[l] == s[j];
      }
    }
  }

  /** A window that does not accept the address is skipped by the lookup
      wherever it is inserted. */
  lemma {:induction false} LookupInsertSkips(regs: seq<Registration>, r: Registration, a: Word)
    requires !Selects(r, a)
    ensures Lookup(Insert(regs, r), a) == Lookup(regs, a)
  {
    if regs != [] && r.base <= regs[0].base {
      LookupInsertSkips(regs[1..], r, a);
    }
  }

  /** After a successful registration, an address covered by the new window
      resolves to it, and every other address resolves as before. */
  lemma LookupAfterInsert(regs: seq<Registration>, r: Registration, a: Word)
    requires Descending(regs) && !HasKey(regs, r.base) && NonOverlapping(regs)
    requires forall i :: 0 <= i < |regs| ==> !WindowRange(r).Overlaps(WindowRange(regs[i]))
    ensures Lookup(Insert(regs, r), a) ==
      if Selects(r, a) then Some(Target(r.device, a - r.base)) else Lookup(regs, a)
  {
    if Selects(r, a) {
      InsertNonOverlapping(regs, r);
      InsertElements(regs, r);
      var s := Insert(regs, r);
      assert r in multiset(s);
      var ri :| 0 <= ri < |s| && s[ri] == r;
      LookupUnique(s, ri, a);
    } else {
      LookupInsertSkips(regs, r, a);
    }
  }

  /** The two registration lists and the dirty flag of a bus. */
  datatype Registry = Registry(read: seq<Registration>, write: seq<Registration>, dirty: bool)

  /** Some registered window overlaps the new one (`newRange.Overlaps(range)`). */
  predicate Clashes(regs: seq<Registration>, r: Registration) {
    exists i :: 0 <= i < |regs| && WindowRange(r).Overlaps(WindowRange(regs[i]))
  }

  /** The local `AddSlave(slaves)` of Bus.cs with the overlap test taken on
      the windows' real extent `[base, base + size)`: reject an overlap,
      then `SortedList.Add`, which rejects a duplicate key. The source
      tests the 16-bit truncated ranges instead (`AddToAsWritten`). */
  function AddTo(regs: seq<Registration>, r: Registration): Result<seq<Registration>> {
    if Clashes(regs, r) then Err(ArgumentOutOfRange)
    else if HasKey(regs, r.base) then Err(Argument)
    else Ok(Insert(regs, r))
  }

  /** The overlap test as written: both ranges end at `(ushort)(base + size)`. */
  predicate ClashesAsWritten(regs: seq<Registration>, r: Registration) {
    exists i :: 0 <= i < |regs| && TruncatedRange(r).Overlaps(TruncatedRange(regs[i]))
  }

  /** The local `AddSlave(slaves)` exactly as written. */
  function AddToAsWritten(regs: seq<Registration>, r: Registration): Result<seq<Registration>> {
    if ClashesAsWritten(regs, r) then Err(ArgumentOutOfRange)
    else if HasKey(regs, r.base) then Err(Argument)
    else Ok(Insert(regs, r))
  }

  /** A window that stays below 0x10000 has the same range under both
      readings of `End`. */
  predicate BelowTop(r: Registration) { r.base + r.size < 0x1_0000 }

  /** While no window reaches 0x10000, the registration as written and the
      registration on real extents agree. */
  lemma AsWrittenAgreesBelowTop(regs: seq<Registration>, r: Registration)
    requires BelowTop(r) && forall i :: 0 <= i < |regs| ==> BelowTop(regs[i])
    ensures AddToAsWritten(regs, r) == AddTo(regs, r)
  {
    assert TruncatedRange(r) == WindowRange(r);
    assert forall i :: 0 <= i < |regs| ==> TruncatedRange(regs[i]) == WindowRange(regs[i]);
    assert ClashesAsWritten(regs, r) == Clashes(regs, r);
  }

  /** With the cartridge window 0x4020 + 0xBFE0 registered, the registration
      as written accepts a window at 0x5000 + 0x10 that lies inside it, while
      the registration on real extents rejects it. */
  lemma AsWrittenAcceptsInner()
    ensures var cart := Registration(0x4020, 1, 0xBFE0);
            var inner := Registration(0x5000, 2, 0x10);
            && AddToAsWritten([cart], inner) == Ok([inner, cart])
            && AddTo([cart], inner) == Err(ArgumentOutOfRange)
  {
    var cart := Registration(0x4020, 1, 0xBFE0);
    var inner := Registration(0x5000, 2, 0x10);
    TruncatedEndMissesOverlap();
    assert !ClashesAsWritten([cart], inner) by {
      forall i | 0 <= i < |[cart]| ensures !TruncatedRange(inner).Overlaps(TruncatedRange([cart][i])) {
        assert [cart][i] == cart;
      }
    }
    assert Clashes([cart], inner) by {
      assert WindowRange(inner).Overlaps(WindowRange([cart][0]));
    }
    assert !HasKey([cart], inner.base);
    assert Insert([cart], inner) == [inner] + [cart];
    assert [inner] + [cart] == [inner, cart];
  }

  /** `Bus.AddSlave`: the read list first, then the write list; `_dirty` is
      set only when both steps succeed, and a failure in the write step
      leaves the read list already extended. */
  function AddSlaveSpec(g: Registry, r: Registration, access: Access): (Outcome, Registry) {
    var read := if access.read then AddTo(g.read, r) else Ok(g.read);
    if read.Err? then (Fail(read.error), g)
    else
      var write := if access.write then AddTo(g.write, r) else Ok(g.write);
      if write.Err? then (Fail(write.error), g.(read := read.value))
      else (Pass, Registry(read.value, write.value, true))
  }

  /** The lists a bus keeps: sorted, keys unique, windows disjoint. */
  ghost predicate WellFormed(regs: seq<Registration>) {
    Descending(regs) && NonOverlapping(regs)
  }

  /** A successful `AddTo` keeps the list well formed, and the new window
      takes exactly its own addresses. */
  lemma AddToPreserves(regs: seq<Registration>, r: Registration, a: Word)
    requires WellFormed(regs) && AddTo(regs, r).Ok?
    ensures WellFormed(AddTo(regs, r).value)
    ensures Lookup(AddTo(regs, r).value, a) ==
      if Selects(r, a) then Some(Target(r.device, a - r.base)) else Lookup(regs, a)
  {
    InsertSorted(regs, r);
    InsertNonOverlapping(regs, r);
    LookupAfterInsert(regs, r, a);
  }

  /** `AddSlave` fails with ArgumentOutOfRange when the new window overlaps
      a window of a direction it asks for; on success the window is in the
      read list iff Read was asked for, in the write list iff Write was, and
      the cache is dirty. */
  lemma AddSlaveOutcome(g: Registry, r: Registration, access: Access)
    requires WellFormed(g.read) && WellFormed(g.write)
    ensures var (o, h) := AddSlaveSpec(g, r, access);
      && ((access.read && Clashes(g.read, r)) ==> o == Fail(ArgumentOutOfRange) && h == g)
      && ((access.read ==> AddTo(g.read, r).Ok?) && access.write && Clashes(g.write, r) ==>
            && o == Fail(ArgumentOutOfRange) && h.write == g.write && h.dirty == g.dirty
            && h.read == if access.read then Insert(g.read, r) else g.read)
      && (o == Pass <==> (access.read ==> AddTo(g.read, r).Ok?) && (access.write ==> AddTo(g.write, r).Ok?))
      && (o == Pass ==>
            && h.dirty
            && (h.read == if access.read then Insert(g.read, r) else g.read)
            && (h.write == if access.write then Insert(g.write, r) else g.write)
            && WellFormed(h.read) && WellFormed(h.write))
  {
    var (o, h) := AddSlaveSpec(g, r, access);
    if o == Pass {
      if access.read { AddToPreserves(g.read, r, 0); }
      if access.write { AddToPreserves(g.write, r, 0); }
    }
  }

  /** A read-only window and a write-only window may cover the same
      addresses: neither registration fails. */
  lemma ReadOnlyAndWriteOnlyShare(base: Word, d1: DeviceId, d2: DeviceId, size: Word)
    ensures var g1 := AddSlaveSpec(Registry([], [], true), Registration(base, d1, size), Access(true, false));
            var g2 := AddSlaveSpec(g1.1, Registration(base, d2, size), Access(false, true));
            g1.0 == Pass && g2.0 == Pass
            && g2.1.read == [Registration(base, d1, size)] && g2.1.write == [Registration(base, d2, size)]
  {
  }

  /** Turn a missing mapping into the AccessViolationException of `FindSlave`. */
  function Resolve(t: Option<Target>): Result<Target> {
    if t.Some? then Ok(t.value) else Err(AccessViolation)
  }

  /** The overlap scan of the local `AddSlave(slaves)`. */
  method FindClash(regs: seq<Registration>, r: Registration) returns (clash: bool)
    ensures clash == Clashes(regs, r)
  {
    var newRange := WindowRange(r);
    var i := 0;
    while i < |regs|
      invariant 0 <= i <= |regs|
      invariant forall j :: 0 <= j < i ==> !newRange.Overlaps(WindowRange(regs[j]))
    {
      if newRange.Overlaps(WindowRange(regs[i])) {
        return true;
      }
      i := i + 1;
    }
    return false;
  }

  /** `FindSlaveRaw`: the scan of one list in descending key order. */
  method FindSlaveRaw(regs: seq<Registration>, address: Word) returns (r: Option<Target>)
    ensures r == Lookup(regs, address)
  {
    var i := 0;
    while i < |regs|
      invariant 0 <= i <= |regs|
      invariant Lookup(regs, address) == Lookup(regs[i..], address)
    {
      var slave := regs[i];
      assert regs[i..][1..] == regs[i + 1..];
      if slave.base <= address {
        var offset := address - slave.base;
        if offset < slave.size {
          return Some(Target(slave.device, offset));
        }
      }
      i := i + 1;
    }
    return None;
  }

  /** The dispatch table is the lookup over a list, address by address. */
  ghost predicate Tabulates(m: array<Option<Target>>, regs: seq<Registration>)
    reads m
  {
    m.Length == 0x1_0000 && forall a: Word :: m[a] == Lookup(regs, a)
  }

  /** A device read performed by the bus on behalf of a master. */
  type Peek = (DeviceId, Word) -> Byte

  /** A device write the bus hands to its slave: `slave.Write(offset, Value)`. */
  datatype Store = Store(target: Target, value: Byte)

  class Bus {
    var slavesRead: seq<Registration>
    var slavesWrite: seq<Registration>
    var dirty: bool
    var readMap: array<Option<Target>>
    var writeMap: array<Option<Target>>
    var value: Byte
    var isUsed: bool
    /** The registrations the dispatch tables were last built from. */
    ghost var mappedRead: seq<Registration>
    ghost var mappedWrite: seq<Registration>

    ghost predicate Valid()
      reads this, readMap, writeMap
    {
      && readMap.Length == 0x1_0000 && writeMap.Length == 0x1_0000 && readMap != writeMap
      && WellFormed(slavesRead) && WellFormed(slavesWrite)
      && (!dirty ==> Tabulates(readMap, mappedRead) && Tabulates(writeMap, mappedWrite))
    }

    ghost function Registrations(): Registry
      reads this
    {
      Registry(slavesRead, slavesWrite, dirty)
    }

    /** The lists the next `FindSlave` resolves against. */
    ghost function Effective(read: bool): seq<Registration>
      reads this
    {
      if dirty then (if read then slavesRead else slavesWrite)
      else (if read then mappedRead else mappedWrite)
    }

    constructor ()
      ensures Valid() && fresh(readMap) && fresh(writeMap)
      ensures Registrations() == Registry([], [], true) && !isUsed && value == 0
    {
      slavesRead, slavesWrite := [], [];
      dirty := true;
      readMap := new Option<Target>[0x1_0000](_ => None);
      writeMap := new Option<Target>[0x1_0000](_ => None);
      value, isUsed := 0, false;
      mappedRead, mappedWrite := [], [];
    }

    method Acquire()
      modifies this`isUsed
      ensures isUsed
    {
      isUsed := true;
    }

    /** True iff the bus is free; the flag itself is not changed. */
    method TryAcquire() returns (free: bool)
      ensures free == !isUsed
    {
      free := !isUsed;
    }

    method Release()
      modifies this`isUsed
      ensures !isUsed
    {
      isUsed := false;
    }

    /** The local function `AddSlave(slaves)` applied to one list. */
    method AddToList(read: bool, r: Registration) returns (o: Outcome)
      requires Valid()
      modifies this`slavesRead, this`slavesWrite
      ensures Valid()
      ensures var before := if read then old(slavesRead) else old(slavesWrite);
              var res := AddTo(before, r);
              && o == (if res.Ok? then Pass else Fail(res.error))
              && (read ==>
                    && slavesWrite == old(slavesWrite)
                    && slavesRead == if res.Ok? then res.value else before)
              && (!read ==>
                    && slavesRead == old(slavesRead)
                    && slavesWrite == if res.Ok? then res.value else before)
    {
      var slaves := if read then slavesRead else slavesWrite;
      var clash := FindClash(slaves, r);
      if clash {
        return Fail(ArgumentOutOfRange);
      }
      if exists i :: 0 <= i < |slaves| && slaves[i].base == r.base {
        return Fail(Argument);
      }
      AddToPreserves(slaves, r, 0);
      if read {
        slavesRead := Insert(slavesRead, r);
      } else {
        slavesWrite := Insert(slavesWrite, r);
      }
      return Pass;
    }

    /** `AddSlave(baseAddress, slave, slaveAccess, size)`. */
    method AddSlave(base: Word, device: DeviceId, size: Word, access: Access) returns (o: Outcome)
      requires Valid()
      modifies this`slavesRead, this`slavesWrite, this`dirty
      ensures Valid()
      ensures (o, Registrations()) == AddSlaveSpec(old(Registrations()), Registration(base, device, size), access)
    {
      var r := Registration(base, device, size);
      if access.read {
        o := AddToList(true, r);
        if o.Fail? {
          return;
        }
      }
      if access.write {
        o := AddToList(false, r);
        if o.Fail? {
          return;
        }
      }
      dirty := true;
      o := Pass;
    }

    /** `FindSlave`: rebuild both tables if dirty, then look the address up. */
    method FindSlave(address: Word, read: bool) returns (r: Result<Target>)
      requires Valid()
      modifies this`dirty, this`mappedRead, this`mappedWrite, readMap, writeMap
      ensures Valid() && !dirty
      ensures mappedRead == old(Effective(true)) && mappedWrite == old(Effective(false))
      ensures r == Resolve(Lookup(old(Effective(read)), address))
    {
      if dirty {
        var i := 0;
        while i <= 0xFFFF
          invariant 0 <= i <= 0x1_0000
          invariant forall a: Word :: a < i ==> readMap[a] == Lookup(slavesRead, a)
          invariant forall a: Word :: a < i ==> writeMap[a] == Lookup(slavesWrite, a)
        {
          readMap[i] := FindSlaveRaw(slavesRead, i);
          writeMap[i] := FindSlaveRaw(slavesWrite, i);
          i := i + 1;
        }
        mappedRead, mappedWrite := slavesRead, slavesWrite;
        dirty := false;
      }
      var entry := if read then readMap[address] else writeMap[address];
      r := Resolve(entry);
    }

    /** `IBusMasterClient.Read`: latch the selected slave's byte into `Value`. */
    method Read(address: Word, peek: Peek) returns (r: Result<Target>)
      requires Valid()
      modifies this`value, this`dirty, this`mappedRead, this`mappedWrite, readMap, writeMap
      ensures Valid() && !dirty && Registrations().read == old(slavesRead) && slavesWrite == old(slavesWrite)
      ensures r == Resolve(Lookup(old(Effective(true)), address))
      ensures value == if r.Ok? then peek(r.value.device, r.value.offset) else old(value)
    {
      r := FindSlave(address, true);
      if r.Ok? {
        value := peek(r.value.device, r.value.offset);
      }
    }

    /** `IBusMasterClient.Write`: hand the latched `Value` to the selected slave. */
    method Write(address: Word) returns (r: Result<Store>)
      requires Valid()
      modifies this`dirty, this`mappedRead, this`mappedWrite, readMap, writeMap
      ensures Valid() && !dirty && slavesRead == old(slavesRead) && slavesWrite == old(slavesWrite)
      ensures var t := Resolve(Lookup(old(Effective(false)), address));
              r == if t.Ok? then Ok(Store(t.value, value)) else Err(t.error)
    {
      var t := FindSlave(address, false);
      if t.Err? {
        return Err(t.error);
      }
      r := Ok(Store(t.value, value));
    }
  }
}
