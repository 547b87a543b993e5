/** Resuming a saved state: what a load restores, and that the resumed run is the original run. */
module Resume {
  import opened Types
  import opened Core
  import opened Snapshot
  import opened Footprint

  /** The addresses a snapshot vouches for: those it restores and those whose contents it checks. */
  ghost function Vouched(y: Layout): set<word> {
    set x: word | InBlocks(y.ram, x) || InBlocks(y.rom, x)
  }

  /** The two memories have the same bytes in the ROM blocks. */
  ghost predicate SameRom(y: Layout, m: Mem, n: Mem) {
    forall x: word :: InBlocks(y.rom, x) ==> m[x] == n[x]
  }

  /** The hash tells the ROM strings of two memories apart if they differ. */
  predicate NoCollision(y: Layout, m: Mem, n: Mem) {
    var a, b := Gather(m, Addresses(y.rom)), Gather(n, Addresses(y.rom));
    y.md5(a) == y.md5(b) ==> a == b
  }

  /** A state saved by a machine of layout `z` is acceptable to one of layout `y` exactly if `y` has an id, the ids of
      memory and processor agree, the RAM strings are as long, and the ROM strings have the same hash. */
  lemma AcceptableAcross(y: Layout, z: Layout, s: State, m: Mem)
    ensures Acceptable(y, m, AsReply(Save(z, s))) <==>
              && y.memUuid != NO_UUID && z.memUuid == y.memUuid && z.cpuUuid == y.cpuUuid
              && Total(z.ram) == Total(y.ram)
              && z.md5(Gather(s.mem, Addresses(z.rom))) == y.md5(Gather(m, Addresses(y.rom)))
  {
  }

  /** A reply with any part missing changes nothing. */
  lemma DamagedChangesNothing(y: Layout, s: State, r: Reply)
    requires r.Parsed? ==>
               || r.memUuid.None? || r.rom.None? || r.ram.None? || r.cpu.uuid.None?
               || r.cpu.a.None? || r.cpu.b.None? || r.cpu.c.None? || r.cpu.d.None? || r.cpu.e.None?
               || r.cpu.h.None? || r.cpu.l.None? || r.cpu.s.None? || r.cpu.pc.None? || r.cpu.sp.None?
    ensures Load(y, s, r) == s
  {
  }

  /** A saved state is acceptable to every machine with the same bytes in the ROM blocks, whatever its RAM holds; to
      no machine with another ROM whose string the hash tells apart; and to none at all without an id. */
  lemma SavedIsAcceptable(y: Layout, s: State, m: Mem)
    ensures y.memUuid == NO_UUID ==> !Acceptable(y, m, AsReply(Save(y, s)))
    ensures y.memUuid != NO_UUID && SameRom(y, m, s.mem) ==> Acceptable(y, m, AsReply(Save(y, s)))
    ensures !SameRom(y, m, s.mem) && NoCollision(y, m, s.mem) ==> !Acceptable(y, m, AsReply(Save(y, s)))
  {
    hide Acceptable, Save;
    AcceptableAcross(y, y, s, m);
    SameStringIff(m, s.mem, y.rom);
  }

  /** Loading a saved state into any later state of a machine that accepts it restores every
      register but the interrupt flip-flop, every byte of the RAM blocks, and nothing else. */
  lemma LoadSaved(y: Layout, s: State, t: State)
    requires Acceptable(y, t.mem, AsReply(Save(y, s)))
    ensures var r := Load(y, t, AsReply(Save(y, s)));
            && r.cpu == s.cpu.(iff := t.cpu.iff)
            && forall x: word :: r.mem[x] == if InBlocks(y.ram, x) then s.mem[x] else t.mem[x]
  {
    LoadSavedCpu(y.cpuUuid, s.cpu, t.cpu);
    forall x: word
      ensures Scatter(t.mem, Addresses(y.ram), Gather(s.mem, Addresses(y.ram)))[x]
              == if InBlocks(y.ram, x) then s.mem[x] else t.mem[x]
    {
      ScatterGather(s.mem, t.mem, Addresses(y.ram), x);
      AddressesAreBlocks(y.ram, x);
    }
  }

  /** Load atomicity for every candidate reply, gathered from a memory or not: nothing changes, or the processor is
      the one in the text and each RAM-block address holds the last byte the string gives for it, and no other
      address changes. */
  lemma LoadsAllOrNothing(y: Layout, s: State, r: Reply, k: nat, x: word)
    ensures !Acceptable(y, s.mem, r) ==> Load(y, s, r) == s
    ensures Acceptable(y, s.mem, r) ==> Load(y, s, r).cpu == LoadCpu(s.cpu, r.cpu)
    ensures Acceptable(y, s.mem, r) && x !in Addresses(y.ram) ==> Load(y, s, r).mem[x] == s.mem[x]
    ensures var at := Addresses(y.ram);
            Acceptable(y, s.mem, r) && k < |at| && (forall j :: k < j < |at| ==> at[j] != at[k])
            ==> Load(y, s, r).mem[at[k]] == r.ram.value[k]
  {
    if Acceptable(y, s.mem, r) {
      var at := Addresses(y.ram);
      if x !in at {
        ScatterElsewhere(s.mem, at, r.ram.value, x);
      }
      if k < |at| && forall j :: k < j < |at| ==> at[j] != at[k] {
        ScatterLast(s.mem, at, r.ram.value, k);
      }
    }
  }

  /** The resumed processor is the saved one exactly when the flip-flops agree. */
  lemma FlipFlopNotRestored(y: Layout, s: State, t: State)
    requires Acceptable(y, t.mem, AsReply(Save(y, s)))
    ensures Load(y, t, AsReply(Save(y, s))).cpu == s.cpu <==> t.cpu.iff == s.cpu.iff
  {
    LoadSaved(y, s, t);
  }

  /** Resume fidelity. Load a snapshot taken in `s` into any state `t` with the same bytes in the ROM blocks and the
      same interrupt flip-flop. Then for every schedule along which the resumed run reads only
      addresses the snapshot vouches for or it wrote itself, the resumed run and the original run
      from the save point on cannot be told apart: same trap or not, registers, ticks, port traffic,
      and memory wherever vouched for or written. */
  lemma ResumeFidelity(y: Layout, s: State, t: State, es: seq<Env>)
    requires y.memUuid != NO_UUID && SameRom(y, t.mem, s.mem) && t.cpu.iff == s.cpu.iff
    requires Covered(Step, StepReads, StepWrites, Load(y, t, AsReply(Save(y, s))), es, Vouched(y))
    ensures var r := Load(y, t, AsReply(Save(y, s)));
            Alike(Run(Step, r, es), Run(Step, s, es), Extent(Step, StepWrites, r, es, Vouched(y)))
  {
    hide Step, StepReads, StepWrites;
    var r := Load(y, t, AsReply(Save(y, s)));
    SavedIsAcceptable(y, s, t.mem);
    LoadSaved(y, s, t);
    MachineFramed();
    RunAlike(Step, StepReads, StepWrites, r, s, es, Vouched(y));
  }
}
