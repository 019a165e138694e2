/** The instruction table: a vector of entries indexed by identifier and a
    map from mnemonic to identifier. Every lookup that misses answers the
    entry of the illegal instruction instead of failing. */
module Registry {
  import opened Instruction

  /** Builds the name-to-identifier map of a vector whose entry k has
      identifier k. Several identifiers may share a mnemonic; the map then
      keeps the first registered one, the lowest identifier. */
  method BuildNameMap(entries: seq<InstEntry>) returns (m: map<string, InstId>)
    requires forall k :: 0 <= k < |entries| ==> entries[k].id == k
    ensures forall n :: n in m <==> exists k :: 0 <= k < |entries| && entries[k].name == n
    ensures forall n :: n in m ==> m[n] < |entries| && entries[m[n]].name == n
    ensures forall n, k :: n in m && 0 <= k < m[n] ==> entries[k].name != n
  {
    m := map[];
    var i := 0;
    while i < |entries|
      invariant 0 <= i <= |entries|
      invariant forall n :: n in m <==> exists k :: 0 <= k < i && entries[k].name == n
      invariant forall n :: n in m ==> m[n] < i && entries[m[n]].name == n
      invariant forall n, k :: n in m && 0 <= k < m[n] ==> entries[k].name != n
    {
      var n := entries[i].name;
      if n !in m {
        m := m[n := entries[i].id];
      }
      i := i + 1;
    }
  }

  class InstTable {
    var instVec: seq<InstEntry>
    var instMap: map<string, InstId>

    /** The table holds the illegal entry at its identifier, every entry
        sits at the index of its own identifier, and the map sends each
        mnemonic of the vector, and nothing else, to the first entry
        bearing it. */
    ghost predicate Valid()
      reads this, instVec
    {
      && IllegalId < |instVec|
      && (forall k :: 0 <= k < |instVec| ==> instVec[k].id == k)
      && (forall n :: n in instMap <==> exists k :: 0 <= k < |instVec| && instVec[k].name == n)
      && (forall n :: n in instMap ==> instMap[n] < |instVec| && instVec[instMap[n]].name == n)
      && (forall n, k :: n in instMap && 0 <= k < instMap[n] ==> instVec[k].name != n)
    }

    /** Builds the table from the population data: entry k has identifier
        k, and entry 0 is the illegal instruction. */
    constructor (entries: seq<InstEntry>)
      requires IllegalId < |entries|
      requires forall k :: 0 <= k < |entries| ==> entries[k].id == k
      ensures Valid() && instVec == entries
    {
      var m := BuildNameMap(entries);
      instVec, instMap := entries, m;
    }

    /** The entry of the illegal instruction. */
    function IllegalEntry(): (e: InstEntry)
      reads this, instVec
      requires Valid()
      ensures e in instVec && e.Id() == IllegalId
    {
      instVec[IllegalId]
    }

    /** True if some entry of the table has the given identifier. */
    predicate HasInfo(id: InstId)
      reads this, instVec
      requires Valid()
      ensures HasInfo(id) <==> exists k :: 0 <= k < |instVec| && instVec[k].id == id
    {
      assert id < |instVec| ==> instVec[id].id == id;
      id < |instVec|
    }

    /** The entry with the given identifier, or the illegal entry if none. */
    function GetEntry(id: InstId): (e: InstEntry)
      reads this, instVec
      requires Valid()
      ensures e in instVec
      ensures HasInfo(id) ==> e.Id() == id
      ensures !HasInfo(id) ==> e == IllegalEntry()
    {
      if id < |instVec| then instVec[id] else instVec[IllegalId]
    }

    /** True if some entry of the table has the given name. */
    predicate HasInfoByName(name: string)
      reads this, instVec
      requires Valid()
      ensures HasInfoByName(name) <==> exists k :: 0 <= k < |instVec| && instVec[k].name == name
    {
      name in instMap
    }

    /** The entry registered under the given name, or the illegal entry if
        none. Among aliases sharing the name, that is the one with the
        lowest identifier. */
    function GetEntryByName(name: string): (e: InstEntry)
      reads this, instVec
      requires Valid()
      ensures e in instVec
      ensures HasInfoByName(name) ==> e.Name() == name && HasInfo(e.Id())
      ensures HasInfoByName(name) ==> forall k :: 0 <= k < e.Id() ==> instVec[k].name != name
      ensures !HasInfoByName(name) ==> e == IllegalEntry()
    {
      if name in instMap then GetEntry(instMap[name]) else GetEntry(IllegalId)
    }
  }

  /** The illegal entry is the only one with the illegal identifier, and no
      entry object occurs twice in the vector. */
  lemma SentinelUnique(t: InstTable)
    requires t.Valid()
    ensures forall k :: 0 <= k < |t.instVec| && t.instVec[k].Id() == IllegalId ==> t.instVec[k] == t.IllegalEntry()
    ensures forall j, k :: 0 <= j < k < |t.instVec| ==> t.instVec[j] != t.instVec[k]
  {
  }

  /** A lookup by name that hits is the lookup by the identifier the name
      maps to; one that misses is the lookup of the illegal identifier. */
  lemma NameLookupThroughId(t: InstTable, name: string)
    requires t.Valid()
    ensures t.HasInfoByName(name) ==> name in t.instMap && t.GetEntryByName(name) == t.GetEntry(t.instMap[name])
    ensures !t.HasInfoByName(name) ==> t.GetEntryByName(name) == t.GetEntry(IllegalId)
  {
  }

  /** Every entry of the table is found again by its identifier, and by its
      name unless an alias with a lower identifier shares that name. */
  lemma LookupsFindEveryEntry(t: InstTable, k: nat)
    requires t.Valid() && k < |t.instVec|
    ensures t.HasInfo(t.instVec[k].Id()) && t.GetEntry(t.instVec[k].Id()) == t.instVec[k]
    ensures t.HasInfoByName(t.instVec[k].Name())
    ensures t.GetEntryByName(t.instVec[k].Name()).Id() <= k
    ensures (forall j :: 0 <= j < k ==> t.instVec[j].name != t.instVec[k].name) ==>
              t.GetEntryByName(t.instVec[k].Name()) == t.instVec[k]
  {
  }

  /** Lookups in a table of three entries named "illegal", "add" and "lw":
      each registered name finds its own entry, and the unregistered name
      "mul" finds the illegal entry. */
  lemma ExampleLookups(t: InstTable)
    requires t.Valid() && |t.instVec| == 3
    requires t.instVec[0].name == "illegal" && t.instVec[1].name == "add" && t.instVec[2].name == "lw"
    ensures t.HasInfoByName("add") && t.GetEntryByName("add") == t.instVec[1]
    ensures t.HasInfoByName("lw") && t.GetEntryByName("lw") == t.instVec[2]
    ensures !t.HasInfoByName("mul") && t.GetEntryByName("mul") == t.instVec[0]
  {
    LookupsFindEveryEntry(t, 1);
    LookupsFindEveryEntry(t, 2);
    assert forall k :: 0 <= k < |t.instVec| ==> t.instVec[k].name != "mul";
  }

  /** The entry of "add rd, rs1, rs2": rd written, rs1 and rs2 integer
      sources, opcode 0x33 under the mask 0xFE00707F. */
  method ExampleAdd() returns (e: InstEntry)
    ensures fresh(e) && e.name == "add" && e.id == 1
    ensures e.OperandCount() == 3 && e.IsIthOperandWrite(0)
    ensures e.IsIthOperandIntRegSource(1) && e.IsIthOperandIntRegSource(2)
    ensures e.WellFormed()
  {
    e := new InstEntry("add", 1, 0x33, 0xFE00_707F, InstType.Int,
                       OperandType.IntReg, OperandMode.Write, 0xF80,
                       OperandType.IntReg, OperandMode.Read, 0xF_8000,
                       OperandType.IntReg, OperandMode.Read, 0x1F0_0000,
                       opCount := 3);
  }

  /** The entry of "lw rd, offset(rs1)": a load whose 4-byte size is set
      through the setter after construction. */
  method ExampleLoadWord() returns (e: InstEntry)
    ensures fresh(e) && e.name == "lw" && e.id == 2
    ensures e.IsLoad() && e.LoadSize() == 4 && e.StoreSize() == 0
    ensures e.WellFormed()
  {
    e := new InstEntry("lw", 2, 0x2003, 0x707F, InstType.Load,
                       OperandType.IntReg, OperandMode.Write, 0xF80,
                       OperandType.IntReg, OperandMode.Read, 0xF_8000,
                       OperandType.Imm, OperandMode.Read, 0xFFF0_0000,
                       opCount := 3);
    e.SetLoadSize(4);
  }

  /** A table holding the illegal instruction, "add rd, rs1, rs2" and
      "lw rd, offset(rs1)": "add" finds an entry with three operands whose
      first is written and whose others are integer sources, "lw" finds a
      consistent 4-byte load, and the unregistered name "mul" falls back to
      the illegal entry. */
  method ExampleTable() returns (t: InstTable)
    ensures t.Valid() && |t.instVec| == 3
    ensures t.HasInfoByName("add") && t.GetEntryByName("add").OperandCount() == 3
    ensures t.GetEntryByName("add").IsIthOperandWrite(0)
    ensures t.GetEntryByName("add").IsIthOperandIntRegSource(1) && t.GetEntryByName("add").IsIthOperandIntRegSource(2)
    ensures t.GetEntryByName("add").WellFormed()
    ensures t.GetEntryByName("lw") == t.GetEntry(2) && t.GetEntry(2).IsLoad()
    ensures t.GetEntry(2).LoadSize() == 4 && t.GetEntry(2).StoreSize() == 0 && t.GetEntry(2).WellFormed()
    ensures !t.HasInfoByName("mul") && t.GetEntryByName("mul").Name() == "illegal"
  {
    var illegal := new InstEntry("illegal", IllegalId, AllOnes, AllOnes);
    var add := ExampleAdd();
    var lw := ExampleLoadWord();
    t := new InstTable([illegal, add, lw]);
    ExampleLookups(t);
    assert t.GetEntryByName("add") == add && t.GetEntryByName("lw") == lw == t.GetEntry(2);
  }
}
