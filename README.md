# RISC-V instruction table entries, in Dafny

This project models `InstEntry.hpp` of a RISC-V instruction decoder (namespace
`WdRiscv`): the metadata record that describes one instruction variant, the
table that maps identifiers and mnemonics to those records, and the three
helpers that size a raw instruction word. It is split into three modules:

- `Encoding` (`encoding.dfy`): the `uint32_t` word type (`bv32`), the
  `unsigned` type (a 32-bit newtype), and `IsFullSizeInst`,
  `IsCompressedInst` and `InstructionSize`. They look only at the two lowest
  bits of the word, following the base instruction-length encoding of
  section 1.5 of the RISC-V Unprivileged ISA (Volume I). Like the source,
  they tell only 16-bit from 32-bit instructions.
- `Instruction` (`instruction.dfy`): the enumerations `OperandType`,
  `OperandMode` and `InstType`, and the class `InstEntry`. Its fields are the
  private members of the C++ class. The four operand slots stay four parallel
  groups of fields. The ghost function `Operands()` views them as a sequence
  of four `Operand` values, and the slot accessors are specified against that
  view. The protected setters are methods whose frame is the one field they
  assign (`modifies this`ldSize`). This frame guarantees that every other
  field, and so every other accessor, is unchanged.
- `Registry` (`registry.dfy`): the class `InstTable`, with its vector of
  entries (`seq<InstEntry>`) and its name-to-identifier map
  (`map<string, InstId>`). `Valid()` is the table invariant that lookups rely
  on. `GetEntry`/`HasInfo` by identifier and by name are specified from the
  source's doc comments, because their bodies are not in the header. A miss
  answers the illegal-instruction entry.

Modelling choices:

- `InstId` is a `nat`. The doc comment on `instId()` describes identifiers
  as integers from 0 to n. That the illegal identifier is 0
  (`IllegalId == 0`) is a choice of this model: the enumeration that fixes
  it is not part of this model. The table invariant assumes dense
  identifiers: entry k has identifier k, and entry 0 is the illegal
  instruction.
- Several identifiers may share a mnemonic (aliases). For that case the map
  keeps the first registered identifier, the lowest one. `BuildNameMap`
  computes the map this way.
- Several consistency rules a reader might expect of the table are not kept
  by the header, and the model follows the header:
  - The header does not keep `code` inside `codeMask`.
  - The header does not keep `codeMask` apart from the operand specifier
    masks, although its doc comments call the code mask the
    non-operand-specifier bits.
  - The header does not force slots past `operandCount()` to be empty.
  - The header does not tie the load and store sizes to the type.
  - The header does not make the eight classification predicates cover every
    type. `Int`, `Fp` and the bit-manipulation tags satisfy none of them.

  The size rule is the ghost predicate `InstEntry.SizesMatchType()`, the
  only hypothesis of `SizesFollowType`. The first four rules together form
  the ghost predicate `InstEntry.WellFormed()`, which is shown of the
  example entries but never claimed of every entry. The last rule is in no
  predicate. The model proves only what the single type tag gives:
  "at most one" classification holds, and "exactly one" holds only for the
  eight tags those predicates test.
- `HasInfo(id)` holds for the illegal identifier itself, since the illegal
  entry is in the table.

## Model

| member | source | states |
|---|---|---|
| `Encoding.IsFullSizeInst` | InstEntry.hpp:32-35 | true exactly when the word's remainder modulo 4 (its two lowest bits) is 3 |
| `Encoding.IsCompressedInst` | InstEntry.hpp:38-41 | exactly the negation of `IsFullSizeInst`, i.e. the low two bits are 00, 01 or 10 |
| `Encoding.InstructionSize` | InstEntry.hpp:44-48 | always 2 or 4; 4 exactly for full-size words, 2 exactly for compressed ones |
| `Encoding.SizeFromFirstParcel` | InstEntry.hpp:44-48 | the size depends only on the first 16-bit parcel, indeed only on the two lowest bits |
| `Encoding.SizeExamples` | InstEntry.hpp:44-48 | 0x3 and 0xFFFFFFFF are 4-byte instructions, 0x0 and 0x1 are 2-byte compressed ones |
| `Instruction.InstEntry.constructor` | InstEntry.hpp:74-89 | the name, id, code, mask, type and the four (type, mode, mask) slots are the arguments, all defaulting to the illegal instruction (mask all ones, type Int, slots None/None/0); sizes are 0 and the flags false |
| `Instruction.InstEntry.Operands` | InstEntry.hpp:276-289 | the operand fields form exactly four slots, op0 first |
| `Instruction.InstEntry.Name` | InstEntry.hpp:92-93 | the stored mnemonic |
| `Instruction.InstEntry.Id` | InstEntry.hpp:95-102 | the stored identifier |
| `Instruction.InstEntry.Code` | InstEntry.hpp:104-107 | the stored code |
| `Instruction.InstEntry.CodeMask` | InstEntry.hpp:109-112 | the stored code mask |
| `Instruction.InstEntry.OperandCount` | InstEntry.hpp:114-116 | the stored operand count |
| `Instruction.InstEntry.Type` | InstEntry.hpp:182-184 | the stored classification tag |
| `Instruction.InstEntry.IsLoad` | InstEntry.hpp:186-188 | true exactly when `Type() == Load` |
| `Instruction.InstEntry.IsStore` | InstEntry.hpp:190-192 | true exactly when `Type() == Store` |
| `Instruction.InstEntry.IsBranch` | InstEntry.hpp:194-196 | true exactly when `Type() == Branch` |
| `Instruction.InstEntry.IsMultiply` | InstEntry.hpp:198-200 | true exactly when `Type() == Multiply` |
| `Instruction.InstEntry.IsDivide` | InstEntry.hpp:202-204 | true exactly when `Type() == Divide` |
| `Instruction.InstEntry.IsCsr` | InstEntry.hpp:206-208 | true exactly when `Type() == Csr` |
| `Instruction.InstEntry.IsAtomic` | InstEntry.hpp:210-212 | true exactly when `Type() == Atomic` |
| `Instruction.InstEntry.IsVector` | InstEntry.hpp:214-216 | true exactly when `Type() == Vector` |
| `Instruction.InstEntry.IsUnsigned` | InstEntry.hpp:218-220 | the stored unsigned-operands flag |
| `Instruction.InstEntry.IsBranchToRegister` | InstEntry.hpp:222-225 | the stored branch-to-register flag |
| `Instruction.InstEntry.IsConditionalBranch` | InstEntry.hpp:227-229 | the stored conditional-branch flag |
| `Instruction.InstEntry.IsBitManipulation` | InstEntry.hpp:231-233 | the stored bit-manipulation flag |
| `Instruction.InstEntry.LoadSize` | InstEntry.hpp:235-238 | the stored load size in bytes |
| `Instruction.InstEntry.StoreSize` | InstEntry.hpp:240-243 | the stored store size in bytes |
| `Instruction.InstEntry.IthOperandType` | InstEntry.hpp:118-127 | for i < 4 the type stored in slot i; for any i >= 4 the absent value None |
| `Instruction.InstEntry.IthOperandMode` | InstEntry.hpp:129-138 | for i < 4 the mode stored in slot i; for any i >= 4 the absent value None |
| `Instruction.InstEntry.IsIthOperandWrite` | InstEntry.hpp:140-145 | true exactly when i < 4 and slot i's mode is Write or ReadWrite |
| `Instruction.InstEntry.IsIthOperandRead` | InstEntry.hpp:147-152 | true exactly when i < 4 and slot i's mode is Read or ReadWrite |
| `Instruction.InstEntry.IthOperandMask` | InstEntry.hpp:154-163 | for i < 4 the specifier mask stored in slot i; for any i >= 4 zero |
| `Instruction.InstEntry.IsIthOperandIntRegSource` | InstEntry.hpp:165-171 | true exactly when i < 4 and slot i is an integer register with mode exactly Read |
| `Instruction.InstEntry.IsIthOperandFpRegSource` | InstEntry.hpp:173-180 | true exactly when i < 4 and slot i is a floating-point register with mode exactly Read |
| `Instruction.OperandDirections` | InstEntry.hpp:140-152 | write iff the mode is Write or ReadWrite, read iff Read or ReadWrite; both exactly for ReadWrite, neither exactly for None, neither for any index >= 4 |
| `Instruction.SourceOperands` | InstEntry.hpp:165-180 | a source is a register of the right kind whose mode is Read; every source is read and not written, a ReadWrite register is no source, and no operand is both an integer and a floating-point source |
| `Instruction.ClassificationExclusive` | InstEntry.hpp:186-216 | since the type is a single tag, at most one of isLoad … isVector holds, and exactly one holds iff the type is one of those eight tags |
| `Instruction.SizesFollowType` | InstEntry.hpp:235-243 | for an entry whose sizes agree with its type (`SizesMatchType()`: non-zero exactly for a load / a store), load and store sizes are never both non-zero; a load has a non-zero load size and no store size, and symmetrically for a store |
| `Instruction.InstEntry.SetIsUnsigned` | InstEntry.hpp:247-249 | `isUnsigned()` becomes the flag; only that field may change |
| `Instruction.InstEntry.SetLoadSize` | InstEntry.hpp:251-253 | `loadSize()` becomes the size; only that field may change |
| `Instruction.InstEntry.SetStoreSize` | InstEntry.hpp:255-257 | `storeSize()` becomes the size; only that field may change |
| `Instruction.InstEntry.SetConditionalBranch` | InstEntry.hpp:259-261 | `isConditionalBranch()` becomes the flag; only that field may change |
| `Instruction.InstEntry.SetBranchToRegister` | InstEntry.hpp:263-265 | `isBranchToRegister()` becomes the flag; only that field may change |
| `Registry.BuildNameMap` | InstEntry.hpp:329-330 | the map's keys are exactly the names in the vector, each name maps to an entry bearing it, and no entry with a lower identifier bears that name (first registered wins) |
| `Registry.InstTable.constructor` | InstEntry.hpp:306 | given population data whose entry k has identifier k and whose entry 0 is the illegal instruction, the table holds that vector and satisfies the table invariant |
| `Registry.InstTable.IllegalEntry` | InstEntry.hpp:308-309 | the illegal entry is in the table and carries the illegal identifier |
| `Registry.InstTable.HasInfo` | InstEntry.hpp:316-317 | true exactly when some entry of the table has the identifier |
| `Registry.InstTable.GetEntry` | InstEntry.hpp:308-310 | an entry of the table; on a hit it carries the requested identifier, on a miss it is the illegal entry |
| `Registry.InstTable.HasInfoByName` | InstEntry.hpp:319-320 | true exactly when some entry of the table has the name |
| `Registry.InstTable.GetEntryByName` | InstEntry.hpp:312-314 | an entry of the table; on a hit it bears the name, is present by identifier, and no lower identifier bears the name; on a miss it is the illegal entry |
| `Registry.SentinelUnique` | InstEntry.hpp:308-314 | exactly one entry carries the illegal identifier, and no entry object appears twice |
| `Registry.NameLookupThroughId` | InstEntry.hpp:312-314 | a name lookup that hits is the identifier lookup of the mapped identifier; one that misses is the lookup of the illegal identifier |
| `Registry.LookupsFindEveryEntry` | InstEntry.hpp:301-320 | every entry is found again by its identifier, and by its name up to an alias with a lower identifier |
| `Registry.ExampleLookups` | InstEntry.hpp:312-320 | in a table of "illegal", "add" and "lw", each registered name is present and finds its own entry, and the unregistered "mul" is absent and finds the illegal entry |
| `Registry.ExampleAdd` | InstEntry.hpp:74-89 | a freshly built "add" entry has three operands, writes op0, reads op1 and op2 as integer sources, and satisfies `WellFormed()` |
| `Registry.ExampleLoadWord` | InstEntry.hpp:251-253 | a freshly built "lw" entry is a load whose size, set through the setter, is 4, with store size 0, and satisfies `WellFormed()` |
| `Registry.ExampleTable` | InstEntry.hpp:301-320 | a table of illegal, `add` and `lw`: `add` has three operands, its first written and its others integer sources; `lw` is a consistent 4-byte load set through the setter; the unknown name `mul` gives the illegal entry |

## Left out

- `InstTable()` and `setupInstVec()`: the population of the ISA table is data whose code is not in the header. The model's constructor takes the entry vector as an argument instead.
- The `InstEntry` constructor body is not in the header. The model therefore takes the operand count and the bit-manipulation flag as extra constructor arguments, and it does not relate `operandCount()` to the slots.
- The `InstId` enumeration (`InstId.hpp`) is not part of this model. Identifiers are natural numbers with `IllegalId == 0`, and the table invariant assumes that they are dense.
- `Registry.InstTable.GetEntry`, `Registry.InstTable.HasInfo`, `Registry.InstTable.GetEntryByName`, `Registry.InstTable.HasInfoByName`: only their declarations and doc comments are in the header. Their bodies use direct indexing and the first-registered alias rule, as the model chooses.
- Nothing in the header enforces these consistency rules:
  - `code & ~codeMask == 0`;
  - `codeMask` shares no bit with any operand mask;
  - slots past the operand count are empty;
  - load or store size is non-zero exactly for that type;
  - load and store sizes are mutually exclusive.

  The first four appear only in the hypothesis `WellFormed()`. `SizesFollowType` derives the last from the size rule alone (`SizesMatchType()`). That every entry's type is one of the eight classified tags is in no predicate.
- The table shares its entry objects with the code that built it, whereas the source's `std::vector<InstEntry>` owns copies. A setter called on an entry after the table is built is therefore seen through the table. The lookup contracts still hold, because `Valid()` depends only on `id` and `name`, which no setter changes.
- Instructions of 48 bits or more, which the length helpers do not distinguish from 32-bit ones.
- `std::unordered_map` hashing and `std::string` internals. These are modelled as a Dafny `map` and `string`.
- Returned `const` references and concurrent reads after construction. The model is sequential, and Dafny has no `const` view of an object.
- C++ access control (`protected`, `private`, `friend`): Dafny has none, so the setters are ordinary methods.
- Execution semantics of instructions are not in the header.
