/** The instruction-table record: one entry per instruction variant, giving
    its opcode bits and mask, up to four operand slots, its classification
    and a few flags. */
module Instruction {
  import opened Encoding

  datatype OperandType = IntReg | FpReg | CsReg | VecReg | Imm | None
  datatype OperandMode = Read | Write | ReadWrite | None
  datatype InstType = Load | Store | Multiply | Divide | Branch | Int | Fp
                    | Csr | Atomic | Vector | Zba | Zbb | Zbc | Zbe | Zbf | Zbm | Zbp
                    | Zbr | Zbs | Zbt

  /** An instruction identifier: an integer between 0 and the number of
      defined instructions. Two identifiers may share a code or a name
      (aliases that differ by feature set or privilege mode). */
  type InstId = nat

  /** The identifier of the illegal instruction, the default of every entry. */
  const IllegalId: InstId := 0

  /** The all-ones mask, the default code mask of an entry. */
  const AllOnes: Word := 0xFFFF_FFFF

  /** The contents of one operand slot: its kind, its direction and the mask
      of its specifier bits. An unused slot is (None, None, 0). */
  datatype Operand = Operand(kind: OperandType, mode: OperandMode, mask: Word)

  /** The number of true values in `s`. */
  function CountTrue(s: seq<bool>): (n: nat)
    ensures n <= |s|
  {
    if s == [] then 0 else (if s[0] then 1 else 0) + CountTrue(s[1..])
  }

  class InstEntry {
    var name: string
    var id: InstId
    var code: Word      // code with all operand bits set to zero
    var codeMask: Word  // a 1 for each bit that is part of the code

    var instType: InstType

    var op0Mask: Word
    var op1Mask: Word
    var op2Mask: Word
    var op3Mask: Word

    var op0Type: OperandType
    var op1Type: OperandType
    var op2Type: OperandType
    var op3Type: OperandType

    var op0Mode: OperandMode
    var op1Mode: OperandMode
    var op2Mode: OperandMode
    var op3Mode: OperandMode

    var opCount: Unsigned
    var ldSize: Unsigned      // load size: zero for a non-load
    var stSize: Unsigned      // store size: zero for a non-store
    var isUns: bool           // source operands are unsigned
    var isCond: bool          // conditional branch
    var isRegBranch: bool     // branch to register
    var isBitManip: bool      // bit manipulation instruction

    /** Builds an entry; every argument has the default of the illegal
        instruction. The operand count and the bit-manipulation flag are
        computed by code that is not part of this model, so they are given
        here as arguments. The sizes and the other flags start as zero and
        false and are set later by the protected setters. */
    constructor (name: string := "", id: InstId := IllegalId,
                 code: Word := 0, mask: Word := AllOnes,
                 instType: InstType := InstType.Int,
                 op0Type: OperandType := OperandType.None,
                 op0Mode: OperandMode := OperandMode.None,
                 op0Mask: Word := 0,
                 op1Type: OperandType := OperandType.None,
                 op1Mode: OperandMode := OperandMode.None,
                 op1Mask: Word := 0,
                 op2Type: OperandType := OperandType.None,
                 op2Mode: OperandMode := OperandMode.None,
                 op2Mask: Word := 0,
                 op3Type: OperandType := OperandType.None,
                 op3Mode: OperandMode := OperandMode.None,
                 op3Mask: Word := 0,
                 opCount: Unsigned := 0, isBitManip: bool := false)
      ensures Name() == name && Id() == id
      ensures Code() == code && CodeMask() == mask && Type() == instType
      ensures Operands() == [Operand(op0Type, op0Mode, op0Mask), Operand(op1Type, op1Mode, op1Mask),
                             Operand(op2Type, op2Mode, op2Mask), Operand(op3Type, op3Mode, op3Mask)]
      ensures OperandCount() == opCount && IsBitManipulation() == isBitManip
      ensures LoadSize() == 0 && StoreSize() == 0
      ensures !IsUnsigned() && !IsConditionalBranch() && !IsBranchToRegister()
    {
      this.name, this.id, this.code, this.codeMask := name, id, code, mask;
      this.instType := instType;
      this.op0Type, this.op0Mode, this.op0Mask := op0Type, op0Mode, op0Mask;
      this.op1Type, this.op1Mode, this.op1Mask := op1Type, op1Mode, op1Mask;
      this.op2Type, this.op2Mode, this.op2Mask := op2Type, op2Mode, op2Mask;
      this.op3Type, this.op3Mode, this.op3Mask := op3Type, op3Mode, op3Mask;
      this.opCount, this.isBitManip := opCount, isBitManip;
      ldSize, stSize := 0, 0;
      isUns, isCond, isRegBranch := false, false, false;
    }

    /** The four operand slots in order, op0 first. */
    ghost function Operands(): (s: seq<Operand>)
      reads this
      ensures |s| == 4
    {
      [Operand(op0Type, op0Mode, op0Mask), Operand(op1Type, op1Mode, op1Mask),
       Operand(op2Type, op2Mode, op2Mask), Operand(op3Type, op3Mode, op3Mask)]
    }

    /** The mnemonic of the instruction. */
    function Name(): (r: string)
      reads this
      ensures r == name
    {
      name
    }

    /** The identifier of the instruction. */
    function Id(): (r: InstId)
      reads this
      ensures r == id
    {
      id
    }

    /** The instruction bits with every operand specifier set to zero. */
    function Code(): (r: Word)
      reads this
      ensures r == code
    {
      code
    }

    /** The mask with a 1 for each bit that is not an operand specifier. */
    function CodeMask(): (r: Word)
      reads this
      ensures r == codeMask
    {
      codeMask
    }

    /** The number of valid operands. */
    function OperandCount(): (r: Unsigned)
      reads this
      ensures r == opCount
    {
      opCount
    }

    /** The type of the ith operand (0-based), or None if there is no such slot. */
    function IthOperandType(i: Unsigned): (t: OperandType)
      reads this
      ensures i < 4 ==> t == Operands()[i].kind
      ensures i >= 4 ==> t == OperandType.None
    {
      if i == 0 then op0Type
      else if i == 1 then op1Type
      else if i == 2 then op2Type
      else if i == 3 then op3Type
      else OperandType.None
    }

    /** The mode of the ith operand (0-based), or None if there is no such slot. */
    function IthOperandMode(i: Unsigned): (m: OperandMode)
      reads this
      ensures i < 4 ==> m == Operands()[i].mode
      ensures i >= 4 ==> m == OperandMode.None
    {
      if i == 0 then op0Mode
      else if i == 1 then op1Mode
      else if i == 2 then op2Mode
      else if i == 3 then op3Mode
      else OperandMode.None
    }

    /** True if the ith operand is written. */
    predicate IsIthOperandWrite(i: Unsigned)
      reads this
      ensures IsIthOperandWrite(i) <==> i < 4 && Operands()[i].mode in {OperandMode.Write, OperandMode.ReadWrite}
    {
      var mode := IthOperandMode(i);
      mode == OperandMode.Write || mode == OperandMode.ReadWrite
    }

    /** True if the ith operand is read. */
    predicate IsIthOperandRead(i: Unsigned)
      reads this
      ensures IsIthOperandRead(i) <==> i < 4 && Operands()[i].mode in {OperandMode.Read, OperandMode.ReadWrite}
    {
      var mode := IthOperandMode(i);
      mode == OperandMode.Read || mode == OperandMode.ReadWrite
    }

    /** The mask of the specifier bits of the ith operand, or 0 if there is
        no such slot. */
    function IthOperandMask(i: Unsigned): (m: Word)
      reads this
      ensures i < 4 ==> m == Operands()[i].mask
      ensures i >= 4 ==> m == 0
    {
      if i == 0 then op0Mask
      else if i == 1 then op1Mask
      else if i == 2 then op2Mask
      else if i == 3 then op3Mask
      else 0
    }

    /** True if the ith operand is an integer register that is only read. */
    predicate IsIthOperandIntRegSource(i: Unsigned)
      reads this
      ensures IsIthOperandIntRegSource(i) <==>
                i < 4 && Operands()[i].kind == OperandType.IntReg && Operands()[i].mode == OperandMode.Read
    {
      if IthOperandType(i) != OperandType.IntReg then false
      else IthOperandMode(i) == OperandMode.Read
    }

    /** True if the ith operand is a floating-point register that is only read. */
    predicate IsIthOperandFpRegSource(i: Unsigned)
      reads this
      ensures IsIthOperandFpRegSource(i) <==>
                i < 4 && Operands()[i].kind == OperandType.FpReg && Operands()[i].mode == OperandMode.Read
    {
      if IthOperandType(i) != OperandType.FpReg then false
      else IthOperandMode(i) == OperandMode.Read
    }

    /** The classification of the instruction. */
    function Type(): (r: InstType)
      reads this
      ensures r == instType
    {
      instType
    }

    /** True if this is a load (lb, lh, ...). */
    predicate IsLoad()
      reads this
      ensures IsLoad() <==> Type() == InstType.Load
    {
      instType == InstType.Load
    }

    /** True if this is a store (sb, sh, ...). */
    predicate IsStore()
      reads this
      ensures IsStore() <==> Type() == InstType.Store
    {
      instType == InstType.Store
    }

    /** True if this is a branch (beq, jal, ...). */
    predicate IsBranch()
      reads this
      ensures IsBranch() <==> Type() == InstType.Branch
    {
      instType == InstType.Branch
    }

    /** True if this is a multiply (mul, mulh, ...). */
    predicate IsMultiply()
      reads this
      ensures IsMultiply() <==> Type() == InstType.Multiply
    {
      instType == InstType.Multiply
    }

    /** True if this is a divide (div, rem, ...). */
    predicate IsDivide()
      reads this
      ensures IsDivide() <==> Type() == InstType.Divide
    {
      instType == InstType.Divide
    }

    /** True if this is a CSR instruction. */
    predicate IsCsr()
      reads this
      ensures IsCsr() <==> Type() == InstType.Csr
    {
      instType == InstType.Csr
    }

    /** True if this is an atomic instruction. */
    predicate IsAtomic()
      reads this
      ensures IsAtomic() <==> Type() == InstType.Atomic
    {
      instType == InstType.Atomic
    }

    /** True if this is a vector instruction. */
    predicate IsVector()
      reads this
      ensures IsVector() <==> Type() == InstType.Vector
    {
      instType == InstType.Vector
    }

    /** The eight classification predicates, in declaration order. */
    ghost function Classifications(): (s: seq<bool>)
      reads this
    {
      [IsLoad(), IsStore(), IsBranch(), IsMultiply(), IsDivide(), IsCsr(), IsAtomic(), IsVector()]
    }

    /** True if the source operands have unsigned integer values. */
    predicate IsUnsigned()
      reads this
      ensures IsUnsigned() == isUns
    {
      isUns
    }

    /** True if this is a branch whose target address is in a register. */
    predicate IsBranchToRegister()
      reads this
      ensures IsBranchToRegister() == isRegBranch
    {
      isRegBranch
    }

    /** True if this is a conditional branch. */
    predicate IsConditionalBranch()
      reads this
      ensures IsConditionalBranch() == isCond
    {
      isCond
    }

    /** True if this is a bit-manipulation instruction. */
    predicate IsBitManipulation()
      reads this
      ensures IsBitManipulation() == isBitManip
    {
      isBitManip
    }

    /** The data size in bytes of a load, zero for a non-load. */
    function LoadSize(): (r: Unsigned)
      reads this
      ensures r == ldSize
    {
      ldSize
    }

    /** The data size in bytes of a store, zero for a non-store. */
    function StoreSize(): (r: Unsigned)
      reads this
      ensures r == stSize
    {
      stSize
    }

    /** The sizes agree with the type: a non-zero load (store) size exactly
        for a load (store), as the accessors' doc comments describe. */
    ghost predicate SizesMatchType()
      reads this
    {
      && (ldSize != 0 <==> IsLoad())
      && (stSize != 0 <==> IsStore())
    }

    /** The consistency the instruction table is meant to keep but that
        nothing here enforces: no code bit outside the mask, no code-mask bit
        inside an operand specifier, every slot past the operand count empty,
        and sizes that agree with the type. */
    ghost predicate WellFormed()
      reads this
    {
      && code & !codeMask == 0
      && codeMask & (op0Mask | op1Mask | op2Mask | op3Mask) == 0
      && (forall i :: opCount as int <= i < 4 ==> Operands()[i] == Operand(OperandType.None, OperandMode.None, 0))
      && SizesMatchType()
    }

    // Build-time setters: each assigns one field and, by its frame, leaves
    // every other field and so every other accessor as it was.

    method SetIsUnsigned(flag: bool)
      modifies this`isUns
      ensures IsUnsigned() == flag
    {
      isUns := flag;
    }

    method SetLoadSize(size: Unsigned)
      modifies this`ldSize
      ensures LoadSize() == size
    {
      ldSize := size;
    }

    method SetStoreSize(size: Unsigned)
      modifies this`stSize
      ensures StoreSize() == size
    {
      stSize := size;
    }

    method SetConditionalBranch(flag: bool)
      modifies this`isCond
      ensures IsConditionalBranch() == flag
    {
      isCond := flag;
    }

    method SetBranchToRegister(flag: bool)
      modifies this`isRegBranch
      ensures IsBranchToRegister() == flag
    {
      isRegBranch := flag;
    }
  }

  /** Read and write follow the mode: a ReadWrite operand is both, a None
      operand (and any index past the fourth slot) is neither. */
  lemma OperandDirections(e: InstEntry, i: Unsigned)
    ensures e.IsIthOperandWrite(i) <==> e.IthOperandMode(i) in {OperandMode.Write, OperandMode.ReadWrite}
    ensures e.IsIthOperandRead(i) <==> e.IthOperandMode(i) in {OperandMode.Read, OperandMode.ReadWrite}
    ensures e.IsIthOperandRead(i) && e.IsIthOperandWrite(i) <==> e.IthOperandMode(i) == OperandMode.ReadWrite
    ensures !e.IsIthOperandRead(i) && !e.IsIthOperandWrite(i) <==> e.IthOperandMode(i) == OperandMode.None
    ensures i >= 4 ==> !e.IsIthOperandRead(i) && !e.IsIthOperandWrite(i)
  {
  }

  /** A source is a register operand whose mode is exactly Read: it is read
      and not written, so a ReadWrite register is no source, and no operand
      is both an integer and a floating-point source. */
  lemma SourceOperands(e: InstEntry, i: Unsigned)
    ensures e.IsIthOperandIntRegSource(i) <==>
              e.IthOperandType(i) == OperandType.IntReg && e.IthOperandMode(i) == OperandMode.Read
    ensures e.IsIthOperandFpRegSource(i) <==>
              e.IthOperandType(i) == OperandType.FpReg && e.IthOperandMode(i) == OperandMode.Read
    ensures e.IsIthOperandIntRegSource(i) || e.IsIthOperandFpRegSource(i) ==>
              e.IsIthOperandRead(i) && !e.IsIthOperandWrite(i)
    ensures !(e.IsIthOperandIntRegSource(i) && e.IsIthOperandFpRegSource(i))
    ensures e.IthOperandMode(i) == OperandMode.ReadWrite ==>
              !e.IsIthOperandIntRegSource(i) && !e.IsIthOperandFpRegSource(i)
  {
  }

  /** When no two entries of `s` are both true, at most one is, and exactly
      one is when some entry is. */
  lemma {:induction false} CountTrueExclusive(s: seq<bool>)
    requires forall j, k :: 0 <= j < k < |s| ==> !(s[j] && s[k])
    ensures CountTrue(s) <= 1
    ensures CountTrue(s) == 1 <==> exists j :: 0 <= j < |s| && s[j]
  {
    if s != [] {
      var t := s[1..];
      assert forall j, k :: 0 <= j < k < |t| ==> !(t[j] && t[k]) by {
        forall j, k | 0 <= j < k < |t| ensures !(t[j] && t[k]) {
          assert t[j] == s[j + 1] && t[k] == s[k + 1];
        }
      }
      CountTrueExclusive(t);
      if s[0] {
        assert forall j :: 0 <= j < |t| ==> !t[j] by {
          forall j | 0 <= j < |t| ensures !t[j] {
            assert t[j] == s[j + 1];
          }
        }
      } else {
        assert (exists j :: 0 <= j < |s| && s[j]) ==> exists j :: 0 <= j < |t| && t[j] by {
          if exists j :: 0 <= j < |s| && s[j] {
            var j :| 0 <= j < |s| && s[j];
            assert t[j - 1] == s[j];
          }
        }
      }
    }
  }

  /** The type is a single tag, so at most one classification predicate
      holds, and exactly one holds when the type is one of their eight tags. */
  lemma ClassificationExclusive(e: InstEntry)
    ensures CountTrue(e.Classifications()) <= 1
    ensures CountTrue(e.Classifications()) == 1 <==>
              e.Type() in {InstType.Load, InstType.Store, InstType.Branch, InstType.Multiply,
                           InstType.Divide, InstType.Csr, InstType.Atomic, InstType.Vector}
  {
    var s := e.Classifications();
    CountTrueExclusive(s);
    if e.Type() in {InstType.Load, InstType.Store, InstType.Branch, InstType.Multiply,
                    InstType.Divide, InstType.Csr, InstType.Atomic, InstType.Vector} {
      var j := match e.Type()
        case Load => 0 case Store => 1 case Branch => 2 case Multiply => 3
        case Divide => 4 case Csr => 5 case Atomic => 6 case _ => 7;
      assert s[j];
    }
  }

  /** When the sizes agree with the type, load and store sizes never both
      hold: a load has a non-zero load size and no store size, and
      symmetrically. */
  lemma SizesFollowType(e: InstEntry)
    requires e.SizesMatchType()
    ensures !(e.LoadSize() > 0 && e.StoreSize() > 0)
    ensures e.IsLoad() ==> e.LoadSize() > 0 && e.StoreSize() == 0
    ensures e.IsStore() ==> e.StoreSize() > 0 && e.LoadSize() == 0
  {
  }
}
