/**
  Branch-target alignment on the ThunderX2 T99 core: which opcodes are
  sensitive to code alignment on that CPU, which opcodes are relocation
  fixups, how many padding no-ops may be placed before an instruction
  (none, or up to a fixed cap), and the no-op used as padding.
 */
module BranchTargetAligner {
  import opened MC

  /** The only CPU for which any opcode needs special alignment. */
  const ThunderX2T99: string := "thunderx2t99"

  /** The largest number of padding no-ops the scanner ever allows. */
  const MaxNoOps: nat := 15

  /** What the debug name table answers for an opcode it does not list. */
  const UnknownName: string := "<unknown>"

  /** The namespace prefix of every name the debug name table lists. */
  const NamePrefix: string := "AArch64::"

  /** The branch, compare, test, return and supervisor-call opcodes that are
      alignment-sensitive on the T99. */
  const AlignmentSensitive: set<Opcode> := {
    B, Bcc, BR, BRAA, BRAAZ, BRAB, BRABZ,
    BL, BLR, BLRAA, BLRAAZ, BLRAB, BLRABZ,
    CBZW, CBZX, CBNZW, CBNZX,
    CCMPWr, CCMPXr, G_FCMP, G_ICMP,
    TBZW, TBZX, TBNZW, TBNZX,
    RET, RETAA, RETAB, SVC
  }

  /** The relocation fixup kinds that veto padding. */
  const FixupKinds: set<Opcode> := {
    fixup_aarch64_add_imm12, fixup_aarch64_ldr_pcrel_imm19,
    fixup_aarch64_ldst_imm12_scale1, fixup_aarch64_ldst_imm12_scale16,
    fixup_aarch64_ldst_imm12_scale2, fixup_aarch64_ldst_imm12_scale4,
    fixup_aarch64_ldst_imm12_scale8, fixup_aarch64_movw,
    fixup_aarch64_pcrel_adr_imm21, fixup_aarch64_pcrel_adrp_imm21,
    fixup_aarch64_pcrel_branch14, fixup_aarch64_pcrel_branch19,
    fixup_aarch64_pcrel_branch26, fixup_aarch64_pcrel_call26,
    fixup_aarch64_tlsdesc_call
  }

  /** The opcodes whose immediate or register operand is a jump target. */
  const BranchFamily: set<Opcode> := {
    B, Bcc, BL, BLR, BR, BLRAA, BLRAAZ, BLRAB, BLRABZ
  }

  // ---------------------------------------------------------------------
  // Classifiers
  // ---------------------------------------------------------------------

  /** The debug name of an opcode: its qualified enumerator name for the
      alignment-sensitive opcodes, `<unknown>` for every other one. */
  function OpcodeName(op: Opcode): (name: string)
    ensures op in AlignmentSensitive ==> name == NamePrefix + Mnemonic(op)
    ensures op !in AlignmentSensitive ==> name == UnknownName
  {
    match op
    case B => "AArch64::B"
    case Bcc => "AArch64::Bcc"
    case BR => "AArch64::BR"
    case BRAA => "AArch64::BRAA"
    case BRAAZ => "AArch64::BRAAZ"
    case BRAB => "AArch64::BRAB"
    case BRABZ => "AArch64::BRABZ"
    case BL => "AArch64::BL"
    case BLR => "AArch64::BLR"
    case BLRAA => "AArch64::BLRAA"
    case BLRAAZ => "AArch64::BLRAAZ"
    case BLRAB => "AArch64::BLRAB"
    case BLRABZ => "AArch64::BLRABZ"
    case CBZW => "AArch64::CBZW"
    case CBZX => "AArch64::CBZX"
    case CBNZW => "AArch64::CBNZW"
    case CBNZX => "AArch64::CBNZX"
    case CCMPWr => "AArch64::CCMPWr"
    case CCMPXr => "AArch64::CCMPXr"
    case G_FCMP => "AArch64::G_FCMP"
    case G_ICMP => "AArch64::G_ICMP"
    case TBZW => "AArch64::TBZW"
    case TBZX => "AArch64::TBZX"
    case TBNZW => "AArch64::TBNZW"
    case TBNZX => "AArch64::TBNZX"
    case RET => "AArch64::RET"
    case RETAA => "AArch64::RETAA"
    case RETAB => "AArch64::RETAB"
    case SVC => "AArch64::SVC"
    case _ => UnknownName
  }

  /** Whether `op` needs special alignment on `cpu`: never unless the CPU is
      exactly the T99, and then exactly for the alignment-sensitive set. */
  function NeedsSpecialAlignment(cpu: string, op: Opcode): (r: bool)
    ensures r <==> cpu == ThunderX2T99 && op in AlignmentSensitive
  {
    if cpu != ThunderX2T99 then false
    else
      match op
      case B | Bcc | BR | BRAA | BRAAZ | BRAB | BRABZ => true
      case BL | BLR | BLRAA | BLRAAZ | BLRAB | BLRABZ => true
      case CBZW | CBZX | CBNZW | CBNZX => true
      case CCMPWr | CCMPXr | G_FCMP | G_ICMP => true
      case TBZW | TBZX | TBNZW | TBNZX => true
      case RET | RETAA | RETAB | SVC => true
      case _ => false
  }

  /** Whether `op` is one of the fifteen relocation fixup kinds. */
  function IsFixup(op: Opcode): (r: bool)
    ensures r <==> op in FixupKinds
  {
    match op
    case fixup_aarch64_add_imm12 | fixup_aarch64_ldr_pcrel_imm19 => true
    case fixup_aarch64_ldst_imm12_scale1 | fixup_aarch64_ldst_imm12_scale16 => true
    case fixup_aarch64_ldst_imm12_scale2 | fixup_aarch64_ldst_imm12_scale4 => true
    case fixup_aarch64_ldst_imm12_scale8 | fixup_aarch64_movw => true
    case fixup_aarch64_pcrel_adr_imm21 | fixup_aarch64_pcrel_adrp_imm21 => true
    case fixup_aarch64_pcrel_branch14 | fixup_aarch64_pcrel_branch19 => true
    case fixup_aarch64_pcrel_branch26 | fixup_aarch64_pcrel_call26 => true
    case fixup_aarch64_tlsdesc_call => true
    case _ => false
  }

  /** Whether an immediate or register operand of `op` names a jump target;
      the scanner applies this one rule to both operand kinds. */
  function TakesJumpTarget(op: Opcode): (r: bool)
    ensures r <==> op in BranchFamily
  {
    match op
    case B | Bcc | BL | BLR | BR => true
    case BLRAA | BLRAAZ | BLRAB | BLRABZ => true
    case _ => false
  }

  // ---------------------------------------------------------------------
  // Padding-safety scanner: declarative specification
  // ---------------------------------------------------------------------

  /** Opcodes never padded, whatever their operands: the fixups, the no-op
      itself and ADRP. */
  predicate Vetoed(op: Opcode)
  {
    IsFixup(op) || op == NOP || op == ADRP
  }

  /** The per-kind check one operand of an instruction with opcode `op` must
      pass for the instruction to be padded. */
  predicate OperandPasses(op: Opcode, operand: Operand)
  {
    match operand
    case ExprOp(e) => e.Some? && (e.value == Binary || e.value == Constant || e.value == Unary)
    case InstOp(nested) => nested.None? || !IsFixup(nested.value.opcode)
    case ImmOp(_) => !TakesJumpTarget(op)
    case FPImmOp => false
    case RegOp(_) => !TakesJumpTarget(op)
    case InvalidOp => false
  }

  /** Every operand passes its check (order plays no part). */
  predicate AllOperandsPass(op: Opcode, operands: seq<Operand>)
  {
    forall operand | operand in operands :: OperandPasses(op, operand)
  }

  /** How many padding no-ops may precede `inst`: the cap when it is not
      vetoed and every operand passes, 0 otherwise. */
  function NoOpBudget(inst: MCInst): (n: nat)
    ensures n == 0 || n == MaxNoOps
  {
    if !Vetoed(inst.opcode) && AllOperandsPass(inst.opcode, inst.operands) then MaxNoOps else 0
  }

  // ---------------------------------------------------------------------
  // Padding-safety scanner: the operand loop
  // ---------------------------------------------------------------------

  /** Scans the operands left to right and stops at the first one that
      fails; the answer equals the declarative budget. */
  method GetLoopIndexForNoOps(inst: MCInst) returns (r: nat)
    ensures r == NoOpBudget(inst)
    ensures r == 0 || r == MaxNoOps
  {
    var opcode := inst.opcode;
    var numOperands := |inst.operands|;

    if IsFixup(opcode) || opcode == NOP || opcode == ADRP {
      return 0;
    }

    if numOperands == 0 {
      return MaxNoOps;
    }

    var canAlign := false;
    var i := 0;
    while i < numOperands
      invariant 0 <= i <= numOperands
      invariant canAlign <==> i > 0
      invariant forall j :: 0 <= j < i ==> OperandPasses(opcode, inst.operands[j])
    {
      var operand := inst.operands[i];
      if operand.ExprOp? {
        var e := operand.expr;
        if e.Some? && (e.value == Binary || e.value == Constant || e.value == Unary) {
          canAlign := true;
        } else {
          canAlign := false;
          break;
        }
      } else if operand.InstOp? {
        var nested := operand.inst;
        if nested.Some? && IsFixup(nested.value.opcode) {
          canAlign := false;
          break;
        } else {
          canAlign := true;
        }
      } else if operand.ImmOp? {
        canAlign := !TakesJumpTarget(opcode);
        if !canAlign {
          break;
        }
      } else if operand.FPImmOp? {
        canAlign := false;
        break;
      } else if operand.RegOp? {
        canAlign := !TakesJumpTarget(opcode);
        if !canAlign {
          break;
        }
      } else if operand.InvalidOp? {
        canAlign := false;
        break;
      }
      i := i + 1;
    }

    if canAlign {
      assert i == numOperands;
      forall operand | operand in inst.operands
        ensures OperandPasses(opcode, operand)
      {
        var j :| 0 <= j < |inst.operands| && inst.operands[j] == operand;
      }
      r := MaxNoOps;
    } else {
      assert !OperandPasses(opcode, inst.operands[i]);
      r := 0;
    }
  }

  // ---------------------------------------------------------------------
  // Padding instruction factory
  // ---------------------------------------------------------------------

  /** A fresh no-op with no operands, the instruction used as padding; it is
      never itself a place to pad. */
  function CreateNopInstruction(): (inst: MCInst)
    ensures inst.opcode == NOP && inst.operands == []
    ensures NoOpBudget(inst) == 0
  {
    MCInst(NOP, [])
  }
}
