/**
  The slice of LLVM's machine-code layer that the branch-target aligner
  inspects: instruction opcodes, symbolic expressions, operands and
  instructions. Opcodes and fixup kinds are enumerations here; their numeric
  values in the generated instruction tables are not modelled.
 */
module MC {

  datatype Option<+T> = None | Some(value: T)

  /** The AArch64 opcodes the aligner names, the relocation fixup kinds it
      compares opcodes against, and every other opcode as `Other(id)`. */
  datatype Opcode =
    // branches and branch-register forms, plain and pointer-authenticated
    | B | Bcc | BR | BRAA | BRAAZ | BRAB | BRABZ
    // branch-and-link forms, plain and pointer-authenticated
    | BL | BLR | BLRAA | BLRAAZ | BLRAB | BLRABZ
    // compare-and-branch on zero / non-zero, 32- and 64-bit
    | CBZW | CBZX | CBNZW | CBNZX
    // conditional register compares and the generic compare pseudo-ops
    | CCMPWr | CCMPXr | G_FCMP | G_ICMP
    // test-bit-and-branch, 32- and 64-bit
    | TBZW | TBZX | TBNZW | TBNZX
    // returns and the supervisor call
    | RET | RETAA | RETAB | SVC
    // padding and page-address computation
    | NOP | ADRP
    // the AArch64 relocation fixup kinds
    | fixup_aarch64_add_imm12
    | fixup_aarch64_ldr_pcrel_imm19
    | fixup_aarch64_ldst_imm12_scale1
    | fixup_aarch64_ldst_imm12_scale16
    | fixup_aarch64_ldst_imm12_scale2
    | fixup_aarch64_ldst_imm12_scale4
    | fixup_aarch64_ldst_imm12_scale8
    | fixup_aarch64_movw
    | fixup_aarch64_pcrel_adr_imm21
    | fixup_aarch64_pcrel_adrp_imm21
    | fixup_aarch64_pcrel_branch14
    | fixup_aarch64_pcrel_branch19
    | fixup_aarch64_pcrel_branch26
    | fixup_aarch64_pcrel_call26
    | fixup_aarch64_tlsdesc_call
    // any opcode the aligner does not name
    | Other(id: nat)

  /** The kind tag of an `MCExpr`. */
  datatype ExprKind = Binary | Constant | SymbolRef | Unary | Target

  /** An `MCOperand`. Expression and instruction operands hold pointers that
      may be null, hence the `Option`. The floating-point value of an
      `FPImmOp` is never read and is not carried. */
  datatype Operand =
    | InvalidOp
    | RegOp(reg: nat)
    | ImmOp(imm: int)
    | FPImmOp
    | ExprOp(expr: Option<ExprKind>)
    | InstOp(inst: Option<MCInst>)

  /** An `MCInst`: an opcode and its ordered operands. */
  datatype MCInst = MCInst(opcode: Opcode, operands: seq<Operand>)

  /** The spelling of an opcode's enumerator, without the `AArch64::`
      namespace; the empty string for an unnamed opcode. */
  function Mnemonic(op: Opcode): string
  {
    match op
    case B => "B"
    case Bcc => "Bcc"
    case BR => "BR"
    case BRAA => "BRAA"
    case BRAAZ => "BRAAZ"
    case BRAB => "BRAB"
    case BRABZ => "BRABZ"
    case BL => "BL"
    case BLR => "BLR"
    case BLRAA => "BLRAA"
    case BLRAAZ => "BLRAAZ"
    case BLRAB => "BLRAB"
    case BLRABZ => "BLRABZ"
    case CBZW => "CBZW"
    case CBZX => "CBZX"
    case CBNZW => "CBNZW"
    case CBNZX => "CBNZX"
    case CCMPWr => "CCMPWr"
    case CCMPXr => "CCMPXr"
    case G_FCMP => "G_FCMP"
    case G_ICMP => "G_ICMP"
    case TBZW => "TBZW"
    case TBZX => "TBZX"
    case TBNZW => "TBNZW"
    case TBNZX => "TBNZX"
    case RET => "RET"
    case RETAA => "RETAA"
    case RETAB => "RETAB"
    case SVC => "SVC"
    case NOP => "NOP"
    case ADRP => "ADRP"
    case fixup_aarch64_add_imm12 => "fixup_aarch64_add_imm12"
    case fixup_aarch64_ldr_pcrel_imm19 => "fixup_aarch64_ldr_pcrel_imm19"
    case fixup_aarch64_ldst_imm12_scale1 => "fixup_aarch64_ldst_imm12_scale1"
    case fixup_aarch64_ldst_imm12_scale16 => "fixup_aarch64_ldst_imm12_scale16"
    case fixup_aarch64_ldst_imm12_scale2 => "fixup_aarch64_ldst_imm12_scale2"
    case fixup_aarch64_ldst_imm12_scale4 => "fixup_aarch64_ldst_imm12_scale4"
    case fixup_aarch64_ldst_imm12_scale8 => "fixup_aarch64_ldst_imm12_scale8"
    case fixup_aarch64_movw => "fixup_aarch64_movw"
    case fixup_aarch64_pcrel_adr_imm21 => "fixup_aarch64_pcrel_adr_imm21"
    case fixup_aarch64_pcrel_adrp_imm21 => "fixup_aarch64_pcrel_adrp_imm21"
    case fixup_aarch64_pcrel_branch14 => "fixup_aarch64_pcrel_branch14"
    case fixup_aarch64_pcrel_branch19 => "fixup_aarch64_pcrel_branch19"
    case fixup_aarch64_pcrel_branch26 => "fixup_aarch64_pcrel_branch26"
    case fixup_aarch64_pcrel_call26 => "fixup_aarch64_pcrel_call26"
    case fixup_aarch64_tlsdesc_call => "fixup_aarch64_tlsdesc_call"
    case Other(_) => ""
  }
}
