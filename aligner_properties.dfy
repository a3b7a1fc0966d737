/**
  Properties of the branch-target aligner's classifiers and of its
  padding-safety scanner, stated over the declarative budget that the
  scanner's loop is proved to compute.
 */
module AlignerProperties {
  import opened MC
  import opened BranchTargetAligner

  // ---------------------------------------------------------------------
  // The opcode sets
  // ---------------------------------------------------------------------

  /** The alignment-sensitive set, by family: branches and calls,
      compares and compare-and-branches, bit tests, returns and SVC. */
  const BranchesAndCalls: set<Opcode> :=
    {B, Bcc, BR, BRAA, BRAAZ, BRAB, BRABZ, BL, BLR, BLRAA, BLRAAZ, BLRAB, BLRABZ}
  const Compares: set<Opcode> :=
    {CBZW, CBZX, CBNZW, CBNZX, CCMPWr, CCMPXr, G_FCMP, G_ICMP}
  const TestsReturnsAndCalls: set<Opcode> :=
    {TBZW, TBZX, TBNZW, TBNZX, RET, RETAA, RETAB, SVC}

  lemma FamilySizes()
    ensures |BranchesAndCalls| == 13 && |Compares| == 8 && |TestsReturnsAndCalls| == 8
  {
  }

  lemma FamiliesDisjoint()
    ensures BranchesAndCalls !! Compares
    ensures BranchesAndCalls !! TestsReturnsAndCalls
    ensures Compares !! TestsReturnsAndCalls
  {
  }

  /** The alignment-sensitive set has 29 distinct members. */
  lemma AlignmentSensitiveCount()
    ensures |AlignmentSensitive| == 29
  {
    FamilySizes();
    FamiliesDisjoint();
    var front := BranchesAndCalls + Compares;
    assert |front| == 21;
    assert front !! TestsReturnsAndCalls;
    assert |front + TestsReturnsAndCalls| == 29;
    assert AlignmentSensitive == front + TestsReturnsAndCalls;
  }

  /** The fixup set has 15 distinct members. */
  lemma FixupKindsCount()
    ensures |FixupKinds| == 15
  {
  }

  /** The nine opcodes whose immediate or register operand is a jump target
      are all alignment-sensitive. */
  lemma BranchFamilyIsAlignmentSensitive()
    ensures |BranchFamily| == 9
    ensures BranchFamily <= AlignmentSensitive
  {
  }

  /** No fixup, nor the no-op, nor ADRP needs special alignment. */
  lemma VetoedOpcodesNeverAligned(cpu: string, op: Opcode)
    requires Vetoed(op)
    ensures !NeedsSpecialAlignment(cpu, op)
  {
  }

  // ---------------------------------------------------------------------
  // Alignment classifier and the debug name table
  // ---------------------------------------------------------------------

  /** Any CPU other than the T99 gets no special alignment for any opcode. */
  lemma OnlyThunderX2T99NeedsAlignment(cpu: string, op: Opcode)
    requires cpu != ThunderX2T99
    ensures !NeedsSpecialAlignment(cpu, op)
  {
  }

  /** Fail-closed: an opcode the classifier does not name is never
      alignment-sensitive, on any CPU. */
  lemma UnnamedOpcodeNeverAligned(cpu: string, id: nat)
    ensures !NeedsSpecialAlignment(cpu, Other(id))
  {
  }

  /** The debug name table knows exactly the opcodes that need special
      alignment on the T99. */
  lemma OpcodeNameKnownIffAligned(op: Opcode)
    ensures OpcodeName(op) != UnknownName <==> NeedsSpecialAlignment(ThunderX2T99, op)
  {
  }

  // ---------------------------------------------------------------------
  // Padding-safety scanner
  // ---------------------------------------------------------------------

  /** A fixup, a no-op or ADRP is never padded, whatever its operands. */
  lemma VetoedNeverPadded(inst: MCInst)
    requires Vetoed(inst.opcode)
    ensures NoOpBudget(inst) == 0
  {
  }

  /** Any other instruction without operands may be padded up to the cap. */
  lemma NoOperandsPaddedToCap(inst: MCInst)
    requires !Vetoed(inst.opcode)
    requires inst.operands == []
    ensures NoOpBudget(inst) == MaxNoOps
  {
  }

  /** The budget is the cap exactly when every operand, position by
      position, passes its check. */
  lemma BudgetCapIffEveryOperandPasses(inst: MCInst)
    requires !Vetoed(inst.opcode)
    ensures NoOpBudget(inst) == MaxNoOps <==>
      forall i :: 0 <= i < |inst.operands| ==> OperandPasses(inst.opcode, inst.operands[i])
  {
  }

  /** Reordering the operands never changes the budget. */
  lemma BudgetIndependentOfOrder(op: Opcode, xs: seq<Operand>, ys: seq<Operand>)
    requires multiset(xs) == multiset(ys)
    ensures NoOpBudget(MCInst(op, xs)) == NoOpBudget(MCInst(op, ys))
  {
    forall operand
      ensures operand in xs <==> operand in ys
    {
      assert operand in xs <==> operand in multiset(xs);
      assert operand in ys <==> operand in multiset(ys);
    }
  }

  /** An instruction whose operands are split in two may be padded exactly
      when each half alone could be. */
  lemma BudgetOfConcatenation(op: Opcode, xs: seq<Operand>, ys: seq<Operand>)
    ensures NoOpBudget(MCInst(op, xs + ys)) == MaxNoOps <==>
      NoOpBudget(MCInst(op, xs)) == MaxNoOps && NoOpBudget(MCInst(op, ys)) == MaxNoOps
  {
  }

  /** One floating-point immediate operand forbids padding. */
  lemma FPImmOperandForbidsPadding(inst: MCInst)
    requires FPImmOp in inst.operands
    ensures NoOpBudget(inst) == 0
  {
  }

  /** One invalid operand forbids padding. */
  lemma InvalidOperandForbidsPadding(inst: MCInst)
    requires InvalidOp in inst.operands
    ensures NoOpBudget(inst) == 0
  {
  }

  /** An expression operand that is a symbol reference, a target-specific
      expression or a null pointer forbids padding. */
  lemma UnresolvedExpressionForbidsPadding(inst: MCInst, k: nat)
    requires k < |inst.operands|
    requires inst.operands[k] in {ExprOp(None), ExprOp(Some(SymbolRef)), ExprOp(Some(Target))}
    ensures NoOpBudget(inst) == 0
  {
    assert inst.operands[k] in inst.operands;
  }

  /** An operand that is an instruction still carrying a fixup opcode
      forbids padding. */
  lemma NestedFixupForbidsPadding(inst: MCInst, k: nat)
    requires k < |inst.operands|
    requires inst.operands[k].InstOp? && inst.operands[k].inst.Some?
    requires IsFixup(inst.operands[k].inst.value.opcode)
    ensures NoOpBudget(inst) == 0
  {
    assert inst.operands[k] in inst.operands;
  }

  /** On a branch whose immediate or register operand is its target, any
      immediate or register operand forbids padding. */
  lemma JumpTargetOperandForbidsPadding(inst: MCInst, k: nat)
    requires TakesJumpTarget(inst.opcode)
    requires k < |inst.operands|
    requires inst.operands[k].ImmOp? || inst.operands[k].RegOp?
    ensures NoOpBudget(inst) == 0
  {
    assert inst.operands[k] in inst.operands;
  }

  /** A non-branch instruction whose only operand is a binary, constant or
      unary expression may be padded up to the cap. */
  lemma ResolvableExpressionPadded(op: Opcode, kind: ExprKind)
    requires !Vetoed(op)
    requires kind == Binary || kind == Constant || kind == Unary
    ensures NoOpBudget(MCInst(op, [ExprOp(Some(kind))])) == MaxNoOps
  {
  }

  /** The pointer-authenticated branch-register forms BRAA, BRAAZ, BRAB and
      BRABZ are alignment-sensitive but are not in the jump-target family:
      a register operand does not stop them from being padded. */
  lemma AuthenticatedBranchRegisterPadded(op: Opcode, reg: nat)
    requires op in {BRAA, BRAAZ, BRAB, BRABZ}
    ensures NeedsSpecialAlignment(ThunderX2T99, op)
    ensures NoOpBudget(MCInst(op, [RegOp(reg)])) == MaxNoOps
  {
  }

  /** The padding no-op is not alignment-sensitive on any CPU and is never
      padded itself. */
  lemma NopPaddingIsInert(cpu: string)
    ensures !NeedsSpecialAlignment(cpu, CreateNopInstruction().opcode)
    ensures NoOpBudget(CreateNopInstruction()) == 0
  {
  }
}
