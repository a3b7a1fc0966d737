# Branch-target alignment on ThunderX2 T99, modelled in Dafny

This project models the AArch64 branch-target aligner of the ThunderX2 T99
toolchain, `lib/Target/AArch64/AArch64BranchTargetAligner.cpp`. The aligner
decides two things for the code emitter:

- whether an instruction's opcode is sensitive to code alignment on the CPU
  being compiled for (`needsSpecialAlignment`), and
- how many padding no-ops may be placed in front of an instruction
  (`getLoopIndexForNoOps`). The answer is always all or nothing: 0 or the
  cap of 15.

It also provides the no-op used as padding (`createNopInstruction`), the
fixup classifier the scanner consults (`isFixup`) and a debug name table
(`getOpcodeName`).

Files:

- `mc.dfy`, module `MC`: the machine-code values the aligner inspects.
  - `Opcode` has one constructor per opcode and per fixup kind the source
    names, plus `Other(id)` for every other opcode.
  - `ExprKind` holds the five `MCExpr` kinds.
  - `Operand` holds the six `MCOperand` kinds. A null `MCExpr*` or `MCInst*`
    is `None`.
  - `MCInst` is an opcode with its operand sequence.
- `aligner.dfy`, module `BranchTargetAligner`: the four operations.
  - The three classifiers are functions over `Opcode`. Each is proved to
    agree with an explicit constant set (`AlignmentSensitive`, `FixupKinds`,
    `BranchFamily`).
  - The padding-safety scanner is a method, `GetLoopIndexForNoOps`. Like the
    source, it walks the operands in a `while` loop, keeps a mutable
    `canAlign` flag and leaves early with `break`. It is proved equal to the
    declarative `NoOpBudget`: the cap when the opcode is not vetoed and every
    operand passes its per-kind check, 0 otherwise.
- `aligner_properties.dfy`, module `AlignerProperties`: lemmas about the
  classifiers and the budget. They cover the CPU gate, the fail-closed
  defaults, the name table, the order independence of the scan, and each
  operand kind that forbids padding.

The source runs two identical `switch` statements, one for immediate operands
(lines 235-250) and one for register operands (lines 258-273). Both list the
same nine opcodes, so the model uses a single predicate, `TakesJumpTarget`,
for both.

The two operand kinds that hold a pointer treat a null pointer differently:

- An expression operand whose pointer is null fails (line 218).
- An instruction operand whose pointer is null passes (line 228).

Since nothing in the loop can pass an operand and still leave `CanAlign`
false, the early exit gives the same answer as checking every operand.
`BudgetIndependentOfOrder` and `BudgetOfConcatenation` state the consequence.

The debug name table sits under `#ifndef _NDEBUG`. That macro differs from
the usual `NDEBUG`, so the table is compiled in ordinary builds as well. The
model includes it unconditionally.

## Model

| member | source | states |
|---|---|---|
| BranchTargetAligner.OpcodeName | lib/Target/AArch64/AArch64BranchTargetAligner.cpp:33-129 | for each alignment-sensitive opcode the name is `AArch64::` followed by the opcode's enumerator name; for every other opcode it is `<unknown>` |
| BranchTargetAligner.NeedsSpecialAlignment | lib/Target/AArch64/AArch64BranchTargetAligner.cpp:132-175 | true exactly when the CPU string equals `thunderx2t99` and the opcode is one of the 29 in `AlignmentSensitive` (both directions) |
| BranchTargetAligner.IsFixup | lib/Target/AArch64/AArch64BranchTargetAligner.cpp:177-200 | true exactly for the 15 fixup kinds in `FixupKinds` |
| BranchTargetAligner.TakesJumpTarget | lib/Target/AArch64/AArch64BranchTargetAligner.cpp:235-273 | true exactly for the nine opcodes in `BranchFamily` (B, Bcc, BL, BLR, BR, BLRAA, BLRAAZ, BLRAB, BLRABZ); the two switches on the immediate and register paths share this one rule |
| BranchTargetAligner.NoOpBudget | lib/Target/AArch64/AArch64BranchTargetAligner.cpp:202-283 | the budget is always 0 or 15, never an intermediate count |
| BranchTargetAligner.GetLoopIndexForNoOps | lib/Target/AArch64/AArch64BranchTargetAligner.cpp:202-284 | the left-to-right scan with its early `break` returns exactly the declarative budget, so the result is 0 or 15 |
| BranchTargetAligner.CreateNopInstruction | lib/Target/AArch64/AArch64BranchTargetAligner.cpp:286-290 | the padding instruction has opcode NOP and no operands, and its own budget is 0 |
| AlignerProperties.AlignmentSensitiveCount | lib/Target/AArch64/AArch64BranchTargetAligner.cpp:141-169 | the alignment-sensitive set has exactly 29 distinct opcodes |
| AlignerProperties.FixupKindsCount | lib/Target/AArch64/AArch64BranchTargetAligner.cpp:179-193 | the fixup set has exactly 15 distinct kinds |
| AlignerProperties.BranchFamilyIsAlignmentSensitive | lib/Target/AArch64/AArch64BranchTargetAligner.cpp:236-244 | the jump-target family has nine members, all of them alignment-sensitive |
| AlignerProperties.VetoedOpcodesNeverAligned | lib/Target/AArch64/AArch64BranchTargetAligner.cpp:137-174 | no fixup, NOP or ADRP needs special alignment, on any CPU |
| AlignerProperties.OnlyThunderX2T99NeedsAlignment | lib/Target/AArch64/AArch64BranchTargetAligner.cpp:134-135 | on any CPU other than `thunderx2t99`, no opcode needs special alignment |
| AlignerProperties.UnnamedOpcodeNeverAligned | lib/Target/AArch64/AArch64BranchTargetAligner.cpp:137-139 | an opcode outside the named ones never needs special alignment (fail-closed default) |
| AlignerProperties.OpcodeNameKnownIffAligned | lib/Target/AArch64/AArch64BranchTargetAligner.cpp:33-129 | the name table answers something other than `<unknown>` exactly for the opcodes that need special alignment on the T99 |
| AlignerProperties.VetoedNeverPadded | lib/Target/AArch64/AArch64BranchTargetAligner.cpp:206-207 | a fixup, NOP or ADRP instruction gets budget 0, whatever its operands |
| AlignerProperties.NoOperandsPaddedToCap | lib/Target/AArch64/AArch64BranchTargetAligner.cpp:209-210 | any other instruction without operands gets budget 15 |
| AlignerProperties.BudgetCapIffEveryOperandPasses | lib/Target/AArch64/AArch64BranchTargetAligner.cpp:212-283 | for a non-vetoed instruction the budget is 15 exactly when the operand at every position passes its check (both directions) |
| AlignerProperties.BudgetIndependentOfOrder | lib/Target/AArch64/AArch64BranchTargetAligner.cpp:215-281 | permuting the operands does not change the budget |
| AlignerProperties.BudgetOfConcatenation | lib/Target/AArch64/AArch64BranchTargetAligner.cpp:215-281 | an operand list split in two gets budget 15 exactly when each part alone does (both directions) |
| AlignerProperties.FPImmOperandForbidsPadding | lib/Target/AArch64/AArch64BranchTargetAligner.cpp:254-256 | one floating-point immediate operand anywhere makes the budget 0 |
| AlignerProperties.InvalidOperandForbidsPadding | lib/Target/AArch64/AArch64BranchTargetAligner.cpp:277-279 | one invalid operand anywhere makes the budget 0 |
| AlignerProperties.UnresolvedExpressionForbidsPadding | lib/Target/AArch64/AArch64BranchTargetAligner.cpp:216-225 | an expression operand that is null, a symbol reference or a target expression makes the budget 0 |
| AlignerProperties.NestedFixupForbidsPadding | lib/Target/AArch64/AArch64BranchTargetAligner.cpp:226-233 | an instruction operand whose opcode is a fixup makes the budget 0 |
| AlignerProperties.JumpTargetOperandForbidsPadding | lib/Target/AArch64/AArch64BranchTargetAligner.cpp:234-276 | on a jump-target branch, any immediate or register operand makes the budget 0 |
| AlignerProperties.ResolvableExpressionPadded | lib/Target/AArch64/AArch64BranchTargetAligner.cpp:216-221 | a non-vetoed instruction whose only operand is a binary, constant or unary expression gets budget 15 |
| AlignerProperties.AuthenticatedBranchRegisterPadded | lib/Target/AArch64/AArch64BranchTargetAligner.cpp:257-273 | BRAA, BRAAZ, BRAB and BRABZ need special alignment on the T99, yet with a register operand they get budget 15, because the register veto does not list them |
| AlignerProperties.NopPaddingIsInert | lib/Target/AArch64/AArch64BranchTargetAligner.cpp:286-290 | the padding no-op needs no special alignment on any CPU and gets budget 0 |

## Left out

- Opcode numbering: the numeric values of the opcodes and fixup kinds come from `AArch64GenInstrInfo.inc` and `AArch64FixupKinds.h`, which are not part of this model. Opcodes are enumeration constructors here.
- Opcode and fixup-kind collisions: the source compares `MCFixupKind` enumerators with instruction opcodes as plain unsigned numbers. In a real build a fixup kind's number could equal a real opcode's number. The model treats every fixup kind as an opcode distinct from all others.
- LLVM's `MCInst`, `MCOperand` and `MCExpr` classes: only the parts the aligner reads are modelled. That is the opcode, the operand list, the operand kind, the `MCExpr` kind and the nested instruction.
- Operand payloads: immediate values and register numbers are carried but never read. The `double` of a floating-point immediate is not carried, since the aligner tests only the operand's kind.
- `StringRef`: the CPU name is a plain `string`, compared exactly and case-sensitively.
- Placement and count of padding: that logic is in the code emitter, which only consumes these results.
- The unused includes (Statistic, MachineFunction, Debug, raw_ostream): they add no behaviour.
