# Blub: a line-numbered assembly program store and its register machine

Blub is a toy assembly language. `blub.py` reads a program file line by line into
`Instruction` records (label, mnemonic, branch condition, up to three operands), keeps
them in a dictionary from line numbers 1..n, and keeps an index from label names to
line numbers. Lines can be read, inserted with the lines below shifted down, and deleted
with the lines below shifted up. `blubvm.py` runs such a program on a machine with 32
signed 32-bit registers and the flags n, z, c and v. It knows seven operations (`cmpi`,
`b`, `andi`, `add`, `lsri`, `movi`, `prnt`), each guarded by the operand validator of its
arity group. Operations can be registered at run time; the unregistering method never
removes one (see below).

The project has three modules:

- `Wrappers` (wrappers.dfy): `Result` and `Outcome`.
- `Blub` (blub.dfy): the line parser as functions over strings. The store is the class
  `Program`, whose fields `program`, `aKey` and `labelLocator` are those of the source.
  Its methods update them in place, with the source's own shifting loops.
- `BlubVM` (blubvm.dfy): the flags, the conditions and the validators, plus each
  operation as a function on a machine state `MState`. `Run` is the interpreter as a
  function: `Run` tests the loop condition and `RunLine` runs one pass of the body.
  The class `Machine` holds the register `array` and the fields the source updates.
  Its methods are each proved against the matching function, and `Machine.Interpret`
  against `Run`.

Points where the model follows the code rather than its comments:

- A run of `interpret` never changes the lines, the label index or the operation table.
  So the model decodes each line up front (`Decode`/`DecodeAll`) and `Run` steps through
  the decoded lines. `Machine.Interpret` is proved equal to that run.
- `lsri` uses Python's `>>`, which is an arithmetic shift: the sign is kept and the result
  rounds toward minus infinity. The docstring calls it a logical shift. The model follows
  the code (`ShiftRight`, `ShiftRightDivides`).
- On equality, `cmpi` sets z and leaves n at its old value. Every condition is still
  decided correctly (`CmpiConditions`), because each condition tests z before (or
  together with) n.
- The test in the machine's `__delitem__` is inverted. A registered name is kept, and an
  unregistered one raises KeyError (`Unregistered`).
- Deleting the last line of a program removes it, and the second `del` then raises
  KeyError. `aKey` is already decremented at that point, and the label index is left
  as it was (`Program.Delete`).
- With a line number below 1, `__setitem__` runs its shifting loop until it reads the
  missing line 0. It then raises KeyError, leaving line 1 written twice and `aKey` stale
  (`Program.ShiftDown`, `Program.Insert`).
- Python exceptions and `exit` calls become the `Fault` values a run stops with.
  Writes to the `'i'` array check the index first, then the 32-bit range; these become
  IndexError, TypeError and OverflowError. A call with the wrong number of arguments
  becomes TypeError, and an unknown condition name becomes KeyError.

## Model

| member | source | states |
|---|---|---|
| Blub.Split | blub.py:101 | `str.split`: at least one piece, and no piece contains the separator |
| Blub.SplitJoin | blub.py:101 | joining the pieces of a split with the separator gives back the line |
| Blub.Tokens | blub.py:104-106 | the words between spaces, with empty words dropped: each is non-empty and space-free |
| Blub.TokensAppend | blub.py:104-106 | splitting at a space distributes over the two sides |
| Blub.Strip | blub.py:111 | `str.strip`: the result is a slice of the string with only whitespace outside it, and it has no whitespace at either end; this fixes it uniquely |
| Blub.DropSeparators | blub.py:115 | `re.sub('[\s,]', '', …)`: no whitespace or comma is left, and a string without them is kept |
| Blub.DropSeparatorsChar | blub.py:115 | a single character is deleted iff it is whitespace or a comma |
| Blub.DropSeparatorsAppend | blub.py:115 | deletion distributes over concatenation; with DropSeparatorsChar this determines the result of every string |
| Blub.SplitMnemonic | blub.py:119-122 | a mnemonic starting with `b` is split into "b" and its condition; any other mnemonic is kept whole with an empty condition; the two parts concatenate back to the mnemonic |
| Blub.ParseFields | blub.py:104-128 | a line body parses iff it has at least two words and a non-blank first word; the fields are the label, the split mnemonic, and words 2–4 with separators removed (empty when missing) |
| Blub.ParseLine | blub.py:101-128 | a parsed line has a colon-free, trimmed label, a non-empty mnemonic and a separator-free op1 |
| Blub.ParseLineWithoutColon | blub.py:101-106 | a line without a colon parses as an unlabelled body |
| Blub.ParseLineWithLabel | blub.py:101-118 | text before the first colon is the stripped label; anything after a second colon is ignored |
| Blub.ExtraTokensIgnored | blub.py:123-128 | words after the fourth do not change the parsed instruction |
| Blub.Render | blub.py:52-60 | `Instruction.__str__`: the rendering of a printable instruction contains a colon iff the instruction is labelled |
| Blub.RenderRoundTrip | blub.py:52-60 | parsing the `__str__` rendering of any printable instruction gives the instruction back |
| Blub.LabelIndex | blub.py:136 | every index entry names a non-empty label and a line in range |
| Blub.LabelIndexSound | blub.py:136 | each label in the index points at a line carrying that label |
| Blub.LabelIndexLast | blub.py:136 | each label points at its last occurrence, since later duplicates overwrite earlier ones |
| Blub.LabelIndexComplete | blub.py:136 | every labelled line's label is in the index |
| Blub.InsertLine | blub.py:198-228 | inserting at lineNum <= n puts the line there, with the lines before unchanged and the rest one lower; past the end, it appends |
| Blub.ShiftLabels | blub.py:211 | the renumbering step of an insertion within the program: the same names, with entries at or after lineNum one line lower; that the index stays consistent and complete through it is `InsertKeepsConsistent` and `InsertKeepsComplete` |
| Blub.RelabelAfterInsert | blub.py:211-225 | the index after an insertion: a labelled new line is indexed at lineNum, or at n+1 past the end; every other entry moves one down iff it was at or after an in-range lineNum; no other name is added |
| Blub.InsertKeepsConsistent | blub.py:211-225 | after an insertion, with the index renumbered, every entry still points at a line with its label |
| Blub.InsertKeepsComplete | blub.py:211-225 | after an insertion, every labelled line's label is still indexed |
| Blub.Duplicated | blub.py:202-205 | the shift's result: one line longer, with the line at lineNum written twice |
| Blub.RelabelAfterDelete | blub.py:254-255 | the index after deleting a line: exactly the names not on that line remain, and those after it move up one |
| Blub.DeleteLine | blub.py:240-251 | the lines before lineNum are kept, and those after it move up one |
| Blub.DeleteKeepsConsistent | blub.py:254-255 | dropping the deleted line's entries and renumbering later ones keeps every entry pointing at its label |
| Blub.DeleteKeepsComplete | blub.py:254-255 | if the deleted line is unlabelled, or its label appears on no other line, every remaining labelled line stays indexed |
| Blub.Program.Empty | blub.py:87-90 | the empty store: no lines, aKey 1, empty index |
| Blub.Program.Load | blub.py:74-136 | loading succeeds iff every line parses; line i+1 is line i's parse; aKey is len+1; the index is `LabelIndex` of the lines |
| Blub.Program.Get | blub.py:159-166 | KeyError iff the key is missing; on a store with lines 1..n, found iff 1 <= lineNum <= n, and it is line lineNum |
| Blub.Program.GetAddress | blub.py:170-177 | a label is found iff indexed, else KeyError; in a valid store the line found carries that label |
| Blub.Program.Length | blub.py:181-187 | on a store with lines 1..n, it is n, which is aKey - 1 |
| Blub.Program.ShiftDown | blub.py:202-205 | for lineNum >= 1, the store ends with lines 1..n+1 and line lineNum doubled; below 1, KeyError after doubling line 1 (nothing on an empty store) |
| Blub.Program.ShiftUp | blub.py:246-251 | after the loop, dropping the last key leaves lines 1..n-1, which are `DeleteLine` of the old lines |
| Blub.Program.Insert | blub.py:191-228 | on a store with lines 1..n, it succeeds iff lineNum >= 1, and a valid store stays valid; the lines become `InsertLine` and the index is renumbered; below 1 it raises KeyError in the partly shifted state |
| Blub.Program.InsertWithin | blub.py:198-228 | the shift-then-write branch: `InsertLine` inside the program, or the KeyError of ShiftDown |
| Blub.Program.Append | blub.py:219-228 | the line is appended and its label is indexed at n+1; a valid store stays valid |
| Blub.Program.Delete | blub.py:232-255 | on a store with lines 1..n, success iff 1 <= lineNum < n, giving `DeleteLine` with the index renumbered (a valid store stays valid); a missing key is KeyError with nothing changed; the last line is removed and then KeyError |
| BlubVM.Compare | blubvm.py:128-142 | z iff the values are equal; n iff valr < val when they differ, and unchanged when equal; c and v untouched |
| BlubVM.Gt | blubvm.py:50-51 | `gt`: neither n nor z is set |
| BlubVM.Ge | blubvm.py:53-54 | `ge`: z is set or n is clear |
| BlubVM.Eq | blubvm.py:56-57 | `eq`: z is set |
| BlubVM.Ne | blubvm.py:59-60 | `ne`: z is clear |
| BlubVM.Le | blubvm.py:62-63 | `le`: z or n is set |
| BlubVM.Lt | blubvm.py:65-66 | `lt`: n is set and z is clear |
| BlubVM.Holds | blubvm.py:69 | the `conditions` table: each of the six names selects its test; what the tests mean is `CompareConditions` and `ConditionPairs` |
| BlubVM.CompareConditions | blubvm.py:50-69 | after a comparison each of gt, ge, eq, ne, le, lt holds iff that relation holds between the values |
| BlubVM.ConditionPairs | blubvm.py:50-69 | under any flags lt is the negation of ge, le of gt and ne of eq |
| BlubVM.CmpiConditions | blubvm.py:112-142 | `cmpi` on a valid register never fails, changes only n and z, and sets every condition to the comparison's truth |
| BlubVM.Convert | blubvm.py:332-333 | `int(tok.replace('r', ''))`: a register token gives its number, and a digit string gives its value |
| BlubVM.DropRRegister | blubvm.py:355-356 | removing every `r` from a register token leaves its digits |
| BlubVM.DecimalValue | blubvm.py:355-356 | the digits of a number convert back to that number |
| BlubVM.RegisterToken | blubvm.py:347-356 | `r` followed by the digits of K passes the register check and converts to K |
| BlubVM.AndBounds | blubvm.py:183 | `x & m` with m >= 0 lies in 0..m |
| BlubVM.AndLowBits | blubvm.py:183 | `x & (2^k - 1)` is x mod 2^k, negative x included (two's complement) |
| BlubVM.ShiftRightRange | blubvm.py:229 | `>>` keeps the sign and moves toward zero, so an int32 stays an int32 |
| BlubVM.ShiftRightDivides | blubvm.py:229 | `x >> s` is the floor of x / 2^s |
| BlubVM.Index | blubvm.py:46 | an index is valid iff it is a register number below 32 |
| BlubVM.Read | blubvm.py:122 | reading succeeds iff the index is valid, and returns that register |
| BlubVM.Store | blubvm.py:186 | a store succeeds iff the index is valid and the value fits in 32 bits; otherwise it raises OverflowError for a valid index; it writes that one register |
| BlubVM.ExecCmpi | blubvm.py:112-142 | `cmpi` succeeds iff reg is a register and val a number, and then changes only the flags, to `Compare` of them; otherwise the read's fault or TypeError |
| BlubVM.Taken | blubvm.py:158 | a branch is taken iff it has no condition or the named condition holds; an unknown condition is KeyError |
| BlubVM.ExecB | blubvm.py:147-164 | `b` succeeds iff its condition is empty or known and, when taken, the label is indexed; it changes only pc, to the label's line minus one when taken; every fault is KeyError |
| BlubVM.ExecAndi | blubvm.py:169-186 | `andi` succeeds iff it has three arguments, reg and retReg are registers, val is a number and the conjunction fits an int32; it then writes only retReg; otherwise the first fault in the source's order |
| BlubVM.ExecAdd | blubvm.py:191-209 | `add` succeeds iff it has three arguments, all registers, and the sum fits an int32; it then writes only retReg; otherwise the first fault in the source's order |
| BlubVM.ExecLsri | blubvm.py:214-232 | `lsri` succeeds iff it has three arguments, reg and retReg are registers, val is a number and the shift fits an int32; it then writes only retReg; otherwise the first fault in the source's order |
| BlubVM.ExecMovi | blubvm.py:237-247 | `movi` succeeds iff retReg is a register and val a number that fits an int32; it then writes only that register; otherwise the index fault, TypeError or OverflowError, in that order |
| BlubVM.ExecPrnt | blubvm.py:252-261 | `prnt` succeeds iff retReg is a register, and then only appends that register's value to the output; otherwise the index fault |
| BlubVM.Exec | blubvm.py:112-261 | a call keeps 32 registers and only appends to the output |
| BlubVM.ExecFootprint | blubvm.py:112-261 | what each operation may change: cmpi only n and z, b only pc, prnt only the output, the others one register |
| BlubVM.StoredValue | blubvm.py:169-247 | the value movi, add, andi and lsri write: val, the sum, the bitwise and, the shift |
| BlubVM.LogicalOpsFit | blubvm.py:169-232 | `lsri`, and `andi` with a mask below 2^31, never overflow the register |
| BlubVM.Ops1Check | blubvm.py:314-338 | a one-operand line is accepted iff it has no op2 and (for b) a known label and an empty or known condition, or (for others) no condition and a register; the converted arguments; otherwise the error names the operation |
| BlubVM.Ops2Check | blubvm.py:341-359 | accepted iff there is no op3, op1 is a register, and op2 is a number for an immediate operation or a register otherwise; the converted arguments |
| BlubVM.Ops3Check | blubvm.py:362-383 | accepted iff op1 and op2 are registers, and op3 is a number for an immediate operation or a register otherwise; the converted arguments |
| BlubVM.Group | blubvm.py:403-419 | the validator chosen is ops1, else ops2, else ops3 |
| BlubVM.Registered | blubvm.py:273-292 | an arity outside 1..3 fails; otherwise the name maps to the operation and joins exactly that arity's set |
| BlubVM.RegisterDispatch | blubvm.py:284-292 | after registration the name dispatches to the operation, through the first group it belongs to; well-formedness is kept |
| BlubVM.Unregistered | blubvm.py:300-309 | the inverted test: a registered name is kept, and any other raises KeyError |
| BlubVM.BaseTableWellFormed | blubvm.py:75 | the built-in table is well formed: b and prnt take one operand, movi and cmpi two, the rest three |
| BlubVM.Decode | blubvm.py:396-419 | a line with no mnemonic, no op1 or an unknown mnemonic is malformed; a decoded line calls the operation registered under its mnemonic |
| BlubVM.DecodeAllAt | blubvm.py:391-396 | entry i of the decoded program is line i+1 decoded |
| BlubVM.DecodePrnt | blubvm.py:321-337 | with the built-in table, a `prnt` line decodes iff op1 is a register and there is no op2 and no condition; the call carries the register number |
| BlubVM.DecodeTwoOperands | blubvm.py:346-358 | with the built-in table, a `movi` or `cmpi` line decodes iff op1 is a register, op2 is digits and there is no op3; the call carries the register number and the value |
| BlubVM.DecodeThreeOperands | blubvm.py:368-382 | with the built-in table, an `add`, `andi` or `lsri` line decodes iff op1 and op2 are registers and op3 is a register for `add` and digits otherwise; the call carries the three numbers |
| BlubVM.DecodeBranch | blubvm.py:321-337 | a `b` line decodes iff it has no op2, a known label, and an empty or known condition |
| BlubVM.Step | blubvm.py:391-422 | a step keeps 32 registers and only appends to the output |
| BlubVM.StepBranch | blubvm.py:157-164 | a taken branch continues at the label's line; otherwise it is the next line |
| BlubVM.StepAdvances | blubvm.py:421-422 | a successful step ran a decoded line, and anything other than b moves to the next line |
| BlubVM.Run | blubvm.py:388-427 | the run halts iff pc passes the last line; the output only grows |
| BlubVM.RunLine | blubvm.py:391-427 | one pass of the loop body, with pc on a line and fuel left: the run from there halts iff pc passes the last line; the output only grows |
| BlubVM.RunInt32 | blubvm.py:46 | every register stays a 32-bit value throughout a run |
| BlubVM.RunAppendFuel | blubvm.py:391-422 | running f1 + f2 steps is running f1 steps, then f2 more if they were not enough |
| BlubVM.RunMoreFuel | blubvm.py:391-422 | once a run has stopped, more fuel gives the same result |
| BlubVM.Machine.constructor | blubvm.py:79-101 | the fresh machine: zero registers and flags, pc 1, the built-in table |
| BlubVM.Machine.Write | blubvm.py:186 | the register array becomes `Store` of the old registers, or stays as it was with Store's error |
| BlubVM.Machine.Cmpi | blubvm.py:112-142 | the new state is `ExecCmpi` of the old one, or unchanged with its error |
| BlubVM.Machine.B | blubvm.py:147-164 | the new state is `ExecB` of the old one, or unchanged with its error |
| BlubVM.Machine.Andi | blubvm.py:169-186 | the new state is `ExecAndi` of the old one, or unchanged with its error |
| BlubVM.Machine.Add | blubvm.py:191-209 | the new state is `ExecAdd` of the old one, or unchanged with its error |
| BlubVM.Machine.Lsri | blubvm.py:214-232 | the new state is `ExecLsri` of the old one, or unchanged with its error |
| BlubVM.Machine.Movi | blubvm.py:237-247 | the new state is `ExecMovi` of the old one, or unchanged with its error |
| BlubVM.Machine.Prnt | blubvm.py:252-261 | the new state is `ExecPrnt` of the old one (the value appended to the output), or unchanged with its error |
| BlubVM.Machine.Invoke | blubvm.py:403-419 | calling an operation changes the state as `Exec` does |
| BlubVM.Machine.DecodeLine | blubvm.py:396-419 | the line's checks, validator choice and conversion agree with `Decode` under the machine's table |
| BlubVM.Machine.ExecuteLine | blubvm.py:392-427 | one pass of the loop: the rest of the run is the run from the new state, or the run stops with this line's fault |
| BlubVM.Machine.Interpret | blubvm.py:388-427 | the final state and the reason for stopping are those of `Run` on the decoded program from the initial state |
| BlubVM.Machine.Register | blubvm.py:273-292 | the table becomes `Registered` of the old one, or stays with its error; the machine state is unchanged |
| BlubVM.Machine.Unregister | blubvm.py:300-309 | the table is never changed; KeyError for a name that is not registered |

## Left out

- Reading the program file (blub.py:83, 93) is left out. `Program.Load` takes the file's lines as strings.
- `Program.__str__` (blub.py:143-155), which numbers the rendered lines into one listing, is left out; the per-line `Instruction.__str__` it uses is modelled as `Render`.
- The `__main__` blocks (blub.py:262-268, blubvm.py:432-443) are left out.
- `print` in `prnt` (blubvm.py:261) is modelled by appending to an output sequence. The text written to stdout is not modelled.
- `exit(...)` (blubvm.py:286, 325, 350, 373, 427) becomes a `Fault` that ends the run. The message text, and ending the Python process, are not modelled.
- The machine calls arbitrary Python functions. Operations here are the closed `Op` datatype of the seven built-ins, each with its `__name__` (`OpName`). A user function registered with `__setitem__` can only be one of these seven.
- `registers`, `Ops` and `operators` are class attributes in the source, so all machines share them (blubvm.py:46, 75, 266). In the model each `Machine` owns its own copies, so sharing between machines is not modelled.
- Digits are `0`..`9` only. Python's `isdigit` also accepts other Unicode digits, some of which `int` then rejects.
- BlubVM.Machine.Interpret: takes a `fuel` bound on the number of lines executed and may stop with `OutOfFuel`. A source run that never halts is therefore described only up to each finite bound (`RunAppendFuel`, `RunMoreFuel`).
- Blub.Program.Insert, Blub.Program.Delete: require a store whose lines are exactly 1..aKey-1. An insertion that raised KeyError below line 1 leaves keys 1..aKey, and later edits of such a store are not modelled. A store whose label index has gone stale (after the last line was deleted) is covered, but the index is then only renumbered, not proved consistent.
- BlubVM.Machine.constructor: requires a program whose lines are exactly 1..aKey-1. The only stores that break this are those left by an insertion that raised KeyError at a line number below 1. The interpreter is not modelled on such a store.
