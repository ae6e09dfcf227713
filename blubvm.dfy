/** The Blub register machine (blubvm.py): condition flags, operand validators,
    the seven operations and the interpreter loop. */
module BlubVM {
  import opened Wrappers
  import Blub

  // ---------------------------------------------------------------------------
  // Registers and flags
  // ---------------------------------------------------------------------------

  /** The register file holds 32 registers (blubvm.py:46). */
  const NumRegisters: nat := 32

  /** The register array has type code 'i': a signed 32-bit C int. */
  predicate IsInt32(x: int) {
    -0x8000_0000 <= x < 0x8000_0000
  }

  predicate AllInt32(regs: seq<int>) {
    forall i :: 0 <= i < |regs| ==> IsInt32(regs[i])
  }

  /** The n, z, c and v flags; the source stores them as 0 or 1. */
  datatype Flags = Flags(n: bool, z: bool, c: bool, v: bool)

  const ClearFlags: Flags := Flags(false, false, false, false)

  // ---------------------------------------------------------------------------
  // Conditions (blubvm.py:50-69)
  // ---------------------------------------------------------------------------

  predicate Gt(f: Flags) { !f.n && !f.z }
  predicate Ge(f: Flags) { f.z || !f.n }
  predicate Eq(f: Flags) { f.z }
  predicate Ne(f: Flags) { !f.z }
  predicate Le(f: Flags) { f.z || f.n }
  predicate Lt(f: Flags) { f.n && !f.z }

  /** The keys of the `conditions` table. */
  const ConditionNames: set<string> := {"gt", "ge", "eq", "ne", "le", "lt"}

  /** `conditions[name](self)`: the named condition under the given flags. */
  predicate Holds(name: string, f: Flags)
    requires name in ConditionNames
  {
    if name == "gt" then Gt(f)
    else if name == "ge" then Ge(f)
    else if name == "eq" then Eq(f)
    else if name == "ne" then Ne(f)
    else if name == "le" then Le(f)
    else Lt(f)
  }

  /** What each condition is meant to test: the integer comparison it is named after. */
  predicate Compares(name: string, a: int, b: int)
    requires name in ConditionNames
  {
    if name == "gt" then a > b
    else if name == "ge" then a >= b
    else if name == "eq" then a == b
    else if name == "ne" then a != b
    else if name == "le" then a <= b
    else a < b
  }

  /** The flag update of `cmpi` comparing a register value `valr` with `val`
      (blubvm.py:128-142). On equality only z is set and n keeps its old value, yet
      every condition then agrees with the comparison whatever the old flags were. */
  function Compare(f: Flags, valr: int, val: int): (r: Flags)
    ensures r.z <==> valr == val
    ensures valr != val ==> (r.n <==> valr < val)
    ensures valr == val ==> r.n == f.n
    ensures r.c == f.c && r.v == f.v
  {
    if valr - val > 0 then f.(n := false, z := false)
    else if valr - val == 0 then f.(z := true)
    else f.(n := true, z := false)
  }

  /** After the update every condition is the comparison it is named after. */
  lemma CompareConditions(f: Flags, valr: int, val: int)
    ensures forall name :: name in ConditionNames ==> (Holds(name, Compare(f, valr, val)) <==> Compares(name, valr, val))
  {
  }

  /** Under any flags, even ones no `cmpi` produced, the six conditions are three
      complementary pairs: lt/ge, le/gt and ne/eq. */
  lemma ConditionPairs(f: Flags)
    ensures Holds("lt", f) <==> !Holds("ge", f)
    ensures Holds("le", f) <==> !Holds("gt", f)
    ensures Holds("ne", f) <==> !Holds("eq", f)
  {
  }

  // ---------------------------------------------------------------------------
  // Operand tokens
  // ---------------------------------------------------------------------------

  predicate IsDigit(c: char) {
    '0' <= c <= '9'
  }

  predicate AllDigits(s: string) {
    forall i :: 0 <= i < |s| ==> IsDigit(s[i])
  }

  /** `s.isdigit()`: non-empty and made of digits. */
  predicate IsDigits(s: string) {
    |s| > 0 && AllDigits(s)
  }

  /** The register form `r<digits>`: `tok[:1] == 'r' and tok[1:].isdigit()`. */
  predicate IsRegister(tok: string) {
    |tok| > 0 && tok[0] == 'r' && IsDigits(tok[1..])
  }

  /** The number a string of decimal digits denotes. */
  function DigitsValue(s: string): nat
    requires AllDigits(s)
  {
    if s == [] then 0 else 10 * DigitsValue(s[..|s| - 1]) + (s[|s| - 1] as int - '0' as int)
  }

  /** `s.replace('r', '')`. */
  function DropR(s: string): (r: string)
    ensures |r| <= |s|
  {
    if s == [] then [] else (if s[0] == 'r' then [] else [s[0]]) + DropR(s[1..])
  }

  lemma {:induction false} DropRDigits(s: string)
    requires AllDigits(s)
    ensures DropR(s) == s
  {
    if s != [] {
      DropRDigits(s[1..]);
    }
  }

  lemma DropRRegister(tok: string)
    requires IsRegister(tok)
    ensures DropR(tok) == tok[1..]
  {
    DropRDigits(tok[1..]);
  }

  /** `int(tok.replace('r', ''))` on a token the validators accepted: the number
      after the `r` of a register, or the value of an immediate. */
  function Convert(tok: string): (k: nat)
    requires IsRegister(tok) || IsDigits(tok)
    ensures IsRegister(tok) ==> k == DigitsValue(tok[1..])
    ensures IsDigits(tok) ==> k == DigitsValue(tok)
  {
    if IsRegister(tok) then
      DropRRegister(tok);
      DigitsValue(DropR(tok))
    else
      DropRDigits(tok);
      DigitsValue(DropR(tok))
  }

  /** The canonical decimal spelling of a number. */
  function Decimal(k: nat): (s: string)
    ensures IsDigits(s)
    decreases k
  {
    if k < 10 then [('0' as int + k) as char]
    else Decimal(k / 10) + [('0' as int + k % 10) as char]
  }

  lemma {:induction false} DecimalValue(k: nat)
    ensures DigitsValue(Decimal(k)) == k
    decreases k
  {
    if k >= 10 {
      var s := Decimal(k);
      DecimalValue(k / 10);
      assert s[..|s| - 1] == Decimal(k / 10);
    }
  }

  /** The token `r<k>` names register k for every validator. */
  lemma RegisterToken(k: nat)
    ensures IsRegister("r" + Decimal(k)) && Convert("r" + Decimal(k)) == k
  {
    var tok := "r" + Decimal(k);
    assert tok[1..] == Decimal(k);
    DecimalValue(k);
  }

  // ---------------------------------------------------------------------------
  // Integer operations of Python on the register values
  // ---------------------------------------------------------------------------

  function Abs(x: int): nat {
    if x < 0 then -x else x
  }

  lemma HalfSmaller(x: int)
    requires x != 0 && x != -1
    ensures Abs(x / 2) < Abs(x)
  {
  }

  /** Python's `a & b` on unbounded two's-complement integers. */
  function And(a: int, b: int): int
    decreases Abs(a) + Abs(b)
  {
    if a == 0 || b == 0 then 0
    else if a == -1 then b
    else if b == -1 then a
    else
      HalfSmaller(a);
      HalfSmaller(b);
      2 * And(a / 2, b / 2) + (if a % 2 == 1 && b % 2 == 1 then 1 else 0)
  }

  /** A non-negative mask bounds the conjunction: `andi` with an immediate below
      2^31 always fits the register. */
  lemma {:induction false} AndBounds(a: int, b: int)
    requires b >= 0
    ensures 0 <= And(a, b) <= b
    decreases Abs(a) + Abs(b)
  {
    if a != 0 && b != 0 && a != -1 {
      HalfSmaller(a);
      HalfSmaller(b);
      AndBounds(a / 2, b / 2);
    }
  }

  function Pow2(k: nat): (p: nat)
    ensures p >= 1
  {
    if k == 0 then 1 else 2 * Pow2(k - 1)
  }

  lemma {:induction false} MulBounds(p: int, d: int)
    requires p >= 1
    ensures d >= 1 ==> p * d >= p
    ensures d <= -1 ==> p * d <= -p
  {
    if p > 1 {
      MulBounds(p - 1, d);
      assert p * d == (p - 1) * d + d;
    }
  }

  /** The quotient and remainder of a division by p > 0 are unique. */
  lemma ModUnique(a: int, p: int, q: int, r: int)
    requires p > 0 && a == p * q + r && 0 <= r < p
    ensures a % p == r && a / p == q
  {
    var q', r' := a / p, a % p;
    var d := q - q';
    assert p * q == p * q' + p * d;
    MulBounds(p, d);
  }

  lemma HalveRemainder(a: int, h: int)
    requires h >= 1
    ensures a % (2 * h) == 2 * ((a / 2) % h) + a % 2
  {
    var m, q := (a / 2) % h, (a / 2) / h;
    assert a / 2 == h * q + m;
    assert a == 2 * (a / 2) + a % 2;
    assert 2 * (h * q) == (2 * h) * q;
    ModUnique(a, 2 * h, q, 2 * m + a % 2);
  }

  /** Masking with 2^k - 1 keeps the low k bits: `andi r, s, 2^k - 1` stores the
      remainder of `s` modulo 2^k. */
  lemma {:induction false} AndLowBits(a: int, k: nat)
    ensures And(a, Pow2(k) - 1) == a % Pow2(k)
    decreases k
  {
    var p := Pow2(k);
    if k > 0 && a != 0 && a != -1 {
      var h := Pow2(k - 1);
      AndOddMask(a, h);
      AndLowBits(a / 2, k - 1);
      HalveRemainder(a, h);
    } else if k > 0 && a == -1 {
      ModUnique(a, p, -1, p - 1);
    }
  }

  /** One step of `And` against the mask 2h - 1, whose lowest bit is set. */
  lemma AndOddMask(a: int, h: int)
    requires h >= 1 && a != 0 && a != -1
    ensures And(a, 2 * h - 1) == 2 * And(a / 2, h - 1) + a % 2
  {
    assert (2 * h - 1) / 2 == h - 1 && (2 * h - 1) % 2 == 1;
  }

  /** Python's `a >> s`, the floor of a / 2^s, as s halvings rounded toward minus
      infinity (Dafny's `/` by a positive number rounds down). */
  function ShiftRight(a: int, s: nat): int {
    if s == 0 then a else ShiftRight(a, s - 1) / 2
  }

  /** `>>` keeps the sign and moves toward zero, so it never leaves the int32
      range; on a negative value it fills with ones, which makes `lsri` an
      arithmetic shift and not the logical one its docstring names. */
  lemma {:induction false} ShiftRightRange(a: int, s: nat)
    ensures a >= 0 ==> 0 <= ShiftRight(a, s) <= a
    ensures a < 0 ==> a <= ShiftRight(a, s) < 0
  {
    if s > 0 {
      ShiftRightRange(a, s - 1);
    }
  }

  // ---------------------------------------------------------------------------
  // Machine values
  // ---------------------------------------------------------------------------

  /** The seven built-in operation functions (blubvm.py:112-261). */
  datatype Op = Cmpi | B | Andi | Add | Lsri | Movi | Prnt

  /** The function's `__name__`, which the validators inspect. */
  function OpName(op: Op): (name: string)
    ensures |name| > 0
  {
    match op
    case Cmpi => "cmpi"
    case B => "b"
    case Andi => "andi"
    case Add => "add"
    case Lsri => "lsri"
    case Movi => "movi"
    case Prnt => "prnt"
  }

  /** `__name__[-1] == 'i'`: the last operand is an immediate. */
  predicate Immediate(op: Op) {
    var name := OpName(op);
    name[|name| - 1] == 'i'
  }

  /** A converted operand as a validator passes it on: a number, or the label and
      condition strings of a branch. */
  datatype Arg = Num(n: nat) | Text(s: string)

  /** The validators pass two or three arguments. */
  type Args = a: seq<Arg> | 2 <= |a| <= 3 witness [Num(0), Num(0)]

  /** How a run stops with an error: `exit(...)` with the validators' message or
      line 427's, or an uncaught Python exception. */
  datatype Fault =
    | InvalidOperands(name: string)
    | MalformedInstruction
    | InvalidArity
    | IndexError
    | KeyError
    | TypeError
    | OverflowError

  /** Registers, flags, program counter and the values printed so far. */
  datatype MState = MState(regs: seq<int>, flags: Flags, pc: int, out: seq<int>)

  /** A fresh machine: all registers and flags zero, pc at line 1 (blubvm.py:46, 93, 101). */
  const Initial: MState := MState(seq(NumRegisters, _ => 0), ClearFlags, 1, [])

  /** `registers[a]` used as an index: a register number, else IndexError; a string
      is no index at all. */
  function Index(a: Arg): (r: Result<nat, Fault>)
    ensures r.Ok? <==> a.Num? && a.n < NumRegisters
    ensures r.Ok? ==> r.value == a.n
  {
    match a
    case Text(_) => Err(TypeError)
    case Num(k) => if k < NumRegisters then Ok(k) else Err(IndexError)
  }

  function Read(regs: seq<int>, a: Arg): (r: Result<int, Fault>)
    requires |regs| == NumRegisters
    ensures r.Ok? <==> a.Num? && a.n < NumRegisters
    ensures r.Ok? ==> r.value == regs[a.n]
  {
    match Index(a)
    case Err(f) => Err(f)
    case Ok(k) => Ok(regs[k])
  }

  /** `registers[dest] = v`: the index is checked first, then that v fits an int32. */
  function Store(regs: seq<int>, dest: Arg, v: int): (r: Result<seq<int>, Fault>)
    requires |regs| == NumRegisters
    ensures r.Ok? <==> dest.Num? && dest.n < NumRegisters && IsInt32(v)
    ensures r.Ok? ==> r.value == regs[dest.n := v]
    ensures r.Err? && dest.Num? && dest.n < NumRegisters ==> r.error == OverflowError
  {
    match Index(dest)
    case Err(f) => Err(f)
    case Ok(k) => if IsInt32(v) then Ok(regs[k := v]) else Err(OverflowError)
  }

  // ---------------------------------------------------------------------------
  // The operations on converted arguments (blubvm.py:112-261)
  // ---------------------------------------------------------------------------

  /** `cmpi(reg, val, *placeHolder)`: only the flags change. A bad register fails as
      the read does; a string value fails the subtraction with TypeError. */
  function ExecCmpi(args: Args, s: MState): (r: Result<MState, Fault>)
    requires |s.regs| == NumRegisters
    ensures r.Ok? <==> args[0].Num? && args[0].n < NumRegisters && args[1].Num?
    ensures r.Ok? ==> r.value == s.(flags := Compare(s.flags, s.regs[args[0].n], args[1].n))
    ensures r.Err? ==> r.error == if Index(args[0]).Err? then Index(args[0]).error else TypeError
  {
    match Read(s.regs, args[0])
    case Err(f) => Err(f)
    case Ok(valr) =>
      match args[1]
      case Text(_) => Err(TypeError)
      case Num(val) => Ok(s.(flags := Compare(s.flags, valr, val)))
  }

  /** Whether `b` branches: `cond[0] == '' or conditions[cond[0]](self)`. An unknown
      condition is a KeyError. */
  function Taken(cond: Arg, f: Flags): (r: Result<bool, Fault>)
    ensures r.Ok? <==> cond == Text("") || (cond.Text? && cond.s in ConditionNames)
    ensures r.Err? ==> r.error == KeyError
    ensures r.Ok? ==> (r.value <==> cond == Text("") || Holds(cond.s, f))
  {
    if cond == Text("") then Ok(true)
    else if cond.Text? && cond.s in ConditionNames then Ok(Holds(cond.s, f))
    else Err(KeyError)
  }

  /** `b(label, *cond)`: a taken branch sets pc to the label's line minus one, an
      untaken one changes nothing, and only pc ever changes. */
  function ExecB(args: Args, labels: map<string, int>, s: MState): (r: Result<MState, Fault>)
    ensures r.Ok? <==> Taken(args[1], s.flags).Ok? && (Taken(args[1], s.flags).value ==> args[0].Text? && args[0].s in labels)
    ensures r.Err? ==> r.error == KeyError
    ensures r.Ok? ==> r.value == s.(pc := if Taken(args[1], s.flags).value then labels[args[0].s] - 1 else s.pc)
  {
    match Taken(args[1], s.flags)
    case Err(f) => Err(f)
    case Ok(taken) =>
      if !taken then Ok(s)
      else if args[0].Text? && args[0].s in labels then Ok(s.(pc := labels[args[0].s] - 1))
      else Err(KeyError)
  }

  /** `andi(retReg, reg, val)`: Python rejects a call with a missing argument. The
      faults come in the order the source meets them: the call, the read, the `&` on
      a string, the destination index, the int32 range. */
  function ExecAndi(args: Args, s: MState): (r: Result<MState, Fault>)
    requires |s.regs| == NumRegisters
    ensures r.Ok? <==> |args| == 3 && args[1].Num? && args[1].n < NumRegisters && args[2].Num?
                       && args[0].Num? && args[0].n < NumRegisters && IsInt32(And(s.regs[args[1].n], args[2].n))
    ensures r.Ok? ==> r.value == s.(regs := s.regs[args[0].n := And(s.regs[args[1].n], args[2].n)])
    ensures r.Err? ==> r.error == if |args| != 3 then TypeError
                                  else if Index(args[1]).Err? then Index(args[1]).error
                                  else if args[2].Text? then TypeError
                                  else if Index(args[0]).Err? then Index(args[0]).error
                                  else OverflowError
  {
    if |args| != 3 then Err(TypeError)
    else match Read(s.regs, args[1])
      case Err(f) => Err(f)
      case Ok(valr) =>
        match args[2]
        case Text(_) => Err(TypeError)
        case Num(val) =>
          match Store(s.regs, args[0], And(valr, val))
          case Err(f) => Err(f)
          case Ok(regs) => Ok(s.(regs := regs))
  }

  /** `add(retReg, reg1, reg2)`: the sum goes to the destination if it fits an int32. */
  function ExecAdd(args: Args, s: MState): (r: Result<MState, Fault>)
    requires |s.regs| == NumRegisters
    ensures r.Ok? <==> |args| == 3 && args[1].Num? && args[1].n < NumRegisters && args[2].Num? && args[2].n < NumRegisters
                       && args[0].Num? && args[0].n < NumRegisters && IsInt32(s.regs[args[1].n] + s.regs[args[2].n])
    ensures r.Ok? ==> r.value == s.(regs := s.regs[args[0].n := s.regs[args[1].n] + s.regs[args[2].n]])
    ensures r.Err? ==> r.error == if |args| != 3 then TypeError
                                  else if Index(args[1]).Err? then Index(args[1]).error
                                  else if Index(args[2]).Err? then Index(args[2]).error
                                  else if Index(args[0]).Err? then Index(args[0]).error
                                  else OverflowError
  {
    if |args| != 3 then Err(TypeError)
    else match Read(s.regs, args[1])
      case Err(f) => Err(f)
      case Ok(val1) =>
        match Read(s.regs, args[2])
        case Err(f) => Err(f)
        case Ok(val2) =>
          match Store(s.regs, args[0], val1 + val2)
          case Err(f) => Err(f)
          case Ok(regs) => Ok(s.(regs := regs))
  }

  /** `lsri(retReg, reg, val)`: the shifted value goes to the destination. */
  function ExecLsri(args: Args, s: MState): (r: Result<MState, Fault>)
    requires |s.regs| == NumRegisters
    ensures r.Ok? <==> |args| == 3 && args[1].Num? && args[1].n < NumRegisters && args[2].Num?
                       && args[0].Num? && args[0].n < NumRegisters && IsInt32(ShiftRight(s.regs[args[1].n], args[2].n))
    ensures r.Ok? ==> r.value == s.(regs := s.regs[args[0].n := ShiftRight(s.regs[args[1].n], args[2].n)])
    ensures r.Err? ==> r.error == if |args| != 3 then TypeError
                                  else if Index(args[1]).Err? then Index(args[1]).error
                                  else if args[2].Text? then TypeError
                                  else if Index(args[0]).Err? then Index(args[0]).error
                                  else OverflowError
  {
    if |args| != 3 then Err(TypeError)
    else match Read(s.regs, args[1])
      case Err(f) => Err(f)
      case Ok(valr) =>
        match args[2]
        case Text(_) => Err(TypeError)
        case Num(val) =>
          match Store(s.regs, args[0], ShiftRight(valr, val))
          case Err(f) => Err(f)
          case Ok(regs) => Ok(s.(regs := regs))
  }

  /** `movi(retReg, val, *placeHolder)`: a string value passes the index check and
      is then refused by the array. */
  function ExecMovi(args: Args, s: MState): (r: Result<MState, Fault>)
    requires |s.regs| == NumRegisters
    ensures r.Ok? <==> args[0].Num? && args[0].n < NumRegisters && args[1].Num? && IsInt32(args[1].n)
    ensures r.Ok? ==> r.value == s.(regs := s.regs[args[0].n := args[1].n])
    ensures r.Err? ==> r.error == if Index(args[0]).Err? then Index(args[0]).error
                                  else if args[1].Text? then TypeError
                                  else OverflowError
  {
    match args[1]
    case Text(_) => (match Index(args[0]) case Err(f) => Err(f) case Ok(_) => Err(TypeError))
    case Num(val) =>
      match Store(s.regs, args[0], val)
      case Err(f) => Err(f)
      case Ok(regs) => Ok(s.(regs := regs))
  }

  /** `prnt(retReg, *placeHolder)`: the printed value goes to the output. */
  function ExecPrnt(args: Args, s: MState): (r: Result<MState, Fault>)
    requires |s.regs| == NumRegisters
    ensures r.Ok? <==> args[0].Num? && args[0].n < NumRegisters
    ensures r.Ok? ==> r.value == s.(out := s.out + [s.regs[args[0].n]])
    ensures r.Err? ==> r.error == Index(args[0]).error
  {
    match Read(s.regs, args[0])
    case Err(f) => Err(f)
    case Ok(v) => Ok(s.(out := s.out + [v]))
  }

  /** Calling an operation function with the converted arguments. */
  function Exec(op: Op, args: Args, labels: map<string, int>, s: MState): (r: Result<MState, Fault>)
    requires |s.regs| == NumRegisters
    ensures r.Ok? ==> |r.value.regs| == NumRegisters && s.out <= r.value.out
  {
    match op
    case Cmpi => ExecCmpi(args, s)
    case B => ExecB(args, labels, s)
    case Andi => ExecAndi(args, s)
    case Add => ExecAdd(args, s)
    case Lsri => ExecLsri(args, s)
    case Movi => ExecMovi(args, s)
    case Prnt => ExecPrnt(args, s)
  }

  // ---------------------------------------------------------------------------
  // Operand validators (blubvm.py:314-383)
  // ---------------------------------------------------------------------------

  /** `ops1error`: the arguments are (op1, condition, op2). A branch needs a known
      label and an empty or known condition; any other operation a register and no
      condition. Accepted operands are converted: `rK` to K, a label stays a string. */
  function Ops1Check(op: Op, labels: map<string, int>, op1: string, cond: string, op2: string): (r: Result<Args, Fault>)
    ensures r.Ok? <==> op2 == "" && if op == B then op1 in labels && (cond == "" || cond in ConditionNames)
                                    else cond == "" && IsRegister(op1)
    ensures r.Err? ==> r.error == InvalidOperands(OpName(op))
    ensures r.Ok? && op == B ==> r.value == [Text(op1), Text(cond)]
    ensures r.Ok? && op != B ==> r.value == [Num(DigitsValue(op1[1..])), Text("")]
  {
    var isB := OpName(op) == "b";
    if (!isB && cond != "") || op2 != ""
       || (!isB && !IsRegister(op1))
       || (isB && op1 !in labels)
       || (isB && cond != "" && cond !in ConditionNames)
    then Err(InvalidOperands(OpName(op)))
    else Ok([if !isB then Num(Convert(op1)) else Text(op1), Text(cond)])
  }

  /** The operand an immediate-or-register position expects: digits when the
      operation's name ends in `i`, a register otherwise. */
  predicate LastOperand(op: Op, tok: string) {
    if Immediate(op) then IsDigits(tok) else IsRegister(tok)
  }

  /** The number such an operand denotes. */
  function LastValue(op: Op, tok: string): nat
    requires LastOperand(op, tok)
  {
    if Immediate(op) then DigitsValue(tok) else DigitsValue(tok[1..])
  }

  /** `ops2error`: a register, then a register or an immediate, and no third operand. */
  function Ops2Check(op: Op, op1: string, op2: string, op3: string): (r: Result<Args, Fault>)
    ensures r.Ok? <==> op3 == "" && IsRegister(op1) && LastOperand(op, op2)
    ensures r.Err? ==> r.error == InvalidOperands(OpName(op))
    ensures r.Ok? ==> r.value == [Num(DigitsValue(op1[1..])), Num(LastValue(op, op2))]
  {
    if op2 == "" || op3 != ""
       || !IsRegister(op1)
       || (!Immediate(op) && !IsRegister(op2))
       || (Immediate(op) && !IsDigits(op2))
    then Err(InvalidOperands(OpName(op)))
    else Ok([Num(Convert(op1)), Num(Convert(op2))])
  }

  /** `ops3error`: two registers, then a register or an immediate. */
  function Ops3Check(op: Op, op1: string, op2: string, op3: string): (r: Result<Args, Fault>)
    ensures r.Ok? <==> IsRegister(op1) && IsRegister(op2) && LastOperand(op, op3)
    ensures r.Err? ==> r.error == InvalidOperands(OpName(op))
    ensures r.Ok? ==> r.value == [Num(DigitsValue(op1[1..])), Num(DigitsValue(op2[1..])), Num(LastValue(op, op3))]
  {
    if op2 == "" || op3 == ""
       || !IsRegister(op1)
       || !IsRegister(op2)
       || (Immediate(op) && !IsDigits(op3))
       || (!Immediate(op) && !IsRegister(op3))
    then Err(InvalidOperands(OpName(op)))
    else Ok([Num(Convert(op1)), Num(Convert(op2)), Num(Convert(op3))])
  }

  // ---------------------------------------------------------------------------
  // The instruction table (blubvm.py:75, 266, 273-309)
  // ---------------------------------------------------------------------------

  /** `operators` and the three arity sets of `Ops`. */
  datatype Table = Table(operators: map<string, Op>, ops1: set<string>, ops2: set<string>, ops3: set<string>)

  const BaseTable: Table :=
    Table(map["cmpi" := Cmpi, "b" := B, "andi" := Andi, "add" := Add, "lsri" := Lsri, "movi" := Movi, "prnt" := Prnt],
          {"prnt", "b"}, {"movi", "cmpi"}, {"andi", "add", "lsri"})

  /** The validator `interpret` picks: ops1, else ops2, else ops3. */
  function Group(t: Table, name: string): (k: int)
    ensures 1 <= k <= 3
    ensures k == 1 <==> name in t.ops1
    ensures k == 2 <==> name !in t.ops1 && name in t.ops2
  {
    if name in t.ops1 then 1 else if name in t.ops2 then 2 else 3
  }

  /** `__setitem__(name, f, noOfOps)`: an arity outside 1..3 stops with
      `exit`; otherwise the name maps to the operation and joins the arity's set.
      It stays in any set it was in before. */
  function Registered(t: Table, name: string, op: Op, arity: int): (r: Result<Table, Fault>)
    ensures r.Err? <==> arity < 1 || arity > 3
    ensures r.Err? ==> r.error == InvalidArity
    ensures r.Ok? ==> r.value.operators == t.operators[name := op]
    ensures r.Ok? ==> r.value.ops1 == (if arity == 1 then t.ops1 + {name} else t.ops1)
    ensures r.Ok? ==> r.value.ops2 == (if arity == 2 then t.ops2 + {name} else t.ops2)
    ensures r.Ok? ==> r.value.ops3 == (if arity == 3 then t.ops3 + {name} else t.ops3)
  {
    if arity < 1 || arity > 3 then Err(InvalidArity)
    else
      var ops := t.operators[name := op];
      if arity == 1 then Ok(t.(operators := ops, ops1 := t.ops1 + {name}))
      else if arity == 2 then Ok(t.(operators := ops, ops2 := t.ops2 + {name}))
      else Ok(t.(operators := ops, ops3 := t.ops3 + {name}))
  }

  /** `__delitem__(name)` as written: its test is inverted, so a present name is
      left in place and an absent one raises KeyError from `del`. */
  function Unregistered(t: Table, name: string): (r: Result<Table, Fault>)
    ensures r.Ok? <==> name in t.operators
    ensures r.Ok? ==> r.value == t
    ensures r.Err? ==> r.error == KeyError
  {
    if name in t.operators.Keys then Ok(t) else Err(KeyError)
  }

  // ---------------------------------------------------------------------------
  // The interpreter (blubvm.py:388-427)
  // ---------------------------------------------------------------------------

  /** The validator of a group applied to a line. */
  function Check(k: int, op: Op, labels: map<string, int>, inst: Blub.Instruction): (r: Result<Args, Fault>)
    requires 1 <= k <= 3
  {
    if k == 1 then Ops1Check(op, labels, inst.op1, inst.condition, inst.op2)
    else if k == 2 then Ops2Check(op, inst.op1, inst.op2, inst.op3)
    else Ops3Check(op, inst.op1, inst.op2, inst.op3)
  }

  /** An operation with its converted operands, ready to call. */
  datatype Call = Call(op: Op, args: Args)

  /** What `interpret` makes of a line before calling anything: the line must have a
      mnemonic, an op1 and a registered operation, and pass its group's validator. */
  function Decode(inst: Blub.Instruction, labels: map<string, int>, t: Table): (r: Result<Call, Fault>)
    ensures inst.instruction == "" || inst.op1 == "" || inst.instruction !in t.operators ==> r == Err(MalformedInstruction)
    ensures r.Ok? ==> inst.instruction in t.operators && r.value.op == t.operators[inst.instruction]
  {
    if inst.instruction == "" || inst.op1 == "" || inst.instruction !in t.operators then Err(MalformedInstruction)
    else
      var op := t.operators[inst.instruction];
      match Check(Group(t, inst.instruction), op, labels, inst)
      case Err(f) => Err(f)
      case Ok(args) => Ok(Call(op, args))
  }

  /** Every line decoded. Decoding reads only the line, the labels and the table,
      none of which a run changes, so the interpreter can look lines up here. */
  function DecodeAll(lines: seq<Blub.Instruction>, labels: map<string, int>, t: Table): (code: seq<Result<Call, Fault>>)
    ensures |code| == |lines|
  {
    if lines == [] then [] else [Decode(lines[0], labels, t)] + DecodeAll(lines[1..], labels, t)
  }

  /** Entry i of the decoded program is line i+1 decoded. */
  lemma {:induction false} DecodeAllAt(lines: seq<Blub.Instruction>, labels: map<string, int>, t: Table, i: int)
    requires 0 <= i < |lines|
    ensures DecodeAll(lines, labels, t)[i] == Decode(lines[i], labels, t)
    decreases i
  {
    if i > 0 {
      DecodeAllAt(lines[1..], labels, t, i - 1);
    }
  }

  /** One pass of the `interpret` loop at a line number pc <= len(code): the line
      `code[pc]` (a KeyError below line 1) is decoded, called, and pc advances by one. */
  function Step(code: seq<Result<Call, Fault>>, labels: map<string, int>, s: MState): (r: Result<MState, Fault>)
    requires |s.regs| == NumRegisters && s.pc <= |code|
    ensures r.Ok? ==> |r.value.regs| == NumRegisters && s.out <= r.value.out
  {
    if s.pc < 1 then Err(KeyError)
    else
      match code[s.pc - 1]
      case Err(f) => Err(f)
      case Ok(call) =>
        match Exec(call.op, call.args, labels, s)
        case Err(f) => Err(f)
        case Ok(next) => Ok(next.(pc := next.pc + 1))
  }

  /** Why a run ended: past the last line, at an error, or out of fuel. */
  datatype Stop = Halted | Faulted(fault: Fault) | OutOfFuel

  datatype RunResult = RunResult(stop: Stop, final: MState)

  /** `interpret` for at most `fuel` lines. A faulting line leaves the state as it was
      before it, since every operation checks before it writes. */
  function Run(code: seq<Result<Call, Fault>>, labels: map<string, int>, s: MState, fuel: nat): (r: RunResult)
    requires |s.regs| == NumRegisters
    ensures |r.final.regs| == NumRegisters && s.out <= r.final.out
    ensures r.stop == Halted <==> r.final.pc > |code|
    decreases fuel, 1
  {
    if s.pc > |code| then RunResult(Halted, s)
    else if fuel == 0 then RunResult(OutOfFuel, s)
    else RunLine(code, labels, s, fuel)
  }

  /** One pass of the loop body: the line at pc, then the rest of the run. */
  function RunLine(code: seq<Result<Call, Fault>>, labels: map<string, int>, s: MState, fuel: nat): (r: RunResult)
    requires |s.regs| == NumRegisters && s.pc <= |code| && fuel > 0
    ensures |r.final.regs| == NumRegisters && s.out <= r.final.out
    ensures r.stop == Halted <==> r.final.pc > |code|
    decreases fuel, 0
  {
    match Step(code, labels, s)
    case Err(f) => RunResult(Faulted(f), s)
    case Ok(next) => Run(code, labels, next, fuel - 1)
  }

  // ---------------------------------------------------------------------------
  // Properties of the operations
  // ---------------------------------------------------------------------------

  /** After `cmpi reg, val` every condition is the comparison of registers[reg] with
      val, whatever the flags were before, and only n and z may have changed. */
  lemma CmpiConditions(args: Args, labels: map<string, int>, s: MState)
    requires |s.regs| == NumRegisters
    requires args[0].Num? && args[0].n < NumRegisters && args[1].Num?
    ensures Exec(Cmpi, args, labels, s).Ok?
    ensures var u := Exec(Cmpi, args, labels, s).value;
            u == s.(flags := u.flags) && u.flags.c == s.flags.c && u.flags.v == s.flags.v
            && forall name :: name in ConditionNames ==>
                 (Holds(name, u.flags) <==> Compares(name, s.regs[args[0].n], args[1].n))
  {
    CompareConditions(s.flags, s.regs[args[0].n], args[1].n);
  }

  /** Each operation changes one thing: cmpi the flags n and z, b the pc, prnt the
      output, and movi, add, andi and lsri their destination register alone. */
  lemma ExecFootprint(op: Op, args: Args, labels: map<string, int>, s: MState)
    requires |s.regs| == NumRegisters
    requires Exec(op, args, labels, s).Ok?
    ensures var u := Exec(op, args, labels, s).value;
            match op
            case Cmpi => u == s.(flags := u.flags) && u.flags.c == s.flags.c && u.flags.v == s.flags.v
            case B => u == s.(pc := u.pc)
            case Prnt => args[0].Num? && args[0].n < NumRegisters && u == s.(out := s.out + [s.regs[args[0].n]])
            case _ => args[0].Num? && args[0].n < NumRegisters && IsInt32(u.regs[args[0].n])
                      && u == s.(regs := s.regs[args[0].n := u.regs[args[0].n]])
  {
  }

  /** Halving a quotient by h divides by 2h. */
  lemma HalveQuotient(a: int, h: int)
    requires h >= 1
    ensures (a / h) / 2 == a / (2 * h)
  {
    var q1, r1 := a / h, a % h;
    var q2, r2 := q1 / 2, q1 % 2;
    assert a == h * q1 + r1;
    assert q1 == 2 * q2 + r2;
    assert h * q1 == (2 * h) * q2 + h * r2;
    assert 0 <= h * r2 + r1 < 2 * h by {
      if r2 == 1 { assert h * r2 == h; } else { assert h * r2 == 0; }
    }
    ModUnique(a, 2 * h, q2, h * r2 + r1);
  }

  lemma {:induction false} ShiftRightDivides(a: int, s: nat)
    ensures ShiftRight(a, s) == a / Pow2(s)
  {
    if s > 0 {
      ShiftRightDivides(a, s - 1);
      HalveQuotient(a, Pow2(s - 1));
    }
  }

  /** What movi, add, andi and lsri store: the immediate, the sum, the conjunction
      with the immediate, and the register divided by 2^bits rounded down. */
  lemma StoredValue(op: Op, args: Args, labels: map<string, int>, s: MState)
    requires |s.regs| == NumRegisters
    requires op == Movi || op == Add || op == Andi || op == Lsri
    requires Exec(op, args, labels, s).Ok?
    ensures args[0].Num? && args[0].n < NumRegisters && args[1].Num?
    ensures op != Movi ==> |args| == 3 && args[1].n < NumRegisters && args[2].Num?
    ensures var u := Exec(op, args, labels, s).value;
            var d := args[0].n;
            (op == Movi ==> u.regs[d] == args[1].n)
            && (op == Add ==> args[2].n < NumRegisters && u.regs[d] == s.regs[args[1].n] + s.regs[args[2].n])
            && (op == Andi ==> u.regs[d] == And(s.regs[args[1].n], args[2].n))
            && (op == Lsri ==> u.regs[d] == s.regs[args[1].n] / Pow2(args[2].n))
  {
    if op == Lsri {
      ShiftRightDivides(s.regs[args[1].n], args[2].n);
    }
  }

  /** andi with an immediate below 2^31 and lsri never overflow a register that
      holds an int32: with valid register numbers they always succeed. */
  lemma LogicalOpsFit(op: Op, d: nat, a: nat, v: nat, labels: map<string, int>, s: MState)
    requires |s.regs| == NumRegisters && AllInt32(s.regs)
    requires d < NumRegisters && a < NumRegisters
    requires op == Lsri || (op == Andi && v < 0x8000_0000)
    ensures Exec(op, [Num(d), Num(a), Num(v)], labels, s).Ok?
  {
    assert IsInt32(s.regs[a]);
    if op == Andi {
      AndBounds(s.regs[a], v);
    } else {
      ShiftRightRange(s.regs[a], v);
    }
  }

  // ---------------------------------------------------------------------------
  // Properties of the interpreter
  // ---------------------------------------------------------------------------

  /** A branch line decodes when it has no op2, its label is known and its
      condition is empty or one of the six; the call then carries the label and the
      condition as strings. */
  lemma DecodeBranch(inst: Blub.Instruction, labels: map<string, int>, t: Table)
    requires inst.instruction != "" && inst.op1 != "" && inst.instruction in t.ops1
             && inst.instruction in t.operators && t.operators[inst.instruction] == B
    ensures Decode(inst, labels, t).Ok?
            <==> inst.op2 == "" && inst.op1 in labels && (inst.condition == "" || inst.condition in ConditionNames)
    ensures Decode(inst, labels, t).Ok? ==> Decode(inst, labels, t).value == Call(B, [Text(inst.op1), Text(inst.condition)])
  {
  }

  /** Under the built-in table a `prnt` line decodes iff it has a register operand, no
      second operand and no condition; the call carries the register number. */
  lemma DecodePrnt(inst: Blub.Instruction, labels: map<string, int>)
    requires inst.instruction == "prnt"
    ensures Decode(inst, labels, BaseTable).Ok?
            <==> inst.op2 == "" && inst.condition == "" && IsRegister(inst.op1)
    ensures Decode(inst, labels, BaseTable).Ok? ==>
              Decode(inst, labels, BaseTable).value == Call(Prnt, [Num(DigitsValue(inst.op1[1..])), Text("")])
  {
    assert Group(BaseTable, inst.instruction) == 1;
  }

  /** Under the built-in table a `movi` or `cmpi` line decodes iff op1 is a register, op2
      an immediate and op3 absent; the call carries the register number and the value. */
  lemma DecodeTwoOperands(inst: Blub.Instruction, labels: map<string, int>)
    requires inst.instruction == "movi" || inst.instruction == "cmpi"
    ensures Decode(inst, labels, BaseTable).Ok?
            <==> inst.op3 == "" && IsRegister(inst.op1) && IsDigits(inst.op2)
    ensures Decode(inst, labels, BaseTable).Ok? ==>
              Decode(inst, labels, BaseTable).value
              == Call(if inst.instruction == "movi" then Movi else Cmpi,
                      [Num(DigitsValue(inst.op1[1..])), Num(DigitsValue(inst.op2))])
  {
    assert Group(BaseTable, inst.instruction) == 2;
  }

  /** Under the built-in table an `add`, `andi` or `lsri` line decodes iff op1 and op2 are
      registers and op3 is a register for `add` and an immediate for the other two; the
      call carries the three numbers. */
  lemma DecodeThreeOperands(inst: Blub.Instruction, labels: map<string, int>)
    requires inst.instruction == "add" || inst.instruction == "andi" || inst.instruction == "lsri"
    ensures Decode(inst, labels, BaseTable).Ok?
            <==> && IsRegister(inst.op1) && IsRegister(inst.op2)
                 && if inst.instruction == "add" then IsRegister(inst.op3) else IsDigits(inst.op3)
    ensures Decode(inst, labels, BaseTable).Ok? ==>
              Decode(inst, labels, BaseTable).value
              == Call(BaseTable.operators[inst.instruction],
                      [Num(DigitsValue(inst.op1[1..])), Num(DigitsValue(inst.op2[1..])),
                       Num(if inst.instruction == "add" then DigitsValue(inst.op3[1..]) else DigitsValue(inst.op3))])
  {
    assert Group(BaseTable, inst.instruction) == 3;
  }

  /** A decoded branch moves pc to its label's line when the condition is empty or
      holds, and to the next line otherwise; nothing else changes. */
  lemma StepBranch(code: seq<Result<Call, Fault>>, labels: map<string, int>, s: MState, target: string, cond: string)
    requires |s.regs| == NumRegisters && 1 <= s.pc <= |code|
    requires code[s.pc - 1] == Ok(Call(B, [Text(target), Text(cond)]))
    requires target in labels && (cond == "" || cond in ConditionNames)
    ensures Step(code, labels, s)
            == Ok(s.(pc := if cond == "" || Holds(cond, s.flags) then labels[target] else s.pc + 1))
  {
  }

  /** Every executed line other than a branch moves pc to the next line. */
  lemma StepAdvances(code: seq<Result<Call, Fault>>, labels: map<string, int>, s: MState)
    requires |s.regs| == NumRegisters && s.pc <= |code|
    requires Step(code, labels, s).Ok?
    ensures 1 <= s.pc && code[s.pc - 1].Ok?
    ensures code[s.pc - 1].value.op != B ==> Step(code, labels, s).value.pc == s.pc + 1
  {
    var call := code[s.pc - 1].value;
    ExecFootprint(call.op, call.args, labels, s);
  }

  /** Every register holds an int32 all through a run, as the
      signed-int array behind `registers` demands. */
  lemma {:induction false} RunInt32(code: seq<Result<Call, Fault>>, labels: map<string, int>, s: MState, fuel: nat)
    requires |s.regs| == NumRegisters && AllInt32(s.regs)
    ensures AllInt32(Run(code, labels, s, fuel).final.regs)
    decreases fuel
  {
    if s.pc <= |code| && fuel > 0 && Step(code, labels, s).Ok? {
      var call := code[s.pc - 1].value;
      ExecFootprint(call.op, call.args, labels, s);
      RunInt32(code, labels, Step(code, labels, s).value, fuel - 1);
    }
  }

  /** Running for f1 + f2 lines is running for f1 and then, if the fuel ran out,
      for f2 more from where it stopped. */
  lemma {:induction false} RunAppendFuel(code: seq<Result<Call, Fault>>, labels: map<string, int>, s: MState, f1: nat, f2: nat)
    requires |s.regs| == NumRegisters
    ensures var r := Run(code, labels, s, f1);
            Run(code, labels, s, f1 + f2) == if r.stop == OutOfFuel then Run(code, labels, r.final, f2) else r
    decreases f1
  {
    if s.pc <= |code| && f1 > 0 {
      var step := Step(code, labels, s);
      var r: Outcome<Fault> := if step.Ok? then Pass else Fail(step.error);
      var next := if step.Ok? then step.value else s;
      RunOfStep(code, labels, s, f1, r, next);
      RunOfStep(code, labels, s, f1 + f2, r, next);
      if step.Ok? {
        RunAppendFuel(code, labels, next, f1 - 1, f2);
      }
    }
  }

  /** A run that stopped before its fuel ran out stops the same way with more fuel. */
  lemma RunMoreFuel(code: seq<Result<Call, Fault>>, labels: map<string, int>, s: MState, fuel: nat, more: nat)
    requires |s.regs| == NumRegisters && fuel <= more
    requires Run(code, labels, s, fuel).stop != OutOfFuel
    ensures Run(code, labels, s, more) == Run(code, labels, s, fuel)
  {
    RunAppendFuel(code, labels, s, fuel, more - fuel);
  }

  // ---------------------------------------------------------------------------
  // Properties of the instruction table
  // ---------------------------------------------------------------------------

  /** Every registered name sits in an arity set and every set member is registered. */
  ghost predicate WellFormed(t: Table) {
    t.operators.Keys == t.ops1 + t.ops2 + t.ops3
  }

  /** The base table is well formed and each built-in validates with its arity. */
  lemma BaseTableWellFormed()
    ensures WellFormed(BaseTable)
    ensures forall name :: name in BaseTable.operators ==>
              Group(BaseTable, name) == (match BaseTable.operators[name]
                                         case B => 1 case Prnt => 1
                                         case Movi => 2 case Cmpi => 2
                                         case _ => 3)
  {
  }

  /** Registration keeps the table well formed and makes the name dispatch to the
      operation; since names never leave an arity set, the validator used is that
      of the smallest arity the name was ever registered with. */
  lemma RegisterDispatch(t: Table, name: string, op: Op, arity: int)
    requires 1 <= arity <= 3
    ensures Registered(t, name, op, arity).Ok?
    ensures var u := Registered(t, name, op, arity).value;
            (WellFormed(t) ==> WellFormed(u))
            && u.operators[name] == op
            && Group(u, name) == (if name in t.ops1 || arity == 1 then 1
                                  else if name in t.ops2 || arity == 2 then 2 else 3)
  {
  }

  // ---------------------------------------------------------------------------
  // The machine
  // ---------------------------------------------------------------------------

  /** An operation's result as a machine method must reach it: the new state on
      success, the old state and the fault otherwise. */
  ghost predicate Follows(r: Outcome<Fault>, e: Result<MState, Fault>, before: MState, after: MState) {
    if e.Ok? then r == Pass && after == e.value else r == Fail(e.error) && after == before
  }

  /** One line's step reaches what calling its decoded operation reaches, with pc
      then advanced by one. */
  lemma StepOfCall(code: seq<Result<Call, Fault>>, labels: map<string, int>, call: Call, r: Outcome<Fault>,
                   before: MState, mid: MState, after: MState)
    requires |before.regs| == NumRegisters && 1 <= before.pc <= |code| && code[before.pc - 1] == Ok(call)
    requires Follows(r, Exec(call.op, call.args, labels, before), before, mid)
    requires after == if r.Pass? then mid.(pc := mid.pc + 1) else mid
    ensures Follows(r, Step(code, labels, before), before, after)
  {
  }

  /** A line below 1 or one that does not decode faults without changing anything. */
  lemma StepOfFault(code: seq<Result<Call, Fault>>, labels: map<string, int>, s: MState, f: Fault)
    requires |s.regs| == NumRegisters && s.pc <= |code|
    requires f == if s.pc < 1 then KeyError else if code[s.pc - 1].Err? then code[s.pc - 1].error else KeyError
    requires s.pc < 1 || code[s.pc - 1].Err?
    ensures Follows(Fail(f), Step(code, labels, s), s, s)
  {
  }

  /** A run that has fuel left takes one step: it goes on from the state that step
      reaches, or stops where it was at the step's fault. */
  lemma RunOfStep(code: seq<Result<Call, Fault>>, labels: map<string, int>, s: MState, fuel: nat,
                  r: Outcome<Fault>, after: MState)
    requires |s.regs| == NumRegisters && s.pc <= |code| && fuel > 0
    requires Follows(r, Step(code, labels, s), s, after)
    ensures r.Pass? ==> |after.regs| == NumRegisters && Run(code, labels, s, fuel) == Run(code, labels, after, fuel - 1)
    ensures r.Fail? ==> Run(code, labels, s, fuel) == RunResult(Faulted(r.error), s)
  {
  }

  /** A `Machine` running one program: its registers, flags, pc, printed values and
      instruction table. */
  class Machine {
    const code: Blub.Program
    const registers: array<int>
    var flags: Flags
    var pc: int
    var output: seq<int>
    var operators: map<string, Op>
    var ops1: set<string>
    var ops2: set<string>
    var ops3: set<string>

    /** 32 int32 registers and a program whose lines are 1..len. */
    ghost predicate Valid()
      reads this, registers, code
    {
      registers.Length == NumRegisters && AllInt32(registers[..]) && code.KeysContiguous()
    }

    ghost function State(): MState
      reads this, registers
    {
      MState(registers[..], flags, pc, output)
    }

    ghost function Ops(): Table
      reads this
    {
      Table(operators, ops1, ops2, ops3)
    }

    /** `Machine(aProgram)` (blubvm.py:79-101). */
    constructor (aProgram: Blub.Program)
      requires aProgram.KeysContiguous()
      ensures Valid() && code == aProgram && fresh(registers)
      ensures State() == Initial && Ops() == BaseTable
    {
      code := aProgram;
      registers := new int[NumRegisters](_ => 0);
      flags := ClearFlags;
      pc := 1;
      output := [];
      operators := BaseTable.operators;
      ops1 := BaseTable.ops1;
      ops2 := BaseTable.ops2;
      ops3 := BaseTable.ops3;
      new;
      assert registers[..] == Initial.regs;
    }

    /** `self.registers[dest] = v`: the array checks the index, then the int32 range. */
    method Write(dest: Arg, v: int) returns (r: Outcome<Fault>)
      requires Valid()
      modifies registers
      ensures Valid()
      ensures var e := Store(old(registers[..]), dest, v);
              if e.Ok? then r == Pass && registers[..] == e.value
              else r == Fail(e.error) && registers[..] == old(registers[..])
    {
      var k := Index(dest);
      if k.Err? {
        return Fail(k.error);
      }
      if !IsInt32(v) {
        return Fail(OverflowError);
      }
      registers[k.value] := v;
      return Pass;
    }

    /** `cmpi` (blubvm.py:112-142). */
    method Cmpi(args: Args) returns (r: Outcome<Fault>)
      requires Valid()
      modifies this
      ensures Valid() && Ops() == old(Ops())
      ensures Follows(r, ExecCmpi(args, old(State())), old(State()), State())
    {
      var reg := Index(args[0]);
      if reg.Err? {
        return Fail(reg.error);
      }
      var valr := registers[reg.value];
      if args[1].Text? {
        return Fail(TypeError);
      }
      var val := args[1].n;
      if valr - val > 0 {
        flags := flags.(n := false, z := false);
      } else if valr - val == 0 {
        flags := flags.(z := true);
      } else {
        flags := flags.(n := true, z := false);
      }
      return Pass;
    }

    /** `b` (blubvm.py:147-164). */
    method B(args: Args) returns (r: Outcome<Fault>)
      requires Valid()
      modifies this
      ensures Valid() && Ops() == old(Ops())
      ensures Follows(r, ExecB(args, code.labelLocator, old(State())), old(State()), State())
    {
      var taken := Taken(args[1], flags);
      if taken.Err? {
        return Fail(taken.error);
      }
      if taken.value {
        if !(args[0].Text? && args[0].s in code.labelLocator) {
          return Fail(KeyError);
        }
        pc := code.labelLocator[args[0].s] - 1;
      }
      return Pass;
    }

    /** `andi` (blubvm.py:169-186). */
    method Andi(args: Args) returns (r: Outcome<Fault>)
      requires Valid()
      modifies registers
      ensures Valid()
      ensures Follows(r, ExecAndi(args, old(State())), old(State()), State())
    {
      if |args| != 3 {
        return Fail(TypeError);
      }
      var reg := Index(args[1]);
      if reg.Err? {
        return Fail(reg.error);
      }
      var valr := registers[reg.value];
      if args[2].Text? {
        return Fail(TypeError);
      }
      var bitand := And(valr, args[2].n);
      r := Write(args[0], bitand);
    }

    /** `add` (blubvm.py:191-209). */
    method Add(args: Args) returns (r: Outcome<Fault>)
      requires Valid()
      modifies registers
      ensures Valid()
      ensures Follows(r, ExecAdd(args, old(State())), old(State()), State())
    {
      if |args| != 3 {
        return Fail(TypeError);
      }
      var reg1 := Index(args[1]);
      if reg1.Err? {
        return Fail(reg1.error);
      }
      var val1 := registers[reg1.value];
      var reg2 := Index(args[2]);
      if reg2.Err? {
        return Fail(reg2.error);
      }
      var val2 := registers[reg2.value];
      r := Write(args[0], val1 + val2);
    }

    /** `lsri` (blubvm.py:214-232). */
    method Lsri(args: Args) returns (r: Outcome<Fault>)
      requires Valid()
      modifies registers
      ensures Valid()
      ensures Follows(r, ExecLsri(args, old(State())), old(State()), State())
    {
      if |args| != 3 {
        return Fail(TypeError);
      }
      var reg := Index(args[1]);
      if reg.Err? {
        return Fail(reg.error);
      }
      var valr := registers[reg.value];
      if args[2].Text? {
        return Fail(TypeError);
      }
      var lsr := ShiftRight(valr, args[2].n);
      r := Write(args[0], lsr);
    }

    /** `movi` (blubvm.py:237-247). */
    method Movi(args: Args) returns (r: Outcome<Fault>)
      requires Valid()
      modifies registers
      ensures Valid()
      ensures Follows(r, ExecMovi(args, old(State())), old(State()), State())
    {
      if args[1].Text? {
        var k := Index(args[0]);
        return Fail(if k.Err? then k.error else TypeError);
      }
      r := Write(args[0], args[1].n);
    }

    /** `prnt` (blubvm.py:252-261): the printed value is appended to the output. */
    method Prnt(args: Args) returns (r: Outcome<Fault>)
      requires Valid()
      modifies this
      ensures Valid() && Ops() == old(Ops())
      ensures Follows(r, ExecPrnt(args, old(State())), old(State()), State())
    {
      var reg := Index(args[0]);
      if reg.Err? {
        return Fail(reg.error);
      }
      output := output + [registers[reg.value]];
      return Pass;
    }

    /** Calling `operators[name]` with the converted operands. */
    method Invoke(op: Op, args: Args) returns (r: Outcome<Fault>)
      requires Valid()
      modifies this, registers
      ensures Valid() && Ops() == old(Ops())
      ensures Follows(r, Exec(op, args, code.labelLocator, old(State())), old(State()), State())
    {
      match op
      case Cmpi => r := Cmpi(args);
      case B => r := B(args);
      case Andi => r := Andi(args);
      case Add => r := Add(args);
      case Lsri => r := Lsri(args);
      case Movi => r := Movi(args);
      case Prnt => r := Prnt(args);
    }

    /** The tests `interpret` makes on a line before calling its operation
        (blubvm.py:396-419): the mnemonic, op1 and registration, then the validator
        of the first arity set holding the mnemonic. */
    method DecodeLine(inst: Blub.Instruction) returns (d: Result<Call, Fault>)
      ensures d == Decode(inst, code.labelLocator, Ops())
    {
      if inst.instruction == "" || inst.op1 == "" || inst.instruction !in operators {
        return Err(MalformedInstruction);
      }
      var op := operators[inst.instruction];
      var checked;
      if inst.instruction in ops1 {
        checked := Ops1Check(op, code.labelLocator, inst.op1, inst.condition, inst.op2);
      } else if inst.instruction in ops2 {
        checked := Ops2Check(op, inst.op1, inst.op2, inst.op3);
      } else {
        checked := Ops3Check(op, inst.op1, inst.op2, inst.op3);
      }
      if checked.Err? {
        return Err(checked.error);
      }
      return Ok(Call(op, checked.value));
    }

    /** The body of the `interpret` loop for the line at pc (blubvm.py:396-422): with
        fuel left, it takes the first step of the run of the decoded program. */
    method ExecuteLine(ghost decoded: seq<Result<Call, Fault>>, ghost fuel: nat) returns (r: Outcome<Fault>)
      requires Valid() && pc <= code.Length() && fuel > 0
      requires decoded == DecodeAll(code.Lines(), code.labelLocator, Ops())
      modifies this, registers
      ensures Valid() && Ops() == old(Ops()) && unchanged(code)
      ensures r.Pass? ==> Run(decoded, code.labelLocator, old(State()), fuel)
                          == Run(decoded, code.labelLocator, State(), fuel - 1)
      ensures r.Fail? ==> State() == old(State())
      ensures r.Fail? ==> Run(decoded, code.labelLocator, old(State()), fuel) == RunResult(Faulted(r.error), State())
    {
      var line := code.Get(pc);
      if line.Err? {
        StepOfFault(decoded, code.labelLocator, State(), KeyError);
        RunOfStep(decoded, code.labelLocator, State(), fuel, Fail(KeyError), State());
        return Fail(KeyError);
      }
      var d := DecodeLine(line.value);
      DecodeAllAt(code.Lines(), code.labelLocator, Ops(), pc - 1);
      if d.Err? {
        StepOfFault(decoded, code.labelLocator, State(), d.error);
        RunOfStep(decoded, code.labelLocator, State(), fuel, Fail(d.error), State());
        return Fail(d.error);
      }
      ghost var before := State();
      r := Invoke(d.value.op, d.value.args);
      ghost var mid := State();
      if r.Pass? {
        pc := pc + 1;
      }
      StepOfCall(decoded, code.labelLocator, d.value, r, before, mid, State());
      RunOfStep(decoded, code.labelLocator, before, fuel, r, State());
    }

    /** `interpret` (blubvm.py:388-427), for at most `fuel` lines. */
    method Interpret(fuel: nat) returns (stop: Stop)
      requires Valid()
      modifies this, registers
      ensures Valid() && Ops() == old(Ops())
      ensures RunResult(stop, State())
              == Run(DecodeAll(code.Lines(), code.labelLocator, old(Ops())), code.labelLocator, old(State()), fuel)
    {
      ghost var labels := code.labelLocator;
      ghost var decoded := DecodeAll(code.Lines(), labels, Ops());
      ghost var result := Run(decoded, labels, State(), fuel);
      var remaining := fuel;
      while pc <= code.Length()
        invariant Valid() && Ops() == old(Ops()) && unchanged(code)
        invariant decoded == DecodeAll(code.Lines(), labels, Ops())
        invariant Run(decoded, labels, State(), remaining) == result
        decreases remaining
      {
        if remaining == 0 {
          return OutOfFuel;
        }
        var r := ExecuteLine(decoded, remaining);
        if r.Fail? {
          return Faulted(r.error);
        }
        assert Run(decoded, labels, State(), remaining - 1) == result;
        remaining := remaining - 1;
      }
      return Halted;
    }

    /** `__setitem__(name, f, noOfOps)` (blubvm.py:273-292). */
    method Register(name: string, op: Op, arity: int) returns (r: Outcome<Fault>)
      modifies this
      ensures State() == old(State())
      ensures var e := Registered(old(Ops()), name, op, arity);
              if e.Ok? then r == Pass && Ops() == e.value
              else r == Fail(e.error) && Ops() == old(Ops())
    {
      if arity < 1 || arity > 3 {
        return Fail(InvalidArity);
      }
      operators := operators[name := op];
      if arity == 1 {
        ops1 := ops1 + {name};
      } else if arity == 2 {
        ops2 := ops2 + {name};
      } else {
        ops3 := ops3 + {name};
      }
      return Pass;
    }

    /** `__delitem__(name)` (blubvm.py:300-309). */
    method Unregister(name: string) returns (r: Outcome<Fault>)
      modifies this
      ensures State() == old(State()) && Ops() == old(Ops())
      ensures var e := Unregistered(old(Ops()), name);
              if e.Ok? then r == Pass else r == Fail(e.error)
    {
      if name !in operators.Keys {
        return Fail(KeyError);
      }
      return Pass;
    }
  }
}
