/**
 * The execution semantics of the stack-based machine as pure functions: the
 * machine state, the effect of one instruction, label resolution, and a run
 * bounded by a fuel count. The `Runtime` class is proved against these.
 */
module Semantics {
  import opened Wrappers
  import opened Instructions

  /**
   * A machine state: the 1-based program counter, the value stack listed
   * bottom to top (the top is the last element), and the memory bank.
   */
  datatype Machine = Machine(pc: int, stack: seq<real>, memory: seq<real>)

  /** How executing an instruction can fail. */
  datatype RuntimeError = StackUnderflow | LabelNotFound(name: string)

  /**
   * The outcome of one instruction: go on, stop (the exit instruction), or fail.
   * A failure carries the state as it was left at the point of failure.
   */
  datatype StepResult =
    | Continue(after: Machine)
    | Exited(after: Machine)
    | Fault(after: Machine, error: RuntimeError)

  /** The outcome of a bounded run. */
  datatype RunOutcome =
    | Halted(after: Machine)
    | FellOff(after: Machine)
    | Aborted(after: Machine, error: RuntimeError)
    | OutOfFuel(after: Machine)

  function Zeros(n: nat): (z: seq<real>)
    ensures |z| == n && forall k :: 0 <= k < n ==> z[k] == 0.0
  {
    seq(n, _ => 0.0)
  }

  /** The state a run starts from: pc 1, an empty stack and ten zero slots. */
  function InitialMachine(): Machine
  {
    Machine(1, [], Zeros(MemorySize))
  }

  /** What holds of the machine between instructions while running `pgm`. */
  predicate Inv(pgm: seq<Instruction>, m: Machine)
  {
    |m.memory| == MemorySize && 1 <= m.pc <= |pgm| + 1
  }

  /**
   * Label resolution: the 1-based position of the first `label` instruction
   * with the given name, or nothing when the program declares no such label.
   */
  function FindLabel(pgm: seq<Instruction>, name: string): (r: Option<nat>)
    ensures r.Some? ==> 1 <= r.value <= |pgm|
  {
    if pgm == [] then None
    else if pgm[0] == Label(name) then Some(1)
    else
      match FindLabel(pgm[1..], name)
      case None => None
      case Some(k) => Some(k + 1)
  }

  /**
   * What label lookup finds: a position holding `label name` with no such
   * declaration before it, and nothing exactly when the program declares none.
   */
  lemma {:induction false} FindLabelSpec(pgm: seq<Instruction>, name: string)
    ensures var r := FindLabel(pgm, name);
      && (r.Some? ==> pgm[r.value - 1] == Label(name) && forall j :: 0 <= j < r.value - 1 ==> pgm[j] != Label(name))
      && (r.None? <==> forall j :: 0 <= j < |pgm| ==> pgm[j] != Label(name))
  {
    if pgm != [] && pgm[0] != Label(name) {
      var tail := pgm[1..];
      FindLabelSpec(tail, name);
      assert forall j :: 1 <= j < |pgm| ==> pgm[j] == tail[j - 1];
    }
  }

  /** A label declared at index k, with no declaration of the same name before it, resolves to position k + 1. */
  lemma FindLabelFirst(pgm: seq<Instruction>, name: string, k: nat)
    requires k < |pgm| && pgm[k] == Label(name)
    requires forall j :: 0 <= j < k ==> pgm[j] != Label(name)
    ensures FindLabel(pgm, name) == Some(k + 1)
  {
    FindLabelSpec(pgm, name);
  }

  /**
   * The arithmetic of `add`, `sub`, `mul` and `div` on A, the value popped
   * first (the top), and B, the value popped second. Division by zero yields
   * 0.0 here: the IEEE infinities and NaN are outside this model.
   */
  function Apply(i: Instruction, a: real, b: real): real
    requires IsArithmetic(i)
  {
    match i
    case Add => a + b
    case Sub => a - b
    case Mul => a * b
    case Div => if b == 0.0 then 0.0 else a / b
  }

  /** Sets the program counter just past the label `target`, or fails when it is not declared. */
  function Jump(pgm: seq<Instruction>, m: Machine, target: string): StepResult
  {
    match FindLabel(pgm, target)
    case None => Fault(m, LabelNotFound(target))
    case Some(k) => Continue(m.(pc := k + 1))
  }

  /**
   * Executes `i` in state `m` of program `pgm`. Every instruction that
   * completes, `exit` included, adds one to the program counter after its
   * effect; a jump first sets it to the label's position.
   */
  function Step(pgm: seq<Instruction>, m: Machine, i: Instruction): (r: StepResult)
    requires |m.memory| == MemorySize
    ensures |r.after.memory| == MemorySize
    ensures 1 <= m.pc <= |pgm| ==> 1 <= r.after.pc <= |pgm| + 1
    ensures r.Fault? ==> r.after.pc == m.pc && r.after.memory == m.memory
  {
    var n := |m.stack|;
    match i
    case Exit => Exited(m.(pc := m.pc + 1))
    case PushLiteral(v) => Continue(m.(pc := m.pc + 1, stack := m.stack + [v]))
    case PushLocation(a) => Continue(m.(pc := m.pc + 1, stack := m.stack + [m.memory[a]]))
    case Pop(a) =>
      if n == 0 then Fault(m, StackUnderflow)
      else Continue(Machine(m.pc + 1, m.stack[..n - 1], m.memory[a := m.stack[n - 1]]))
    case Add => Arithmetic(m, i)
    case Sub => Arithmetic(m, i)
    case Mul => Arithmetic(m, i)
    case Div => Arithmetic(m, i)
    case Label(_) => Continue(m.(pc := m.pc + 1))
    case Jmpz(target) =>
      if n == 0 then Fault(m, StackUnderflow)
      else if m.stack[n - 1] == 0.0 then Jump(pgm, m, target)
      else Continue(m.(pc := m.pc + 1))
    case Jmp(target) => Jump(pgm, m, target)
    case Dec =>
      if n == 0 then Fault(m, StackUnderflow)
      else Continue(m.(pc := m.pc + 1, stack := m.stack[..n - 1] + [m.stack[n - 1] - 1.0]))
  }

  /**
   * `add`, `sub`, `mul`, `div`: pop A, pop B, push A op B. With one value
   * on the stack that value has already been popped when the second pop fails.
   */
  function Arithmetic(m: Machine, i: Instruction): StepResult
    requires IsArithmetic(i)
  {
    var n := |m.stack|;
    if n == 0 then Fault(m, StackUnderflow)
    else if n == 1 then Fault(m.(stack := []), StackUnderflow)
    else Continue(m.(pc := m.pc + 1, stack := m.stack[..n - 2] + [Apply(i, m.stack[n - 1], m.stack[n - 2])]))
  }

  /**
   * Runs `pgm` from `m` for at most `fuel` instructions: stop when the program
   * counter has passed the last instruction, on `exit`, or on a failure.
   */
  function RunFrom(pgm: seq<Instruction>, m: Machine, fuel: nat): (r: RunOutcome)
    requires Inv(pgm, m)
    ensures Inv(pgm, r.after)
    ensures r.FellOff? ==> r.after.pc == |pgm| + 1
    ensures r.OutOfFuel? ==> r.after.pc <= |pgm|
    decreases fuel, 0
  {
    if m.pc > |pgm| then FellOff(m)
    else if fuel == 0 then OutOfFuel(m)
    else Resume(pgm, Step(pgm, m, pgm[m.pc - 1]), fuel - 1)
  }

  /** How a run goes on after one step: the next instruction, a halt or a failure. */
  function Resume(pgm: seq<Instruction>, s: StepResult, fuel: nat): (r: RunOutcome)
    requires Inv(pgm, s.after)
    ensures Inv(pgm, r.after)
    ensures r.FellOff? ==> r.after.pc == |pgm| + 1
    ensures r.OutOfFuel? ==> r.after.pc <= |pgm|
    decreases fuel, 1
  {
    match s
    case Continue(next) => RunFrom(pgm, next, fuel)
    case Exited(last) => Halted(last)
    case Fault(last, e) => Aborted(last, e)
  }

  /** A run of `pgm` on a freshly initialised machine. */
  function RunProgram(pgm: seq<Instruction>, fuel: nat): RunOutcome
  {
    RunFrom(pgm, InitialMachine(), fuel)
  }

  // ---------------------------------------------------------------------
  // Per-opcode effects
  // ---------------------------------------------------------------------

  /** The initial state: pc 1, an empty stack, ten slots that all hold 0.0. */
  lemma InitialState(pgm: seq<Instruction>)
    ensures Inv(pgm, InitialMachine())
    ensures InitialMachine().pc == 1 && InitialMachine().stack == []
    ensures |InitialMachine().memory| == 10
    ensures forall a :: 0 <= a < 10 ==> InitialMachine().memory[a] == 0.0
  {
  }

  /**
   * `pop a` on a non-empty stack moves the top value into slot `a` and leaves
   * every other slot alone; `push a` pushes slot `a` and changes no slot.
   */
  lemma MemoryAccess(pgm: seq<Instruction>, m: Machine, a: Address)
    requires |m.memory| == MemorySize
    ensures m.stack != [] ==>
      var r := Step(pgm, m, Pop(a));
      r.Continue? && r.after.stack == m.stack[..|m.stack| - 1]
      && r.after.memory[a] == m.stack[|m.stack| - 1]
      && (forall b :: 0 <= b < MemorySize && b != a ==> r.after.memory[b] == m.memory[b])
    ensures var r := Step(pgm, m, PushLocation(a));
      r.Continue? && r.after.stack == m.stack + [m.memory[a]] && r.after.memory == m.memory
  {
  }

  /**
   * With at least two values, an arithmetic opcode replaces the top two, A
   * (top) and B (next), by A op B: one value fewer, the rest of the stack
   * and the memory untouched. `sub` is top minus next, `div` top over next.
   */
  lemma ArithmeticEffect(pgm: seq<Instruction>, m: Machine, i: Instruction)
    requires |m.memory| == MemorySize && IsArithmetic(i) && |m.stack| >= 2
    ensures var r := Step(pgm, m, i); var n := |m.stack|;
      r.Continue? && |r.after.stack| == n - 1
      && r.after.stack[..n - 2] == m.stack[..n - 2]
      && r.after.memory == m.memory && r.after.pc == m.pc + 1
      && (i.Add? ==> r.after.stack[n - 2] == m.stack[n - 1] + m.stack[n - 2])
      && (i.Sub? ==> r.after.stack[n - 2] == m.stack[n - 1] - m.stack[n - 2])
      && (i.Mul? ==> r.after.stack[n - 2] == m.stack[n - 1] * m.stack[n - 2])
      && (i.Div? && m.stack[n - 2] != 0.0 ==> r.after.stack[n - 2] == m.stack[n - 1] / m.stack[n - 2])
  {
  }

  /** `dec` replaces the top value v by v - 1 and keeps the depth. */
  lemma DecEffect(pgm: seq<Instruction>, m: Machine)
    requires |m.memory| == MemorySize && m.stack != []
    ensures var r := Step(pgm, m, Dec); var n := |m.stack|;
      r.Continue? && |r.after.stack| == n && r.after.stack[..n - 1] == m.stack[..n - 1]
      && r.after.stack[n - 1] == m.stack[n - 1] - 1.0
      && r.after.memory == m.memory && r.after.pc == m.pc + 1
  {
  }

  /**
   * Stack underflow: `pop`, `dec` and `jmpz` on an empty stack fail with the
   * state unchanged; an arithmetic opcode with fewer than two values fails
   * with an empty stack, having popped the single value there was.
   */
  lemma Underflow(pgm: seq<Instruction>, m: Machine, i: Instruction)
    requires |m.memory| == MemorySize
    ensures m.stack == [] && (i.Pop? || i.Dec? || i.Jmpz?) ==> Step(pgm, m, i) == Fault(m, StackUnderflow)
    ensures |m.stack| < 2 && IsArithmetic(i) ==> Step(pgm, m, i) == Fault(m.(stack := []), StackUnderflow)
  {
  }

  /**
   * Jumps: `jmp t` goes to just past the first `label t`, or fails with
   * label-not-found; `jmpz t` peeks without popping and does the same only
   * when the top is 0, otherwise it moves on. Neither touches stack or memory.
   */
  lemma JumpEffect(pgm: seq<Instruction>, m: Machine, t: string)
    requires |m.memory| == MemorySize
    ensures var r := Step(pgm, m, Jmp(t));
      match FindLabel(pgm, t)
      case None => r == Fault(m, LabelNotFound(t))
      case Some(k) => r == Continue(m.(pc := k + 1)) && pgm[k - 1] == Label(t)
    ensures m.stack != [] ==>
      Step(pgm, m, Jmpz(t)) ==
        if m.stack[|m.stack| - 1] == 0.0 then Step(pgm, m, Jmp(t)) else Continue(m.(pc := m.pc + 1))
    ensures var r := Step(pgm, m, Jmpz(t));
      r.after.stack == m.stack && r.after.memory == m.memory
  {
    FindLabelSpec(pgm, t);
  }

  /**
   * The program counter: every instruction other than a jump that completes,
   * `label` and `exit` included, adds exactly one to it and only `exit` stops.
   */
  lemma ProgramCounterAdvances(pgm: seq<Instruction>, m: Machine, i: Instruction)
    requires |m.memory| == MemorySize && !IsJump(i)
    ensures var r := Step(pgm, m, i); !r.Fault? ==> r.after.pc == m.pc + 1
    ensures Step(pgm, m, i).Exited? <==> i.Exit?
    ensures i.Exit? ==> Step(pgm, m, i) == Exited(m.(pc := m.pc + 1))
    ensures i.Label? ==> Step(pgm, m, i) == Continue(m.(pc := m.pc + 1))
  {
  }

  // ---------------------------------------------------------------------
  // Runs
  // ---------------------------------------------------------------------

  /** One instruction of a run: what the step does decides how the run goes on. */
  lemma RunStep(pgm: seq<Instruction>, m: Machine, fuel: nat)
    requires Inv(pgm, m) && m.pc <= |pgm| && fuel > 0
    ensures var r := Step(pgm, m, pgm[m.pc - 1]);
      && (r.Continue? ==> RunFrom(pgm, m, fuel) == RunFrom(pgm, r.after, fuel - 1))
      && (r.Exited? ==> RunFrom(pgm, m, fuel) == Halted(r.after))
      && (r.Fault? ==> RunFrom(pgm, m, fuel) == Aborted(r.after, r.error))
  {
  }

  /** A step that goes on hands the rest of the run, one unit of fuel less, to the next machine. */
  lemma StepContinues(pgm: seq<Instruction>, m: Machine, next: Machine, fuel: nat)
    requires Inv(pgm, m) && m.pc <= |pgm| && fuel > 0
    requires Step(pgm, m, pgm[m.pc - 1]) == Continue(next)
    ensures RunFrom(pgm, m, fuel) == RunFrom(pgm, next, fuel - 1)
  {
    RunStep(pgm, m, fuel);
  }

  /**
   * More fuel never changes a run that finished: once a run halts, falls
   * off the end or fails within some fuel, it does the same with any more.
   */
  lemma {:induction false} RunMoreFuel(pgm: seq<Instruction>, m: Machine, fuel: nat, more: nat)
    requires Inv(pgm, m) && fuel <= more
    requires !RunFrom(pgm, m, fuel).OutOfFuel?
    ensures RunFrom(pgm, m, more) == RunFrom(pgm, m, fuel)
    decreases fuel
  {
    if m.pc <= |pgm| {
      RunStep(pgm, m, fuel);
      RunStep(pgm, m, more);
      var r := Step(pgm, m, pgm[m.pc - 1]);
      if r.Continue? {
        RunMoreFuel(pgm, r.after, fuel - 1, more - 1);
      }
    }
  }

  /**
   * A straight-line stretch ending in `exit` at position n: when no jump and
   * no earlier `exit` lies between pc and n, the run either fails on the way
   * or halts with pc = n + 1, given one unit of fuel per instruction.
   */
  lemma {:induction false} StraightLineHalts(pgm: seq<Instruction>, m: Machine, n: nat, fuel: nat)
    requires Inv(pgm, m) && m.pc <= n <= |pgm| && pgm[n - 1] == Exit
    requires forall j :: m.pc - 1 <= j < n - 1 ==> !IsJump(pgm[j]) && !pgm[j].Exit?
    requires fuel >= n - m.pc + 1
    ensures var r := RunFrom(pgm, m, fuel); r.Aborted? || (r.Halted? && r.after.pc == n + 1)
    decreases n - m.pc
  {
    RunStep(pgm, m, fuel);
    var i := pgm[m.pc - 1];
    var r := Step(pgm, m, i);
    if m.pc == n {
      assert r == Exited(m.(pc := n + 1));
    } else {
      ProgramCounterAdvances(pgm, m, i);
      if r.Continue? {
        StraightLineHalts(pgm, r.after, n, fuel - 1);
      }
    }
  }

  /** A jump to a label the program does not declare ends the run at once, with the state it found. */
  lemma MissingLabelAborts(pgm: seq<Instruction>, m: Machine, fuel: nat)
    requires Inv(pgm, m) && m.pc <= |pgm| && fuel > 0
    requires pgm[m.pc - 1].Jmp? || (pgm[m.pc - 1].Jmpz? && m.stack != [] && m.stack[|m.stack| - 1] == 0.0)
    requires FindLabel(pgm, pgm[m.pc - 1].target).None?
    ensures RunFrom(pgm, m, fuel) == Aborted(m, LabelNotFound(pgm[m.pc - 1].target))
  {
  }
}
