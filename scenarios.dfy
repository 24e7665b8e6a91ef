/**
 * Whole runs of the example programs from the interpreter's unit tests, and
 * the general facts they illustrate.
 */
module Scenarios {
  import opened Wrappers
  import opened Instructions
  import opened Semantics
  import opened Engine

  /** push 5.0; push 3.4567; add; pop m0; exit */
  const AddAndStore: seq<Instruction> :=
    [PushLiteral(5.0), PushLiteral(3.4567), Add, Pop(0), Exit]

  /** push 5.0; pop m0; exit */
  const StoreFive: seq<Instruction> :=
    [PushLiteral(5.0), Pop(0), Exit]

  /** Computes 5! by repeated decrement and multiply, leaving the result on the stack. */
  const FactorialProgram: seq<Instruction> :=
    [ PushLiteral(5.0), Pop(0), PushLocation(0), PushLocation(0),
      Label("l2"), Dec, Jmpz("done"), Pop(0), PushLocation(0), Mul, PushLocation(0), Jmp("l2"),
      Label("done"), Pop(0), Exit ]

  /** Memory whose only non-zero slot may be `a`, holding `v`. */
  function MemoryWith(a: Address, v: real): (mem: seq<real>)
    ensures |mem| == MemorySize && mem[a] == v
    ensures forall b :: 0 <= b < MemorySize && b != a ==> mem[b] == 0.0
  {
    Zeros(MemorySize)[a := v]
  }

  /** Adding two literals and storing the sum ends at pc 6 with an empty stack and the sum in m0. */
  lemma AddAndStoreRun(fuel: nat)
    requires fuel >= 5
    ensures RunProgram(AddAndStore, fuel) == Halted(Machine(6, [], MemoryWith(0, 8.4567)))
  {
    AddAndStoreFrom(AddAndStore, fuel);
  }

  lemma AddAndStoreFrom(p: seq<Instruction>, fuel: nat)
    requires p == AddAndStore && fuel >= 5
    ensures RunProgram(p, fuel) == Halted(Machine(6, [], MemoryWith(0, 8.4567)))
  {
    var z := Zeros(MemorySize);
    var m0 := InitialMachine();
    var m1 := Machine(2, [5.0], z);
    var m2 := Machine(3, [5.0, 3.4567], z);
    var m3 := Machine(4, [8.4567], z);
    var m4 := Machine(5, [], MemoryWith(0, 8.4567));
    StepContinues(p, m0, m1, fuel);
    StepContinues(p, m1, m2, fuel - 1);
    StepContinues(p, m2, m3, fuel - 2);
    StepContinues(p, m3, m4, fuel - 3);
    RunStep(p, m4, fuel - 4);
  }

  /** Storing a literal ends at pc 4 with an empty stack and 5.0 in m0. */
  lemma StoreFiveRun(fuel: nat)
    requires fuel >= 3
    ensures RunProgram(StoreFive, fuel) == Halted(Machine(4, [], MemoryWith(0, 5.0)))
  {
    var p := StoreFive;
    var m0 := InitialMachine();
    var m1 := Machine(2, [5.0], Zeros(MemorySize));
    var m2 := Machine(3, [], MemoryWith(0, 5.0));
    StepContinues(p, m0, m1, fuel);
    StepContinues(p, m1, m2, fuel - 1);
    RunStep(p, m2, fuel - 2);
  }

  /**
   * An arithmetic instruction with a single value on the stack aborts with a
   * stack underflow at its own pc, the value it popped gone.
   */
  lemma AddUnderflowRun(fuel: nat)
    requires fuel >= 2
    ensures RunProgram([PushLiteral(1.0), Add], fuel) == Aborted(Machine(2, [], Zeros(MemorySize)), StackUnderflow)
  {
    var p := [PushLiteral(1.0), Add];
    var m0 := InitialMachine();
    var m1 := Machine(2, [1.0], Zeros(MemorySize));
    StepContinues(p, m0, m1, fuel);
    RunStep(p, m1, fuel - 1);
  }

  /**
   * Running the store-five program twice with the initialisation as written:
   * after the first run m0 holds 5.0, and the second initialisation keeps it
   * there instead of clearing it, so the second run does not start from the
   * initial machine.
   */
  lemma StoreFiveRerunAsWritten(fuel: nat)
    requires fuel >= 3
    ensures var first := RunProgram(StoreFive, fuel).after.memory;
      var second := AppendedMemory(first);
      second[0] == 5.0 && second[..MemorySize] != InitialMachine().memory
  {
    StoreFiveRun(fuel);
    RerunSeesOldMemory(MemoryWith(0, 5.0));
  }

  /**
   * Round trip through memory: pushing any literal and popping it into any
   * slot leaves that slot holding the literal, the stack empty, and the run
   * falling off the end at pc 3.
   */
  lemma PushPopRoundTrip(v: real, a: Address, fuel: nat)
    requires fuel >= 2
    ensures RunProgram([PushLiteral(v), Pop(a)], fuel) == FellOff(Machine(3, [], MemoryWith(a, v)))
  {
    var p := [PushLiteral(v), Pop(a)];
    var m0 := InitialMachine();
    var m1 := Machine(2, [v], Zeros(MemorySize));
    var m2 := Machine(3, [], MemoryWith(a, v));
    StepContinues(p, m0, m1, fuel);
    StepContinues(p, m1, m2, fuel - 1);
  }

  /** n!, as a value of the machine. */
  function Factorial(n: nat): (f: real)
    ensures f >= 1.0
  {
    if n == 0 then 1.0 else n as real * Factorial(n - 1)
  }

  /** The factorial program, instruction by instruction. */
  predicate FactorialShape(p: seq<Instruction>)
  {
    && |p| == 15
    && p[0] == PushLiteral(5.0) && p[1] == Pop(0) && p[2] == PushLocation(0) && p[3] == PushLocation(0)
    && p[4] == Label("l2") && p[5] == Dec && p[6] == Jmpz("done") && p[7] == Pop(0)
    && p[8] == PushLocation(0) && p[9] == Mul && p[10] == PushLocation(0) && p[11] == Jmp("l2")
    && p[12] == Label("done") && p[13] == Pop(0) && p[14] == Exit
  }

  /**
   * What the proofs about the factorial program need to know of it: its
   * instructions and where its two labels resolve.
   */
  predicate IsFactorialProgram(p: seq<Instruction>)
  {
    FactorialShape(p) && FindLabel(p, "l2") == Some(5) && FindLabel(p, "done") == Some(13)
  }

  /** In a program of the factorial's shape, `l2` resolves to 5 and `done` to 13. */
  lemma FactorialLabelsOf(p: seq<Instruction>)
    requires FactorialShape(p)
    ensures IsFactorialProgram(p)
  {
    FindLabelFirst(p, "l2", 4);
    assert p[4] != Label("done");
    FindLabelFirst(p, "done", 12);
  }

  /** The factorial program is what the proofs below assume. */
  lemma FactorialLabels()
    ensures IsFactorialProgram(FactorialProgram)
  {
    FactorialLabelsOf(FactorialProgram);
  }

  /** The factorial program at the `dec` after `label l2`, with accumulator `acc` and counter `c` on the stack and in m0. */
  function LoopHead(acc: real, c: real): Machine
  {
    Machine(6, [acc, c], MemoryWith(0, c))
  }

  /** One pass of the loop body, from counter c down to d = c - 1 when d is not zero. */
  lemma FactorialPass(p: seq<Instruction>, acc: real, c: real, d: real, fuel: nat)
    requires IsFactorialProgram(p)
    requires d == c - 1.0 && d != 0.0 && fuel >= 7
    ensures RunFrom(p, LoopHead(acc, c), fuel) == RunFrom(p, LoopHead(Apply(Mul, d, acc), d), fuel - 7)
  {
    FactorialPassDown(p, acc, c, d, fuel);
    FactorialPassUp(p, acc, d, fuel - 3);
  }

  /** `dec`, `jmpz done` (not taken) and `pop m0`: the decremented counter moves to m0. */
  lemma FactorialPassDown(p: seq<Instruction>, acc: real, c: real, d: real, fuel: nat)
    requires IsFactorialProgram(p)
    requires d == c - 1.0 && d != 0.0 && fuel >= 3
    ensures RunFrom(p, LoopHead(acc, c), fuel) == RunFrom(p, Machine(9, [acc], MemoryWith(0, d)), fuel - 3)
  {
    var m0 := LoopHead(acc, c);
    var m1 := Machine(7, [acc, d], MemoryWith(0, c));
    var m2 := Machine(8, [acc, d], MemoryWith(0, c));
    var m3 := Machine(9, [acc], MemoryWith(0, d));
    StepContinues(p, m0, m1, fuel);
    StepContinues(p, m1, m2, fuel - 1);
    assert MemoryWith(0, c)[0 := d] == MemoryWith(0, d);
    StepContinues(p, m2, m3, fuel - 2);
  }

  /** `push m0`, `mul`, `push m0` and `jmp l2`: the accumulator is multiplied by the counter and the loop restarts. */
  lemma FactorialPassUp(p: seq<Instruction>, acc: real, d: real, fuel: nat)
    requires IsFactorialProgram(p)
    requires fuel >= 4
    ensures RunFrom(p, Machine(9, [acc], MemoryWith(0, d)), fuel)
         == RunFrom(p, LoopHead(Apply(Mul, d, acc), d), fuel - 4)
  {
    var m3 := Machine(9, [acc], MemoryWith(0, d));
    var m4 := Machine(10, [acc, d], MemoryWith(0, d));
    var x := Apply(Mul, d, acc);
    var m5 := Machine(11, [x], MemoryWith(0, d));
    var m6 := Machine(12, [x, d], MemoryWith(0, d));
    var m7 := LoopHead(x, d);
    StepContinues(p, m3, m4, fuel);
    assert m4.stack[..0] + [Apply(Mul, m4.stack[1], m4.stack[0])] == [x];
    StepContinues(p, m4, m5, fuel - 1);
    StepContinues(p, m5, m6, fuel - 2);
    StepContinues(p, m6, m7, fuel - 3);
  }

  /** The last pass: the counter reaches zero, `jmpz done` jumps, m0 is cleared and `exit` stops at pc 16. */
  lemma FactorialExit(p: seq<Instruction>, acc: real, fuel: nat)
    requires IsFactorialProgram(p)
    requires fuel >= 4
    ensures RunFrom(p, LoopHead(acc, 1.0), fuel) == Halted(Machine(16, [acc], Zeros(MemorySize)))
  {
    var m0 := LoopHead(acc, 1.0);
    var m1 := Machine(7, [acc, 0.0], MemoryWith(0, 1.0));
    var m2 := Machine(14, [acc, 0.0], MemoryWith(0, 1.0));
    var m3 := Machine(15, [acc], Zeros(MemorySize));
    StepContinues(p, m0, m1, fuel);
    StepContinues(p, m1, m2, fuel - 1);
    assert MemoryWith(0, 1.0)[0 := 0.0] == Zeros(MemorySize);
    StepContinues(p, m2, m3, fuel - 2);
    RunStep(p, m3, fuel - 3);
  }

  /** What the loop leaves on the stack from accumulator `acc` and counter k: acc times every counter value from k - 1 down to 1. */
  function LoopResult(acc: real, k: nat): real
    requires k >= 1
    decreases k
  {
    if k == 1 then acc else LoopResult(Apply(Mul, (k - 1) as real, acc), k - 1)
  }

  lemma {:induction false} LoopResultFactorial(acc: real, k: nat)
    requires k >= 1
    ensures LoopResult(acc, k) == acc * Factorial(k - 1)
    decreases k
  {
    if k > 1 {
      LoopResultFactorial(Apply(Mul, (k - 1) as real, acc), k - 1);
      FactorialShift(acc, k);
    }
  }

  /**
   * From the loop head with counter k >= 1 the program halts at pc 16 with
   * the accumulated product alone on the stack and every memory slot 0.0.
   */
  lemma {:induction false} FactorialLoop(p: seq<Instruction>, acc: real, k: nat, fuel: nat)
    requires IsFactorialProgram(p)
    requires k >= 1 && fuel >= 7 * (k - 1) + 4
    ensures RunFrom(p, LoopHead(acc, k as real), fuel) == Halted(Machine(16, [LoopResult(acc, k)], Zeros(MemorySize)))
    decreases k
  {
    if k == 1 {
      FactorialExit(p, acc, fuel);
    } else {
      FactorialPass(p, acc, k as real, (k - 1) as real, fuel);
      FactorialLoop(p, Apply(Mul, (k - 1) as real, acc), k - 1, fuel - 7);
    }
  }

  /** Multiplying the accumulator by k - 1 before the remaining passes gives the same product. */
  lemma FactorialShift(acc: real, k: nat)
    requires k >= 2
    ensures Apply(Mul, (k - 1) as real, acc) * Factorial(k - 2) == acc * Factorial(k - 1)
  {
    var d := (k - 1) as real;
    var f := Factorial(k - 2);
    assert Factorial(k - 1) == d * f;
  }

  /** The factorial program ends at pc 16 with 120 on the stack and every memory slot 0.0. */
  lemma FactorialRun(fuel: nat)
    requires fuel >= 37
    ensures RunProgram(FactorialProgram, fuel) == Halted(Machine(16, [120.0], Zeros(MemorySize)))
  {
    FactorialLabels();
    FactorialFromStart(FactorialProgram, fuel);
  }

  lemma FactorialFromStart(p: seq<Instruction>, fuel: nat)
    requires IsFactorialProgram(p) && fuel >= 37
    ensures RunProgram(p, fuel) == Halted(Machine(16, [120.0], Zeros(MemorySize)))
  {
    FactorialPrologue(p, fuel);
    FactorialLoop(p, 5.0, 5, fuel - 5);
    LoopResultFactorial(5.0, 5);
    assert Factorial(4) == 24.0;
  }

  /** `push 5.0`, `pop m0`, `push m0`, `push m0` and `label l2` reach the loop head with 5.0 as accumulator and counter. */
  lemma FactorialPrologue(p: seq<Instruction>, fuel: nat)
    requires IsFactorialProgram(p) && fuel >= 5
    ensures RunProgram(p, fuel) == RunFrom(p, LoopHead(5.0, 5.0), fuel - 5)
  {
    FactorialStore(p, fuel);
    FactorialLoad(p, fuel - 2);
  }

  lemma FactorialStore(p: seq<Instruction>, fuel: nat)
    requires IsFactorialProgram(p) && fuel >= 2
    ensures RunProgram(p, fuel) == RunFrom(p, Machine(3, [], MemoryWith(0, 5.0)), fuel - 2)
  {
    var m0 := InitialMachine();
    var m1 := Machine(2, [5.0], Zeros(MemorySize));
    var m2 := Machine(3, [], MemoryWith(0, 5.0));
    StepContinues(p, m0, m1, fuel);
    StepContinues(p, m1, m2, fuel - 1);
  }

  lemma FactorialLoad(p: seq<Instruction>, fuel: nat)
    requires IsFactorialProgram(p) && fuel >= 3
    ensures RunFrom(p, Machine(3, [], MemoryWith(0, 5.0)), fuel) == RunFrom(p, LoopHead(5.0, 5.0), fuel - 3)
  {
    var m2 := Machine(3, [], MemoryWith(0, 5.0));
    var m3 := Machine(4, [5.0], MemoryWith(0, 5.0));
    var m4 := Machine(5, [5.0, 5.0], MemoryWith(0, 5.0));
    StepContinues(p, m2, m3, fuel);
    StepContinues(p, m3, m4, fuel - 1);
    StepContinues(p, m4, LoopHead(5.0, 5.0), fuel - 2);
  }
}
