/**
 * The execution engine as the object the interpreter keeps: a program, a
 * program counter, a value stack and a memory bank, all updated in place.
 * Each method is proved against the pure semantics in module Semantics.
 */
module Engine {
  import opened Wrappers
  import opened Instructions
  import opened Parser
  import opened Semantics

  /** Memory after the as-written initialisation: ten zero slots appended to the old ones. */
  function AppendedMemory(previous: seq<real>): (m: seq<real>)
    ensures |m| == |previous| + MemorySize
    ensures m[..|previous|] == previous
    ensures forall k :: |previous| <= k < |m| ==> m[k] == 0.0
  {
    previous + Zeros(MemorySize)
  }

  /**
   * Why the as-written initialisation is wrong: the instructions only ever
   * address slots 0 to 9, so a second run sees the first run's memory there
   * instead of zeros, whatever the first run left behind.
   */
  lemma RerunSeesOldMemory(previous: seq<real>)
    requires |previous| == MemorySize
    ensures AppendedMemory(previous)[..MemorySize] == previous
    ensures AppendedMemory(previous)[..MemorySize] == InitialMachine().memory <==> previous == Zeros(MemorySize)
  {
  }

  /**
   * On a fresh runtime, which has no memory slots yet, the as-written
   * initialisation reaches exactly the initial machine, so a first run is
   * the same under both initialisations.
   */
  lemma FirstRunStartsFresh()
    ensures Machine(1, [], AppendedMemory([])) == InitialMachine()
  {
    assert [] + Zeros(MemorySize) == Zeros(MemorySize);
  }

  /**
   * One iteration of the loading loop: with the program read so far from the
   * first k lines, line k + 1 either fails, which ends loading with that
   * program, or adds nothing or one instruction before the remaining lines.
   */
  lemma LoadAdvance(lines: seq<string>, k: nat, pgm: seq<Instruction>)
    requires k < |lines|
    requires LoadFrom(lines, 1) == Loaded(pgm + LoadFrom(lines[k..], k + 1).program, LoadFrom(lines[k..], k + 1).error)
    ensures var rest := LoadFrom(lines[k + 1..], k + 2);
      match ParseInstruction(lines[k], k + 1)
      case Err(e) => LoadFrom(lines, 1) == Loaded(pgm, Some(e))
      case Ok(None) => LoadFrom(lines, 1) == Loaded(pgm + rest.program, rest.error)
      case Ok(Some(i)) => LoadFrom(lines, 1) == Loaded((pgm + [i]) + rest.program, rest.error)
  {
    var rest := LoadFrom(lines[k + 1..], k + 2);
    LoadFirstLine(ParseInstruction, lines[k..], k + 1);
    assert lines[k..][0] == lines[k] && lines[k..][1..] == lines[k + 1..];
    match ParseInstruction(lines[k], k + 1)
    case Err(e) =>
      assert pgm + [] == pgm;
    case Ok(None) =>
    case Ok(Some(i)) =>
      assert pgm + ([i] + rest.program) == (pgm + [i]) + rest.program;
  }

  /** What `processInstruction` reports: true to go on, false after `exit`, or the failure. */
  function Signal(r: StepResult): Result<bool, RuntimeError>
  {
    match r
    case Continue(_) => Ok(true)
    case Exited(_) => Ok(false)
    case Fault(_, e) => Err(e)
  }

  class Runtime {
    var pgm: seq<Instruction>
    var pc: int
    /** The value stack, bottom first; the top is the last element. */
    var stack: seq<real>
    var memory: seq<real>

    /** The machine state held in the fields. */
    function State(): Machine
      reads this
    {
      Machine(pc, stack, memory)
    }

    /** A fresh runtime: no program, an empty stack and no memory slots yet. */
    constructor ()
      ensures pgm == [] && pc == 0 && stack == [] && memory == []
    {
      pgm := [];
      pc := 0;
      stack := [];
      memory := [];
    }

    /**
     * Loads a program from its lines, numbered from 1: each line is parsed,
     * blank lines are skipped but still counted, and the first failing line
     * stops loading with the instructions read so far left in place.
     */
    method ReadLines(lines: seq<string>) returns (error: Option<ParseError>)
      modifies this
      ensures pgm == LoadFrom(lines, 1).program && error == LoadFrom(lines, 1).error
      ensures pc == old(pc) && stack == old(stack) && memory == old(memory)
    {
      pgm := [];
      var line := 1;
      var k := 0;
      while k < |lines|
        invariant 0 <= k <= |lines| && line == k + 1
        invariant LoadFrom(lines, 1) == Loaded(pgm + LoadFrom(lines[k..], line).program, LoadFrom(lines[k..], line).error)
        invariant pc == old(pc) && stack == old(stack) && memory == old(memory)
      {
        var parsed := ParseInstruction(lines[k], line);
        LoadAdvance(lines, k, pgm);
        match parsed {
          case Err(e) =>
            return Some(e);
          case Ok(None) =>
          case Ok(Some(i)) =>
            pgm := pgm + [i];
        }
        line := line + 1;
        k := k + 1;
      }
      assert lines[k..] == [];
      return None;
    }

    /**
     * `initialize` as written: empties the stack, appends ten zero slots to
     * the memory list instead of resetting it, and sets pc to 1.
     */
    method InitializeAsWritten()
      modifies this
      ensures stack == [] && memory == AppendedMemory(old(memory)) && pc == 1 && pgm == old(pgm)
    {
      while stack != []
        invariant memory == old(memory) && pgm == old(pgm)
        decreases |stack|
      {
        stack := stack[..|stack| - 1];
      }
      var i := 0;
      while i < MemorySize
        invariant 0 <= i <= MemorySize
        invariant memory == old(memory) + Zeros(i)
        invariant stack == [] && pgm == old(pgm)
      {
        assert Zeros(i) + [0.0] == Zeros(i + 1);
        memory := memory + [0.0];
        i := i + 1;
      }
      pc := 1;
    }

    /** `initialize` corrected: the memory list is cleared before the ten zero slots are added. */
    method Initialize()
      modifies this
      ensures State() == InitialMachine() && pgm == old(pgm)
    {
      memory := [];
      InitializeAsWritten();
    }

    /** `jumpToLabel`: a linear scan for the first `label` with the given name. */
    method JumpToLabel(name: string) returns (r: Result<nat, RuntimeError>)
      ensures r == if FindLabel(pgm, name).Some? then Ok(FindLabel(pgm, name).value) else Err(LabelNotFound(name))
    {
      FindLabelSpec(pgm, name);
      var i := 0;
      while i < |pgm|
        invariant 0 <= i <= |pgm|
        invariant forall j :: 0 <= j < i ==> pgm[j] != Label(name)
      {
        if pgm[i].Label? && pgm[i].name == name {
          return Ok(i + 1);
        }
        i := i + 1;
      }
      return Err(LabelNotFound(name));
    }

    /**
     * Pops A then B and pushes A op B; reports false, with whatever was
     * popped gone, when the stack runs out first.
     */
    method Arithmetic(i: Instruction) returns (ok: bool)
      requires IsArithmetic(i)
      modifies this
      ensures var r := Semantics.Arithmetic(old(State()), i);
        ok == r.Continue? && stack == r.after.stack
      ensures pc == old(pc) && memory == old(memory) && pgm == old(pgm)
    {
      var operands := new real[2];
      var j := 0;
      while j < 2
        invariant 0 <= j <= 2 && j <= |old(stack)|
        invariant stack == old(stack)[..|old(stack)| - j]
        invariant forall k :: 0 <= k < j ==> operands[k] == old(stack)[|old(stack)| - 1 - k]
        invariant pc == old(pc) && memory == old(memory) && pgm == old(pgm)
      {
        if stack == [] {
          return false;
        }
        operands[j] := stack[|stack| - 1];
        stack := stack[..|stack| - 1];
        j := j + 1;
      }
      stack := stack + [Apply(i, operands[0], operands[1])];
      return true;
    }

    /**
     * `processInstruction`: executes one instruction on the fields and
     * reports whether to go on, exactly as Step describes.
     */
    method ProcessInstruction(i: Instruction) returns (moveOn: Result<bool, RuntimeError>)
      requires |memory| == MemorySize
      modifies this
      ensures var r := Step(pgm, old(State()), i); State() == r.after && moveOn == Signal(r)
      ensures pgm == old(pgm)
    {
      match i {
        case Exit =>
          pc := pc + 1;
          return Ok(false);
        case PushLiteral(v) =>
          stack := stack + [v];
        case PushLocation(a) =>
          stack := stack + [memory[a]];
        case Pop(a) =>
          if stack == [] {
            return Err(StackUnderflow);
          }
          var top := stack[|stack| - 1];
          stack := stack[..|stack| - 1];
          memory := memory[a := top];
        case Add | Sub | Mul | Div =>
          var ok := Arithmetic(i);
          if !ok {
            return Err(StackUnderflow);
          }
        case Label(_) =>
        case Jmpz(t) =>
          if stack == [] {
            return Err(StackUnderflow);
          }
          if stack[|stack| - 1] == 0.0 {
            var target := JumpToLabel(t);
            if target.Err? {
              return Err(target.error);
            }
            pc := target.value;
          }
        case Jmp(t) =>
          var target := JumpToLabel(t);
          if target.Err? {
            return Err(target.error);
          }
          pc := target.value;
        case Dec =>
          if stack == [] {
            return Err(StackUnderflow);
          }
          var top := stack[|stack| - 1];
          stack := stack[..|stack| - 1];
          stack := stack + [top - 1.0];
      }
      pc := pc + 1;
      return Ok(true);
    }

    /**
     * `run`: initialises the machine, then executes the instruction at pc
     * until pc passes the last instruction, `exit` runs or an instruction
     * fails; at most `fuel` instructions are executed. The initialisation is
     * the corrected one, so every run starts from the initial machine; on a
     * fresh runtime (no memory slots yet) the original's appending
     * initialisation gives the same state.
     */
    method Run(fuel: nat) returns (outcome: RunOutcome)
      modifies this
      ensures outcome == RunProgram(pgm, fuel) && State() == outcome.after
      ensures pgm == old(pgm)
    {
      Initialize();
      assert RunFrom(pgm, State(), fuel) == RunProgram(pgm, fuel);
      var remaining := fuel;
      while pc <= |pgm|
        invariant Inv(pgm, State()) && pgm == old(pgm)
        invariant RunFrom(pgm, State(), remaining) == RunProgram(pgm, fuel)
        decreases remaining
      {
        if remaining == 0 {
          return OutOfFuel(State());
        }
        ghost var before := State();
        ghost var r := Step(pgm, before, pgm[pc - 1]);
        RunStep(pgm, before, remaining);
        var moveOn := ProcessInstruction(pgm[pc - 1]);
        assert State() == r.after && moveOn == Signal(r);
        remaining := remaining - 1;
        match moveOn {
          case Err(e) =>
            return Aborted(State(), e);
          case Ok(false) =>
            return Halted(State());
          case Ok(true) =>
            assert RunFrom(pgm, State(), remaining) == RunFrom(pgm, before, remaining + 1);
        }
      }
      return FellOff(State());
    }
  }
}
