/**
 * The parser: one line of program text becomes one instruction, no
 * instruction (an empty line) or a parse error; the loader runs it over the
 * lines of a program, numbering every line from 1.
 */
module Parser {
  import opened Wrappers
  import opened Numerals
  import opened Instructions

  /** How parsing a line can fail. */
  datatype ParseError =
    /** The "syntax error at line n" failure the parser raises on purpose. */
    | SyntaxError(line: int)
    /** The number-format failure that escapes from `pop` on a non-numeric address. */
    | BadNumber(text: string)
    /** The index failure of `label`, `jmpz` and `jmp` when their operand is missing. */
    | MissingOperand

  /** A non-empty run of non-space characters. */
  predicate IsWord(s: string)
  {
    |s| > 0 && forall k :: 0 <= k < |s| ==> s[k] != ' '
  }

  /** Every token is a word. */
  predicate AllWords(ts: seq<string>)
  {
    forall k :: 0 <= k < |ts| ==> IsWord(ts[k])
  }

  /** Length of the leading run of non-space characters of `s`. */
  function WordLength(s: string): (n: nat)
    ensures n <= |s|
    ensures forall k :: 0 <= k < n ==> s[k] != ' '
    ensures n < |s| ==> s[n] == ' '
  {
    if s == [] || s[0] == ' ' then 0 else 1 + WordLength(s[1..])
  }

  /** The tokens of a line: its maximal runs of non-space characters, in order. */
  function Tokens(s: string): (ts: seq<string>)
    ensures AllWords(ts)
    decreases |s|
  {
    if s == [] then []
    else if s[0] == ' ' then Tokens(s[1..])
    else
      var n := WordLength(s);
      [s[..n]] + Tokens(s[n..])
  }

  /** Words joined by single spaces. */
  function Unwords(ts: seq<string>): string
  {
    if ts == [] then ""
    else if |ts| == 1 then ts[0]
    else ts[0] + " " + Unwords(ts[1..])
  }

  lemma {:induction false} WordThenSpace(w: string, rest: string)
    requires IsWord(w)
    ensures WordLength(w + " " + rest) == |w|
    decreases |w|
  {
    if |w| > 1 {
      assert (w + " " + rest)[1..] == w[1..] + " " + rest;
      WordThenSpace(w[1..], rest);
    }
  }

  lemma {:induction false} WordAlone(w: string)
    requires IsWord(w)
    ensures WordLength(w) == |w|
    decreases |w|
  {
    if |w| > 1 {
      WordAlone(w[1..]);
    }
  }

  /** Splitting words that were joined by single spaces gives the words back. */
  lemma {:induction false} TokensUnwords(ts: seq<string>)
    requires AllWords(ts)
    ensures Tokens(Unwords(ts)) == ts
  {
    if |ts| == 1 {
      var w := ts[0];
      WordAlone(w);
      assert w[..|w|] == w;
      assert w[|w|..] == [];
    } else if |ts| > 1 {
      var w, rest := ts[0], Unwords(ts[1..]);
      var s := w + " " + rest;
      WordThenSpace(w, rest);
      assert s[..|w|] == w;
      assert s[|w|..] == " " + rest;
      assert (" " + rest)[1..] == rest;
      TokensUnwords(ts[1..]);
    }
  }

  /** An address operand: in range 0..9, else the syntax error of the line. */
  function CheckAddress(loc: int, line: int): Result<Address, ParseError>
  {
    if loc < 0 || loc > 9 then Err(SyntaxError(line)) else Ok(loc)
  }

  /** The instruction denoted by the tokens of line number `line`. */
  function ParseTokens(p: seq<string>, line: int): Result<Option<Instruction>, ParseError>
    requires AllWords(p)
  {
    if p == [] then Ok(None)
    else if p[0] == "exit" then Ok(Some(Exit))
    else if p[0] == "push" then
      if |p| == 1 then Err(SyntaxError(line))
      else if p[1][0] == 'm' then
        match ParseInt(p[1][1..])
        case None => Err(SyntaxError(line))
        case Some(loc) =>
          match CheckAddress(loc, line)
          case Err(e) => Err(e)
          case Ok(a) => Ok(Some(PushLocation(a)))
      else
        match ParseNumber(p[1])
        case None => Err(SyntaxError(line))
        case Some(v) => Ok(Some(PushLiteral(v)))
    else if p[0] == "pop" then
      if |p| == 1 then Err(SyntaxError(line))
      else
        match ParseInt(p[1][1..])
        case None => Err(BadNumber(p[1][1..]))
        case Some(loc) =>
          match CheckAddress(loc, line)
          case Err(e) => Err(e)
          case Ok(a) => Ok(Some(Pop(a)))
    else if p[0] == "add" then Ok(Some(Add))
    else if p[0] == "sub" then Ok(Some(Sub))
    else if p[0] == "mul" then Ok(Some(Mul))
    else if p[0] == "div" then Ok(Some(Div))
    else if p[0] == "label" then
      if |p| == 1 then Err(MissingOperand) else Ok(Some(Label(p[1])))
    else if p[0] == "jmpz" then
      if |p| == 1 then Err(MissingOperand) else Ok(Some(Jmpz(p[1])))
    else if p[0] == "jmp" then
      if |p| == 1 then Err(MissingOperand) else Ok(Some(Jmp(p[1])))
    else if p[0] == "dec" then Ok(Some(Dec))
    else Err(SyntaxError(line))
  }

  /** Parses line number `line` of a program. */
  function ParseInstruction(s: string, line: int): Result<Option<Instruction>, ParseError>
  {
    ParseTokens(Tokens(s), line)
  }

  /** The mnemonics the parser recognises. */
  const Mnemonics: set<string> :=
    {"exit", "push", "pop", "add", "sub", "mul", "div", "label", "jmpz", "jmp", "dec"}

  /**
   * An instruction that has a textual form with `places` digits after the
   * point of its literal: names are single words, and a literal is a finite
   * decimal whose value times 10^places is an integer.
   */
  predicate Printable(i: Instruction, places: nat)
  {
    match i
    case PushLiteral(v) => IsScaledInteger(v, places)
    case Label(n) => IsWord(n)
    case Jmpz(n) => IsWord(n)
    case Jmp(n) => IsWord(n)
    case _ => true
  }

  /** v * 10^places is an integer. */
  predicate IsScaledInteger(v: real, places: nat)
  {
    Scaled(v, places) as real == v * Pow10(places) as real
  }

  /** The integer part of v * 10^places: the digits of v written with `places` fraction digits. */
  function Scaled(v: real, places: nat): int
  {
    (v * Pow10(places) as real).Floor
  }

  /** The tokens of the canonical text of an instruction, literals written with `places` fraction digits. */
  function Render(i: Instruction, places: nat): (ts: seq<string>)
    requires Printable(i, places)
    ensures AllWords(ts)
  {
    match i
    case Exit => ["exit"]
    case PushLiteral(v) => ["push", ShowDecimal(Scaled(v, places), places)]
    case PushLocation(a) => ["push", "m" + ShowNat(a)]
    case Pop(a) => ["pop", "m" + ShowNat(a)]
    case Add => ["add"]
    case Sub => ["sub"]
    case Mul => ["mul"]
    case Div => ["div"]
    case Label(n) => ["label", n]
    case Jmpz(n) => ["jmpz", n]
    case Jmp(n) => ["jmp", n]
    case Dec => ["dec"]
  }

  /**
   * Every printable instruction is parsed back from its canonical text, on
   * any line; decimal literals such as 3.4567 (four places) are included.
   */
  lemma ParseRender(i: Instruction, places: nat, line: int)
    requires Printable(i, places)
    ensures ParseInstruction(Unwords(Render(i, places)), line) == Ok(Some(i))
  {
    TokensUnwords(Render(i, places));
    if i.PushLiteral? || i.PushLocation? || i.Pop? {
      ParseRenderOperand(i, places, line);
    } else if i.Label? || i.Jmpz? || i.Jmp? {
      ParseRenderName(i, places, line);
    } else {
      ParseRenderNullary(i, places, line);
    }
  }

  lemma ParseRenderOperand(i: Instruction, places: nat, line: int)
    requires i.PushLiteral? || i.PushLocation? || i.Pop?
    requires Printable(i, places)
    ensures ParseTokens(Render(i, places), line) == Ok(Some(i))
  {
    var ts := Render(i, places);
    match i
    case PushLiteral(v) =>
      ParseRenderLiteral(v, places, line);
    case PushLocation(a) =>
      assert ts[1][1..] == ShowNat(a);
      ParseIntShowNat(a);
    case Pop(a) =>
      assert ts[1][1..] == ShowNat(a);
      ParseIntShowNat(a);
  }

  lemma ParseRenderLiteral(v: real, places: nat, line: int)
    requires IsScaledInteger(v, places)
    ensures ParseTokens(Render(PushLiteral(v), places), line) == Ok(Some(PushLiteral(v)))
  {
    var text := ShowDecimal(Scaled(v, places), places);
    LiteralText(v, places);
    PushLiteralText(text, v, line);
    assert Render(PushLiteral(v), places) == ["push", text];
  }

  /** The decimal spelling of a literal reads back as the literal. */
  lemma LiteralText(v: real, places: nat)
    requires IsScaledInteger(v, places)
    ensures ParseNumber(ShowDecimal(Scaled(v, places), places)) == Some(v)
  {
    ParseNumberShowDecimal(Scaled(v, places), places);
    ScaledBack(v, Pow10(places), Scaled(v, places));
  }

  /** `push` followed by a number that does not start with 'm' pushes that number. */
  lemma PushLiteralText(text: string, v: real, line: int)
    requires IsWord(text) && text[0] != 'm' && ParseNumber(text) == Some(v)
    ensures ParseTokens(["push", text], line) == Ok(Some(PushLiteral(v)))
  {
  }

  /** Dividing v * p back by p gives v. */
  lemma ScaledBack(v: real, p: nat, z: int)
    requires p > 0 && z as real == v * p as real
    ensures z as real / p as real == v
  {
  }

  lemma ParseRenderName(i: Instruction, places: nat, line: int)
    requires i.Label? || i.Jmpz? || i.Jmp?
    requires Printable(i, places)
    ensures ParseTokens(Render(i, places), line) == Ok(Some(i))
  {
  }

  lemma ParseRenderNullary(i: Instruction, places: nat, line: int)
    requires !(i.PushLiteral? || i.PushLocation? || i.Pop? || i.Label? || i.Jmpz? || i.Jmp?)
    ensures ParseTokens(Render(i, places), line) == Ok(Some(i))
  {
  }

  /** The empty line and every line of spaces denote no instruction. */
  lemma BlankLine(s: string, line: int)
    requires forall k :: 0 <= k < |s| ==> s[k] == ' '
    ensures ParseInstruction(s, line) == Ok(None)
  {
    BlankTokens(s);
  }

  lemma {:induction false} BlankTokens(s: string)
    requires forall k :: 0 <= k < |s| ==> s[k] == ' '
    ensures Tokens(s) == []
    decreases |s|
  {
    if s != [] {
      BlankTokens(s[1..]);
    }
  }

  /** Only the first two tokens are read: extra operands are ignored by every mnemonic. */
  lemma ExtraTokensIgnored(p: seq<string>, line: int)
    requires |p| > 2 && AllWords(p)
    ensures ParseTokens(p, line) == ParseTokens(p[..2], line)
  {
  }

  /** A first token that is no mnemonic is a syntax error naming the line. */
  lemma UnknownMnemonic(p: seq<string>, line: int)
    requires |p| > 0 && AllWords(p)
    requires p[0] !in Mnemonics
    ensures ParseTokens(p, line) == Err(SyntaxError(line))
  {
  }

  /**
   * `push` needs an operand; an `m` operand must be followed by a number in
   * 0..9 (negative, too large, missing or anything `Integer.parseInt`
   * rejects all fail, the number-format failure being caught), and any
   * other operand must be a number, or the line is a syntax error.
   */
  lemma PushOperandErrors(z: int, d: string, text: string, line: int)
    requires z < 0 || z > 9
    requires (forall j :: 0 <= j < |d| ==> d[j] != ' ') && ParseInt(d) == None
    requires IsWord(text) && text[0] != 'm' && ParseNumber(text) == None
    ensures ParseTokens(["push"], line) == Err(SyntaxError(line))
    ensures ParseTokens(["push", "m"], line) == Err(SyntaxError(line))
    ensures ParseTokens(["push", "m" + ShowInt(z)], line) == Err(SyntaxError(line))
    ensures ParseTokens(["push", "m" + d], line) == Err(SyntaxError(line))
    ensures ParseTokens(["push", text], line) == Err(SyntaxError(line))
  {
    assert "m"[1..] == "";
    assert ("m" + ShowInt(z))[1..] == ShowInt(z);
    ParseIntShowInt(z);
    assert ("m" + d)[1..] == d;
  }

  /**
   * `pop` drops the first character of its operand without looking at it:
   * any one-character prefix followed by an address in 0..9 is accepted, any
   * other `int` (negative ones included) is a syntax error, and a number
   * outside the `int` range escapes as a number-format failure. A missing
   * operand is a syntax error.
   */
  lemma PopOperand(c: char, z: int, line: int)
    requires c != ' '
    ensures ParseTokens(["pop"], line) == Err(SyntaxError(line))
    ensures ParseTokens(["pop", [c] + ShowInt(z)], line)
         == if 0 <= z <= 9 then Ok(Some(Pop(z)))
            else if IntMin <= z <= IntMax then Err(SyntaxError(line))
            else Err(BadNumber(ShowInt(z)))
  {
    assert ([c] + ShowInt(z))[1..] == ShowInt(z);
    ParseIntShowInt(z);
  }

  /**
   * After its first character, a `pop` operand that `Integer.parseInt`
   * rejects (empty, non-numeric or out of range) is not caught by the parser:
   * it escapes as the number-format failure of that text.
   */
  lemma PopNumberFormat(c: char, d: string, line: int)
    requires c != ' ' && forall j :: 0 <= j < |d| ==> d[j] != ' '
    requires ParseInt(d) == None
    ensures ParseTokens(["pop", [c] + d], line) == Err(BadNumber(d))
  {
    assert ([c] + d)[1..] == d;
  }

  /** The result of loading: the instructions appended so far and the error that stopped loading, if any. */
  datatype Loaded = Loaded(program: seq<Instruction>, error: Option<ParseError>)

  /** A line parser: a line of text and its number give an instruction, nothing, or an error. */
  type LineParser = (string, int) -> Result<Option<Instruction>, ParseError>

  /**
   * The loader's loop over `lines`, the first of which has number `line`:
   * every line is handed to `parse` under its own number, each instruction is
   * appended in order, and the first failing line stops loading with the
   * instructions before it kept. The facts below hold for any line parser.
   */
  function LoadWith(parse: LineParser, lines: seq<string>, line: int): Loaded
  {
    if lines == [] then Loaded([], None)
    else
      match parse(lines[0], line)
      case Err(e) => Loaded([], Some(e))
      case Ok(None) => LoadWith(parse, lines[1..], line + 1)
      case Ok(Some(i)) =>
        var rest := LoadWith(parse, lines[1..], line + 1);
        Loaded([i] + rest.program, rest.error)
  }

  /** Loading the lines of a program with the instruction parser. */
  function LoadFrom(lines: seq<string>, line: int): Loaded
  {
    LoadWith(ParseInstruction, lines, line)
  }

  /** Loading a non-empty block starts with its first line, numbered `line`. */
  lemma LoadFirstLine(parse: LineParser, lines: seq<string>, line: int)
    requires lines != []
    ensures var rest := LoadWith(parse, lines[1..], line + 1);
      LoadWith(parse, lines, line) ==
        match parse(lines[0], line)
        case Err(e) => Loaded([], Some(e))
        case Ok(None) => rest
        case Ok(Some(i)) => Loaded([i] + rest.program, rest.error)
  {
  }

  /** Loading never yields more instructions than there are lines. */
  lemma {:induction false} LoadLength(parse: LineParser, lines: seq<string>, line: int)
    ensures |LoadWith(parse, lines, line).program| <= |lines|
  {
    if lines != [] {
      LoadLength(parse, lines[1..], line + 1);
    }
  }

  /**
   * Loading two blocks of lines one after the other: when the first loads
   * cleanly, the second is numbered from `line + |a|` whatever number of
   * instructions the first produced, and its instructions follow the first's;
   * when the first fails, the second is never read.
   */
  lemma {:induction false} LoadAppend(parse: LineParser, a: seq<string>, b: seq<string>, line: int)
    ensures LoadWith(parse, a, line).error.None? ==>
      LoadWith(parse, a + b, line) == Loaded(LoadWith(parse, a, line).program + LoadWith(parse, b, line + |a|).program,
                                             LoadWith(parse, b, line + |a|).error)
    ensures LoadWith(parse, a, line).error.Some? ==> LoadWith(parse, a + b, line) == LoadWith(parse, a, line)
  {
    if a == [] {
      assert a + b == b;
    } else {
      var ab := a + b;
      assert ab[0] == a[0];
      assert ab[1..] == a[1..] + b;
      LoadAppend(parse, a[1..], b, line + 1);
      var tail := LoadWith(parse, a[1..], line + 1);
      var r := parse(a[0], line);
      match r
      case Err(e) =>
        assert LoadWith(parse, a, line) == Loaded([], Some(e));
        assert LoadWith(parse, ab, line) == Loaded([], Some(e));
      case Ok(None) =>
        assert LoadWith(parse, a, line) == tail;
        assert LoadWith(parse, ab, line) == LoadWith(parse, a[1..] + b, line + 1);
      case Ok(Some(i)) =>
        assert LoadWith(parse, a, line) == Loaded([i] + tail.program, tail.error);
        var abTail := LoadWith(parse, a[1..] + b, line + 1);
        assert LoadWith(parse, ab, line) == Loaded([i] + abTail.program, abTail.error);
        if tail.error.None? {
          assert [i] + (tail.program + LoadWith(parse, b, line + |a|).program)
              == ([i] + tail.program) + LoadWith(parse, b, line + |a|).program;
        }
    }
  }

  /**
   * A load that fails names the first failing line: the lines before it all
   * parse, and the error is the one that line raises under its own number.
   */
  lemma {:induction false} LoadErrorLine(parse: LineParser, lines: seq<string>, line: int)
    requires LoadWith(parse, lines, line).error.Some?
    ensures exists k :: 0 <= k < |lines| && parse(lines[k], line + k) == Err(LoadWith(parse, lines, line).error.value)
                         && (forall j :: 0 <= j < k ==> parse(lines[j], line + j).Ok?)
  {
    var err := LoadWith(parse, lines, line).error.value;
    if parse(lines[0], line).Err? {
      assert parse(lines[0], line + 0) == Err(err);
    } else {
      LoadErrorLine(parse, lines[1..], line + 1);
      LoadErrorShift(parse, lines, line, err);
    }
  }

  /** Moves a first failing line of `lines[1..]` one position down when line 0 parses. */
  lemma LoadErrorShift(parse: LineParser, lines: seq<string>, line: int, err: ParseError)
    requires |lines| > 0 && parse(lines[0], line).Ok?
    requires exists k :: 0 <= k < |lines[1..]| && parse(lines[1..][k], line + 1 + k) == Err(err)
                         && (forall j :: 0 <= j < k ==> parse(lines[1..][j], line + 1 + j).Ok?)
    ensures exists k :: 0 <= k < |lines| && parse(lines[k], line + k) == Err(err)
                         && (forall j :: 0 <= j < k ==> parse(lines[j], line + j).Ok?)
  {
    var tail := lines[1..];
    var k :| 0 <= k < |tail| && parse(tail[k], line + 1 + k) == Err(err)
              && (forall j :: 0 <= j < k ==> parse(tail[j], line + 1 + j).Ok?);
    forall j | 0 <= j < k + 1
      ensures parse(lines[j], line + j).Ok?
    {
      if j > 0 {
        assert lines[j] == tail[j - 1];
      }
    }
    assert lines[k + 1] == tail[k];
    assert parse(lines[k + 1], line + (k + 1)) == Err(err);
  }
}
