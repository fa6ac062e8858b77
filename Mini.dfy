/**
 * Identifiers of the Mini example compiler: how a use of a name is resolved in the
 * environment, how its type is unified with the type its context expects, and which
 * code is emitted for it; and the environment entry of a declared variable.
 */
module Mini {
  import opened Wrappers

  /**
   * The code of the "type not known yet" state of a type cell (org.apache.bcel.Const.T_UNKNOWN).
   * Every other value is a known type.
   */
  const T_UNKNOWN: int := 15

  // ---------------------------------------------------------------------------
  // The type cell of a declaration.
  // ---------------------------------------------------------------------------

  /**
   * One unification of a declaration's type with the type a use expects: an unknown
   * type takes the expected one, a known type stays. The result is both the type of
   * the use and the declaration's new type.
   */
  function Unify(declType: int, expected: int): (r: int)
    ensures r == declType || r == expected
    ensures declType != T_UNKNOWN ==> r == declType
    ensures r == T_UNKNOWN <==> declType == T_UNKNOWN && expected == T_UNKNOWN
    ensures r != expected && expected != T_UNKNOWN ==> declType != T_UNKNOWN
  {
    if declType == T_UNKNOWN then expected else declType
  }

  /** The declaration's type after a sequence of uses, each expecting a type, in order. */
  function UnifyAll(declType: int, expected: seq<int>): int
    decreases |expected|
  {
    if expected == [] then declType else UnifyAll(Unify(declType, expected[0]), expected[1..])
  }

  /** The first known type in a sequence of expected types. */
  function FirstKnown(expected: seq<int>): Option<int>
  {
    if expected == [] then None
    else if expected[0] != T_UNKNOWN then Some(expected[0])
    else FirstKnown(expected[1..])
  }

  /**
   * The type cell is monotone: a known type survives any sequence of uses, and an
   * unknown one is fixed by the first use that expects a known type.
   */
  lemma {:induction false} UnifyAllFixedByFirstKnown(declType: int, expected: seq<int>)
    ensures declType != T_UNKNOWN ==> UnifyAll(declType, expected) == declType
    ensures declType == T_UNKNOWN ==>
              UnifyAll(declType, expected) == match FirstKnown(expected) case Some(k) => k case None => T_UNKNOWN
    decreases |expected|
  {
    if expected != [] {
      UnifyAllFixedByFirstKnown(Unify(declType, expected[0]), expected[1..]);
    }
  }

  /** Repeating a use changes nothing. */
  lemma UnifyIdempotent(declType: int, expected: int)
    ensures Unify(Unify(declType, expected), expected) == Unify(declType, expected)
  {
  }

  // ---------------------------------------------------------------------------
  // Text of numbers, as Java's string concatenation writes an `int`.
  // ---------------------------------------------------------------------------

  function DigitChar(d: int): (c: char)
    requires 0 <= d < 10
    ensures '0' <= c <= '9' && c as int - '0' as int == d
  {
    ('0' as int + d) as char
  }

  /** The decimal digits of a natural number, most significant first, without leading zeros. */
  function NatToString(n: nat): (r: string)
    ensures |r| > 0
    ensures forall i :: 0 <= i < |r| ==> '0' <= r[i] <= '9'
    ensures r[0] == '0' <==> n == 0
    decreases n
  {
    if n < 10 then [DigitChar(n)] else NatToString(n / 10) + [DigitChar(n % 10)]
  }

  /** The decimal text of an integer, with a leading `-` when it is negative. */
  function IntToString(n: int): (r: string)
    ensures |r| > 0
    ensures n < 0 <==> r[0] == '-'
    ensures forall i :: (if n < 0 then 1 else 0) <= i < |r| ==> '0' <= r[i] <= '9'
    ensures |r| > 1 && r[0] != '-' ==> r[0] != '0'
    ensures n < 0 ==> |r| > 1 && r[1] != '0'
  {
    if n < 0 then "-" + NatToString(-n) else NatToString(n)
  }

  /** The value of a string of decimal digits. */
  function DigitsValue(s: string): int
  {
    if s == [] then 0 else DigitsValue(s[..|s| - 1]) * 10 + (s[|s| - 1] as int - '0' as int)
  }

  /** The value of a decimal text with an optional leading `-`. */
  function SignedValue(s: string): int
  {
    if |s| > 0 && s[0] == '-' then -DigitsValue(s[1..]) else DigitsValue(s)
  }

  /** The decimal text of a natural number reads back as that number. */
  lemma {:induction false} NatToStringRoundTrip(n: nat)
    ensures DigitsValue(NatToString(n)) == n
    decreases n
  {
    var r := NatToString(n);
    if n < 10 {
      assert r[..|r| - 1] == [];
    } else {
      NatToStringRoundTrip(n / 10);
      assert r[..|r| - 1] == NatToString(n / 10);
    }
  }

  /** The decimal text of any integer, sign included, reads back as that integer. */
  lemma IntToStringRoundTrip(n: int)
    ensures SignedValue(IntToString(n)) == n
  {
    if n < 0 {
      NatToStringRoundTrip(-n);
      assert IntToString(n)[1..] == NatToString(-n);
    } else {
      NatToStringRoundTrip(n);
    }
  }

  // ---------------------------------------------------------------------------
  // Collaborators of the compiler passes, reduced to what the identifier uses.
  // ---------------------------------------------------------------------------

  /** The local-variable slot allocated for a variable; only its index is used. */
  datatype LocalVariableGen = LocalVariableGen(index: int)

  /** The instructions an identifier compiles to: push a constant, or load an `int` local. */
  datatype Instruction = Push(value: int) | ILoad(index: int)

  /** A diagnostic: position and message. */
  datatype CompileError = CompileError(line: int, column: int, message: string)

  /** What a name is bound to in the environment: a variable, or a function (known by its name). */
  datatype EnvEntry = VariableEntry(variable: Variable) | FunctionEntry(functionName: string)

  /** The compiler's list of diagnostics. */
  class ErrorList {
    var errors: seq<CompileError>

    constructor ()
      ensures errors == []
    {
      errors := [];
    }
  }

  /** The operand texts handed to the Java-source back end, in order. */
  class CodeBuffer {
    var pushed: seq<string>

    constructor ()
      ensures pushed == []
    {
      pushed := [];
    }
  }

  /** The instructions emitted by the bytecode back end, in order. */
  class InstructionList {
    var instructions: seq<Instruction>

    constructor ()
      ensures instructions == []
    {
      instructions := [];
    }
  }

  /** The operand the Java-source back end writes for a name: the literals `TRUE` and `FALSE` become `1` and `0`. */
  function SourceOperand(name: string): (r: string)
    ensures r == name <==> name != "TRUE" && name != "FALSE"
    ensures r != name ==> r == "1" || r == "0"
    ensures r != name ==> (r == "1" <==> name == "TRUE")
  {
    if name == "TRUE" then "1" else if name == "FALSE" then "0" else name
  }

  /** The instruction the bytecode back end emits for a name whose variable lives in local slot `slot`. */
  function ByteCodeFor(name: string, slot: int): (r: Instruction)
    ensures r.Push? <==> name == "TRUE" || name == "FALSE"
    ensures r.Push? ==> 0 <= r.value <= 1
    ensures r.Push? ==> (r.value == 1 <==> name == "TRUE")
    ensures r.ILoad? ==> r.index == slot
  {
    if name == "TRUE" then Push(1) else if name == "FALSE" then Push(0) else ILoad(slot)
  }

  /**
   * The two back ends choose the same case: a constant push exactly when the source
   * operand is the decimal text of that constant, and a load of the variable's slot
   * exactly when the source operand is the name itself (names are not numerals).
   */
  lemma BackEndsAgree(name: string, slot: int)
    requires name != "0" && name != "1"
    ensures ByteCodeFor(name, slot).Push? <==> SourceOperand(name) != name
    ensures ByteCodeFor(name, slot).Push? ==> SourceOperand(name) == IntToString(ByteCodeFor(name, slot).value)
    ensures ByteCodeFor(name, slot).ILoad? ==> SourceOperand(name) == name && ByteCodeFor(name, slot).index == slot
  {
    assert NatToString(0) == "0";
    assert NatToString(1) == "1";
  }

  // ---------------------------------------------------------------------------
  // The identifier node and the variable entry.
  // ---------------------------------------------------------------------------

  /** A use or a declaration of a name in the syntax tree. */
  class ASTIdent {
    var name: string
    var exprType: int
    var isSimple: bool
    const line: int
    const column: int
    /** The environment entry of the declaration this use refers to, once resolved. */
    var reference: Variable?

    constructor (name: string, exprType: int, line: int, column: int)
      ensures this.name == name && this.exprType == exprType
      ensures this.line == line && this.column == column
      ensures reference == null
    {
      this.name := name;
      this.exprType := exprType;
      this.line := line;
      this.column := column;
      reference := null;
      isSimple := false;
    }

    function GetName(): string
      reads this
    {
      name
    }

    method SetName(name: string)
      modifies this`name
      ensures GetName() == name
    {
      this.name := name;
    }

    /** Sets the type cell of this node. */
    method SetType(t: int)
      modifies this`exprType
      ensures exprType == t
    {
      exprType := t;
    }

    /**
     * Resolution of the name in the environment: an unbound name and a name bound
     * to a function are reported at this node's position and leave the reference as
     * it was; a name bound to a variable becomes the reference. The node itself is
     * the result, since there is nothing to reduce.
     */
    method Traverse(env: map<string, EnvEntry>, diagnostics: ErrorList) returns (r: ASTIdent)
      modifies this`reference, diagnostics`errors
      ensures r == this
      ensures name !in env ==>
                reference == old(reference) &&
                diagnostics.errors == old(diagnostics.errors) + [CompileError(line, column, "Undeclared identifier " + name)]
      ensures name in env && env[name].FunctionEntry? ==>
                reference == old(reference) &&
                diagnostics.errors == old(diagnostics.errors) + [CompileError(line, column, "Function " + name + " used as an identifier.")]
      ensures name in env && env[name].VariableEntry? ==>
                reference == env[name].variable && diagnostics.errors == old(diagnostics.errors)
    {
      if name !in env {
        diagnostics.errors := diagnostics.errors + [CompileError(line, column, "Undeclared identifier " + name)];
      } else if env[name].FunctionEntry? {
        diagnostics.errors := diagnostics.errors + [CompileError(line, column, "Function " + name + " used as an identifier.")];
      } else {
        reference := env[name].variable;
      }
      r := this;
    }

    /**
     * Type unification with the type the context expects. The declaration's type
     * cell and this node's type both become the unified type, which is returned; a
     * mismatch between a known declaration type and the expected type is left to the
     * caller. The expression is always simple.
     */
    method Eval(expected: int) returns (t: int)
      requires reference != null
      modifies this`exprType, this`isSimple, reference.name`exprType
      ensures isSimple
      ensures t == Unify(old(reference.name.exprType), expected)
      ensures exprType == t && reference.name.exprType == t
      ensures reference.GetType() == t
    {
      var ident := reference.name;
      var declType := ident.exprType;
      isSimple := true;
      if declType == T_UNKNOWN && expected == T_UNKNOWN {
        exprType := T_UNKNOWN;
      } else if declType == T_UNKNOWN && expected != T_UNKNOWN {
        ident.SetType(expected);
        exprType := expected;
      } else if declType != T_UNKNOWN && expected == T_UNKNOWN {
        ident.SetType(declType);
        exprType := declType;
      } else {
        exprType := declType;
      }
      t := exprType;
    }

    /** The Java-source back end: hands the operand for this name to the buffer. */
    method Code(buf: CodeBuffer)
      modifies buf
      ensures buf.pushed == old(buf.pushed) + [SourceOperand(name)]
    {
      if name == "TRUE" {
        buf.pushed := buf.pushed + ["1"];
      } else if name == "FALSE" {
        buf.pushed := buf.pushed + ["0"];
      } else {
        buf.pushed := buf.pushed + [name];
      }
    }

    /**
     * The bytecode back end: appends exactly one instruction, a constant push for
     * `TRUE` and `FALSE` and otherwise a load of the referenced variable's slot,
     * which must have been resolved and allocated by then.
     */
    method ByteCode(il: InstructionList)
      requires name != "TRUE" && name != "FALSE" ==> reference != null && reference.localVar.Some?
      modifies il
      ensures name == "TRUE" || name == "FALSE" ==> il.instructions == old(il.instructions) + [ByteCodeFor(name, 0)]
      ensures name != "TRUE" && name != "FALSE" ==>
                il.instructions == old(il.instructions) + [ByteCodeFor(name, reference.localVar.value.index)]
    {
      if name == "TRUE" {
        il.instructions := il.instructions + [Push(1)];
      } else if name == "FALSE" {
        il.instructions := il.instructions + [Push(0)];
      } else {
        var localVar := reference.GetLocalVariable();
        il.instructions := il.instructions + [ILoad(localVar.value.index)];
      }
    }
  }

  /**
   * The environment entry of a declared variable. The name and position are copies
   * taken from the declaration when the entry is made; the type is read from the
   * declaration each time, so it follows later unifications.
   */
  class Variable {
    const name: ASTIdent
    const reserved: bool
    const line: int
    const column: int
    const varName: string
    var localVar: Option<LocalVariableGen>

    /** An entry for an ordinary (not reserved) variable. */
    constructor (name: ASTIdent)
      ensures this.name == name && !reserved
      ensures varName == name.name && line == name.line && column == name.column
      ensures localVar == None
    {
      this.name := name;
      reserved := false;
      varName := name.name;
      line := name.line;
      column := name.column;
      localVar := None;
    }

    constructor WithReserved(name: ASTIdent, reserved: bool)
      ensures this.name == name && this.reserved == reserved
      ensures varName == name.name && line == name.line && column == name.column
      ensures localVar == None
    {
      this.name := name;
      this.reserved := reserved;
      varName := name.name;
      line := name.line;
      column := name.column;
      localVar := None;
    }

    function GetHashKey(): string
    {
      varName
    }

    function GetLine(): int
    {
      line
    }

    function GetColumn(): int
    {
      column
    }

    function GetType(): int
      reads name
    {
      name.exprType
    }

    function GetLocalVariable(): Option<LocalVariableGen>
      reads this
    {
      localVar
    }

    method SetLocalVariable(localVar: Option<LocalVariableGen>)
      modifies this`localVar
      ensures GetLocalVariable() == localVar
    {
      this.localVar := localVar;
    }

    /**
     * The description of the entry: the name and the declaring position, or, for a
     * reserved word, the name and a note saying so. The text starts with the hash key,
     * and it ends in the reserved-word note exactly for reserved entries.
     */
    function ToString(): (r: string)
      ensures !reserved ==> r == varName + " declared at line " + IntToString(line) + ", column " + IntToString(column)
      ensures reserved ==> r == varName + " <reserved key word>"
      ensures |r| >= |GetHashKey()| && r[..|GetHashKey()|] == GetHashKey()
      ensures reserved <==> r[|r| - 1] == '>'
    {
      if !reserved then varName + " declared at line " + IntToString(line) + ", column " + IntToString(column)
      else varName + " <reserved key word>"
    }
  }

  /**
   * An entry snapshots its declaration's name: renaming the declaration afterwards
   * leaves the hash key as it was, while the entry's type follows the declaration's
   * type cell.
   */
  method DeclareThenRename(decl: ASTIdent, newName: string, newType: int) returns (v: Variable)
    modifies decl`name, decl`exprType
    ensures v.name == decl && v.GetHashKey() == old(decl.name) && decl.GetName() == newName
    ensures v.GetLine() == decl.line && v.GetColumn() == decl.column
    ensures v.GetType() == newType
  {
    v := new Variable(decl);
    decl.SetName(newName);
    decl.SetType(newType);
  }
}
