/** The tree-walking interpreter: a fixed-size operand stack, the macros,
    global bindings and user functions defined so far, which binding space
    (`let`, `set` and identifiers) is active, and what has been printed.

    `State`/`RunFrom` are the specification: one token sequence run to the
    end, or to the first panic. `class Interpreter` is the implementation,
    with the operand stack as the in-place `OperandStack.Stack`; its
    `Parse` is proved equal to `RunFrom`.

    Nested runs (`then`, `times`, `import`, `call`, macro expansion) cost one
    unit of `fuel`; a run that would nest deeper than its fuel stops with
    `OutOfFuel`. */
module Interpreter {
  import opened Types
  import opened OperandStack
  import Utf8

  datatype MemoryScope = FunctionScope | GlobalScope

  /** What `put` (a number and a newline) and `putc` (one character) write. */
  datatype Printed = Line(value: real) | Char(c: char)

  /** Why a run stopped early: the panics of the interpreter, a token it has
      no arm for, and running out of nesting fuel. */
  datatype Fault =
    | LetNotDefined(letName: string)
    | TokenNotDefined(name: string)
    | NotAChar(code: nat)
    | NoArm(token: Token)
    | OutOfFuel

  datatype State = State(
    stack: seq<real>,
    macros: seq<Macro>,
    memory: seq<Let>,
    functions: seq<Function>,
    memScope: MemoryScope,
    functionTime: nat,
    output: seq<Printed>)
  {
    /** The stack has its fixed size, and function scope always names an
        existing function (the one most recently called). */
    predicate Valid()
    {
      |stack| == Capacity && (memScope == FunctionScope ==> functionTime < |functions|)
    }
  }

  datatype Outcome = Ran(st: State) | Panicked(fault: Fault)

  /** `Interpreter::new`. */
  function Initial(): State
  {
    State(Zeros(Capacity), [], [], [], GlobalScope, 0, [])
  }

  function Report(st: State, fault: Option<Fault>): Outcome
  {
    if fault.None? then Ran(st) else Panicked(fault.value)
  }

  // ---------------------------------------------------------------------
  // Stack access and lookups

  function Top(st: State): real
    requires st.Valid()
  {
    st.stack[0]
  }

  function Push(st: State, x: real): (r: State)
    requires st.Valid()
    ensures r.Valid()
  {
    st.(stack := Pushed(st.stack, x))
  }

  function Pop(st: State): (r: State)
    requires st.Valid()
    ensures r.Valid()
  {
    st.(stack := Popped(st.stack))
  }

  /** `iter().position(..)` over names: the index of the FIRST entry with
      this name, if any. */
  function Position(names: seq<string>, name: string): (r: Option<nat>)
    ensures r.None? <==> name !in names
    ensures r.Some? ==> r.value < |names| && names[r.value] == name && name !in names[..r.value]
  {
    if names == [] then None
    else if names[0] == name then Some(0)
    else
      match Position(names[1..], name)
      case None => None
      case Some(k) =>
        assert names[..k + 1] == [names[0]] + names[1..][..k];
        Some(k + 1)
  }

  function LetNames(mem: seq<Let>): (names: seq<string>)
    ensures |names| == |mem| && forall k :: 0 <= k < |mem| ==> names[k] == mem[k].name
  {
    seq(|mem|, k requires 0 <= k < |mem| => mem[k].name)
  }

  function MacroNames(macros: seq<Macro>): (names: seq<string>)
    ensures |names| == |macros| && forall k :: 0 <= k < |macros| ==> names[k] == macros[k].name
  {
    seq(|macros|, k requires 0 <= k < |macros| => macros[k].name)
  }

  function FunctionNames(functions: seq<Function>): (names: seq<string>)
    ensures |names| == |functions| && forall k :: 0 <= k < |functions| ==> names[k] == functions[k].name
  {
    seq(|functions|, k requires 0 <= k < |functions| => functions[k].name)
  }

  /** The bindings `let`, `set` and identifiers use: the current function's
      memory in function scope, the global memory otherwise. */
  function ActiveMemory(st: State): seq<Let>
    requires st.Valid()
  {
    if st.memScope == FunctionScope then st.functions[st.functionTime].memory else st.memory
  }

  /** The state with the active space replaced and everything else kept. */
  function WithActiveMemory(st: State, mem: seq<Let>): (r: State)
    requires st.Valid()
    ensures r.Valid() && ActiveMemory(r) == mem
    ensures r.memScope == st.memScope && r.functionTime == st.functionTime
    ensures r.stack == st.stack && r.macros == st.macros && r.output == st.output
    ensures |r.functions| == |st.functions|
    ensures st.memScope == GlobalScope ==> r.functions == st.functions
    ensures st.memScope == FunctionScope ==>
      && r.memory == st.memory
      && forall k :: 0 <= k < |st.functions| && k != st.functionTime ==> r.functions[k] == st.functions[k]
  {
    if st.memScope == FunctionScope then
      st.(functions := st.functions[st.functionTime := st.functions[st.functionTime].(memory := mem)])
    else
      st.(memory := mem)
  }

  // ---------------------------------------------------------------------
  // Numbers

  const U32Max: nat := 0xFFFF_FFFF

  /** Rust's `v as u32` on an f64: toward zero, saturating at both ends. */
  function AsU32(v: real): (n: nat)
    ensures n <= U32Max
    ensures v < 1.0 ==> n == 0
    ensures 0.0 <= v < (U32Max + 1) as real ==> n as real <= v < n as real + 1.0
    ensures v >= (U32Max + 1) as real ==> n == U32Max
  {
    if v < 0.0 then 0
    else if v >= (U32Max + 1) as real then U32Max
    else v.Floor
  }

  /** An IEEE quotient; see README for division by zero. */
  function Quotient(a: real, b: real): (q: real)
    ensures b != 0.0 ==> q * b == a
    ensures b == 0.0 ==> q == 0.0
  {
    if b == 0.0 then 0.0 else a / b
  }

  /** How the comparison tokens turn a bool into a number. */
  function Flag(b: bool): real
  {
    if b then 1.0 else 0.0
  }

  predicate IsBinary(t: Token)
  {
    t.Add? || t.Minus? || t.Div? || t.Mul? || t.Eq? || t.Noteq? || t.Bigger? || t.Smaller?
  }

  /** The value a two-operand token pushes, given the first value popped
      (the old top) and the second. */
  function Combine(t: Token, first: real, second: real): (v: real)
    requires IsBinary(t)
    ensures t.Add? ==> v - second == first
    ensures t.Minus? ==> v + second == first
    ensures t.Div? && second != 0.0 ==> v * second == first
    ensures t.Mul? ==> v == second * first
    ensures (t.Eq? || t.Noteq? || t.Bigger? || t.Smaller?) ==> v == 0.0 || v == 1.0
    ensures t.Eq? ==> (v == 1.0 <==> first == second)
    ensures t.Noteq? ==> (v == 1.0 <==> first != second)
    ensures t.Bigger? ==> (v == 1.0 <==> first < second)
    ensures t.Smaller? ==> (v == 1.0 <==> second < first)
  {
    if t.Add? then first + second
    else if t.Minus? then first - second
    else if t.Div? then Quotient(first, second)
    else if t.Mul? then first * second
    else if t.Eq? then Flag(first == second)
    else if t.Noteq? then Flag(first != second)
    else if t.Bigger? then Flag(first < second)
    else Flag(first > second)
  }

  /** `content.as_bytes()` as stack values. */
  function Bytes(content: string): (b: seq<real>)
    ensures |b| == |Utf8.Encode(content)|
    ensures forall k :: 0 <= k < |b| ==> b[k] == Utf8.Encode(content)[k] as real
  {
    var e := Utf8.Encode(content);
    seq(|e|, k requires 0 <= k < |e| => e[k] as real)
  }

  /** Pushing b from its last element to its first. */
  function PushedReversed(s: seq<real>, b: seq<real>): (r: seq<real>)
    requires |s| == Capacity
    ensures |r| == Capacity
  {
    if b == [] then s else Pushed(PushedReversed(s, b[1..]), b[0])
  }

  /** A code `char::from_u32` accepts: a Unicode scalar value. */
  predicate IsScalar(code: nat)
  {
    code < 0xD800 || 0xE000 <= code < 0x11_0000
  }

  // ---------------------------------------------------------------------
  // The tokens that cannot panic or nest

  predicate IsSimple(t: Token)
  {
    !(t.Then? || t.Times? || t.Import? || t.Set? || t.Call? || t.Ident? || t.Putc? || t.Mod? || t.Array?)
  }

  /** `swap`, `rot`, `dup` and `drop`. */
  predicate IsShuffle(t: Token)
  {
    t.Swap? || t.Rot? || t.Dup? || t.Drop?
  }

  /** `put`, `macro`, `fn`, `mempop` and `memusage`. */
  predicate IsRecord(t: Token)
  {
    t.Put? || t.Macro? || t.Function? || t.Mempop? || t.Memusage?
  }

  /** Numbers, `true`, `false`, the arithmetic and the comparison tokens. */
  predicate IsValue(t: Token)
  {
    t.Number? || t.True? || t.False? || IsBinary(t)
  }

  function Valued(st: State, t: Token): (r: State)
    requires st.Valid() && IsValue(t)
    ensures r.Valid() && r == st.(stack := r.stack)
  {
    if t.Number? then Push(st, t.n)
    else if t.True? then Push(st, 1.0)
    else if t.False? then Push(st, 0.0)
    else Push(Pop(Pop(st)), Combine(t, Top(st), Top(Pop(st))))
  }

  function Shuffled(st: State, t: Token): (r: State)
    requires st.Valid() && IsShuffle(t)
    ensures r.Valid() && r == st.(stack := r.stack)
  {
    if t.Swap? then
      var i1 := Top(st);
      var i2 := Top(Pop(st));
      Push(Push(Pop(Pop(st)), i1), i2)
    else if t.Rot? then
      var i1 := Top(st);
      var i2 := Top(Pop(st));
      var i3 := Top(Pop(Pop(st)));
      Push(Push(Push(Pop(Pop(Pop(st))), i1), i2), i3)
    else if t.Dup? then Push(Push(Pop(st), Top(st)), Top(st))
    else Pop(st)
  }

  function Recorded(st: State, t: Token): (r: State)
    requires st.Valid() && IsRecord(t)
    ensures r.Valid() && r.memScope == st.memScope && r.functionTime == st.functionTime
    ensures |r.functions| >= |st.functions|
  {
    if t.Put? then Pop(st).(output := st.output + [Line(Top(st))])
    else if t.Macro? then st.(macros := st.macros + [t.m])
    else if t.Function? then st.(functions := st.functions + [t.func])
    else if t.Mempop? then
      if st.memory == [] then Push(st, 0.0)
      else Push(st.(memory := st.memory[..|st.memory| - 1]), st.memory[|st.memory| - 1].value)
    else Push(st, |st.memory| as real)
  }

  /** `let NAME`: a new binding of the popped value at the end of the active
      space. */
  function LetBound(st: State, name: string): (r: State)
    requires st.Valid()
    ensures r.Valid() && r.memScope == st.memScope && r.functionTime == st.functionTime
    ensures |r.functions| == |st.functions|
  {
    WithActiveMemory(Pop(st), ActiveMemory(st) + [Binding(name, Top(st))])
  }

  /** One token that only touches the stack, the records or the output. */
  function Simple(st: State, t: Token): (r: State)
    requires st.Valid() && IsSimple(t)
    ensures r.Valid() && r.memScope == st.memScope && r.functionTime == st.functionTime
    ensures |r.functions| >= |st.functions|
  {
    if IsValue(t) then Valued(st, t)
    else if IsShuffle(t) then Shuffled(st, t)
    else if IsRecord(t) then Recorded(st, t)
    else if t.Let? then LetBound(st, t.letName)
    else st.(stack := PushedReversed(st.stack, Bytes(t.content)))
  }

  /** `putc`: pop, convert with `as u32`, and print that character; a code
      that is not a Unicode scalar value panics at the `unwrap`. */
  function PutChar(st: State): (r: Outcome)
    requires st.Valid()
    ensures r.Ran? ==> r.st.Valid()
  {
    var code := AsU32(Top(st));
    if IsScalar(code) then Ran(Pop(st).(output := st.output + [Char(code as char)]))
    else Panicked(NotAChar(code))
  }

  /** `set NAME`: overwrite the first binding of NAME in the active space
      with the popped value, or panic when there is none. */
  function SetBinding(st: State, name: string): (r: Outcome)
    requires st.Valid()
    ensures r.Ran? ==> r.st.Valid()
  {
    var mem := ActiveMemory(st);
    match Position(LetNames(mem), name)
    case None => Panicked(LetNotDefined(name))
    case Some(k) => Ran(WithActiveMemory(Pop(st), mem[k := mem[k].SetValue(Top(st))]))
  }

  /** The argument loop of `call`: from the first parameter to the last,
      each takes the next value popped. */
  function BindFrom(stack: seq<real>, mem: seq<Let>, j: nat): (r: (seq<real>, seq<Let>))
    requires |stack| == Capacity && j <= |mem|
    ensures |r.0| == Capacity && |r.1| == |mem|
    decreases |mem| - j
  {
    if j == |mem| then (stack, mem)
    else BindFrom(Popped(stack), mem[j := mem[j].(value := stack[0])], j + 1)
  }

  // ---------------------------------------------------------------------
  // Running token sequences

  /** A nested `parse` call: one unit of fuel. */
  function Nested(st: State, tokens: seq<Token>, fuel: nat): (r: Outcome)
    requires st.Valid()
    ensures r.Ran? ==> r.st.Valid()
    decreases fuel, 0, 0
  {
    if fuel == 0 then Panicked(OutOfFuel) else RunFrom(st, tokens, 0, 0, fuel - 1)
  }

  /** The `parse` loop from iterator position `pos`, with the loop's `index`
      counter at `index`. The two advance together except that a `then`
      whose popped value is not 1.0 skips the next token without advancing
      `index`; a `then` whose value is 1.0 runs `tokens[index]` on its own,
      which is that same `then` while no skip has happened and, after k
      skips, the token k places before it. */
  function RunFrom(st: State, tokens: seq<Token>, pos: nat, index: nat, fuel: nat): (r: Outcome)
    requires st.Valid() && index <= pos <= |tokens|
    ensures r.Ran? ==> r.st.Valid()
    decreases fuel, 4, |tokens| - pos
  {
    if pos == |tokens| then Ran(st)
    else if tokens[pos].Then? then
      if Top(st) == 1.0 then
        match Nested(Pop(st), [tokens[index]], fuel)
        case Panicked(f) => Panicked(f)
        case Ran(next) => RunFrom(next, tokens, pos + 1, index + 1, fuel)
      else if pos + 1 < |tokens| then RunFrom(Pop(st), tokens, pos + 2, index + 1, fuel)
      else Ran(Pop(st))
    else
      match Exec(st, tokens[pos], fuel)
      case Panicked(f) => Panicked(f)
      case Ran(next) => RunFrom(next, tokens, pos + 1, index + 1, fuel)
  }

  /** One token other than `then`. */
  function Exec(st: State, t: Token, fuel: nat): (r: Outcome)
    requires st.Valid() && !t.Then?
    ensures r.Ran? ==> r.st.Valid()
    decreases fuel, 3, 0
  {
    if IsSimple(t) then Ran(Simple(st, t)) else Control(st, t, fuel)
  }

  /** The tokens that can panic or run nested token sequences, and the two
      (`mod`, arrays) the interpreter has no arm for. */
  function Control(st: State, t: Token, fuel: nat): (r: Outcome)
    requires st.Valid() && !t.Then? && !IsSimple(t)
    ensures r.Ran? ==> r.st.Valid()
    decreases fuel, 2, 0
  {
    if t.Putc? then PutChar(st)
    else if t.Set? then SetBinding(st, t.setName)
    else if t.Times? then Repeat(Pop(st), t.body, AsU32(Top(st)), fuel)
    else if t.Import? then Nested(st, t.program, fuel)
    else if t.Call? then CallFunction(st, t.callee, fuel)
    else if t.Ident? then Identifier(st, t.ident, fuel)
    else Panicked(NoArm(t))
  }

  /** The body of `times`, run n times in sequence. */
  function Repeat(st: State, body: seq<Token>, n: nat, fuel: nat): (r: Outcome)
    requires st.Valid()
    ensures r.Ran? ==> r.st.Valid()
    decreases fuel, 1, n
  {
    if n == 0 then Ran(st)
    else
      match Nested(st, body, fuel)
      case Panicked(f) => Panicked(f)
      case Ran(next) => Repeat(next, body, n - 1, fuel)
  }

  /** `call NAME`: an unknown name does nothing. Otherwise the first function
      of that name becomes the current one, its parameters take popped
      values, its body runs in function scope, and global scope is restored
      afterwards. */
  function CallFunction(st: State, name: string, fuel: nat): (r: Outcome)
    requires st.Valid()
    ensures r.Ran? ==> r.st.Valid()
    decreases fuel, 1, 0
  {
    match Position(FunctionNames(st.functions), name)
    case None => Ran(st)
    case Some(k) =>
      var bound := BindFrom(st.stack, st.functions[k].memory, 0);
      var entered := st.(functionTime := k, stack := bound.0, memScope := FunctionScope,
                         functions := st.functions[k := st.functions[k].(memory := bound.1)]);
      match Nested(entered, st.functions[k].body, fuel)
      case Panicked(f) => Panicked(f)
      case Ran(done) => Ran(done.(memScope := GlobalScope))
  }

  /** The first half of an identifier: push the value of the first binding
      of that name in the active space, if there is one. */
  function BindingPushed(st: State, name: string): (r: State)
    requires st.Valid()
    ensures r.Valid() && r.macros == st.macros
  {
    var mem := ActiveMemory(st);
    match Position(LetNames(mem), name)
    case Some(k) => Push(st, mem[k].value)
    case None => st
  }

  /** An identifier: push the value of its binding, if any; then expand the
      first macro of that name, or panic when there is no such macro. */
  function Identifier(st: State, name: string, fuel: nat): (r: Outcome)
    requires st.Valid()
    ensures r.Ran? ==> r.st.Valid()
    decreases fuel, 1, 0
  {
    match Position(MacroNames(st.macros), name)
    case None => Panicked(TokenNotDefined(name))
    case Some(m) => Nested(BindingPushed(st, name), st.macros[m].body, fuel)
  }

  // ---------------------------------------------------------------------
  // The implementation

  class Interpreter {
    const stack: Stack
    var macros: seq<Macro>
    var memory: seq<Let>
    var functions: seq<Function>
    var memScope: MemoryScope
    var functionTime: nat
    var output: seq<Printed>

    ghost predicate Valid()
      reads this
    {
      stack.Valid() && (memScope == FunctionScope ==> functionTime < |functions|)
    }

    /** The state this object represents. */
    ghost function Abs(): State
      reads this, stack.items
    {
      State(stack.items[..], macros, memory, functions, memScope, functionTime, output)
    }

    constructor ()
      ensures Valid() && fresh(stack) && fresh(stack.items)
      ensures Abs() == Initial()
    {
      stack := new Stack();
      macros := [];
      memory := [];
      functions := [];
      memScope := GlobalScope;
      functionTime := 0;
      output := [];
    }

    /** `parse`: run the tokens; `fault` says whether and why it panicked. */
    method Parse(tokens: seq<Token>, fuel: nat) returns (fault: Option<Fault>)
      requires Valid()
      modifies this, stack.items
      ensures Valid()
      ensures Report(Abs(), fault) == RunFrom(old(Abs()), tokens, 0, 0, fuel)
      decreases fuel, 5
    {
      var pos, index := 0, 0;
      while pos < |tokens|
        invariant Valid() && index <= pos <= |tokens|
        invariant RunFrom(old(Abs()), tokens, 0, 0, fuel) == RunFrom(Abs(), tokens, pos, index, fuel)
        decreases |tokens| - pos
      {
        fault, pos := Advance(tokens, pos, index, fuel);
        if fault.Some? {
          return;
        }
        index := index + 1;
      }
      return None;
    }

    /** One turn of the `parse` loop: the token at iterator position `pos`,
        and the position after it. */
    method Advance(tokens: seq<Token>, pos: nat, index: nat, fuel: nat) returns (fault: Option<Fault>, next: nat)
      requires Valid() && index <= pos < |tokens|
      modifies this, stack.items
      ensures Valid() && pos < next <= |tokens|
      ensures fault.Some? ==> RunFrom(old(Abs()), tokens, pos, index, fuel) == Panicked(fault.value)
      ensures fault.None? ==> RunFrom(old(Abs()), tokens, pos, index, fuel) == RunFrom(Abs(), tokens, next, index + 1, fuel)
      decreases fuel, 4
    {
      if tokens[pos].Then? {
        fault, next := ExecThen(tokens, pos, index, fuel);
      } else {
        fault := Execute(tokens[pos], fuel);
        next := pos + 1;
      }
    }

    /** `then`: pop; on 1.0 run `tokens[index]` alone, otherwise let the
        iterator skip the token after the `then`. `next` is the iterator
        position afterwards. */
    method ExecThen(tokens: seq<Token>, pos: nat, index: nat, fuel: nat) returns (fault: Option<Fault>, next: nat)
      requires Valid() && index <= pos < |tokens| && tokens[pos].Then?
      modifies this, stack.items
      ensures Valid()
      ensures Top(old(Abs())) == 1.0 ==>
        next == pos + 1 && Report(Abs(), fault) == Nested(Pop(old(Abs())), [tokens[index]], fuel)
      ensures Top(old(Abs())) != 1.0 ==>
        next == (if pos + 1 < |tokens| then pos + 2 else pos + 1) && fault.None? && Abs() == Pop(old(Abs()))
      decreases fuel, 3
    {
      next := pos + 1;
      fault := None;
      var stk := stack.Pop();
      if stk == 1.0 {
        if fuel == 0 {
          return Some(OutOfFuel), next;
        }
        fault := Parse([tokens[index]], fuel - 1);
      } else if next < |tokens| {
        next := next + 1;
      }
    }

    /** One arm of the `parse` match, for every token but `then`. */
    method Execute(token: Token, fuel: nat) returns (fault: Option<Fault>)
      requires Valid() && !token.Then?
      modifies this, stack.items
      ensures Valid()
      ensures Report(Abs(), fault) == Exec(old(Abs()), token, fuel)
      decreases fuel, 3
    {
      if IsSimple(token) {
        ExecPlain(token);
        fault := None;
      } else {
        fault := ExecControl(token, fuel);
      }
    }

    /** The arms that can panic or run nested token sequences. */
    method ExecControl(token: Token, fuel: nat) returns (fault: Option<Fault>)
      requires Valid() && !token.Then? && !IsSimple(token)
      modifies this, stack.items
      ensures Valid()
      ensures Report(Abs(), fault) == Control(old(Abs()), token, fuel)
      decreases fuel, 2
    {
      if token.Putc? {
        fault := ExecPutc();
      } else if token.Set? {
        fault := ExecSet(token.setName);
      } else if token.Times? {
        var x := stack.Pop();
        fault := ExecTimes(token.body, AsU32(x), fuel);
      } else if token.Import? {
        if fuel == 0 {
          fault := Some(OutOfFuel);
        } else {
          fault := Parse(token.program, fuel - 1);
        }
      } else if token.Call? {
        fault := ExecCall(token.callee, fuel);
      } else if token.Ident? {
        fault := ExecIdent(token.ident, fuel);
      } else {
        fault := Some(NoArm(token));
      }
    }

    /** The tokens that cannot panic or nest. */
    method ExecPlain(token: Token)
      requires Valid() && IsSimple(token)
      modifies this, stack.items
      ensures Valid() && Abs() == Simple(old(Abs()), token)
    {
      if IsValue(token) {
        ExecValue(token);
      } else if IsShuffle(token) {
        ExecShuffle(token);
      } else if IsRecord(token) {
        ExecRecord(token);
      } else if token.Let? {
        ExecLet(token.letName);
      } else {
        ExecStr(token.content);
      }
    }

    method ExecValue(token: Token)
      requires Valid() && IsValue(token)
      modifies stack.items
      ensures Valid() && Abs() == Valued(old(Abs()), token)
    {
      if token.Number? {
        stack.Push(token.n);
      } else if token.True? {
        stack.Push(1.0);
      } else if token.False? {
        stack.Push(0.0);
      } else {
        var first := stack.Pop();
        var second := stack.Pop();
        stack.Push(Combine(token, first, second));
      }
    }

    method ExecShuffle(token: Token)
      requires Valid() && IsShuffle(token)
      modifies stack.items
      ensures Valid() && Abs() == Shuffled(old(Abs()), token)
    {
      if token.Swap? {
        var i1 := stack.Pop();
        var i2 := stack.Pop();
        stack.Push(i1);
        stack.Push(i2);
      } else if token.Rot? {
        var i1 := stack.Pop();
        var i2 := stack.Pop();
        var i3 := stack.Pop();
        stack.Push(i1);
        stack.Push(i2);
        stack.Push(i3);
      } else if token.Dup? {
        var item := stack.Pop();
        stack.Push(item);
        stack.Push(item);
      } else {
        var _ := stack.Pop();
      }
    }

    /** `str`: push the bytes of the content from the last to the first. */
    method ExecStr(content: string)
      requires Valid()
      modifies stack.items
      ensures Valid() && stack.items[..] == PushedReversed(old(stack.items[..]), Bytes(content))
    {
      var bytes := Bytes(content);
      var k := |bytes|;
      while k > 0
        invariant 0 <= k <= |bytes| && Valid()
        invariant stack.items[..] == PushedReversed(old(stack.items[..]), bytes[k..])
      {
        k := k - 1;
        assert bytes[k..][1..] == bytes[k + 1..];
        stack.Push(bytes[k]);
      }
    }

    method ExecRecord(token: Token)
      requires Valid() && IsRecord(token)
      modifies this, stack.items
      ensures Valid() && Abs() == Recorded(old(Abs()), token)
    {
      if token.Put? {
        var x := stack.Pop();
        output := output + [Line(x)];
      } else if token.Macro? {
        macros := macros + [token.m];
      } else if token.Function? {
        functions := functions + [token.func];
      } else if token.Mempop? {
        if memory == [] {
          stack.Push(0.0);
        } else {
          var x := memory[|memory| - 1];
          memory := memory[..|memory| - 1];
          stack.Push(x.value);
        }
      } else {
        stack.Push(|memory| as real);
      }
    }

    method ExecLet(name: string)
      requires Valid()
      modifies this, stack.items
      ensures Valid() && Abs() == LetBound(old(Abs()), name)
    {
      var value := stack.Pop();
      if memScope == FunctionScope {
        var f := functions[functionTime];
        functions := functions[functionTime := f.(memory := f.memory + [Binding(name, value)])];
      } else {
        memory := memory + [Binding(name, value)];
      }
    }

    method ExecPutc() returns (fault: Option<Fault>)
      requires Valid()
      modifies this, stack.items
      ensures Valid() && Report(Abs(), fault) == PutChar(old(Abs()))
    {
      var pop := stack.Pop();
      var code := AsU32(pop);
      if !IsScalar(code) {
        return Some(NotAChar(code));
      }
      output := output + [Char(code as char)];
      fault := None;
    }

    method ExecSet(name: string) returns (fault: Option<Fault>)
      requires Valid()
      modifies this, stack.items
      ensures Valid() && Report(Abs(), fault) == SetBinding(old(Abs()), name)
    {
      if memScope == FunctionScope {
        var f := functions[functionTime];
        var found := Position(LetNames(f.memory), name);
        if found.None? {
          return Some(LetNotDefined(name));
        }
        var l := found.value;
        var value := stack.Pop();
        functions := functions[functionTime := f.(memory := f.memory[l := f.memory[l].SetValue(value)])];
      } else {
        var found := Position(LetNames(memory), name);
        if found.None? {
          return Some(LetNotDefined(name));
        }
        var l := found.value;
        var value := stack.Pop();
        memory := memory[l := memory[l].(value := value)];
      }
      fault := None;
    }

    method ExecTimes(body: seq<Token>, count: nat, fuel: nat) returns (fault: Option<Fault>)
      requires Valid()
      modifies this, stack.items
      ensures Valid()
      ensures Report(Abs(), fault) == Repeat(old(Abs()), body, count, fuel)
      decreases fuel, 1
    {
      ghost var start := Abs();
      for i := 0 to count
        invariant Valid()
        invariant Repeat(start, body, count, fuel) == Repeat(Abs(), body, count - i, fuel)
      {
        if fuel == 0 {
          return Some(OutOfFuel);
        }
        fault := Parse(body, fuel - 1);
        if fault.Some? {
          return;
        }
      }
      fault := None;
    }

    /** The argument loop of `call`: the current function's parameters, first
        to last, each take the next popped value. */
    method BindArguments()
      requires Valid() && functionTime < |functions|
      modifies this, stack.items
      ensures Valid() && functionTime == old(functionTime) && memScope == old(memScope)
      ensures var bound := BindFrom(old(stack.items[..]), old(functions[functionTime].memory), 0);
        stack.items[..] == bound.0 && functions == old(functions[functionTime := functions[functionTime].(memory := bound.1)])
      ensures macros == old(macros) && memory == old(memory) && output == old(output)
    {
      var args := functions[functionTime].memory;
      ghost var s0 := stack.items[..];
      var j := 0;
      while j < |args|
        invariant 0 <= j <= |args| == |functions[functionTime].memory| && Valid()
        invariant BindFrom(s0, functions[functionTime].memory, 0) == BindFrom(stack.items[..], args, j)
        modifies stack.items
      {
        var value := stack.Pop();
        args := args[j := args[j].(value := value)];
        j := j + 1;
      }
      functions := functions[functionTime := functions[functionTime].(memory := args)];
    }

    method ExecCall(name: string, fuel: nat) returns (fault: Option<Fault>)
      requires Valid()
      modifies this, stack.items
      ensures Valid() && Report(Abs(), fault) == CallFunction(old(Abs()), name, fuel)
      decreases fuel, 1
    {
      var found := Position(FunctionNames(functions), name);
      if found.None? {
        return None;
      }
      var ok := found.value;
      functionTime := ok;
      BindArguments();
      memScope := FunctionScope;
      if fuel == 0 {
        return Some(OutOfFuel);
      }
      fault := Parse(functions[ok].body, fuel - 1);
      if fault.Some? {
        return;
      }
      memScope := GlobalScope;
    }

    /** The binding lookup of an identifier; `bound` says whether a binding
        of that name was found (and its value pushed). */
    method PushBinding(name: string) returns (bound: bool)
      requires Valid()
      modifies stack.items
      ensures Valid() && Abs() == BindingPushed(old(Abs()), name)
      ensures bound <==> Position(LetNames(ActiveMemory(old(Abs()))), name).Some?
    {
      if memScope == GlobalScope {
        var found := Position(LetNames(memory), name);
        bound := found.Some?;
        if found.Some? {
          stack.Push(memory[found.value].value);
        }
      } else {
        var args := functions[functionTime].memory;
        var found := Position(LetNames(args), name);
        bound := found.Some?;
        if found.Some? {
          stack.Push(args[found.value].value);
        }
      }
    }

    method ExecIdent(name: string, fuel: nat) returns (fault: Option<Fault>)
      requires Valid()
      modifies this, stack.items
      ensures Valid() && Report(Abs(), fault) == Identifier(old(Abs()), name, fuel)
      decreases fuel, 1
    {
      var bound := PushBinding(name);
      var error := !bound;
      var m := Position(MacroNames(macros), name);
      if m.Some? {
        error := false;
        if fuel == 0 {
          return Some(OutOfFuel);
        }
        fault := Parse(macros[m.value].body, fuel - 1);
        if fault.Some? {
          return;
        }
      } else {
        error := true;
      }
      if error {
        return Some(TokenNotDefined(name));
      }
      fault := None;
    }
  }
}
