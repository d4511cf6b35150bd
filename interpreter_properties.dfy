/** What the interpreter does, stated on its specification `Exec`/`RunFrom`
    (the class `Interpreter` is proved equal to it): the stack effect of each
    token, the binding spaces, `call`, identifiers, `then` and `times`. */
module InterpreterProperties {
  import opened Types
  import opened OperandStack
  import opened Interpreter
  import Utf8
  import Lexer
  import LexerProperties

  // ---------------------------------------------------------------------
  // Helpers

  lemma PopShape(st: State)
    requires st.Valid()
    ensures Pop(st).stack == st.stack[1..] + [0.0] && Top(Pop(st)) == st.stack[1]
  {
    PoppedShape(st.stack);
  }

  lemma PushShape(st: State, x: real)
    requires st.Valid()
    ensures Push(st, x).stack == [x] + st.stack[..Capacity - 1]
  {
    PushedShape(st.stack, x);
  }

  /** A token other than `then` that runs without panicking hands its state
      to the rest of the sequence. */
  lemma StepOver(st: State, tokens: seq<Token>, pos: nat, index: nat, fuel: nat)
    requires st.Valid() && index <= pos < |tokens| && !tokens[pos].Then?
    requires Exec(st, tokens[pos], fuel).Ran?
    ensures RunFrom(st, tokens, pos, index, fuel) ==
      RunFrom(Exec(st, tokens[pos], fuel).st, tokens, pos + 1, index + 1, fuel)
  {
  }

  /** Two tokens other than `then` that both run are run one after the
      other. */
  lemma TwoSteps(st: State, a: Token, b: Token, fuel: nat)
    requires st.Valid() && !a.Then? && !b.Then? && Exec(st, a, fuel).Ran?
    requires Exec(Exec(st, a, fuel).st, b, fuel).Ran?
    ensures RunFrom(st, [a, b], 0, 0, fuel) == Exec(Exec(st, a, fuel).st, b, fuel)
  {
    StepOver(st, [a, b], 0, 0, fuel);
    StepOver(Exec(st, a, fuel).st, [a, b], 1, 1, fuel);
  }

  // ---------------------------------------------------------------------
  // Values and stack shuffling

  /** The step of a value token is `Valued`, of a shuffle `Shuffled`. */
  lemma ExecSimple(st: State, t: Token, fuel: nat)
    requires st.Valid() && !t.Then? && IsSimple(t)
    ensures Exec(st, t, fuel) == Ran(Simple(st, t))
  {
  }

  lemma ExecControlled(st: State, t: Token, fuel: nat)
    requires st.Valid() && !t.Then? && !IsSimple(t)
    ensures Exec(st, t, fuel) == Control(st, t, fuel)
  {
  }

  lemma SimpleValued(st: State, t: Token)
    requires st.Valid() && IsValue(t)
    ensures IsSimple(t) && Simple(st, t) == Valued(st, t)
  {
  }

  lemma SimpleShuffled(st: State, t: Token)
    requires st.Valid() && IsShuffle(t)
    ensures IsSimple(t) && Simple(st, t) == Shuffled(st, t)
  {
    assert !IsValue(t);
  }

  lemma SimpleRecorded(st: State, t: Token)
    requires st.Valid() && IsRecord(t)
    ensures IsSimple(t) && Simple(st, t) == Recorded(st, t)
  {
    assert !IsValue(t) && !IsShuffle(t);
  }

  lemma ExecRecorded(st: State, t: Token, fuel: nat)
    requires st.Valid() && IsRecord(t)
    ensures Exec(st, t, fuel) == Ran(Recorded(st, t))
  {
    SimpleRecorded(st, t);
    ExecSimple(st, t, fuel);
  }

  lemma ExecLetBound(st: State, name: string, fuel: nat)
    requires st.Valid()
    ensures Exec(st, Let(name), fuel) == Ran(LetBound(st, name))
  {
    var t := Let(name);
    assert !IsValue(t) && !IsShuffle(t) && !IsRecord(t);
    assert IsSimple(t) && Simple(st, t) == LetBound(st, name);
    ExecSimple(st, Let(name), fuel);
  }

  lemma ExecValued(st: State, t: Token, fuel: nat)
    requires st.Valid() && IsValue(t)
    ensures Exec(st, t, fuel) == Ran(Valued(st, t))
  {
    SimpleValued(st, t);
    ExecSimple(st, t, fuel);
  }

  lemma ExecShuffled(st: State, t: Token, fuel: nat)
    requires st.Valid() && IsShuffle(t)
    ensures Exec(st, t, fuel) == Ran(Shuffled(st, t))
  {
    SimpleShuffled(st, t);
    ExecSimple(st, t, fuel);
  }

  lemma LiteralStack(st: State, t: Token)
    requires st.Valid() && (t.Number? || t.True? || t.False?)
    ensures var v := if t.Number? then t.n else if t.True? then 1.0 else 0.0;
      Valued(st, t).stack == [v] + st.stack[..Capacity - 1]
  {
    PushShape(st, if t.Number? then t.n else if t.True? then 1.0 else 0.0);
  }

  /** `n`, `true` and `false` push one value; the bottom slot is lost. */
  lemma LiteralPushes(st: State, t: Token, fuel: nat)
    requires st.Valid() && (t.Number? || t.True? || t.False?)
    ensures var v := if t.Number? then t.n else if t.True? then 1.0 else 0.0;
      Exec(st, t, fuel) == Ran(st.(stack := [v] + st.stack[..Capacity - 1]))
  {
    ExecValued(st, t, fuel);
    LiteralStack(st, t);
  }

  lemma BinaryStack(st: State, t: Token)
    requires st.Valid() && IsBinary(t)
    ensures Valued(st, t).stack == [Combine(t, st.stack[0], st.stack[1])] + st.stack[2..] + [0.0]
  {
    var s := st.stack;
    PopShape(st);
    PopShape(Pop(st));
    var v := Combine(t, s[0], s[1]);
    PushShape(Pop(Pop(st)), v);
    assert Pop(Pop(st)).stack == s[2..] + [0.0, 0.0];
    assert (s[2..] + [0.0, 0.0])[..Capacity - 1] == s[2..] + [0.0];
  }

  /** A two-operand token pops the top (first operand) and the value below
      it (second operand) and pushes one result; the stack shifts up by one
      and a 0.0 enters at the bottom. */
  lemma BinaryOperands(st: State, t: Token, fuel: nat)
    requires st.Valid() && IsBinary(t)
    ensures Exec(st, t, fuel) ==
      Ran(st.(stack := [Combine(t, st.stack[0], st.stack[1])] + st.stack[2..] + [0.0]))
  {
    ExecValued(st, t, fuel);
    BinaryStack(st, t);
  }

  /** Written in source order, `a b op` applies op with b (the later, upper
      value) as first operand: `a b minus` is b - a, `a b div` is b / a,
      `a b bigger` is 1.0 exactly when a > b and `a b smaller` exactly when
      a < b. */
  lemma InfixOrder(st: State, a: real, b: real, t: Token, fuel: nat)
    requires st.Valid() && IsBinary(t)
    ensures RunFrom(st, [Number(a), Number(b), t], 0, 0, fuel) ==
      Ran(st.(stack := [Combine(t, b, a)] + st.stack[..Capacity - 2] + [0.0]))
    ensures t.Minus? ==> Combine(t, b, a) == b - a
    ensures t.Div? && a != 0.0 ==> Combine(t, b, a) == b / a
    ensures t.Bigger? ==> (Combine(t, b, a) == 1.0 <==> a > b)
    ensures t.Smaller? ==> (Combine(t, b, a) == 1.0 <==> a < b)
    ensures t.Eq? ==> (Combine(t, b, a) == 1.0 <==> a == b)
  {
    var tokens := [Number(a), Number(b), t];
    var s1 := Push(st, a);
    var s2 := Push(s1, b);
    PushShape(st, a);
    PushShape(s1, b);
    assert s2.stack == [b, a] + st.stack[..Capacity - 2];
    BinaryOperands(s2, t, fuel);
    assert s2.stack[2..] == st.stack[..Capacity - 2];
    LiteralPushes(st, Number(a), fuel);
    LiteralPushes(s1, Number(b), fuel);
    StepOver(st, tokens, 0, 0, fuel);
    StepOver(s1, tokens, 1, 1, fuel);
    StepOver(s2, tokens, 2, 2, fuel);
  }

  lemma SwapSeq(s: seq<real>)
    requires |s| == Capacity
    ensures Pushed(Pushed(Popped(Popped(s)), s[0]), s[1]) == [s[1], s[0]] + s[2..]
  {
    PoppedShape(s);
    PoppedShape(Popped(s));
    var p2 := Popped(Popped(s));
    assert p2 == s[2..] + [0.0, 0.0];
    PushedShape(p2, s[0]);
    assert Pushed(p2, s[0]) == [s[0]] + s[2..] + [0.0];
    PushedShape(Pushed(p2, s[0]), s[1]);
  }

  lemma SwapStack(st: State)
    requires st.Valid()
    ensures Shuffled(st, Swap).stack == [st.stack[1], st.stack[0]] + st.stack[2..]
  {
    PoppedShape(st.stack);
    SwapSeq(st.stack);
  }

  /** `swap` exchanges the two top values and loses nothing. */
  lemma SwapShape(st: State, fuel: nat)
    requires st.Valid()
    ensures Exec(st, Swap, fuel) == Ran(st.(stack := [st.stack[1], st.stack[0]] + st.stack[2..]))
  {
    ExecShuffled(st, Swap, fuel);
    SwapStack(st);
  }

  lemma SwapSwap(s: seq<real>)
    requires |s| >= 2
    ensures var t := [s[1], s[0]] + s[2..]; [t[1], t[0]] + t[2..] == s
  {
    var t := [s[1], s[0]] + s[2..];
    assert t[2..] == s[2..];
  }

  /** Swapping twice restores the state. */
  lemma SwapTwice(st: State, fuel: nat)
    requires st.Valid()
    ensures Exec(st, Swap, fuel).Ran? && Exec(Exec(st, Swap, fuel).st, Swap, fuel) == Ran(st)
  {
    var s := st.stack;
    var once := st.(stack := [s[1], s[0]] + s[2..]);
    SwapShape(st, fuel);
    SwapShape(once, fuel);
    SwapSwap(s);
  }

  lemma PushedThrice(t: seq<real>, a: real, b: real, c: real)
    requires |t| == Capacity
    ensures Pushed(Pushed(Pushed(t, a), b), c) == [c, b, a] + t[..Capacity - 3]
  {
    PushedShape(t, a);
    var q1 := Pushed(t, a);
    assert q1[..Capacity - 1] == [a] + t[..Capacity - 2];
    PushedShape(q1, b);
    var q2 := Pushed(q1, b);
    assert q2[..Capacity - 1] == [b, a] + t[..Capacity - 3];
    PushedShape(q2, c);
  }

  lemma RotSeq(s: seq<real>)
    requires |s| == Capacity
    ensures Pushed(Pushed(Pushed(Popped(Popped(Popped(s))), s[0]), s[1]), s[2]) == [s[2], s[1], s[0]] + s[3..]
  {
    var p3 := Popped(Popped(Popped(s)));
    PoppedTimesShape(s, 3);
    assert PoppedTimes(s, 3) == p3;
    assert p3[..Capacity - 3] == s[3..];
    PushedThrice(p3, s[0], s[1], s[2]);
  }

  lemma RotStack(st: State)
    requires st.Valid()
    ensures Shuffled(st, Rot).stack == [st.stack[2], st.stack[1], st.stack[0]] + st.stack[3..]
  {
    PoppedShape(st.stack);
    PoppedShape(Popped(st.stack));
    RotSeq(st.stack);
  }

  /** `rot` reverses the three top values and loses nothing. */
  lemma RotShape(st: State, fuel: nat)
    requires st.Valid()
    ensures Exec(st, Rot, fuel) ==
      Ran(st.(stack := [st.stack[2], st.stack[1], st.stack[0]] + st.stack[3..]))
  {
    ExecShuffled(st, Rot, fuel);
    RotStack(st);
  }

  lemma DupSeq(s: seq<real>)
    requires |s| == Capacity
    ensures Pushed(Pushed(Popped(s), s[0]), s[0]) == [s[0], s[0]] + s[1..Capacity - 1]
  {
    PoppedShape(s);
    PushedShape(Popped(s), s[0]);
    assert Pushed(Popped(s), s[0]) == [s[0]] + s[1..];
    PushedShape(Pushed(Popped(s), s[0]), s[0]);
  }

  lemma DupStack(st: State)
    requires st.Valid()
    ensures Shuffled(st, Dup).stack == [st.stack[0], st.stack[0]] + st.stack[1..Capacity - 1]
  {
    DupSeq(st.stack);
  }

  /** `dup` pushes a copy of the top; the bottom slot is lost. */
  lemma DupShape(st: State, fuel: nat)
    requires st.Valid()
    ensures Exec(st, Dup, fuel) ==
      Ran(st.(stack := [st.stack[0], st.stack[0]] + st.stack[1..Capacity - 1]))
  {
    ExecShuffled(st, Dup, fuel);
    DupStack(st);
  }

  /** `drop` discards the top; a 0.0 enters at the bottom. */
  lemma DropShape(st: State, fuel: nat)
    requires st.Valid()
    ensures Exec(st, Drop, fuel) == Ran(st.(stack := st.stack[1..] + [0.0]))
  {
    ExecShuffled(st, Drop, fuel);
    PopShape(st);
  }

  // ---------------------------------------------------------------------
  // Strings and output

  /** Pushing a byte sequence from its last element leaves it, in order, on
      top of the old stack: the stack is the first 255 values of the bytes
      followed by the old contents. */
  lemma {:induction false} PushedReversedShape(s: seq<real>, b: seq<real>)
    requires |s| == Capacity
    ensures PushedReversed(s, b) == (b + s)[..Capacity]
    ensures |b| <= Capacity ==> PushedReversed(s, b) == b + s[..Capacity - |b|]
    decreases |b|
  {
    if b == [] {
      assert (b + s)[..Capacity] == s;
    } else {
      PushedReversedShape(s, b[1..]);
      PushedShape(PushedReversed(s, b[1..]), b[0]);
      assert b + s == [b[0]] + (b[1..] + s);
      assert (b[1..] + s)[..Capacity][..Capacity - 1] == (b[1..] + s)[..Capacity - 1];
    }
  }

  /** `str` leaves the UTF-8 bytes of its content on the stack with the
      first byte on top. */
  lemma StrPushesBytes(st: State, content: string, fuel: nat)
    requires st.Valid()
    ensures Exec(st, Str(content), fuel) == Ran(st.(stack := (Bytes(content) + st.stack)[..Capacity]))
    ensures |Bytes(content)| <= Capacity ==>
      Exec(st, Str(content), fuel) == Ran(st.(stack := Bytes(content) + st.stack[..Capacity - |Bytes(content)|]))
  {
    ExecSimple(st, Str(content), fuel);
    PushedReversedShape(st.stack, Bytes(content));
  }

  /** For ASCII text, slot k holds the code of character k, for every
      character that fits on the stack. */
  lemma StrAscii(st: State, content: string, fuel: nat)
    requires st.Valid()
    requires forall k :: 0 <= k < |content| ==> content[k] as int < 0x80
    ensures Exec(st, Str(content), fuel).Ran?
    ensures forall k :: 0 <= k < |content| && k < Capacity ==>
      Exec(st, Str(content), fuel).st.stack[k] == (content[k] as int) as real
  {
    Utf8.EncodeAscii(content);
    StrPushesBytes(st, content, fuel);
  }

  /** `put` pops the top and prints it. */
  lemma PutPrints(st: State, fuel: nat)
    requires st.Valid()
    ensures Exec(st, Put, fuel) ==
      Ran(st.(stack := st.stack[1..] + [0.0], output := st.output + [Line(st.stack[0])]))
  {
    ExecRecorded(st, Put, fuel);
    PopShape(st);
  }

  /** `putc` prints the character whose code is the (truncated) top, and
      panics when that code is a surrogate or too large. */
  lemma PutcPrints(st: State, fuel: nat)
    requires st.Valid()
    ensures var code := AsU32(st.stack[0]);
      && (IsScalar(code) ==>
            Exec(st, Putc, fuel) == Ran(st.(stack := st.stack[1..] + [0.0], output := st.output + [Char(code as char)])))
      && (!IsScalar(code) ==> Exec(st, Putc, fuel) == Panicked(NotAChar(code)))
  {
    PopShape(st);
  }

  /** A code point given exactly prints as that character. */
  lemma PutcExact(st: State, code: nat, fuel: nat)
    requires st.Valid() && st.stack[0] == code as real && IsScalar(code)
    ensures Exec(st, Putc, fuel).Ran?
    ensures Exec(st, Putc, fuel).st.output == st.output + [Char(code as char)]
  {
    assert AsU32(code as real) == code;
  }

  // ---------------------------------------------------------------------
  // Bindings

  /** `let NAME` pops the top into a new binding at the end of the active
      space; the other space, the macros, the output and the scope stay. */
  lemma LetAppends(st: State, name: string, fuel: nat)
    requires st.Valid()
    ensures Exec(st, Let(name), fuel).Ran?
    ensures var r := Exec(st, Let(name), fuel).st;
      && r.stack == st.stack[1..] + [0.0]
      && ActiveMemory(r) == ActiveMemory(st) + [Binding(name, st.stack[0])]
      && r.memScope == st.memScope && r.functionTime == st.functionTime
      && r.macros == st.macros && r.output == st.output
      && (st.memScope == GlobalScope ==> r.functions == st.functions)
      && (st.memScope == FunctionScope ==>
            && r.memory == st.memory && |r.functions| == |st.functions|
            && forall k :: 0 <= k < |st.functions| && k != st.functionTime ==> r.functions[k] == st.functions[k])
  {
    ExecLetBound(st, name, fuel);
    PopShape(st);
  }

  /** `set NAME` panics when the active space has no binding of that name;
      otherwise it pops the top into the FIRST such binding. */
  lemma SetOverwrites(st: State, name: string, fuel: nat)
    requires st.Valid()
    ensures name !in LetNames(ActiveMemory(st)) ==> Exec(st, Set(name), fuel) == Panicked(LetNotDefined(name))
    ensures name in LetNames(ActiveMemory(st)) ==>
      var mem := ActiveMemory(st);
      var k := Position(LetNames(mem), name).value;
      && Exec(st, Set(name), fuel).Ran?
      && Exec(st, Set(name), fuel).st.stack == st.stack[1..] + [0.0]
      && ActiveMemory(Exec(st, Set(name), fuel).st) == mem[k := Binding(name, st.stack[0])]
      && (forall j :: 0 <= j < k ==> mem[j].name != name)
    ensures name in LetNames(ActiveMemory(st)) ==>
      var r := Exec(st, Set(name), fuel).st;
      && r.memScope == st.memScope && r.functionTime == st.functionTime
      && r.macros == st.macros && r.output == st.output
      && (st.memScope == GlobalScope ==> r.functions == st.functions)
      && (st.memScope == FunctionScope ==>
            && r.memory == st.memory && |r.functions| == |st.functions|
            && forall k :: 0 <= k < |st.functions| && k != st.functionTime ==> r.functions[k] == st.functions[k])
  {
    ExecControlled(st, Set(name), fuel);
    PopShape(st);
    if name in LetNames(ActiveMemory(st)) {
      var mem := ActiveMemory(st);
      var k := Position(LetNames(mem), name).value;
      forall j | 0 <= j < k ensures mem[j].name != name {
        assert LetNames(mem)[..k][j] == mem[j].name;
      }
    }
  }

  lemma LetNamesAppended(mem: seq<Let>, b: Let)
    ensures LetNames(mem + [b]) == LetNames(mem) + [b.name]
  {
  }

  lemma PositionAppended(names: seq<string>, name: string)
    requires name !in names
    ensures Position(names + [name], name) == Some(|names|)
  {
    assert forall k :: 0 <= k < |names| ==> (names + [name])[k] == names[k];
  }

  /** In global scope, `let NAME set NAME` for a fresh name updates the new
      binding: the value that was second on the stack ends up bound. */
  lemma SetAfterLet(st: State, name: string, fuel: nat)
    requires st.Valid() && st.memScope == GlobalScope && name !in LetNames(st.memory)
    ensures RunFrom(st, [Let(name), Set(name)], 0, 0, fuel).Ran?
    ensures RunFrom(st, [Let(name), Set(name)], 0, 0, fuel).st.memory == st.memory + [Binding(name, st.stack[1])]
  {
    LetAppends(st, name, fuel);
    var s1 := Exec(st, Let(name), fuel).st;
    LetNamesAppended(st.memory, Binding(name, st.stack[0]));
    PositionAppended(LetNames(st.memory), name);
    SetOverwrites(s1, name, fuel);
    assert s1.stack[0] == st.stack[1];
    TwoSteps(st, Let(name), Set(name), fuel);
  }

  /** In global scope `let NAME mempop` changes nothing: the binding is
      created and removed and the value comes back to the top. */
  lemma LetMempopRoundTrip(st: State, name: string, fuel: nat)
    requires st.Valid() && st.memScope == GlobalScope
    ensures RunFrom(st, [Let(name), Mempop], 0, 0, fuel) == Ran(st)
  {
    LetAppends(st, name, fuel);
    var s1 := Exec(st, Let(name), fuel).st;
    assert s1.memory[..|s1.memory| - 1] == st.memory;
    var s2 := Push(s1.(memory := st.memory), st.stack[0]);
    PushShape(s1.(memory := st.memory), st.stack[0]);
    assert s2.stack == st.stack;
    ExecRecorded(s1, Mempop, fuel);
    TwoSteps(st, Let(name), Mempop, fuel);
  }

  /** `mempop` and `memusage` see only the global bindings: a `let` inside a
      function does not change what `memusage` reports, one at global scope
      adds one. */
  lemma MemusageCountsGlobals(st: State, name: string, fuel: nat)
    requires st.Valid()
    ensures RunFrom(st, [Let(name), Memusage], 0, 0, fuel).Ran?
    ensures st.memScope == GlobalScope ==>
      RunFrom(st, [Let(name), Memusage], 0, 0, fuel).st.stack[0] == (|st.memory| + 1) as real
    ensures st.memScope == FunctionScope ==>
      RunFrom(st, [Let(name), Memusage], 0, 0, fuel).st.stack[0] == |st.memory| as real
  {
    LetAppends(st, name, fuel);
    var s1 := Exec(st, Let(name), fuel).st;
    ExecRecorded(s1, Memusage, fuel);
    TwoSteps(st, Let(name), Memusage, fuel);
  }

  /** `mempop` on no global bindings pushes 0.0. */
  lemma MempopEmpty(st: State, fuel: nat)
    requires st.Valid() && st.memory == []
    ensures Exec(st, Mempop, fuel) == Ran(st.(stack := [0.0] + st.stack[..Capacity - 1]))
  {
    ExecRecorded(st, Mempop, fuel);
    PushShape(st, 0.0);
  }

  /** `mempop` on global bindings removes the last one and pushes its value,
      in either scope. */
  lemma MempopPops(st: State, fuel: nat)
    requires st.Valid() && st.memory != []
    ensures var last := st.memory[|st.memory| - 1];
      Exec(st, Mempop, fuel) ==
        Ran(st.(memory := st.memory[..|st.memory| - 1], stack := [last.value] + st.stack[..Capacity - 1]))
  {
    ExecRecorded(st, Mempop, fuel);
    PushShape(st.(memory := st.memory[..|st.memory| - 1]), st.memory[|st.memory| - 1].value);
  }

  /** `memusage` pushes the number of global bindings, in either scope. */
  lemma MemusagePushes(st: State, fuel: nat)
    requires st.Valid()
    ensures Exec(st, Memusage, fuel) == Ran(st.(stack := [|st.memory| as real] + st.stack[..Capacity - 1]))
  {
    ExecRecorded(st, Memusage, fuel);
    PushShape(st, |st.memory| as real);
  }

  // ---------------------------------------------------------------------
  // Definitions and lookups

  /** A name found in a prefix is found at the same place in any extension. */
  lemma {:induction false} PositionInPrefix(xs: seq<string>, ys: seq<string>, name: string)
    requires name in xs
    ensures Position(xs + ys, name) == Position(xs, name)
    decreases |xs|
  {
    if xs[0] != name {
      assert (xs + ys)[1..] == xs[1..] + ys;
      PositionInPrefix(xs[1..], ys, name);
    }
  }

  /** `macro` appends the definition and changes nothing else. A fresh name
      is then found at the new entry; a name already defined keeps finding
      the earlier macro, so the later one is never expanded. */
  lemma MacroDefines(st: State, m: Macro, fuel: nat)
    requires st.Valid()
    ensures Exec(st, Token.Macro(m), fuel) == Ran(st.(macros := st.macros + [m]))
    ensures m.name !in MacroNames(st.macros) ==> Position(MacroNames(st.macros + [m]), m.name) == Some(|st.macros|)
    ensures m.name in MacroNames(st.macros) ==>
      Position(MacroNames(st.macros + [m]), m.name) == Position(MacroNames(st.macros), m.name)
  {
    ExecRecorded(st, Token.Macro(m), fuel);
    assert MacroNames(st.macros + [m]) == MacroNames(st.macros) + [m.name];
    if m.name in MacroNames(st.macros) {
      PositionInPrefix(MacroNames(st.macros), [m.name], m.name);
    } else {
      PositionAppended(MacroNames(st.macros), m.name);
    }
  }

  /** The same for `fn` and `call`. */
  lemma FunctionDefines(st: State, f: Function, fuel: nat)
    requires st.Valid()
    ensures Exec(st, Token.Function(f), fuel) == Ran(st.(functions := st.functions + [f]))
    ensures f.name !in FunctionNames(st.functions) ==>
      Position(FunctionNames(st.functions + [f]), f.name) == Some(|st.functions|)
    ensures f.name in FunctionNames(st.functions) ==>
      Position(FunctionNames(st.functions + [f]), f.name) == Position(FunctionNames(st.functions), f.name)
  {
    ExecRecorded(st, Token.Function(f), fuel);
    assert FunctionNames(st.functions + [f]) == FunctionNames(st.functions) + [f.name];
    if f.name in FunctionNames(st.functions) {
      PositionInPrefix(FunctionNames(st.functions), [f.name], f.name);
    } else {
      PositionAppended(FunctionNames(st.functions), f.name);
    }
  }

  /** An identifier with no macro of that name panics, whether or not a
      binding of that name exists. */
  lemma IdentWithoutMacroPanics(st: State, name: string, fuel: nat)
    requires st.Valid() && name !in MacroNames(st.macros)
    ensures Exec(st, Ident(name), fuel) == Panicked(TokenNotDefined(name))
  {
    ExecControlled(st, Ident(name), fuel);
  }

  /** So `1 let x x` panics on the last word unless `x` is also a macro. */
  lemma BoundVariableAlonePanics(st: State, fuel: nat)
    requires st.Valid() && "x" !in MacroNames(st.macros)
    ensures RunFrom(st, [Number(1.0), Let("x"), Ident("x")], 0, 0, fuel) == Panicked(TokenNotDefined("x"))
  {
    var tokens := [Number(1.0), Let("x"), Ident("x")];
    var s1 := Push(st, 1.0);
    LetAppends(s1, "x", fuel);
    var s2 := Exec(s1, Let("x"), fuel).st;
    StepOver(st, tokens, 0, 0, fuel);
    StepOver(s1, tokens, 1, 1, fuel);
    IdentWithoutMacroPanics(s2, "x", fuel);
  }

  /** A macro is inlined: its body runs on the current state (after the
      value of a binding of the same name, if any, has been pushed). */
  lemma MacroInlining(st: State, name: string, fuel: nat)
    requires st.Valid() && name in MacroNames(st.macros)
    ensures var body := st.macros[Position(MacroNames(st.macros), name).value].body;
      && (name !in LetNames(ActiveMemory(st)) ==>
            Exec(st, Ident(name), fuel + 1) == RunFrom(st, body, 0, 0, fuel))
      && (name in LetNames(ActiveMemory(st)) ==>
            var v := ActiveMemory(st)[Position(LetNames(ActiveMemory(st)), name).value].value;
            Exec(st, Ident(name), fuel + 1) == RunFrom(Push(st, v), body, 0, 0, fuel))
  {
    var body := st.macros[Position(MacroNames(st.macros), name).value].body;
    assert Exec(st, Ident(name), fuel + 1) == Identifier(st, name, fuel + 1);
    ExecControlled(st, Ident(name), fuel + 1);
    assert Identifier(st, name, fuel + 1) == RunFrom(BindingPushed(st, name), body, 0, 0, fuel);
  }

  // ---------------------------------------------------------------------
  // call

  /** `call` of an unknown name does nothing. */
  lemma CallUnknown(st: State, name: string, fuel: nat)
    requires st.Valid() && name !in FunctionNames(st.functions)
    ensures Exec(st, Call(name), fuel) == Ran(st)
  {
    ExecControlled(st, Call(name), fuel);
  }

  /** The argument loop: with n = |mem| - j parameters left and z the stack
      followed by n zeros (what popping a drained stack yields), the stack
      afterwards is z without its first n values, and parameter i (i >= j)
      holds z[i - j], the value that was i - j slots below the top. */
  lemma {:induction false} BindFromShape(s: seq<real>, mem: seq<Let>, j: nat)
    requires |s| == Capacity && j <= |mem|
    ensures var z := s + Zeros(|mem| - j);
      && BindFrom(s, mem, j).0 == z[|mem| - j..]
      && forall i :: 0 <= i < |mem| ==>
           BindFrom(s, mem, j).1[i] == if i < j then mem[i] else Binding(mem[i].name, z[i - j])
    decreases |mem| - j
  {
    var n := |mem| - j;
    var z := s + Zeros(n);
    if j == |mem| {
      assert z[0..] == s;
    } else {
      var mem' := mem[j := mem[j].(value := s[0])];
      PoppedShape(s);
      BindFromShape(Popped(s), mem', j + 1);
      var z' := Popped(s) + Zeros(n - 1);
      assert z' == z[1..];
    }
  }

  /** `call NAME` with k parameters binds parameter i to the value i slots
      below the top (0.0 once the 255 slots are used up) and pops k
      values. */
  lemma CallBindsArguments(st: State, name: string)
    requires st.Valid() && name in FunctionNames(st.functions)
    ensures var k := Position(FunctionNames(st.functions), name).value;
      var params := st.functions[k].memory;
      var bound := BindFrom(st.stack, params, 0);
      && bound.0 == (st.stack + Zeros(|params|))[|params|..]
      && (|params| <= Capacity ==> bound.0 == st.stack[|params|..] + Zeros(|params|))
      && |bound.1| == |params|
      && (forall i :: 0 <= i < |params| && i < Capacity ==> bound.1[i] == Binding(params[i].name, st.stack[i]))
      && (forall i :: Capacity <= i < |params| ==> bound.1[i] == Binding(params[i].name, 0.0))
  {
    var k := Position(FunctionNames(st.functions), name).value;
    var params := st.functions[k].memory;
    BindFromShape(st.stack, params, 0);
    var z := st.stack + Zeros(|params|);
    assert forall i :: Capacity <= i < |params| ==> z[i] == 0.0;
    if |params| <= Capacity {
      assert z[|params|..] == st.stack[|params|..] + Zeros(|params|);
    }
  }

  /** `call NAME` of a known name runs the first function of that name: its
      body runs in function scope, with that function current, its
      parameters bound to the values below the top (0.0 past the bottom)
      and those values popped; when the body returns the scope is global. */
  lemma CallRunsBody(st: State, name: string, fuel: nat)
    requires st.Valid() && name in FunctionNames(st.functions)
    ensures var k := Position(FunctionNames(st.functions), name).value;
      var f := st.functions[k];
      var z := st.stack + Zeros(|f.memory|);
      var params := seq(|f.memory|, i requires 0 <= i < |f.memory| => Binding(f.memory[i].name, z[i]));
      var entered := st.(stack := z[|f.memory|..], memScope := FunctionScope, functionTime := k,
                         functions := st.functions[k := f.(memory := params)]);
      Exec(st, Call(name), fuel + 1) ==
        match RunFrom(entered, f.body, 0, 0, fuel)
        case Panicked(e) => Panicked(e)
        case Ran(done) => Ran(done.(memScope := GlobalScope))
  {
    var k := Position(FunctionNames(st.functions), name).value;
    var f := st.functions[k];
    var z := st.stack + Zeros(|f.memory|);
    var params := seq(|f.memory|, i requires 0 <= i < |f.memory| => Binding(f.memory[i].name, z[i]));
    var bound := BindFrom(st.stack, f.memory, 0);
    BindFromShape(st.stack, f.memory, 0);
    assert bound.0 == z[|f.memory|..];
    assert bound.1 == params;
    var entered := st.(stack := z[|f.memory|..], memScope := FunctionScope, functionTime := k,
                       functions := st.functions[k := f.(memory := params)]);
    assert entered == st.(functionTime := k, stack := bound.0, memScope := FunctionScope,
                          functions := st.functions[k := st.functions[k].(memory := bound.1)]);
    ExecControlled(st, Call(name), fuel + 1);
    assert Nested(entered, f.body, fuel + 1) == RunFrom(entered, f.body, 0, 0, fuel);
  }

  /** Whatever scope it was called from, a `call` of a known function that
      returns leaves the interpreter in global scope. */
  lemma CallEndsGlobal(st: State, name: string, fuel: nat)
    requires st.Valid() && name in FunctionNames(st.functions) && Exec(st, Call(name), fuel).Ran?
    ensures Exec(st, Call(name), fuel).st.memScope == GlobalScope
  {
    ExecControlled(st, Call(name), fuel);
  }

  // ---------------------------------------------------------------------
  // then, times, import

  /** A `then` whose popped value is not 1.0 skips the next token, and the
      `index` counter falls one further behind the iterator. */
  lemma ThenFalseSkips(st: State, tokens: seq<Token>, pos: nat, index: nat, fuel: nat)
    requires st.Valid() && index <= pos && pos + 1 < |tokens| && tokens[pos].Then? && st.stack[0] != 1.0
    ensures RunFrom(st, tokens, pos, index, fuel) == RunFrom(Pop(st), tokens, pos + 2, index + 1, fuel)
  {
  }

  /** While no skip has happened (`index == pos`), a `then` whose popped value
      is 1.0 re-runs itself as `tokens[index]`: it pops a second value, and
      when that one is not 1.0 the run simply continues with the next token,
      as if the `then` had popped two values. */
  lemma ThenTrueInSync(st: State, tokens: seq<Token>, pos: nat, fuel: nat)
    requires st.Valid() && pos < |tokens| && tokens[pos].Then? && fuel >= 1
    requires st.stack[0] == 1.0 && st.stack[1] != 1.0
    ensures RunFrom(st, tokens, pos, pos, fuel) == RunFrom(Pop(Pop(st)), tokens, pos + 1, pos + 1, fuel)
  {
    PopShape(st);
    assert RunFrom(Pop(st), [tokens[pos]], 0, 0, fuel - 1) == Ran(Pop(Pop(st)));
  }

  /** A `then` whose popped value is 1.0 runs `tokens[index]` on its own
      and then goes on with the token after the `then`. */
  lemma ThenTrueRuns(st: State, tokens: seq<Token>, pos: nat, index: nat, fuel: nat)
    requires st.Valid() && index <= pos < |tokens| && tokens[pos].Then? && st.stack[0] == 1.0 && fuel >= 1
    requires RunFrom(Pop(st), [tokens[index]], 0, 0, fuel - 1).Ran?
    ensures RunFrom(st, tokens, pos, index, fuel) ==
      RunFrom(RunFrom(Pop(st), [tokens[index]], 0, 0, fuel - 1).st, tokens, pos + 1, index + 1, fuel)
  {
  }

  /** A one-token run of a token other than `then` is that token's step. */
  lemma SingleToken(st: State, t: Token, fuel: nat)
    requires st.Valid() && !t.Then? && Exec(st, t, fuel).Ran?
    ensures RunFrom(st, [t], 0, 0, fuel) == Exec(st, t, fuel)
  {
    StepOver(st, [t], 0, 0, fuel);
  }

  /** The tokens of `false then 0 1 false then 0 42 true then 0 put`: each
      `then` carries the lexing of the word after it, which the interpreter
      never looks at. */
  const Revival: seq<Token> :=
    [False, Then([Number(0.0)]), Number(1.0), False, Then([Number(0.0)]), Number(42.0), True, Then([Number(0.0)]), Put]

  /** The words of `false then 0 1 false then 0 42 true then 0 put`. */
  const RevivalWords: seq<string> :=
    ["false", "then", "0", "1", "false", "then", "0", "42", "true", "then", "0", "put"]

  /** A reserved word that makes its token alone. */
  lemma ReservedStep(host: Lexer.Host, depth: nat, ws: seq<string>, i: nat, t: Token)
    requires i < |ws| && Lexer.SingleWordToken(ws[i]) == Some(t)
    ensures Lexer.LexFrom(host, depth, ws, i) == Lexer.Prefixed([t], Lexer.LexFrom(host, depth, ws, i + 1))
  {
    assert Lexer.Step(host, depth, ws, i) == Ok((t, i));
    Lexer.LexFromStep(host, depth, ws, i);
  }

  /** A word that parses as the number v. */
  lemma NumberStep(host: Lexer.Host, depth: nat, ws: seq<string>, i: nat, v: real)
    requires i < |ws| && !Lexer.IsKeyword(ws[i]) && host.parseF64(ws[i]) == Some(v)
    ensures Lexer.LexFrom(host, depth, ws, i) == Lexer.Prefixed([Number(v)], Lexer.LexFrom(host, depth, ws, i + 1))
  {
    assert Lexer.Step(host, depth, ws, i) == Ok((Number(v), i));
    Lexer.LexFromStep(host, depth, ws, i);
  }

  /** `then 0` at word i is one `Then([Number(0.0)])` token. */
  lemma ThenZero(host: Lexer.Host, depth: nat, ws: seq<string>, i: nat)
    requires host.parseF64("0") == Some(0.0) && !Lexer.IsKeyword("0")
    requires i + 1 < |ws| && ws[i] == "then" && ws[i + 1] == "0"
    ensures Lexer.LexFrom(host, depth, ws, i) == Lexer.Prefixed([Then([Number(0.0)])], Lexer.LexFrom(host, depth, ws, i + 2))
  {
    var zero := [ws[i + 1]];
    NumberStep(host, depth, zero, 0, 0.0);
    assert Lexer.LexFrom(host, depth, zero, 1) == Ok([]);
    assert [Number(0.0)] + [] == [Number(0.0)];
    assert Lexer.LexFrom(host, depth, zero, 0) == Ok([Number(0.0)]);
    assert Lexer.LexWords(host, depth, zero) == Ok([Number(0.0)]);
    LexerProperties.ThenTakesOneWord(host, depth, ws, i);
    Lexer.LexFromStep(host, depth, ws, i);
  }

  /** One reserved word of `RevivalWords` in front of a known rest. */
  lemma RevivalReserved(host: Lexer.Host, depth: nat, i: nat, t: Token, rest: seq<Token>)
    requires i < |RevivalWords| && Lexer.SingleWordToken(RevivalWords[i]) == Some(t)
    requires Lexer.LexFrom(host, depth, RevivalWords, i + 1) == Ok(rest)
    ensures Lexer.LexFrom(host, depth, RevivalWords, i) == Ok([t] + rest)
  {
    ReservedStep(host, depth, RevivalWords, i, t);
  }

  /** One number word of `RevivalWords` in front of a known rest. */
  lemma RevivalNumber(host: Lexer.Host, depth: nat, i: nat, v: real, rest: seq<Token>)
    requires i < |RevivalWords| && !Lexer.IsKeyword(RevivalWords[i]) && host.parseF64(RevivalWords[i]) == Some(v)
    requires Lexer.LexFrom(host, depth, RevivalWords, i + 1) == Ok(rest)
    ensures Lexer.LexFrom(host, depth, RevivalWords, i) == Ok([Number(v)] + rest)
  {
    NumberStep(host, depth, RevivalWords, i, v);
  }

  /** One `then 0` of `RevivalWords` in front of a known rest. */
  lemma RevivalThen(host: Lexer.Host, depth: nat, i: nat, rest: seq<Token>)
    requires host.parseF64("0") == Some(0.0)
    requires i + 1 < |RevivalWords| && RevivalWords[i] == "then" && RevivalWords[i + 1] == "0"
    requires Lexer.LexFrom(host, depth, RevivalWords, i + 2) == Ok(rest)
    ensures Lexer.LexFrom(host, depth, RevivalWords, i) == Ok([Then([Number(0.0)])] + rest)
  {
    assert !Lexer.IsKeyword("0");
    ThenZero(host, depth, RevivalWords, i);
  }

  /** The words from the last `then` on. */
  lemma RevivalLexedFrom9(host: Lexer.Host, depth: nat)
    requires host.parseF64("0") == Some(0.0)
    ensures Lexer.LexFrom(host, depth, RevivalWords, 9) == Ok([Then([Number(0.0)]), Put])
  {
    assert Lexer.LexFrom(host, depth, RevivalWords, 12) == Ok([]);
    RevivalReserved(host, depth, 11, Put, []);
    RevivalThen(host, depth, 9, [Put] + []);
    assert [Then([Number(0.0)])] + ([Put] + []) == [Then([Number(0.0)]), Put];
  }

  /** The words from `42` on. */
  lemma RevivalLexedFrom7(host: Lexer.Host, depth: nat)
    requires host.parseF64("0") == Some(0.0) && host.parseF64("42") == Some(42.0)
    ensures Lexer.LexFrom(host, depth, RevivalWords, 7) == Ok([Number(42.0), True, Then([Number(0.0)]), Put])
  {
    var r9 := [Then([Number(0.0)]), Put];
    RevivalLexedFrom9(host, depth);
    RevivalReserved(host, depth, 8, True, r9);
    assert !Lexer.IsKeyword("42");
    RevivalNumber(host, depth, 7, 42.0, [True] + r9);
    assert [Number(42.0)] + ([True] + r9) == [Number(42.0), True, Then([Number(0.0)]), Put];
  }

  /** The words from the second `false` on. */
  lemma RevivalLexedFrom4(host: Lexer.Host, depth: nat)
    requires host.parseF64("0") == Some(0.0) && host.parseF64("42") == Some(42.0)
    ensures Lexer.LexFrom(host, depth, RevivalWords, 4) == Ok(Revival[3..])
  {
    var r7 := [Number(42.0), True, Then([Number(0.0)]), Put];
    RevivalLexedFrom7(host, depth);
    RevivalThen(host, depth, 5, r7);
    RevivalReserved(host, depth, 4, False, [Then([Number(0.0)])] + r7);
    assert [False] + ([Then([Number(0.0)])] + r7) == Revival[3..];
  }

  /** The words from the first `then` on. */
  lemma RevivalLexedFrom1(host: Lexer.Host, depth: nat)
    requires host.parseF64("0") == Some(0.0) && host.parseF64("1") == Some(1.0) && host.parseF64("42") == Some(42.0)
    ensures Lexer.LexFrom(host, depth, RevivalWords, 1) == Ok(Revival[1..])
  {
    RevivalLexedFrom4(host, depth);
    assert !Lexer.IsKeyword("1");
    RevivalNumber(host, depth, 3, 1.0, Revival[3..]);
    RevivalThen(host, depth, 1, [Number(1.0)] + Revival[3..]);
    assert [Then([Number(0.0)])] + ([Number(1.0)] + Revival[3..]) == Revival[1..];
  }

  /** `Revival` is what the lexer makes of `RevivalWords`, the words of
      `false then 0 1 false then 0 42 true then 0 put`. */
  lemma RevivalLexed(host: Lexer.Host, depth: nat)
    requires host.parseF64("0") == Some(0.0) && host.parseF64("1") == Some(1.0) && host.parseF64("42") == Some(42.0)
    ensures Lexer.LexWords(host, depth, RevivalWords) == Ok(Revival)
  {
    RevivalLexedFrom1(host, depth);
    RevivalReserved(host, depth, 0, False, Revival[1..]);
    assert [False] + Revival[1..] == Revival;
  }

  /** The two false `then`s skip `1` and `42`; the counter is then two
      tokens behind the iterator. */
  lemma RevivalSkips(st: State, fuel: nat)
    requires st.Valid()
    ensures RunFrom(st, Revival, 0, 0, fuel) == RunFrom(Pop(Push(Pop(Push(st, 0.0)), 0.0)), Revival, 6, 4, fuel)
  {
    var s1 := Push(st, 0.0);
    ExecValued(st, False, fuel);
    StepOver(st, Revival, 0, 0, fuel);
    ThenFalseSkips(s1, Revival, 1, 1, fuel);
    var s2 := Push(Pop(s1), 0.0);
    ExecValued(Pop(s1), False, fuel);
    StepOver(Pop(s1), Revival, 3, 2, fuel);
    ThenFalseSkips(s2, Revival, 4, 3, fuel);
  }

  /** From there, `true then` runs `tokens[5]`, the skipped `42`, and `put`
      prints it. */
  lemma RevivalRuns(st: State, fuel: nat)
    requires st.Valid() && fuel >= 1
    ensures RunFrom(st, Revival, 6, 4, fuel).Ran?
    ensures RunFrom(st, Revival, 6, 4, fuel).st.output == st.output + [Line(42.0)]
  {
    var s3 := Push(st, 1.0);
    ExecValued(st, True, fuel);
    StepOver(st, Revival, 6, 4, fuel);
    var s4 := Push(Pop(s3), 42.0);
    ExecValued(Pop(s3), Number(42.0), fuel - 1);
    SingleToken(Pop(s3), Revival[5], fuel - 1);
    ThenTrueRuns(s3, Revival, 7, 5, fuel);
    ExecRecorded(s4, Put, fuel);
    StepOver(s4, Revival, 8, 6, fuel);
  }

  /** After two skips the counter lags two tokens behind, so a later true
      `then` runs a token that an earlier `then` skipped: in
      `false then 0 1 false then 0 42 true then 0 put` the skipped `42` is
      pushed by the last `then`, and `put` prints it. */
  lemma SkippedTokenRevived(st: State, fuel: nat)
    requires st.Valid() && fuel >= 1
    ensures RunFrom(st, Revival, 0, 0, fuel).Ran?
    ensures RunFrom(st, Revival, 0, 0, fuel).st.output == st.output + [Line(42.0)]
  {
    RevivalSkips(st, fuel);
    RevivalRuns(Pop(Push(Pop(Push(st, 0.0)), 0.0)), fuel);
  }

  /** `times` with a count below 1 (after `as u32`) only pops the count. */
  lemma TimesZero(st: State, body: seq<Token>, fuel: nat)
    requires st.Valid() && st.stack[0] < 1.0
    ensures Exec(st, Times(body), fuel) == Ran(Pop(st))
  {
    ExecControlled(st, Times(body), fuel);
  }

  /** `times` with a count of 1 or more pops the count, runs the body once
      and then repeats it for the remaining count. */
  lemma TimesRuns(st: State, body: seq<Token>, fuel: nat)
    requires st.Valid() && AsU32(st.stack[0]) >= 1
    ensures Exec(st, Times(body), fuel + 1) ==
      match RunFrom(Pop(st), body, 0, 0, fuel)
      case Ran(m) => Repeat(m, body, AsU32(st.stack[0]) - 1, fuel + 1)
      case Panicked(f) => Panicked(f)
  {
    ExecControlled(st, Times(body), fuel + 1);
    assert Control(st, Times(body), fuel + 1) == Repeat(Pop(st), body, AsU32(Top(st)), fuel + 1);
    assert Nested(Pop(st), body, fuel + 1) == RunFrom(Pop(st), body, 0, 0, fuel);
  }

  /** One repetition of a body is one nested run of it. */
  lemma RepeatOnce(st: State, body: seq<Token>, fuel: nat)
    requires st.Valid()
    ensures Repeat(st, body, 1, fuel + 1) == RunFrom(st, body, 0, 0, fuel)
  {
    assert Nested(st, body, fuel + 1) == RunFrom(st, body, 0, 0, fuel);
  }

  /** Running a body a + b times is running it a times and then b times. */
  lemma {:induction false} RepeatSplit(st: State, body: seq<Token>, a: nat, b: nat, fuel: nat)
    requires st.Valid()
    ensures Repeat(st, body, a + b, fuel) ==
      match Repeat(st, body, a, fuel)
      case Ran(mid) => Repeat(mid, body, b, fuel)
      case Panicked(f) => Panicked(f)
    decreases a
  {
    if a > 0 {
      match Nested(st, body, fuel)
      case Panicked(f) =>
      case Ran(next) =>
        RepeatSplit(next, body, a - 1, b, fuel);
    }
  }

  /** `import` runs the imported tokens in place, on the same state. */
  lemma ImportInline(st: State, program: seq<Token>, fuel: nat)
    requires st.Valid()
    ensures RunFrom(st, [Import(program)], 0, 0, fuel + 1) == RunFrom(st, program, 0, 0, fuel)
  {
    ExecControlled(st, Import(program), fuel + 1);
    assert Exec(st, Import(program), fuel + 1) == RunFrom(st, program, 0, 0, fuel);
    match RunFrom(st, program, 0, 0, fuel)
    case Panicked(f) =>
    case Ran(done) =>
      assert RunFrom(done, [Import(program)], 1, 1, fuel + 1) == Ran(done);
  }
}
