/** The lexer: source text is split on whitespace into words and the words
    are walked left to right. A reserved word becomes its operator token;
    `str`, `let`, `set`, `call`, `then` and `import` also take the next word;
    `macro NAME … end`, `fn NAME params do … end`, `times … done` and
    `[ … ]` take the words up to the FIRST terminator (there is no nesting)
    and lex them again as a program of their own; any other word is a number
    when the whole word parses as one, and an identifier otherwise. Reading a
    word past the end of the list is a panic, modelled as an error result.

    `Step`, `LexFrom` and `LexWords` specify the lexer on words; the method
    `Lex` works as the source does, on text, with a word index and an
    iterator position kept in lockstep, and is proved to agree with them. */
module Lexer {
  import opened Types
  import opened Words

  /** What the lexer takes from its surroundings. `parseF64` stands for
      Rust's `str::parse::<f64>` (None when the word is not a number; the
      rounding to a double is not modelled), `isNumeric` for
      `char::is_numeric`; `math`, `std` and `memory` are the texts of the
      bundled library files and `files` the readable files by path. */
  datatype Host = Host(
    parseF64: string -> Option<real>,
    isNumeric: char -> bool,
    math: string,
    std: string,
    memory: string,
    files: map<string, string>)

  datatype LexFault =
    | WordOutOfRange(index: nat)   // `aschar[index]` past the word list: a panic
    | FileNotReadable(path: string) // `File::open(..).unwrap()` or the read panics
    | ImportTooDeep(path: string)   // the import nesting bound of the model is reached

  type Lexed = Result<seq<Token>, LexFault>

  /** A token together with the index of the last word it consumed. */
  type Stepped = Result<(Token, nat), LexFault>

  /** The reserved words that make a token on their own. */
  function SingleWordToken(w: string): (r: Option<Token>)
  {
    match w
    case "add" => Some(Add)
    case "minus" => Some(Minus)
    case "div" => Some(Div)
    case "mul" => Some(Mul)
    case "swap" => Some(Swap)
    case "rot" => Some(Rot)
    case "mod" => Some(Mod)
    case "put" => Some(Put)
    case "eq" => Some(Eq)
    case "noteq" => Some(Noteq)
    case "bigger" => Some(Bigger)
    case "smaller" => Some(Smaller)
    case "dup" => Some(Dup)
    case "true" => Some(True)
    case "false" => Some(False)
    case "drop" => Some(Drop)
    case "mempop" => Some(Mempop)
    case "memusage" => Some(Memusage)
    case _ => None
  }

  /** The reserved words whose payload is the following word, verbatim. */
  predicate TakesNextWord(w: string)
  {
    w == "str" || w == "let" || w == "set" || w == "call"
  }

  /** The token of `str`, `let`, `set` or `call`, carrying the next word. */
  function NextWordToken(w: string, payload: string): (t: Token)
    requires TakesNextWord(w)
    ensures (t.Str? <==> w == "str") && (t.Let? <==> w == "let") && (t.Set? <==> w == "set") && (t.Call? <==> w == "call")
    ensures t.Str? ==> t.content == payload
    ensures t.Let? ==> t.letName == payload
    ensures t.Set? ==> t.setName == payload
    ensures t.Call? ==> t.callee == payload
  {
    match w
    case "str" => Str(payload)
    case "let" => Let(payload)
    case "set" => Set(payload)
    case _ => Call(payload)
  }

  /** Every word with a meaning of its own in the lexer. */
  predicate IsKeyword(w: string)
  {
    SingleWordToken(w).Some? || TakesNextWord(w) ||
    w == "then" || w == "import" || w == "macro" || w == "times" || w == "[" || w == "fn"
  }

  /** The text `import name` brings in: a bundled library file, else the
      file at that path if it can be read. */
  function ImportedText(host: Host, name: string): (r: Option<string>)
    ensures name == "math" ==> r == Some(host.math)
    ensures name == "std" ==> r == Some(host.std)
    ensures name == "memory" ==> r == Some(host.memory)
    ensures name != "math" && name != "std" && name != "memory" ==>
      (r.Some? <==> name in host.files) && (r.Some? ==> r.value == host.files[name])
  {
    match name
    case "math" => Some(host.math)
    case "std" => Some(host.std)
    case "memory" => Some(host.memory)
    case _ => if name in host.files then Some(host.files[name]) else None
  }

  /** Index of the first occurrence of term at or after start. */
  function FirstFrom(ws: seq<string>, start: nat, term: string): (r: Option<nat>)
    requires start <= |ws|
    ensures r.Some? ==> start <= r.value < |ws| && ws[r.value] == term && term !in ws[start..r.value]
    ensures r.None? ==> term !in ws[start..]
    decreases |ws| - start
  {
    if start == |ws| then None
    else if ws[start] == term then Some(start)
    else
      var r := FirstFrom(ws, start + 1, term);
      assert ws[start..] == [ws[start]] + ws[start + 1..];
      assert r.Some? ==> ws[start..r.value] == [ws[start]] + ws[start + 1..r.value];
      r
  }

  /** Function parameters as the lexer builds them: each set to 0.0. */
  function Params(names: seq<string>): (ps: seq<Let>)
    ensures |ps| == |names|
    ensures forall k :: 0 <= k < |names| ==> ps[k] == Binding(names[k], 0.0)
  {
    if names == [] then []
    else Params(names[..|names| - 1]) + [Binding(names[|names| - 1], 0.0)]
  }

  /** The token that starts at word i, and the index of the last word it
      consumed. */
  function Step(host: Host, depth: nat, ws: seq<string>, i: nat): (r: Stepped)
    requires i < |ws|
    ensures r.Ok? ==> i <= r.value.1 < |ws|
    decreases depth, |ws|, |ws| - i, 1
  {
    var w := ws[i];
    if SingleWordToken(w).Some? then Ok((SingleWordToken(w).value, i))
    else if TakesNextWord(w) || w == "then" || w == "import" then StepNextWord(host, depth, ws, i)
    else if w == "macro" then StepMacro(host, depth, ws, i)
    else if w == "times" || w == "[" then StepBlock(host, depth, ws, i)
    else if w == "fn" then StepFn(host, depth, ws, i)
    else
      match host.parseF64(w)
      case Some(v) => Ok((Number(v), i))
      case None => Ok((Ident(w), i))
  }

  /** `str`, `let`, `set`, `call`, `then` and `import`: the next word is the
      payload (for `then` lexed on its own, for `import` the name of the
      text to lex). */
  function StepNextWord(host: Host, depth: nat, ws: seq<string>, i: nat): (r: Stepped)
    requires i < |ws| && (TakesNextWord(ws[i]) || ws[i] == "then" || ws[i] == "import")
    ensures r.Ok? ==> r.value.1 == i + 1 < |ws|
    decreases depth, |ws|, |ws| - i, 0
  {
    if i + 1 >= |ws| then Err(WordOutOfRange(i + 1))
    else if TakesNextWord(ws[i]) then Ok((NextWordToken(ws[i], ws[i + 1]), i + 1))
    else if ws[i] == "then" then
      var next :- LexWords(host, depth, [ws[i + 1]]);
      Ok((Then(next), i + 1))
    else
      match ImportedText(host, ws[i + 1])
      case None => Err(FileNotReadable(ws[i + 1]))
      case Some(text) =>
        if depth == 0 then Err(ImportTooDeep(ws[i + 1]))
        else
          var program :- LexWords(host, depth - 1, SplitWhitespace(text));
          Ok((Import(program), i + 1))
  }

  /** `macro NAME … end`. */
  function StepMacro(host: Host, depth: nat, ws: seq<string>, i: nat): (r: Stepped)
    requires i < |ws|
    ensures r.Ok? ==> i + 2 <= r.value.1 < |ws|
    decreases depth, |ws|, |ws| - i, 0
  {
    if i + 1 >= |ws| then Err(WordOutOfRange(i + 1))
    else
      match FirstFrom(ws, i + 2, "end")
      case None => Err(WordOutOfRange(|ws|))
      case Some(e) =>
        var body :- LexWords(host, depth, ws[i + 2..e]);
        Ok((Token.Macro(Macro.New(ws[i + 1], body)), e))
  }

  /** `times … done` and `[ … ]`. */
  function StepBlock(host: Host, depth: nat, ws: seq<string>, i: nat): (r: Stepped)
    requires i < |ws| && (ws[i] == "times" || ws[i] == "[")
    ensures r.Ok? ==> i + 1 <= r.value.1 < |ws|
    decreases depth, |ws|, |ws| - i, 0
  {
    var term := if ws[i] == "times" then "done" else "]";
    match FirstFrom(ws, i + 1, term)
    case None => Err(WordOutOfRange(|ws|))
    case Some(e) =>
      var body :- LexWords(host, depth, ws[i + 1..e]);
      Ok((if ws[i] == "times" then Times(body) else Array(body), e))
  }

  /** `fn NAME p1 … pk do … end`. */
  function StepFn(host: Host, depth: nat, ws: seq<string>, i: nat): (r: Stepped)
    requires i < |ws|
    ensures r.Ok? ==> i + 3 <= r.value.1 < |ws|
    decreases depth, |ws|, |ws| - i, 0
  {
    if i + 1 >= |ws| then Err(WordOutOfRange(i + 1))
    else
      match FirstFrom(ws, i + 2, "do")
      case None => Err(WordOutOfRange(|ws|))
      case Some(d) =>
        match FirstFrom(ws, d + 1, "end")
        case None => Err(WordOutOfRange(|ws|))
        case Some(e) =>
          var body :- LexWords(host, depth, ws[d + 1..e]);
          Ok((Token.Function(Function.New(ws[i + 1], Params(ws[i + 2..d]), body)), e))
  }

  /** The tokens of the words from index i on. */
  function LexFrom(host: Host, depth: nat, ws: seq<string>, i: nat): (r: Lexed)
    requires i <= |ws|
    ensures r.Ok? ==> |r.value| <= |ws| - i
    decreases depth, |ws|, |ws| - i, 2
  {
    if i == |ws| then Ok([])
    else
      var step :- Step(host, depth, ws, i);
      var rest :- LexFrom(host, depth, ws, step.1 + 1);
      Ok([step.0] + rest)
  }

  /** The tokens of a word list. */
  function LexWords(host: Host, depth: nat, ws: seq<string>): (r: Lexed)
    ensures r.Ok? ==> |r.value| <= |ws|
    ensures ws == [] ==> r == Ok([])
    decreases depth, |ws|, |ws| + 1, 0
  {
    LexFrom(host, depth, ws, 0)
  }

  /** The tokens of a source text: `Lexer::new(source).lex()`. */
  function LexText(host: Host, depth: nat, source: string): (r: Lexed)
    ensures r.Ok? ==> |r.value| <= |SplitWhitespace(source)|
  {
    LexWords(host, depth, SplitWhitespace(source))
  }

  /** Tokens already produced, in front of the outcome of the rest. */
  function Prefixed(done: seq<Token>, rest: Lexed): Lexed
  {
    match rest
    case Ok(ts) => Ok(done + ts)
    case Err(e) => Err(e)
  }

  lemma PrefixedTwice(a: seq<Token>, b: seq<Token>, rest: Lexed)
    ensures Prefixed(a, Prefixed(b, rest)) == Prefixed(a + b, rest)
  {
    if rest.Ok? {
      assert a + (b + rest.value) == (a + b) + rest.value;
    }
  }

  function Min(a: nat, b: nat): nat
  {
    if a <= b then a else b
  }

  /** `is_string_numeric`: the character loop only ever clears the flag, so
      the answer is exactly whether the whole word parses as a number. */
  method IsStringNumeric(host: Host, str: string) returns (result: bool)
    ensures result == host.parseF64(str).Some?
  {
    result := false;
    for k := 0 to |str|
      invariant !result
    {
      if !host.isNumeric(str[k]) {
        result := false;
      }
    }
    if host.parseF64(str).Some? {
      result := true;
    }
  }

  /** The inner loops that copy a block body as text: from start, each word
      followed by a space, until the first word equal to term. `consumed` is
      the iterator position, one past index while a word is being looked
      at; it stops at the end of the list. */
  method CollectBody(ws: seq<string>, start: nat, term: string, consumed: nat)
    returns (text: string, stop: nat, consumed': nat)
    requires start <= |ws| && consumed == Min(start + 1, |ws|)
    ensures start <= stop <= |ws|
    ensures FirstFrom(ws, start, term) == if stop < |ws| then Some(stop) else None
    ensures text == JoinSpaced(ws[start..stop])
    ensures consumed' == Min(stop + 1, |ws|)
  {
    text, stop, consumed' := "", start, consumed;
    while stop < |ws| && ws[stop] != term
      invariant start <= stop <= |ws|
      invariant FirstFrom(ws, start, term) == FirstFrom(ws, stop, term)
      invariant text == JoinSpaced(ws[start..stop])
      invariant consumed' == Min(stop + 1, |ws|)
      decreases |ws| - stop
    {
      JoinSpacedSnoc(ws[start..stop], ws[stop]);
      assert ws[start..stop + 1] == ws[start..stop] + [ws[stop]];
      text := text + ws[stop] + " ";
      stop := stop + 1;
      consumed' := Min(consumed' + 1, |ws|);
    }
  }

  /** The loop that collects the parameter names of `fn` up to `do`. */
  method CollectParams(ws: seq<string>, start: nat, consumed: nat)
    returns (params: seq<Let>, stop: nat, consumed': nat)
    requires start <= |ws| && consumed == Min(start + 1, |ws|)
    ensures start <= stop <= |ws|
    ensures FirstFrom(ws, start, "do") == if stop < |ws| then Some(stop) else None
    ensures params == Params(ws[start..stop])
    ensures consumed' == Min(stop + 1, |ws|)
  {
    params, stop, consumed' := [], start, consumed;
    while stop < |ws| && ws[stop] != "do"
      invariant start <= stop <= |ws|
      invariant FirstFrom(ws, start, "do") == FirstFrom(ws, stop, "do")
      invariant params == Params(ws[start..stop])
      invariant consumed' == Min(stop + 1, |ws|)
      decreases |ws| - stop
    {
      assert ws[start..stop + 1][..stop - start] == ws[start..stop];
      params := params + [Binding(ws[stop], 0.0)];
      stop := stop + 1;
      consumed' := Min(consumed' + 1, |ws|);
    }
  }

  /** A block body: the words from start up to the first term, lexed again
      from their text; the result carries the index of the terminator. */
  method LexBody(host: Host, depth: nat, ws: seq<string>, start: nat, term: string, consumed: nat)
    returns (r: Result<(seq<Token>, nat), LexFault>, consumed': nat)
    requires AllWords(ws) && 0 < start <= |ws| && consumed == Min(start + 1, |ws|)
    ensures match FirstFrom(ws, start, term)
      case None => r == Err(WordOutOfRange(|ws|))
      case Some(e) =>
        match LexWords(host, depth, ws[start..e])
        case Ok(body) => r == Ok((body, e)) && consumed' == e + 1
        case Err(f) => r == Err(f)
    decreases depth, |ws|, 0, 0
  {
    var text, stop;
    text, stop, consumed' := CollectBody(ws, start, term, consumed);
    if stop == |ws| {
      return Err(WordOutOfRange(stop)), consumed';
    }
    SplitJoined(ws[start..stop]);
    var body := Lex(host, text, depth);
    if body.Err? {
      return Err(body.error), consumed';
    }
    r := Ok((body.value, stop));
  }

  /** The arms for `str`, `let`, `set`, `call`, `then` and `import`. */
  method LexNextWord(host: Host, depth: nat, ws: seq<string>, index: nat, consumed: nat)
    returns (r: Stepped, consumed': nat)
    requires AllWords(ws) && index < |ws| && consumed == index + 1
    requires TakesNextWord(ws[index]) || ws[index] == "then" || ws[index] == "import"
    ensures r == StepNextWord(host, depth, ws, index)
    ensures r.Ok? ==> consumed' == r.value.1 + 1
    decreases depth, |ws|, 0, 0
  {
    var word := ws[index];
    consumed' := consumed;
    if index + 1 >= |ws| {
      return Err(WordOutOfRange(index + 1)), consumed';
    }
    var next := ws[index + 1];
    consumed' := consumed' + 1;
    if TakesNextWord(word) {
      r := Ok((NextWordToken(word, next), index + 1));
    } else if word == "then" {
      SplitWord(next);
      var lexed := Lex(host, next, depth);
      r := if lexed.Ok? then Ok((Then(lexed.value), index + 1)) else Err(lexed.error);
    } else {
      var fileData := ImportedText(host, next);
      if fileData.None? {
        r := Err(FileNotReadable(next));
      } else if depth == 0 {
        r := Err(ImportTooDeep(next));
      } else {
        var lexed := Lex(host, fileData.value, depth - 1);
        r := if lexed.Ok? then Ok((Import(lexed.value), index + 1)) else Err(lexed.error);
      }
    }
  }

  /** The arm for `macro NAME … end`. */
  method LexMacro(host: Host, depth: nat, ws: seq<string>, index: nat, consumed: nat)
    returns (r: Stepped, consumed': nat)
    requires AllWords(ws) && index < |ws| && consumed == index + 1
    ensures r == StepMacro(host, depth, ws, index)
    ensures r.Ok? ==> consumed' == r.value.1 + 1
    decreases depth, |ws|, 0, 1
  {
    consumed' := consumed;
    if index + 1 >= |ws| {
      return Err(WordOutOfRange(index + 1)), consumed';
    }
    var macroName := ws[index + 1];
    consumed' := Min(consumed' + 2, |ws|);
    var body;
    body, consumed' := LexBody(host, depth, ws, index + 2, "end", consumed');
    r := if body.Ok? then Ok((Token.Macro(Macro.New(macroName, body.value.0)), body.value.1)) else Err(body.error);
  }

  /** The arms for `times … done` and `[ … ]`. */
  method LexBlock(host: Host, depth: nat, ws: seq<string>, index: nat, consumed: nat)
    returns (r: Stepped, consumed': nat)
    requires AllWords(ws) && index < |ws| && consumed == index + 1
    requires ws[index] == "times" || ws[index] == "["
    ensures r == StepBlock(host, depth, ws, index)
    ensures r.Ok? ==> consumed' == r.value.1 + 1
    decreases depth, |ws|, 0, 1
  {
    var word := ws[index];
    var term := if word == "times" then "done" else "]";
    consumed' := Min(consumed + 1, |ws|);
    var body;
    body, consumed' := LexBody(host, depth, ws, index + 1, term, consumed');
    if body.Err? {
      r := Err(body.error);
    } else if word == "times" {
      r := Ok((Times(body.value.0), body.value.1));
    } else {
      r := Ok((Array(body.value.0), body.value.1));
    }
  }

  /** The arm for `fn NAME p1 … pk do … end`. */
  method LexFn(host: Host, depth: nat, ws: seq<string>, index: nat, consumed: nat)
    returns (r: Stepped, consumed': nat)
    requires AllWords(ws) && index < |ws| && consumed == index + 1
    ensures r == StepFn(host, depth, ws, index)
    ensures r.Ok? ==> consumed' == r.value.1 + 1
    decreases depth, |ws|, 0, 1
  {
    consumed' := consumed;
    if index + 1 >= |ws| {
      return Err(WordOutOfRange(index + 1)), consumed';
    }
    var fnName := ws[index + 1];
    consumed' := Min(consumed' + 2, |ws|);
    var fnArgs, doAt;
    fnArgs, doAt, consumed' := CollectParams(ws, index + 2, consumed');
    if doAt == |ws| {
      return Err(WordOutOfRange(doAt)), consumed';
    }
    consumed' := Min(consumed' + 1, |ws|);
    var body;
    body, consumed' := LexBody(host, depth, ws, doAt + 1, "end", consumed');
    r := if body.Ok? then Ok((Token.Function(Function.New(fnName, fnArgs, body.value.0)), body.value.1)) else Err(body.error);
  }

  /** One pass of the main loop for the word at index: the token and the
      index of the last word consumed; the iterator has handed out exactly
      the words up to that one. */
  method LexWord(host: Host, depth: nat, ws: seq<string>, index: nat, consumed: nat)
    returns (r: Stepped, consumed': nat)
    requires AllWords(ws) && index < |ws| && consumed == index + 1
    ensures r == Step(host, depth, ws, index)
    ensures r.Ok? ==> consumed' == r.value.1 + 1
    decreases depth, |ws|, 0, 2
  {
    var word := ws[index];
    consumed' := consumed;
    if SingleWordToken(word).Some? {
      r := Ok((SingleWordToken(word).value, index));
    } else if TakesNextWord(word) || word == "then" || word == "import" {
      r, consumed' := LexNextWord(host, depth, ws, index, consumed);
    } else if word == "macro" {
      r, consumed' := LexMacro(host, depth, ws, index, consumed);
    } else if word == "times" || word == "[" {
      r, consumed' := LexBlock(host, depth, ws, index, consumed);
    } else if word == "fn" {
      r, consumed' := LexFn(host, depth, ws, index, consumed);
    } else {
      var numeric := IsStringNumeric(host, word);
      if numeric {
        r := Ok((Number(host.parseF64(word).value), index));
      } else {
        r := Ok((Ident(word), index));
      }
    }
  }

  /** Unfolding LexFrom by one token. */
  lemma LexFromStep(host: Host, depth: nat, ws: seq<string>, i: nat)
    requires i < |ws| && Step(host, depth, ws, i).Ok?
    ensures LexFrom(host, depth, ws, i)
      == Prefixed([Step(host, depth, ws, i).value.0], LexFrom(host, depth, ws, Step(host, depth, ws, i).value.1 + 1))
  {
  }

  /** `Lexer::new(source).lex()`. */
  method Lex(host: Host, source: string, depth: nat) returns (r: Lexed)
    ensures r == LexText(host, depth, source)
    decreases depth, |SplitWhitespace(source)|, 1, 0
  {
    var result: seq<Token> := [];
    var aschar := SplitWhitespace(source);
    var consumed := 0;
    var index := 0;
    assert LexWords(host, depth, aschar) == Prefixed(result, LexWords(host, depth, aschar)) by {
      var l := LexWords(host, depth, aschar);
      assert l.Ok? ==> [] + l.value == l.value;
    }
    while consumed < |aschar|
      invariant index == consumed <= |aschar|
      invariant LexWords(host, depth, aschar) == Prefixed(result, LexFrom(host, depth, aschar, index))
      decreases |aschar| - index
    {
      consumed := consumed + 1;
      var step;
      step, consumed := LexWord(host, depth, aschar, index, consumed);
      if step.Err? {
        return Err(step.error);
      }
      LexFromStep(host, depth, aschar, index);
      PrefixedTwice(result, [step.value.0], LexFrom(host, depth, aschar, step.value.1 + 1));
      result := result + [step.value.0];
      index := step.value.1;
      index := index + 1;
    }
    assert result + [] == result;
    r := Ok(result);
  }
}
