/** What the lexer promises, stated on its specification `Step`/`LexFrom`
    (the method `Lex` is proved equal to it). */
module LexerProperties {
  import opened Types
  import opened Words
  import opened Lexer

  /** `FirstFrom` finds exactly the first terminator. */
  lemma {:induction false} FirstFromIs(ws: seq<string>, start: nat, term: string, e: nat)
    requires start <= e < |ws| && ws[e] == term && term !in ws[start..e]
    ensures FirstFrom(ws, start, term) == Some(e)
    decreases e - start
  {
    if start < e {
      assert ws[start] == ws[start..e][0];
      assert ws[start + 1..e] == ws[start..e][1..];
      FirstFromIs(ws, start + 1, term, e);
    }
  }

  /** The reserved words name distinct tokens, none of which carries a
      payload or is a number or an identifier. */
  lemma ReservedWordsDistinct(w1: string, w2: string)
    requires SingleWordToken(w1).Some? && SingleWordToken(w1) == SingleWordToken(w2)
    ensures w1 == w2
    ensures !SingleWordToken(w1).value.Number? && !SingleWordToken(w1).value.Ident?
  {
  }

  /** A reserved word yields exactly its one token and consumes only itself. */
  lemma ReservedWordAlone(host: Host, depth: nat, ws: seq<string>, i: nat)
    requires i < |ws| && SingleWordToken(ws[i]).Some?
    ensures Step(host, depth, ws, i) == Ok((SingleWordToken(ws[i]).value, i))
    ensures LexFrom(host, depth, ws, i) == Prefixed([SingleWordToken(ws[i]).value], LexFrom(host, depth, ws, i + 1))
  {
  }

  /** Any other word is `Number(v)` exactly when the whole word parses as v,
      and `Ident(word)` otherwise; it consumes only itself. */
  lemma OrdinaryWord(host: Host, depth: nat, ws: seq<string>, i: nat)
    requires i < |ws| && !IsKeyword(ws[i])
    ensures Step(host, depth, ws, i).Ok? && Step(host, depth, ws, i).value.1 == i
    ensures Step(host, depth, ws, i).value.0.Number? <==> host.parseF64(ws[i]).Some?
    ensures host.parseF64(ws[i]).Some? ==> Step(host, depth, ws, i).value.0 == Number(host.parseF64(ws[i]).value)
    ensures host.parseF64(ws[i]).None? ==> Step(host, depth, ws, i).value.0 == Ident(ws[i])
  {
  }

  /** `str`, `let`, `set` and `call` take the following word verbatim as
      their payload and consume exactly it; at the end of input they read
      past the word list. */
  lemma NextWordPayload(host: Host, depth: nat, ws: seq<string>, i: nat)
    requires i < |ws| && TakesNextWord(ws[i])
    ensures i + 1 == |ws| ==> Step(host, depth, ws, i) == Err(WordOutOfRange(|ws|))
    ensures i + 1 < |ws| && ws[i] == "str" ==> Step(host, depth, ws, i) == Ok((Str(ws[i + 1]), i + 1))
    ensures i + 1 < |ws| && ws[i] == "let" ==> Step(host, depth, ws, i) == Ok((Let(ws[i + 1]), i + 1))
    ensures i + 1 < |ws| && ws[i] == "set" ==> Step(host, depth, ws, i) == Ok((Set(ws[i + 1]), i + 1))
    ensures i + 1 < |ws| && ws[i] == "call" ==> Step(host, depth, ws, i) == Ok((Call(ws[i + 1]), i + 1))
  {
  }

  /** `then` consumes exactly one following word and carries the lexing of
      that word alone. */
  lemma ThenTakesOneWord(host: Host, depth: nat, ws: seq<string>, i: nat)
    requires i < |ws| && ws[i] == "then"
    ensures i + 1 == |ws| ==> Step(host, depth, ws, i) == Err(WordOutOfRange(|ws|))
    ensures i + 1 < |ws| ==> var next := LexWords(host, depth, [ws[i + 1]]);
      Step(host, depth, ws, i) == if next.Ok? then Ok((Then(next.value), i + 1)) else Err(next.error)
  {
  }

  /** `times … done` and `[ … ]`: the body is the words up to the FIRST
      terminator (no nesting), lexed on their own; the terminator is the
      last word consumed. */
  lemma LoopAndArrayBodies(host: Host, depth: nat, ws: seq<string>, i: nat, e: nat)
    requires i < e < |ws| && (ws[i] == "times" || ws[i] == "[")
    requires var term := if ws[i] == "times" then "done" else "]"; ws[e] == term && term !in ws[i + 1..e]
    ensures ws[i] == "times" ==> var body := LexWords(host, depth, ws[i + 1..e]);
      Step(host, depth, ws, i) == if body.Ok? then Ok((Times(body.value), e)) else Err(body.error)
    ensures ws[i] == "[" ==> var body := LexWords(host, depth, ws[i + 1..e]);
      Step(host, depth, ws, i) == if body.Ok? then Ok((Array(body.value), e)) else Err(body.error)
  {
    FirstFromIs(ws, i + 1, if ws[i] == "times" then "done" else "]", e);
  }

  /** `macro NAME … end`: the name is the next word, the body the words up
      to the first `end`. */
  lemma MacroBody(host: Host, depth: nat, ws: seq<string>, i: nat, e: nat)
    requires i + 2 <= e < |ws| && ws[i] == "macro" && ws[e] == "end" && "end" !in ws[i + 2..e]
    ensures Step(host, depth, ws, i) ==
      match LexWords(host, depth, ws[i + 2..e])
      case Ok(body) => Ok((Token.Macro(MacroDef(ws[i + 1], body)), e))
      case Err(f) => Err(f)
  {
    FirstFromIs(ws, i + 2, "end", e);
  }

  /** `fn NAME p1 … pk do BODY end` yields one function whose memory is
      p1 … pk in order, each 0.0, and whose body is the lexing of the words
      before the first `end` after `do`. */
  lemma FunctionDefinition(host: Host, depth: nat, ws: seq<string>, i: nat, d: nat, e: nat)
    requires i + 2 <= d < e < |ws| && ws[i] == "fn"
    requires ws[d] == "do" && "do" !in ws[i + 2..d]
    requires ws[e] == "end" && "end" !in ws[d + 1..e]
    ensures Step(host, depth, ws, i).Ok? <==> LexWords(host, depth, ws[d + 1..e]).Ok?
    ensures Step(host, depth, ws, i).Ok? ==>
      var f := Step(host, depth, ws, i).value.0;
      && Step(host, depth, ws, i).value.1 == e
      && f.Function?
      && f.func.name == ws[i + 1]
      && |f.func.memory| == d - (i + 2)
      && (forall k :: 0 <= k < d - (i + 2) ==> f.func.memory[k] == Binding(ws[i + 2 + k], 0.0))
      && f.func.body == LexWords(host, depth, ws[d + 1..e]).value
  {
    FirstFromIs(ws, i + 2, "do", d);
    FirstFromIs(ws, d + 1, "end", e);
  }

  /** A block whose terminator never comes reads past the word list; for
      `fn` that is a missing `do` after the name, or a missing `end` after
      the first `do`. */
  lemma UnterminatedBlock(host: Host, depth: nat, ws: seq<string>, i: nat)
    requires i < |ws|
    requires || (ws[i] == "times" && "done" !in ws[i + 1..])
             || (ws[i] == "[" && "]" !in ws[i + 1..])
             || (ws[i] == "macro" && i + 1 < |ws| && "end" !in ws[i + 2..])
             || (ws[i] == "fn" && i + 1 < |ws| && "do" !in ws[i + 2..])
             || (ws[i] == "fn" && i + 1 < |ws| && FirstFrom(ws, i + 2, "do").Some? &&
                 "end" !in ws[FirstFrom(ws, i + 2, "do").value + 1..])
    ensures Step(host, depth, ws, i) == Err(WordOutOfRange(|ws|))
  {
  }

  /** `import NAME` takes the next word as the name: a name with no text is
      an unreadable file; otherwise the token carries the lexing of that
      text, one import level deeper, or its fault. */
  lemma ImportPayload(host: Host, depth: nat, ws: seq<string>, i: nat)
    requires i + 1 < |ws| && ws[i] == "import"
    ensures ImportedText(host, ws[i + 1]).None? ==> Step(host, depth, ws, i) == Err(FileNotReadable(ws[i + 1]))
    ensures ImportedText(host, ws[i + 1]).Some? && depth == 0 ==> Step(host, depth, ws, i) == Err(ImportTooDeep(ws[i + 1]))
    ensures ImportedText(host, ws[i + 1]).Some? && depth > 0 ==>
      var program := LexText(host, depth - 1, ImportedText(host, ws[i + 1]).value);
      Step(host, depth, ws, i) == if program.Ok? then Ok((Import(program.value), i + 1)) else Err(program.error)
  {
  }

  /** A word that needs a next word, or a block opener, as the very last
      word reads past the word list. */
  lemma KeywordAtEnd(host: Host, depth: nat, ws: seq<string>)
    requires |ws| > 0
    requires var w := ws[|ws| - 1];
      TakesNextWord(w) || w == "then" || w == "import" || w == "macro" || w == "fn" || w == "times" || w == "["
    ensures Step(host, depth, ws, |ws| - 1) == Err(WordOutOfRange(|ws|))
  {
  }

  /** Every step consumes at least one word and makes one token, so the
      token list is never longer than the words it came from. */
  lemma {:induction false} LexedLength(host: Host, depth: nat, ws: seq<string>, i: nat)
    requires i <= |ws| && LexFrom(host, depth, ws, i).Ok?
    ensures |LexFrom(host, depth, ws, i).value| <= |ws| - i
    decreases |ws| - i
  {
    if i < |ws| {
      var step := Step(host, depth, ws, i).value;
      LexedLength(host, depth, ws, step.1 + 1);
    }
  }

  /** Rebuilding a body as text and lexing the text is lexing the words. */
  lemma LexJoinedText(host: Host, depth: nat, ws: seq<string>)
    requires AllWords(ws)
    ensures LexText(host, depth, JoinSpaced(ws)) == LexWords(host, depth, ws)
  {
    SplitJoined(ws);
  }
}
