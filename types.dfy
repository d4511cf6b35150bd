/** The records the interpreter stores (macros, bindings, user functions) and
    the token tree the lexer produces. A token can carry a macro or function
    record, whose body is again a token sequence, so the four types are
    declared together. */
module Types {

  datatype Option<T> = None | Some(value: T)

  datatype Result<T, E> = Ok(value: T) | Err(error: E)
  {
    predicate IsFailure() { Err? }

    function PropagateFailure<U>(): Result<U, E>
      requires Err?
    {
      Err(error)
    }

    function Extract(): T
      requires Ok?
    {
      value
    }
  }

  /** A named token sequence, inlined wherever its name is referenced. */
  datatype Macro = MacroDef(name: string, body: seq<Token>)
  {
    /** `Macro::new` keeps name and body as given. */
    static function New(name: string, body: seq<Token>): (m: Macro)
      ensures m.name == name && m.body == body
    {
      MacroDef(name, body)
    }
  }

  /** A named binding of a number: a global variable, a function parameter
      or a function-local variable. */
  datatype Let = Binding(name: string, value: real)
  {
    /** `Let::set_value`: the binding now holds newValue under the same name. */
    function SetValue(newValue: real): (l: Let)
      ensures l.value == newValue && l.name == name
    {
      this.(value := newValue)
    }
  }

  /** A user function: its memory holds the parameters first and then every
      local binding created while it was active. */
  datatype Function = FunctionDef(name: string, memory: seq<Let>, body: seq<Token>)
  {
    /** `Function::new` keeps name, memory (in order) and body as given. */
    static function New(name: string, memory: seq<Let>, body: seq<Token>): (f: Function)
      ensures f.name == name && f.memory == memory && f.body == body
    {
      FunctionDef(name, memory, body)
    }
  }

  /** Every token the lexer builds or the interpreter matches. */
  datatype Token =
    | Number(n: real)
    | Add | Minus | Div | Mul | Mod
    | Swap | Rot | Dup | Drop
    | Eq | Noteq | Bigger | Smaller
    | True | False
    | Put | Putc
    | Str(content: string)
    | Then(next: seq<Token>)
    | Times(body: seq<Token>)
    | Import(program: seq<Token>)
    | Array(elements: seq<Token>)
    | Macro(m: Macro)
    | Function(func: Function)
    | Let(letName: string)
    | Set(setName: string)
    | Call(callee: string)
    | Mempop | Memusage
    | Ident(ident: string)
}
