/**
  How a POSIX shell reads a command, one character at a time: the quoting of section 2.2 and
  the token recognition of section 2.3 of the Shell Command Language (IEEE Std 1003.1-2017),
  with nested command substitutions.

  Backquotes, `${...}`, `$((...))` and `$'...'` are passed over as opaque text. Where shells
  disagree on their extent, and from `<<` on, the reading is `dead`: it says nothing any more.
  `case` patterns, array subscripts and `((` are read as ordinary words and operators.
 */
module ShellLexer {

  datatype Mode =
    | Code(nested: bool, depth: nat)   // shell code, in a substitution with open parentheses or not
    | Single | Double | Comment
    | Parameter | Arithmetic(depth: nat) | Backquote | AnsiC

  /** What the last characters may still turn out to be. */
  datatype Pend =
    | Clear
    | Dollar     // a `$`
    | Name       // a parameter name that may go on
    | Less       // a `<`
    | Opened     // a `$(`
    | Closing    // the first `)` that may end an arithmetic expansion

  datatype Modes = Bottom | Under(mode: Mode, rest: Modes)

  datatype State = State(
    top: Mode,
    under: Modes,
    pend: Pend,
    esc: bool,     // right after a backslash
    start: bool,   // no word has begun
    dead: bool)

  /** What the reading reports. `Lit` is a character of a word that stands for itself, after
      quote removal; `Bare` an unquoted one with a possible meaning of its own. */
  datatype Event =
    | WordBegin | Lit(c: char) | Bare(c: char) | Sep(c: char)
    | Expand(c: char) | Open | Shut | Opaque(c: char) | Raw(c: char)

  datatype Out = Out(q: State, ev: seq<Event>)

  const INIT := State(Code(false, 0), Bottom, Clear, false, true, false)

  // ------------------------------------------------------------------ characters

  predicate Digit(c: char) { '0' <= c <= '9' }

  predicate NameStart(c: char) { 'a' <= c <= 'z' || 'A' <= c <= 'Z' || c == '_' }

  predicate NameChar(c: char) { NameStart(c) || Digit(c) }

  predicate SpecialParameter(c: char) {
    Digit(c) || c == '@' || c == '*' || c == '#' || c == '?' || c == '-' || c == '$' || c == '!'
  }

  /** Ends an unquoted word. */
  predicate WordEnd(c: char) {
    || c == ' ' || c == '\t' || c == '\n' || c == ';' || c == '&' || c == '|'
    || c == '(' || c == ')' || c == '<' || c == '>'
  }

  /** Literal in every shell context. */
  predicate Plain(c: char) {
    || NameChar(c) || c == '@' || c == '%' || c == '+' || c == '=' || c == ':'
    || c == ',' || c == '.' || c == '/' || c == '-'
  }

  /** Escaped by a backslash inside double quotes. */
  predicate DoubleEscapable(c: char) { c == '$' || c == '`' || c == '"' || c == '\\' || c == '\n' }

  // ------------------------------------------------------------------ moves

  function Push(q: State, mode: Mode): State {
    State(mode, Under(q.top, q.under), Clear, false, false, false)
  }

  function Pop(q: State): State {
    match q.under
    case Bottom => q.(dead := true)
    case Under(mode, rest) => State(mode, rest, Clear, false, false, false)
  }

  function Settled(q: State): State { q.(pend := Clear, esc := false, start := false) }

  function Die(q: State, c: char): Out { Out(q.(dead := true), [Raw(c)]) }

  function Emit(ev: seq<Event>, out: Out): Out { Out(out.q, ev + out.ev) }

  function Begin(q: State): seq<Event> { if q.start then [WordBegin] else [] }

  /** A `$` that starts nothing. */
  function Flush(q: State): seq<Event> {
    if q.pend != Dollar then [] else if q.top.Code? then [Bare('$')] else [Lit('$')]
  }

  function OpenSubstitution(q: State): State {
    Push(q, Code(true, 0)).(pend := Opened, start := true)
  }

  // ------------------------------------------------------------------ one character

  function CodeClear(q: State, c: char): Out
    requires q.top.Code?
  {
    if c == '\'' then Out(Push(q, Single), Begin(q))
    else if c == '"' then Out(Push(q, Double), Begin(q))
    else if c == '`' then Out(Push(q, Backquote), Begin(q) + [Opaque(c)])
    else if c == '$' then Out(q.(pend := Dollar, start := false), Begin(q))
    else if c == '#' && q.start then Out(Push(q, Comment), [])
    else if !WordEnd(c) then Out(q.(start := false), Begin(q) + [if Plain(c) then Lit(c) else Bare(c)])
    else if c == '(' && q.top.nested then Out(q.(top := Code(true, q.top.depth + 1), start := true), [Sep(c)])
    else if c == ')' && q.top.nested && q.top.depth > 0 then
      Out(q.(top := Code(true, q.top.depth - 1), start := true), [Sep(c)])
    else if c == ')' && q.top.nested then Out(Pop(q), [Shut])
    else Out(q.(start := true, pend := if c == '<' then Less else Clear), [Sep(c)])
  }

  function CodeStep(q: State, c: char): Out
    requires q.top.Code?
  {
    var clear := q.(pend := Clear);
    if q.esc then
      if c == '\n' then Out(q.(esc := false), [])
      else Out(Settled(q), Flush(q) + Begin(q) + [Lit(c)])
    else if c == '\\' then Out(q.(esc := true), [])
    else match q.pend
    case Dollar =>
      if c == '(' then Out(OpenSubstitution(q), [Open])
      else if c == '{' then Out(Push(q, Parameter), [Opaque('$'), Opaque(c)])
      else if c == '\'' then Out(Push(q, AnsiC), [Opaque('$'), Opaque(c)])
      else if NameStart(c) then Out(q.(pend := Name), [Expand('$'), Expand(c)])
      else if SpecialParameter(c) then Out(clear, [Expand('$'), Expand(c)])
      else Emit([Bare('$')], CodeClear(clear, c))
    case Name => if NameChar(c) then Out(q, [Expand(c)]) else CodeClear(clear, c)
    case Less => if c == '<' then Die(q, c) else CodeClear(clear, c)
    case Opened =>
      if c == '(' then Out(State(Arithmetic(0), q.under, Clear, false, false, false), [Opaque(c)])
      else CodeClear(clear, c)
    case _ => CodeClear(clear, c)
  }

  function DoubleClear(q: State, c: char): Out {
    if c == '"' then Out(Pop(q), [])
    else if c == '`' then Out(Push(q, Backquote), [Opaque(c)])
    else if c == '$' then Out(q.(pend := Dollar), [])
    else Out(q, [Lit(c)])
  }

  function DoubleStep(q: State, c: char): Out {
    var clear := q.(pend := Clear, esc := false);
    if q.esc then
      if c == '\n' then Out(q.(esc := false), [])
      else if DoubleEscapable(c) then Out(clear, Flush(q) + [Lit(c)])
      else Emit(Flush(q) + [Lit('\\')], DoubleClear(clear, c))
    else if c == '\\' then Out(q.(esc := true), [])
    else match q.pend
    case Dollar =>
      if c == '(' then Out(OpenSubstitution(q), [Open])
      else if c == '{' then Out(Push(q, Parameter), [Opaque('$'), Opaque(c)])
      else if NameStart(c) then Out(q.(pend := Name), [Expand('$'), Expand(c)])
      else if SpecialParameter(c) then Out(clear, [Expand('$'), Expand(c)])
      else Emit([Lit('$')], DoubleClear(clear, c))
    case Name => if NameChar(c) then Out(q, [Expand(c)]) else DoubleClear(clear, c)
    case _ => DoubleClear(clear, c)
  }

  function SingleStep(q: State, c: char): Out {
    if c == '\'' then Out(Pop(q), []) else Out(q, [Lit(c)])
  }

  function CommentStep(q: State, c: char): Out {
    if c == '\n' then Out(Pop(q).(start := true), [Sep(c)])
    else Out(q.(esc := !q.esc && c == '\\'), [])
  }

  function ParameterStep(q: State, c: char): Out {
    var clear := q.(pend := Clear);
    if q.pend == Dollar && c == '(' then Out(OpenSubstitution(q), [Open])
    else if q.pend == Dollar && c == '{' then Out(Push(q, Parameter), [Opaque(c)])
    else if q.pend == Dollar && c == '$' then Out(clear, [Opaque(c)])
    else if c == '}' then Out(Pop(q), [Opaque(c)])
    else if (c == '\'' || c == '"' || c == '\\' || c == '{' || c == '(' || c == ')' || c == '\n') then Die(q, c)
    else if c == '`' then Out(Push(q, Backquote), [Opaque(c)])
    else Out(q.(pend := if c == '$' then Dollar else Clear), [Opaque(c)])
  }

  function ArithmeticStep(q: State, c: char): Out
    requires q.top.Arithmetic?
  {
    var clear := q.(pend := Clear);
    if q.pend == Closing then (if c == ')' then Out(Pop(q), [Opaque(c)]) else Die(q, c))
    else if q.pend == Dollar && c == '(' then Out(OpenSubstitution(q), [Open])
    else if q.pend == Dollar && c == '{' then Out(Push(q, Parameter), [Opaque(c)])
    else if q.pend == Dollar && c == '$' then Out(clear, [Opaque(c)])
    else if c == '(' then Out(clear.(top := Arithmetic(q.top.depth + 1)), [Opaque(c)])
    else if c == ')' && q.top.depth > 0 then Out(clear.(top := Arithmetic(q.top.depth - 1)), [Opaque(c)])
    else if c == ')' then Out(q.(pend := Closing), [Opaque(c)])
    else if (c == '\'' || c == '"' || c == '\\' || c == '`') then Die(q, c)
    else Out(q.(pend := if c == '$' then Dollar else Clear), [Opaque(c)])
  }

  function BackquoteStep(q: State, c: char): Out {
    if q.esc then Out(q.(esc := false), [Opaque(c)])
    else if c == '\\' then Out(q.(esc := true, pend := Clear), [Opaque(c)])
    else if c == '`' then Out(Pop(q), [Opaque(c)])
    else if (c == '\'' || c == '"') || (q.pend == Dollar && c == '(') || (q.pend == Less && c == '<') then Die(q, c)
    else Out(q.(pend := if c == '$' then Dollar else if c == '<' then Less else Clear), [Opaque(c)])
  }

  function AnsiCStep(q: State, c: char): Out {
    if c == '\\' then Die(q, c)
    else if c == '\'' then Out(Pop(q), [Opaque(c)])
    else Out(q, [Opaque(c)])
  }

  function Step(q: State, c: char): Out {
    if q.dead then Out(q, [Raw(c)])
    else match q.top
    case Code(_, _) => CodeStep(q, c)
    case Double => DoubleStep(q, c)
    case Single => SingleStep(q, c)
    case Comment => CommentStep(q, c)
    case Parameter => ParameterStep(q, c)
    case Arithmetic(_) => ArithmeticStep(q, c)
    case Backquote => BackquoteStep(q, c)
    case AnsiC => AnsiCStep(q, c)
  }

  function Run(q: State, s: string): Out
    decreases |s|
  {
    if s == "" then Out(q, []) else var out := Step(q, s[0]); Emit(out.ev, Run(out.q, s[1..]))
  }

  /** How a shell reads a whole command. */
  function Lex(s: string): seq<Event> { Run(INIT, s).ev }

  lemma EmitEmit(a: seq<Event>, b: seq<Event>, out: Out)
    ensures Emit(a, Emit(b, out)) == Emit(a + b, out)
  {
  }

  lemma RunHead(q: State, s: string, out: Out)
    requires s != "" && out == Step(q, s[0])
    ensures Run(q, s) == Emit(out.ev, Run(out.q, s[1..]))
  {
  }

  lemma {:induction false} RunConcat(q: State, a: string, b: string)
    ensures Run(q, a + b) == Emit(Run(q, a).ev, Run(Run(q, a).q, b))
    decreases |a|
  {
    if a == "" {
      assert a + b == b;
    } else {
      var out := Step(q, a[0]);
      RunHead(q, a, out);
      RunHead(q, a + b, out);
      assert (a + b)[1..] == a[1..] + b;
      RunConcat(out.q, a[1..], b);
      EmitEmit(out.ev, Run(out.q, a[1..]).ev, Run(Run(out.q, a[1..]).q, b));
    }
  }

  // ------------------------------------------------------------------ a literal value

  /** What the characters of a literal value are, one by one. */
  datatype Kind = AsLiteral | AsNothing | AsOpaque | AsRaw

  function Mark(kind: Kind, c: char): seq<Event> {
    match kind
    case AsLiteral => [Lit(c)]
    case AsNothing => []
    case AsOpaque => [Opaque(c)]
    case AsRaw => [Raw(c)]
  }

  function Marks(kind: Kind, v: string): seq<Event> {
    if v == "" then [] else Mark(kind, v[0]) + Marks(kind, v[1..])
  }

  predicate EndsConstruct(q: State) { q.top.Arithmetic? && q.pend == Closing }

  function KindAt(q: State): Kind {
    if q.dead || EndsConstruct(q) then AsRaw
    else match q.top
    case Code(_, _) | Double | Single => AsLiteral
    case Comment => AsNothing
    case _ => AsOpaque
  }

  /** What ends before a value: a `$` or a backslash that stands for itself, and the gap
      between words. */
  function Lead(q: State): seq<Event> {
    if q.dead then []
    else if q.top.Code? then Flush(q) + Begin(q)
    else if q.top.Double? then Flush(q) + if q.esc then [Lit('\\')] else []
    else []
  }

  function Landed(q: State): State {
    if q.dead then q
    else if EndsConstruct(q) then q.(dead := true)
    else if q.top.Code? then Settled(q)
    else q.(pend := Clear, esc := false)
  }

  /** What it means for a value to stand at a place of the command as exactly itself: as
      literal characters of a word there, nothing in a comment, and verbatim text in a
      construct that is passed over. Whatever was pending before it ends. */
  function Literal(q: State, v: string): Out {
    Out(Landed(q), Lead(q) + Marks(KindAt(q), v))
  }
}
