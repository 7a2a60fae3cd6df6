/**
  The scanner that expands path placeholders (`shell_quoting.py`, `_Scanner`): it copies a
  command and escapes each placeholder for the context it believes the shell reads it in.
 */
module ShellQuoting {
  import opened ShellLexer
  import opened ShellValues
  import opened ShellTemplate

  /** What left the scan unable to prove how later text is read. */
  datatype Doubt =
    | NoDoubt
    | Joined | CommentInSubstitution | Subscript | CaseInSubstitution | DoubleParenthesis
    | HereDocument | BracketArithmetic | ProcessIdBracket | QuotingInside | Unbalanced | BackslashInAnsiC

  datatype Context = UnquotedText | SingleText | DoubleText | CommentText | InsideConstruct

  /** The reading agrees with the context the scanner is in. */
  predicate Fits(context: Context, q: State) {
    !q.dead && match context
               case UnquotedText => q.top.Code?
               case SingleText => q.top.Single?
               case DoubleText => q.top.Double?
               case CommentText => q.top.Comment?
               case InsideConstruct => q.top.Parameter? || q.top.Arithmetic? || q.top.Backquote? || q.top.AnsiC?
  }

  /** Here a construct begins whose extent shells disagree on, or that holds shell code. */
  predicate DoubtfulAt(text: string, at: nat)
    requires at < |text|
  {
    var next := if at + 1 < |text| then text[at + 1] else ' ';
    match text[at]
    case '`' | '[' => true
    case '$' => next == '(' || next == '\'' || next == '[' || (next == '{' && !KeyAt(text, at).Found?)
    case '<' => next == '<'
    case '(' => next == '('
    case '\\' => next == '\n'
    case _ => false
  }

  /** Words, quotes, backslashes, comments, operators and parameters only. */
  predicate Simple(text: string) { SimpleFrom(text, 0) }

  predicate SimpleFrom(text: string, at: nat)
    decreases |text| - at
  {
    at < |text| ==> !DoubtfulAt(text, at) && SimpleFrom(text, at + 1)
  }

  lemma {:induction false} DoubtfulIsNotSimple(text: string, from: nat, at: nat)
    requires from <= at < |text| && DoubtfulAt(text, at)
    ensures !SimpleFrom(text, from)
    decreases at - from
  {
    if from < at { DoubtfulIsNotSimple(text, from + 1, at); }
  }

  // ------------------------------------------------------------------ where a scan is in doubt

  /** The word of shell code that is being read: its characters so far while none of them is
      quoted or expanded, or that something in it is. */
  datatype Word = AsWritten(text: string) | Altered

  /** The word after one more character, read in state `q`. A continued line does not end it. */
  function NextWord(word: Word, q: State, c: char): Word {
    var next := Step(q, c).q;
    if next.top.Code? && next.start then AsWritten("")
    else if !q.top.Code? then Altered
    else if q.esc then (if c == '\n' then word else Altered)
    else if c == '\\' then word
    else if c == '\'' || c == '"' || c == '`' || c == '$' || WordEnd(c) || word.Altered? then Altered
    else AsWritten(word.text + [c])
  }

  /** The word that a scan of the text ends in. */
  function WordOf(values: Values, tape: Tape): Word
    decreases tape, 1
  {
    match tape
    case Blank => AsWritten("")
    case Copied(_, _) => WordAfter(values, tape)
    case Filled(_, _, _) => Altered
  }

  function WordAfter(values: Values, tape: Tape): Word
    requires tape.Copied?
    decreases tape, 0
  {
    NextWord(WordOf(values, tape.before), Reading(values, tape.before).q, tape.c)
  }

  /** `_NAME`. */
  predicate IsName(word: string) {
    word != "" && NameStart(word[0]) && forall i :: 0 <= i < |word| ==> NameChar(word[i])
  }

  /** What follows a `$$` between quotes may still be read as an expansion. */
  predicate BracketAfterProcessId(text: string, at: nat)
    requires at < |text|
  {
    at > 1 && text[at - 2] == text[at - 1] == '$' && (text[at] == '(' || text[at] == '{' || text[at] == '[')
  }

  /** From here on it is not known how a shell reads the text. `q` is how it reads the text up to
      here, and `word` the word this ends in: the constructs are those whose extent shells
      disagree on. */
  predicate RaisesDoubt(text: string, at: nat, q: State, word: Word)
    requires at < |text|
  {
    var c := text[at];
    var next := if at + 1 < |text| then text[at + 1] else ' ';
    var last := if at > 0 then text[at - 1] else ' ';
    var bracketed := q.pend != Dollar && ((c == '$' && next == '[') || BracketAfterProcessId(text, at));
    !q.esc && match q.top
              case Code(nested, _) =>
                || (c == '\\' && next == '\n' && (last == '$' || last == '<' || last == '('))
                || (c == '#' && nested && q.start)
                || (c == '[' && word.AsWritten? && IsName(word.text))
                || (WordEnd(c) && nested && word == AsWritten("case"))
                || (c == '(' && next == '(' && q.pend != Dollar && q.pend != Opened)
                || (c == '<' && next == '<') || (c == '$' && next == '[' && q.pend != Dollar)
              case Double => (c == '\\' && next == '\n' && last == '$') || bracketed
              case Parameter =>
                || c == '\'' || c == '"' || c == '\\' || c == ')' || c == '\n'
                || ((c == '{' || c == '(') && q.pend != Dollar) || bracketed
              case Arithmetic(depth) =>
                || c == '\'' || c == '"' || c == '\\' || c == '`'
                || (c == ')' && depth == 0 && q.pend != Closing && next != ')') || bracketed
              case Backquote => c == '\'' || c == '"' || (c == '$' && next == '(') || (c == '<' && next == '<')
              case AnsiC => c == '\\'
              case _ => false
  }

  /** No doubt is raised where a placeholder starts. */
  lemma KeyRaisesNoDoubt(text: string, at: nat, q: State, word: Word)
    requires KeyAt(text, at).Found?
    ensures at < |text| && !RaisesDoubt(text, at, q, word)
  {
    KeyStartsWithDollar(text, at);
    KeyNeedsBrace(text, at);
  }

  /** `exact` is the first place of the text where a scan of it comes to doubt, as far as the
      scan got: no character before raises a doubt, and the one there does. After it, every
      value inserted is one that means the same however it is quoted. */
  predicate DoubtFrom(values: Values, text: string, tape: Tape, pos: int, exact: nat)
    decreases tape, 1
  {
    match tape
    case Blank => true
    case Copied(_, _) => CopiedKnowing(values, text, tape, pos - 1, exact)
    case Filled(_, key, _) => FilledKnowing(values, text, tape, pos - |KeyText(key)|, exact)
  }

  predicate CopiedKnowing(values: Values, text: string, tape: Tape, at: int, exact: nat)
    requires tape.Copied?
    decreases tape, 0
  {
    && 0 <= at < |text|
    && (at <= exact ==>
          (at == exact <==> RaisesDoubt(text, at, Reading(values, tape.before).q, WordOf(values, tape.before))))
    && DoubtFrom(values, text, tape.before, at, exact)
  }

  predicate FilledKnowing(values: Values, text: string, tape: Tape, at: int, exact: nat)
    requires tape.Filled?
    decreases tape, 0
  {
    && (at + |KeyText(tape.key)| <= exact || (exact < at && ContextFree(values.Of(tape.key))))
    && DoubtFrom(values, text, tape.before, at, exact)
  }

  /** A doubt that is raised where the scan stands is the first one, if there was none before. */
  lemma {:induction false} DoubtStartsHere(values: Values, text: string, tape: Tape, pos: int, exact: nat, here: nat)
    requires DoubtFrom(values, text, tape, pos, exact) && pos <= here <= exact
    ensures DoubtFrom(values, text, tape, pos, here)
  {
    match tape
    case Blank =>
    case Copied(before, _) =>
      assert CopiedKnowing(values, text, tape, pos - 1, exact);
      DoubtStartsHere(values, text, before, pos - 1, exact, here);
      assert CopiedKnowing(values, text, tape, pos - 1, here);
    case Filled(before, key, _) =>
      var at := pos - |KeyText(key)|;
      assert FilledKnowing(values, text, tape, at, exact);
      DoubtStartsHere(values, text, before, at, exact, here);
      assert FilledKnowing(values, text, tape, at, here);
  }

  predicate Renderable(context: Context, v: string) {
    context != InsideConstruct && !(context == CommentText && '\n' in v)
  }

  function Rendering(context: Context, v: string): string {
    if ContextFree(v) then v
    else match context
    case SingleText => EscapeSingle(v)
    case DoubleText => EscapeDouble(v)
    case _ => Quote(v)
  }

  lemma RenderingIsProper(q: State, context: Context, v: string)
    requires ContextFree(v) || (Renderable(context, v) && Fits(context, q) && !q.esc && q.pend != Dollar)
    ensures Proper(q, v, Rendering(context, v))
  {
  }

  lemma NotRenderable(q: State, context: Context, v: string)
    requires Fits(context, q) && !Renderable(context, v)
    ensures Unquotable(q, v)
  {
  }

  /** Where no quoting can be proved for a value that needs it. */
  predicate Unquotable(q: State, v: string) {
    || q.pend == Dollar || q.top.Parameter? || q.top.Arithmetic? || q.top.Backquote? || q.top.AnsiC?
    || (q.top.Comment? && '\n' in v)
  }

  /** The scan so far: what was read, what was written, and how a shell reads it. */
  ghost predicate Trace(values: Values, text: string, pos: nat, tape: Tape, out: string, q: State, word: Word,
                        exact: nat) {
    && Legal(values, text, tape, pos, exact) && Expanded(tape) == out && Reading(values, tape).q == q
    && WordOf(values, tape) == word && DoubtFrom(values, text, tape, pos, exact)
  }

  lemma TraceGrowsByCopy(values: Values, text: string, pos: nat, tape: Tape, out: string, q: State, word: Word,
                         exact: nat)
    requires pos < |text| && Trace(values, text, pos, tape, out, q, word, exact) && Sane(q)
    requires KeyAt(text, pos).Found? ==> 0 < pos && text[pos - 1] == '\\' && (pos < exact ==> q.esc)
    requires pos <= exact ==> (pos == exact <==> RaisesDoubt(text, pos, q, word))
    ensures
      Trace(values, text, pos + 1, Copied(tape, text[pos]), out + [text[pos]], Step(q, text[pos]).q,
            NextWord(word, q, text[pos]), exact)
    ensures Sane(Step(q, text[pos]).q)
  {
    hide RaisesDoubt;
    SaneStep(q, text[pos]);
    TapeGrowsByCopy(values, text, tape, pos, exact);
    var more := Copied(tape, text[pos]);
    assert CopiedKnowing(values, text, more, pos, exact);
    assert WordOf(values, more) == WordAfter(values, more);
  }

  lemma FilledIsKnown(values: Values, text: string, tape: Tape, pos: nat, exact: nat, key: Key, shown: string)
    requires DoubtFrom(values, text, tape, pos, exact)
    requires pos + |KeyText(key)| <= exact || (exact < pos && ContextFree(values.Of(key)))
    ensures DoubtFrom(values, text, Filled(tape, key, shown), pos + |KeyText(key)|, exact)
    ensures WordOf(values, Filled(tape, key, shown)) == Altered
  {
    assert FilledKnowing(values, text, Filled(tape, key, shown), pos, exact);
  }

  lemma TraceGrowsByFill(values: Values, text: string, pos: nat, tape: Tape, out: string, q: State, word: Word,
                         exact: nat, key: Key, shown: string)
    requires Trace(values, text, pos, tape, out, q, word, exact) && Sane(q) && KeyAt(text, pos) == Found(key)
    requires Proper(q, values.Of(key), shown) && (pos < exact ==> !q.esc)
    requires exact == |text| || (exact < pos && ContextFree(values.Of(key)))
    ensures pos + |KeyText(key)| <= |text| && Sane(Landed(q))
    ensures
      Trace(values, text, pos + |KeyText(key)|, Filled(tape, key, shown), out + shown, Landed(q), Altered, exact)
  {
    hide RaisesDoubt, Proper, KeyAt, Legal, Expanded;
    SaneLanded(q);
    TapeGrowsByFill(values, text, tape, pos, exact, key, shown);
    FilledIsKnown(values, text, tape, pos, exact, key, shown);
  }

  lemma KeyStartsWithDollar(text: string, pos: nat)
    ensures KeyAt(text, pos).Found? ==> pos < |text| && text[pos] == '$'
  {
    var found := KeyAt(text, pos);
    if found.Found? {
      assert text[pos..pos + |KeyText(found.key)|][0] == KeyText(found.key)[0];
    }
  }

  lemma KeyEndsInBrace(text: string, pos: nat, key: Key)
    requires KeyAt(text, pos) == Found(key)
    ensures pos + |KeyText(key)| <= |text| && text[pos + |KeyText(key)| - 1] == '}'
  {
    assert text[pos..pos + |KeyText(key)|][|KeyText(key)| - 1] == KeyText(key)[|KeyText(key)| - 1];
  }

  // ------------------------------------------------------------------ where the scanner is

  /** A construct has been passed over: reading goes on where it began. */
  function Resumed(outer: State): State { State(outer.top, outer.under, Clear, false, false, false) }

  /** Shell code, `depth` parentheses into the body of a substitution. */
  predicate InCode(q: State, under: Modes, nested: bool, depth: nat) {
    q.top == Code(nested, if nested then depth else 0) && q.under == under && !q.dead && !q.esc
  }

  /** In a construct that was entered from `outer`. */
  predicate Inner(q: State, outer: State) {
    q.under == Under(outer.top, outer.under) && !q.dead && !q.start
  }

  /** Something in which an expansion may start. */
  predicate Expandable(q: State) {
    !q.dead && !q.esc && q.pend != Closing && (q.top.Code? || q.top.Double? || q.top.Parameter? || q.top.Arithmetic?)
  }

  /** A `$` was copied alone: what follows does not make it an expansion that the scanner
      would have had to enter. */
  predicate DollarAhead(values: Values, text: string, pos: nat, quoted: bool) {
    && 0 < pos <= |text| && text[pos - 1] == '$'
    && (pos < |text| ==>
          && (text[pos] != '(' && text[pos] != '{') && (quoted || text[pos] != '\'')
          && (text[pos] == '$' ==> KeyAt(text, pos).Found?)
          && (KeyAt(text, pos).Found? ==> ContextFree(values.Of(KeyAt(text, pos).key))))
  }

  /** What is pending in shell code is what the scanner has already decided. */
  predicate Ahead(values: Values, text: string, pos: nat, pend: Pend) {
    match pend
    case Clear | Name => true
    case Dollar => DollarAhead(values, text, pos, false)
    case Less => 0 < pos <= |text| && text[pos - 1] == '<' && (pos < |text| ==> text[pos] != '<')
    case Opened => 0 < pos <= |text| && text[pos - 1] == '(' && (pos < |text| ==> text[pos] != '(')
    case Closing => false
  }

  // ------------------------------------------------------------------ single steps of the reading

  lemma SingleOpens(q: State)
    requires q.top.Code? && !q.dead && !q.esc && q.pend != Dollar
    ensures Step(q, '\'').q == Push(q, Single)
  {
  }

  lemma DoubleOpens(q: State)
    requires q.top.Code? && !q.dead && !q.esc
    ensures Step(q, '"').q == Push(q, Double)
  {
  }

  lemma BackquoteOpens(q: State)
    requires Sane(q) && !q.dead && !q.esc && (q.top.Code? || q.top.Double? || q.top.Parameter?)
    ensures Step(q, '`').q == Push(q, Backquote)
  {
  }

  lemma DollarPends(q: State)
    requires Sane(q) && Expandable(q) && q.pend != Dollar
    ensures Step(q, '$').q == Resumed(q).(pend := Dollar)
  {
  }

  lemma AfterDollar(outer: State)
    requires Expandable(outer)
    ensures
      var q := Resumed(outer).(pend := Dollar);
      && Step(q, '(').q == OpenSubstitution(outer)
      && Step(q, '{').q == Push(outer, Parameter)
      && Step(q, '$').q == Resumed(outer)
      && (outer.top.Code? ==> Step(q, '\'').q == Push(outer, AnsiC))
  {
  }

  lemma SubstitutionCloses(q: State, outer: State)
    requires InCode(q, Under(outer.top, outer.under), true, 0)
    ensures Step(q, ')').q == Resumed(outer)
  {
  }

  lemma SingleSteps(q: State, outer: State, c: char)
    requires q.top.Single? && Inner(q, outer)
    ensures Step(q, c).q == if c == '\'' then Resumed(outer) else q
  {
  }

  predicate InDouble(q: State, outer: State) {
    q.top.Double? && Inner(q, outer) && q.pend in {Clear, Dollar, Name}
  }

  lemma DoubleCloses(q: State, outer: State)
    requires InDouble(q, outer) && !q.esc
    ensures Step(q, '"').q == Resumed(outer)
  {
  }

  lemma DoubleEscapes(q: State, outer: State, c: char)
    requires InDouble(q, outer) && !q.esc
    ensures Step(q, '\\').q == q.(esc := true)
    ensures DoubleEscapable(c) ==>
      Step(q.(esc := true), c).q == q.(pend := if c == '\n' then q.pend else Clear)
  {
  }

  lemma DoublePasses(q: State, outer: State, c: char)
    requires InDouble(q, outer) && !DoubleEscapable(c) && (q.pend == Dollar && !q.esc ==> (c != '(' && c != '{'))
    ensures InDouble(Step(q, c).q, outer) && !Step(q, c).q.esc && Step(q, c).q.pend != Dollar
  {
  }

  lemma DoublePassesNewline(q: State, outer: State)
    requires InDouble(q, outer) && !q.esc
    ensures InDouble(Step(q, '\n').q, outer) && !Step(q, '\n').q.esc && Step(q, '\n').q.pend != Dollar
  {
  }

  predicate InBackquote(q: State, outer: State) {
    q.top.Backquote? && Inner(q, outer) && !q.esc
  }

  lemma BackquoteEscapes(q: State, outer: State, c: char)
    requires InBackquote(q, outer)
    ensures Step(q, '\\').q == q.(esc := true, pend := Clear)
    ensures Step(q.(esc := true, pend := Clear), c).q == q.(pend := Clear)
  {
  }

  lemma BackquoteSteps(q: State, outer: State, c: char)
    requires InBackquote(q, outer) && c != '\\' && (c != '\'' && c != '"')
    requires (q.pend == Dollar ==> c != '(') && (q.pend == Less ==> c != '<')
    ensures c == '`' ==> Step(q, c).q == Resumed(outer)
    ensures c != '`' ==> Step(q, c).q == q.(pend := if c == '$' then Dollar else if c == '<' then Less else Clear)
  {
  }

  predicate InParameter(q: State, outer: State) {
    q.top.Parameter? && Inner(q, outer) && !q.esc && q.pend in {Clear, Dollar}
  }

  lemma ParameterSteps(q: State, outer: State, c: char)
    requires InParameter(q, outer)
    requires c != '\'' && c != '"' && c != '\\' && c != '{' && c != '(' && c != ')' && c != '\n' && c != '`' && c != '$'
    ensures Step(q, c).q == if c == '}' then Resumed(outer) else q.(pend := Clear)
  {
  }

  lemma ArithmeticOpens(outer: State)
    requires Expandable(outer)
    ensures Step(OpenSubstitution(outer), '(').q == Push(outer, Arithmetic(0))
  {
  }

  lemma ArithmeticSteps(q: State, outer: State, depth: nat, c: char)
    requires q.top == Arithmetic(depth) && Inner(q, outer) && !q.esc && q.pend in {Clear, Dollar}
    requires c != '\'' && c != '"' && c != '\\' && c != '`' && c != '$'
    requires q.pend == Dollar ==> c != '(' && c != '{'
    ensures c == '(' ==> Step(q, c).q == q.(top := Arithmetic(depth + 1), pend := Clear)
    ensures c == ')' && depth > 0 ==> Step(q, c).q == q.(top := Arithmetic(depth - 1), pend := Clear)
    ensures c == ')' && depth == 0 ==>
      Step(q, c).q == q.(pend := Closing) && Step(q.(pend := Closing), c).q == Resumed(outer)
    ensures (c != '(' && c != ')') ==> Step(q, c).q == q.(pend := Clear)
  {
  }

  lemma AnsiCSteps(q: State, outer: State, c: char)
    requires q.top.AnsiC? && Inner(q, outer) && c != '\\'
    ensures Step(q, c).q == if c == '\'' then Resumed(outer) else q
  {
  }

  lemma CommentSteps(q: State, outer: State, c: char)
    requires q.top.Comment? && Inner(q, outer) && c != '\n'
    ensures Step(q, c).q == q.(esc := !q.esc && c == '\\')
  {
  }

  lemma CommentOpens(q: State)
    requires q.top.Code? && !q.dead && !q.esc && q.start && q.pend !in {Dollar, Name}
    ensures Step(q, '#').q == Push(q, Comment)
  {
  }

  lemma CodeEscapes(q: State, c: char)
    requires q.top.Code? && !q.dead && !q.esc
    ensures Step(q, '\\').q == q.(esc := true)
    ensures Step(q.(esc := true), c).q == if c == '\n' then q else Resumed(q)
  {
  }

  lemma CodeWord(q: State, c: char)
    requires Sane(q) && q.top.Code? && !q.dead && !q.esc
    requires !WordEnd(c) && c != '\\' && c != '\'' && c != '"' && c != '`' && c != '$' && (c == '#' ==> !q.start)
    requires q.pend == Dollar ==> c != '{'
    ensures var q' := Step(q, c).q; q' == Resumed(q).(pend := q'.pend) && q'.pend in {Clear, Name}
  {
  }

  /** Shell code right after an operator or blank character. */
  function AfterOperator(nested: bool, depth: nat, under: Modes, c: char): State {
    State(Code(nested, if nested then depth else 0), under, if c == '<' then Less else Clear, false, true, false)
  }

  lemma CodeOpens(q: State, under: Modes, nested: bool, depth: nat)
    requires InCode(q, under, nested, depth) && q.pend != Dollar && q.pend != Opened
    ensures Step(q, '(').q == AfterOperator(nested, depth + 1, under, '(')
  {
  }

  lemma CodeCloses(q: State, under: Modes, nested: bool, depth: nat)
    requires InCode(q, under, nested, depth) && (nested ==> depth > 0)
    ensures Step(q, ')').q == AfterOperator(nested, if nested then depth - 1 else depth, under, ')')
  {
  }

  lemma CodeSeparates(q: State, under: Modes, nested: bool, depth: nat, c: char)
    requires InCode(q, under, nested, depth) && WordEnd(c) && c != '(' && c != ')' && (q.pend == Less ==> c != '<')
    ensures Step(q, c).q == AfterOperator(nested, depth, under, c)
  {
  }

  lemma CommentEnds(q: State, under: Modes, nested: bool, depth: nat)
    requires q.top.Comment? && q.under == Under(Code(nested, depth), under) && !q.dead
    ensures Step(q, '\n').q == State(Code(nested, depth), under, Clear, false, true, false)
  {
  }

  // ------------------------------------------------------------------ the scanner

  class Scanner {
    const text: string
    const values: Values
    var pos: nat
    var out: string
    var unproven: Doubt
    ghost var tape: Tape
    ghost var q: State      // how a shell reads what has been scanned
    ghost var bare: Word    // the word it is in
    ghost var exact: nat    // where the first doubt arose
    ghost const simple: bool

    constructor (text: string, values: Values)
      ensures this.text == text && this.values == values
      ensures pos == 0 && unproven == NoDoubt && q == INIT && bare == AsWritten("") && Ok()
      ensures simple == Simple(text)
    {
      this.text, this.values := text, values;
      pos, out, unproven := 0, "", NoDoubt;
      tape, q, bare, exact := Blank, INIT, AsWritten(""), |text|;
      simple := Simple(text);
    }

    ghost predicate Ok()
      reads this
    {
      && pos <= |text| && Sane(q) && Trace(values, text, pos, tape, out, q, bare, exact)
      && (unproven == NoDoubt ==> exact == |text|)
      && (unproven != NoDoubt ==>
            exact <= pos && exact < |text| && !simple && (exact == pos ==> RaisesDoubt(text, pos, q, bare)))
      && simple == Simple(text)
    }

    lemma Doubtful(at: nat)
      requires simple == Simple(text) && at < |text| && DoubtfulAt(text, at)
      ensures !simple
    {
      DoubtfulIsNotSimple(text, 0, at);
    }

    /** Something is left to scan, and it is known how the shell reads it. */
    ghost predicate Live()
      reads this
    {
      unproven == NoDoubt && pos < |text|
    }

    ghost predicate RefusedRightly()
      reads this
    {
      && KeyAt(text, pos).Found?
      && var v := values.Of(KeyAt(text, pos).key);
         !ContextFree(v) && (exact < pos || (unproven == NoDoubt && Unquotable(q, v)))
    }

    /** A construct that began in state `outer` has been passed over. */
    ghost predicate PassedOver(outer: State)
      reads this
    {
      q == Resumed(outer) && bare == Altered && 0 < pos <= |text| && text[pos - 1] != '$'
    }

    /** No bracket after `$$` is next, unless the last `$` may still start an expansion. */
    ghost predicate NoBracketAhead()
      reads this
    {
      q.pend != Dollar && pos < |text| ==> !BracketAfterProcessId(text, pos)
    }

    /** `at`, for one character, two, and three. */
    predicate At1(c: char)
      reads this
    {
      pos < |text| && text[pos] == c
    }

    predicate At2(c: char, d: char)
      reads this
    {
      pos + 1 < |text| && text[pos] == c && text[pos + 1] == d
    }

    predicate At3(c: char, d: char, e: char)
      reads this
    {
      pos + 2 < |text| && text[pos] == c && text[pos + 1] == d && text[pos + 2] == e
    }

    predicate AtKey(key: Key)
      reads this
    {
      At(text, pos, KeyText(key))
    }

    // ---------------------------------------------------------------- helpers

    method Copy()
      requires Ok() && pos < |text|
      requires KeyAt(text, pos).Found? ==> 0 < pos && text[pos - 1] == '\\' && (pos < exact ==> q.esc)
      requires Live() ==> !RaisesDoubt(text, pos, q, bare)
      modifies `pos, `out, `tape, `q, `bare
      ensures Ok() && pos == old(pos) + 1
      ensures old(Live()) ==> q == Step(old(q), text[old(pos)]).q && bare == NextWord(old(bare), old(q), text[old(pos)])
    {
      hide RaisesDoubt, NextWord;
      TraceGrowsByCopy(values, text, pos, tape, out, q, bare, exact);
      tape, q, bare := Copied(tape, text[pos]), Step(q, text[pos]).q, NextWord(bare, q, text[pos]);
      out, pos := out + [text[pos]], pos + 1;
    }

    /** Copies a backslash and the character it escapes, if there is one. */
    method CopyEscaped(ghost escaped: State)
      requires Ok() && pos < |text| && text[pos] == '\\'
      requires Live() ==> Step(q, '\\').q == escaped && escaped.esc && !RaisesDoubt(text, pos, q, bare)
      modifies `pos, `out, `tape, `q, `bare
      ensures Ok() && pos == (if old(pos) + 1 < |text| then old(pos) + 2 else old(pos) + 1)
      ensures old(Live()) && old(pos) + 1 < |text| ==>
        && q == Step(escaped, text[old(pos) + 1]).q
        && bare == NextWord(NextWord(old(bare), old(q), '\\'), escaped, text[old(pos) + 1])
    {
      KeyStartsWithDollar(text, pos);
      Copy();
      if pos < |text| { Copy(); }
    }

    method Raise(construct: Doubt)
      requires Ok() && construct != NoDoubt && !simple && pos < |text|
      requires Live() ==> RaisesDoubt(text, pos, q, bare)
      modifies `unproven, `exact
      ensures Ok() && unproven != NoDoubt && (old(unproven) != NoDoubt ==> unproven == old(unproven))
    {
      if unproven == NoDoubt {
        unproven := construct;
        LessExact(values, text, tape, pos, exact, pos);
        DoubtStartsHere(values, text, tape, pos, exact, pos);
        exact := pos;
      }
    }

    /** `render`. */
    method Render(value: string, context: Context) returns (ok: bool, shown: string)
      ensures ok <==> ContextFree(value) || (unproven == NoDoubt && Renderable(context, value))
      ensures ok ==> shown == Rendering(context, value)
    {
      ok, shown := true, value;
      if ContextFree(value) { return; }
      if unproven != NoDoubt { return false, ""; }
      match context
      case UnquotedText => shown := Quote(value);
      case SingleText => shown := EscapeSingle(value);
      case DoubleText => shown := EscapeDouble(value);
      case CommentText =>
        if '\n' in value { return false, ""; }
        shown := Quote(value);
      case InsideConstruct => return false, "";
    }

    /** Expands a placeholder at the cursor, if one starts there. */
    method Placeholder(context: Context) returns (hit: bool, ok: bool)
      requires Ok()
      requires Live() && KeyAt(text, pos).Found? ==>
        Fits(context, q) && !q.esc
        && (q.pend == Dollar && context != InsideConstruct ==> ContextFree(values.Of(KeyAt(text, pos).key)))
      modifies `pos, `out, `tape, `q, `bare
      ensures Ok() && (hit <==> KeyAt(text, old(pos)).Found?)
      ensures !hit || !ok ==> pos == old(pos) && q == old(q) && bare == old(bare)
      ensures !ok ==> hit && RefusedRightly()
      ensures hit && ok ==> pos > old(pos) && text[pos - 1] == '}' && q == Landed(old(q)) && bare == Altered
    {
      hit, ok := false, true;
      if AtKey(Repo) {
        hit := true;
        ok := Insert(Repo, context);
      } else if AtKey(Worktree) {
        hit := true;
        ok := Insert(Worktree, context);
      }
    }

    method Insert(key: Key, context: Context) returns (ok: bool)
      requires Ok() && KeyAt(text, pos) == Found(key)
      requires Live() ==>
        Fits(context, q) && !q.esc && (q.pend == Dollar && context != InsideConstruct ==> ContextFree(values.Of(key)))
      modifies `pos, `out, `tape, `q, `bare
      ensures Ok() && (!ok ==> RefusedRightly() && pos == old(pos) && q == old(q) && bare == old(bare))
      ensures ok ==> pos > old(pos) && text[pos - 1] == '}' && q == Landed(old(q)) && bare == Altered
    {
      hide RaisesDoubt, Trace;
      var value, shown := values.Of(key), "";
      KeySpelled(text, pos, key);
      KeyRaisesNoDoubt(text, pos, q, bare);
      KeyEndsInBrace(text, pos, key);
      ok, shown := Render(value, context);
      if ok {
        RenderingIsProper(q, context, value);
        Fill(key, shown);
      } else if unproven == NoDoubt {
        NotRenderable(q, context, value);
      }
    }

    method Fill(key: Key, shown: string)
      requires Ok() && KeyAt(text, pos) == Found(key)
      requires Proper(q, values.Of(key), shown) && (unproven == NoDoubt ==> !q.esc)
      requires unproven != NoDoubt ==> ContextFree(values.Of(key))
      modifies `pos, `out, `tape, `q, `bare
      ensures Ok() && pos == old(pos) + |KeyText(key)| && q == Landed(old(q)) && bare == Altered
    {
      hide RaisesDoubt;
      KeyRaisesNoDoubt(text, pos, q, bare);
      TraceGrowsByFill(values, text, pos, tape, out, q, bare, exact, key, shown);
      tape, q, bare := Filled(tape, key, shown), Landed(q), Altered;
      out, pos := out + shown, pos + |KeyText(key)|;
    }

    // ---------------------------------------------------------------- quotes and comments

    method SingleQuoted() returns (ok: bool)
      requires Ok() && pos < |text| && text[pos] == '\''
      requires Live() ==> q.top.Code? && !q.dead && !q.esc && q.pend != Dollar
      modifies `pos, `out, `tape, `q, `bare
      ensures Ok() && pos > old(pos) && (!ok ==> RefusedRightly())
      ensures ok && Live() ==> PassedOver(old(q))
    {
      hide Trace;
      KeyStartsWithDollar(text, pos);
      if Live() { SingleOpens(q); }
      Copy();
      ok := true;
      while pos < |text|
        invariant Ok() && ok && pos > old(pos)
        invariant Live() ==> q == Push(old(q), Single)
      {
        var hit;
        KeyStartsWithDollar(text, pos);
        hit, ok := Placeholder(SingleText);
        if !ok { return; }
        if !hit {
          var closing := text[pos] == '\'';
          if Live() { SingleSteps(q, old(q), text[pos]); }
          Copy();
          if closing { return; }
        }
      }
    }

    method Comment() returns (ok: bool)
      requires Ok() && pos < |text| && text[pos] == '#'
      requires Live() ==> q.top.Code? && !q.dead && !q.esc && q.start && q.pend !in {Dollar, Name}
      requires Live() ==> !q.top.nested
      modifies `pos, `out, `tape, `q, `bare
      ensures Ok() && pos > old(pos) && (!ok ==> RefusedRightly())
      ensures ok && Live() ==> CommentAhead(old(q)) && text[pos] == '\n'
    {
      KeyStartsWithDollar(text, pos);
      if Live() { CommentOpens(q); }
      Copy();
      ok := true;
      while pos < |text| && text[pos] != '\n'
        invariant Ok() && ok && pos > old(pos)
        invariant Live() ==> CommentAhead(old(q))
      {
        var hit;
        KeyStartsWithDollar(text, pos);
        hit, ok := Placeholder(CommentText);
        if !ok { return; }
        if !hit {
          CharInComment(old(q));
        }
      }
    }

    ghost predicate CommentAhead(outer: State)
      reads this
    {
      q.top.Comment? && Inner(q, outer) && q.pend == Clear && (pos < |text| ==> q.esc ==> text[pos] == '\n')
    }

    method CharInComment(ghost outer: State)
      requires Ok() && pos < |text| && text[pos] != '\n' && !KeyAt(text, pos).Found?
      requires Live() ==> CommentAhead(outer)
      modifies `pos, `out, `tape, `q, `bare
      ensures Ok() && pos > old(pos)
      ensures Live() ==> CommentAhead(outer)
    {
      if text[pos] == '\\' && !At2('\\', '\n') {
        BackslashInComment(outer);
      } else {
        if Live() { CommentSteps(q, outer, text[pos]); }
        Copy();
      }
    }

    method BackslashInComment(ghost outer: State)
      requires Ok() && At1('\\') && !At2('\\', '\n')
      requires Live() ==> q.top.Comment? && Inner(q, outer) && q.pend == Clear && !q.esc
      modifies `pos, `out, `tape, `q, `bare
      ensures Ok() && pos > old(pos)
      ensures Live() ==> q.top.Comment? && Inner(q, outer) && q.pend == Clear && !q.esc
    {
      ghost var escaped := q.(esc := true);
      if Live() { CommentSteps(q, outer, '\\'); }
      if Live() && pos + 1 < |text| { CommentSteps(escaped, outer, text[pos + 1]); }
      CopyEscaped(escaped);
    }

    method DoubleQuoted() returns (ok: bool)
      requires Ok() && pos < |text| && text[pos] == '"'
      requires Live() ==> q.top.Code? && !q.dead && !q.esc
      modifies `pos, `out, `unproven, `tape, `q, `bare, `exact
      ensures Ok() && pos > old(pos) && (!ok ==> RefusedRightly())
      ensures old(unproven) != NoDoubt ==> unproven == old(unproven)
      ensures ok && Live() ==> PassedOver(old(q))
      decreases |text| - pos, 0
    {
      hide Trace;
      KeyStartsWithDollar(text, pos);
      if Live() { DoubleOpens(q); }
      Copy();
      ok := true;
      while pos < |text|
        invariant Ok() && ok && pos > old(pos)
        invariant old(unproven) != NoDoubt ==> unproven == old(unproven)
        invariant Live() ==> DoubleAhead(old(q))
        decreases |text| - pos
      {
        var hit;
        KeyStartsWithDollar(text, pos);
        hit, ok := Placeholder(DoubleText);
        if !ok { return; }
        if !hit {
          if text[pos] == '"' {
            CloseDouble(old(q));
            return;
          }
          ok := InsideDouble(old(q));
          if !ok { return; }
        }
      }
    }

    method CloseDouble(ghost outer: State)
      requires Ok() && At1('"') && (Live() ==> DoubleAhead(outer))
      modifies `pos, `out, `tape, `q, `bare
      ensures Ok() && pos == old(pos) + 1
      ensures Live() ==> PassedOver(outer)
    {
      hide Trace;
      if Live() { DoubleCloses(q, outer); }
      KeyStartsWithDollar(text, pos);
      Copy();
    }

    /** Inside the double quotes that a word of code opened in state `outer`. */
    ghost predicate DoubleAhead(outer: State)
      reads this
    {
      && InDouble(q, outer)
      && (pos < |text| ==> q.esc ==> !DoubleEscapable(text[pos]))
      && (q.pend == Dollar ==> q.esc || DollarAhead(values, text, pos, true))
      && NoBracketAhead()
    }

    /** Everything between double quotes but a placeholder and the closing quote. */
    method InsideDouble(ghost outer: State) returns (ok: bool)
      requires Ok() && pos < |text| && !KeyAt(text, pos).Found? && text[pos] != '"'
      requires Live() ==> DoubleAhead(outer)
      modifies `pos, `out, `unproven, `tape, `q, `bare, `exact
      ensures Ok() && pos > old(pos) && (!ok ==> RefusedRightly())
      ensures old(unproven) != NoDoubt ==> unproven == old(unproven)
      ensures ok && Live() ==> DoubleAhead(outer)
      decreases |text| - pos, 3
    {
      ok := true;
      var c := text[pos];
      if c == '\\' {
        BackslashInDouble(outer);
      } else if c == '`' {
        ok := Backquoted();
      } else if c == '$' {
        ok := Expansion(true);
      } else {
        if Live() {
          if c == '\n' { DoublePassesNewline(q, outer); } else { DoublePasses(q, outer, c); }
        }
        Copy();
      }
    }

    method BackslashInDouble(ghost outer: State)
      requires Ok() && pos < |text| && text[pos] == '\\'
      requires Live() ==> DoubleAhead(outer)
      modifies `pos, `out, `unproven, `tape, `q, `bare, `exact
      ensures Ok() && pos > old(pos)
      ensures old(unproven) != NoDoubt ==> unproven == old(unproven)
      ensures Live() ==> DoubleAhead(outer)
    {
      KeyStartsWithDollar(text, pos);
      if pos + 1 < |text| && text[pos + 1] == '\n' && pos > 0 && text[pos - 1] == '$' {
        Doubtful(pos);
        Raise(Joined);
      }
      if Live() { DoubleEscapes(q, outer, if pos + 1 < |text| then text[pos + 1] else ' '); }
      if pos + 1 < |text| && DoubleEscapable(text[pos + 1]) {
        CopyEscaped(q.(esc := true));
      } else {
        Copy();
      }
    }

    // ---------------------------------------------------------------- expansions

    method Expansion(quoted: bool) returns (ok: bool)
      requires Ok() && pos < |text| && text[pos] == '$' && !KeyAt(text, pos).Found?
      requires Live() ==> Expandable(q) && (quoted <==> !q.top.Code?) && q.pend != Dollar
      modifies `pos, `out, `unproven, `tape, `q, `bare, `exact
      ensures Ok() && pos > old(pos) && (!ok ==> RefusedRightly())
      ensures old(unproven) != NoDoubt ==> unproven == old(unproven)
      ensures ok && Live() ==> AfterExpansion(old(q), quoted)
      decreases |text| - pos, 1
    {
      hide Trace;
      if At3('$', '(', '(') {
        ok := ArithmeticExpansion();
      } else if At2('$', '(') {
        ok := Substitution();
      } else if At2('$', '{') {
        ok := ParameterExpansion();
      } else if !quoted && At2('$', '\'') {
        ok := AnsiCQuoted();
      } else if At2('$', '[') {
        Doubtful(pos);
        Raise(BracketArithmetic);
        Copy();
        KeyStartsWithDollar(text, pos);
        Copy();
        ok := true;
      } else {
        ok := LoneDollar(quoted);
      }
    }

    ghost predicate AfterExpansion(outer: State, quoted: bool)
      reads this
    {
      && bare == Altered && (quoted ==> NoBracketAhead())
      && (q == Resumed(outer) || (q == Resumed(outer).(pend := Dollar) && DollarAhead(values, text, pos, quoted)))
    }

    method Substitution() returns (ok: bool)
      requires Ok() && At2('$', '(') && !At3('$', '(', '(')
      requires Live() ==> Expandable(q) && q.pend != Dollar
      modifies `pos, `out, `unproven, `tape, `q, `bare, `exact
      ensures Ok() && pos > old(pos) && (!ok ==> RefusedRightly())
      ensures old(unproven) != NoDoubt ==> unproven == old(unproven)
      ensures ok && Live() ==> PassedOver(old(q))
      decreases |text| - pos, 0
    {
      hide Trace;
      Doubtful(pos);
      OpenBody();
      ok := ShellCode(true);
      if ok && pos < |text| {
        KeyStartsWithDollar(text, pos);
        if Live() { SubstitutionCloses(q, old(q)); }
        Copy();
      }
    }

    method OpenBody()
      requires Ok() && At2('$', '(') && !At3('$', '(', '(')
      requires Live() ==> Expandable(q) && q.pend != Dollar
      modifies `pos, `out, `tape, `q, `bare
      ensures Ok() && pos == old(pos) + 2
      ensures Live() ==> q.top.Code? && q.under == Under(old(q).top, old(q).under) && CodeAhead(true, 0, true, q.under)
      ensures Live() ==> bare == AsWritten("")
    {
      OpenParenthesis();
      if Live() {
        assert InCode(q, q.under, true, 0) && Ahead(values, text, pos, q.pend);
      }
    }

    /** Copies `$(`. */
    method OpenParenthesis()
      requires Ok() && At2('$', '(')
      requires Live() ==> Expandable(q) && q.pend != Dollar
      modifies `pos, `out, `tape, `q, `bare
      ensures Ok() && pos == old(pos) + 2
      ensures Live() ==> q == OpenSubstitution(old(q)) && bare == AsWritten("")
    {
      hide Trace;
      KeyStartsWithDollar(text, pos + 1);
      KeyNeedsBrace(text, pos);
      if Live() { DollarPends(q); AfterDollar(q); }
      Copy();
      Copy();
    }

    method ArithmeticExpansion() returns (ok: bool)
      requires Ok() && At3('$', '(', '(')
      requires Live() ==> Expandable(q) && q.pend != Dollar
      modifies `pos, `out, `unproven, `tape, `q, `bare, `exact
      ensures Ok() && pos > old(pos) && (!ok ==> RefusedRightly())
      ensures old(unproven) != NoDoubt ==> unproven == old(unproven)
      ensures ok && Live() ==> PassedOver(old(q))
      decreases |text| - pos, 0
    {
      hide Trace;
      Doubtful(pos);
      OpenArithmetic();
      ok := true;
      var depth := 0;
      while pos < |text|
        invariant Ok() && ok && pos > old(pos)
        invariant old(unproven) != NoDoubt ==> unproven == old(unproven)
        invariant Live() ==> ArithmeticAhead(old(q), depth)
        decreases |text| - pos
      {
        var hit;
        KeyStartsWithDollar(text, pos);
        hit, ok := Placeholder(InsideConstruct);
        if !ok { return; }
        if !hit {
          if text[pos] == ')' && depth == 0 {
            EndArithmetic(old(q));
            return;
          }
          ok, depth := InsideArithmetic(old(q), depth);
          if !ok { return; }
        }
      }
    }

    /** Copies `$((`. */
    method OpenArithmetic()
      requires Ok() && At3('$', '(', '(')
      requires Live() ==> Expandable(q) && q.pend != Dollar
      modifies `pos, `out, `tape, `q, `bare
      ensures Ok() && pos == old(pos) + 3
      ensures Live() ==> q == Push(old(q), Arithmetic(0))
    {
      OpenParenthesis();
      if Live() { ArithmeticOpens(old(q)); }
      KeyStartsWithDollar(text, pos);
      Copy();
    }

    ghost predicate ArithmeticAhead(outer: State, depth: nat)
      reads this
    {
      && q.top == Arithmetic(depth) && Inner(q, outer) && !q.esc && q.pend in {Clear, Dollar}
      && (q.pend == Dollar ==> DollarAhead(values, text, pos, true)) && NoBracketAhead()
    }

    method EndArithmetic(ghost outer: State)
      requires Ok() && !simple && At1(')')
      requires Live() ==> ArithmeticAhead(outer, 0)
      modifies `pos, `out, `unproven, `tape, `q, `bare, `exact
      ensures Ok() && pos > old(pos)
      ensures old(unproven) != NoDoubt ==> unproven == old(unproven)
      ensures Live() ==> PassedOver(outer)
    {
      KeyStartsWithDollar(text, pos);
      if At2(')', ')') {
        if Live() { ArithmeticSteps(q, outer, 0, ')'); }
        KeyStartsWithDollar(text, pos + 1);
        Copy();
        Copy();
      } else {
        Raise(Unbalanced);
        Copy();
      }
    }

    /** Everything in an arithmetic expansion but a placeholder and its end. */
    method InsideArithmetic(ghost outer: State, depth: nat) returns (ok: bool, depth': nat)
      requires Ok() && !simple && pos < |text| && !KeyAt(text, pos).Found? && (text[pos] == ')' ==> depth > 0)
      requires Live() ==> ArithmeticAhead(outer, depth)
      modifies `pos, `out, `unproven, `tape, `q, `bare, `exact
      ensures Ok() && pos > old(pos) && (!ok ==> RefusedRightly())
      ensures old(unproven) != NoDoubt ==> unproven == old(unproven)
      ensures ok && Live() ==> ArithmeticAhead(outer, depth')
      decreases |text| - pos, 3
    {
      ok, depth' := true, depth;
      var c := text[pos];
      if c == '\'' || c == '"' || c == '\\' || c == '`' {
        Raise(QuotingInside);
        ok := DoubtedQuoting();
      } else if c == '$' {
        ok := Expansion(true);
      } else {
        depth' := if c == '(' then depth + 1 else if c == ')' then depth - 1 else depth;
        if Live() { ArithmeticSteps(q, outer, depth, c); }
        Copy();
      }
    }

    /** Quoting where shells disagree on it: scanned, but nothing is known any more. */
    method DoubtedQuoting() returns (ok: bool)
      requires Ok() && !simple && unproven != NoDoubt && (At1('\'') || At1('"') || At1('\\') || At1('`'))
      modifies `pos, `out, `unproven, `tape, `q, `bare, `exact
      ensures Ok() && pos > old(pos) && (!ok ==> RefusedRightly()) && unproven == old(unproven)
      decreases |text| - pos, 1
    {
      ok := true;
      if text[pos] == '\'' {
        ok := SingleQuoted();
      } else if text[pos] == '"' {
        ok := DoubleQuoted();
      } else if text[pos] == '`' {
        ok := Backquoted();
      } else {
        CopyEscaped(q);
      }
    }

    method ParameterExpansion() returns (ok: bool)
      requires Ok() && At2('$', '{') && !KeyAt(text, pos).Found?
      requires Live() ==> Expandable(q) && q.pend != Dollar
      modifies `pos, `out, `unproven, `tape, `q, `bare, `exact
      ensures Ok() && pos > old(pos) && (!ok ==> RefusedRightly())
      ensures old(unproven) != NoDoubt ==> unproven == old(unproven)
      ensures ok && Live() ==> PassedOver(old(q))
      decreases |text| - pos, 0
    {
      Doubtful(pos);
      OpenBrace();
      ok := true;
      while pos < |text|
        invariant Ok() && ok && pos > old(pos)
        invariant old(unproven) != NoDoubt ==> unproven == old(unproven)
        invariant Live() ==> ParameterAhead(old(q))
        decreases |text| - pos
      {
        var hit;
        KeyStartsWithDollar(text, pos);
        hit, ok := Placeholder(InsideConstruct);
        if !ok { return; }
        if !hit {
          var closing := text[pos] == '}';
          ok := InsideParameter(old(q));
          if !ok || closing { return; }
        }
      }
    }

    /** Copies `${`. */
    method OpenBrace()
      requires Ok() && At2('$', '{') && !KeyAt(text, pos).Found?
      requires Live() ==> Expandable(q) && q.pend != Dollar
      modifies `pos, `out, `tape, `q, `bare
      ensures Ok() && pos == old(pos) + 2
      ensures Live() ==> q == Push(old(q), Parameter)
    {
      hide Trace;
      KeyStartsWithDollar(text, pos + 1);
      if Live() { DollarPends(q); AfterDollar(q); }
      Copy();
      Copy();
    }

    ghost predicate ParameterAhead(outer: State)
      reads this
    {
      InParameter(q, outer) && (q.pend == Dollar ==> DollarAhead(values, text, pos, true)) && NoBracketAhead()
    }

    method InsideParameter(ghost outer: State) returns (ok: bool)
      requires Ok() && !simple && pos < |text| && !KeyAt(text, pos).Found?
      requires Live() ==> ParameterAhead(outer)
      modifies `pos, `out, `unproven, `tape, `q, `bare, `exact
      ensures Ok() && pos > old(pos) && (!ok ==> RefusedRightly())
      ensures old(unproven) != NoDoubt ==> unproven == old(unproven)
      ensures ok && Live() ==> if text[old(pos)] == '}' then PassedOver(outer) else ParameterAhead(outer)
      decreases |text| - pos, 3
    {
      hide Trace;
      ok := true;
      var c := text[pos];
      if c == '\'' || c == '"' || c == '\\' {
        Raise(QuotingInside);
        ok := DoubtedQuoting();
      } else if c == '{' || c == '(' || c == ')' || c == '\n' {
        Raise(QuotingInside);
        Copy();
      } else if c == '`' {
        ok := Backquoted();
      } else if c == '$' {
        ok := Expansion(true);
      } else {
        if Live() { ParameterSteps(q, outer, c); }
        Copy();
      }
    }

    /** Copies `$'`. */
    method OpenAnsiC()
      requires Ok() && At2('$', '\'')
      requires Live() ==> Expandable(q) && q.top.Code? && q.pend != Dollar
      modifies `pos, `out, `tape, `q, `bare
      ensures Ok() && pos == old(pos) + 2
      ensures Live() ==> q == Push(old(q), AnsiC)
    {
      hide Trace;
      KeyStartsWithDollar(text, pos + 1);
      KeyNeedsBrace(text, pos);
      if Live() { DollarPends(q); AfterDollar(q); }
      Copy();
      Copy();
    }

    method AnsiCQuoted() returns (ok: bool)
      requires Ok() && At2('$', '\'')
      requires Live() ==> Expandable(q) && q.top.Code? && q.pend != Dollar
      modifies `pos, `out, `unproven, `tape, `q, `bare, `exact
      ensures Ok() && pos > old(pos) && (!ok ==> RefusedRightly())
      ensures old(unproven) != NoDoubt ==> unproven == old(unproven)
      ensures ok && Live() ==> PassedOver(old(q))
    {
      hide Trace;
      Doubtful(pos);
      OpenAnsiC();
      ok := true;
      while pos < |text|
        invariant Ok() && ok && pos > old(pos)
        invariant old(unproven) != NoDoubt ==> unproven == old(unproven)
        invariant Live() ==> q == Push(old(q), AnsiC)
      {
        var hit;
        KeyStartsWithDollar(text, pos);
        hit, ok := Placeholder(InsideConstruct);
        if !ok { return; }
        if !hit {
          if text[pos] == '\\' {
            Raise(BackslashInAnsiC);
            CopyEscaped(q);
          } else {
            var closing := text[pos] == '\'';
            if Live() { AnsiCSteps(q, old(q), text[pos]); }
            Copy();
            if closing { return; }
          }
        }
      }
    }

    /** A `$` that opens nothing. */
    method LoneDollar(quoted: bool) returns (ok: bool)
      requires Ok() && At1('$') && !KeyAt(text, pos).Found?
      requires !At2('$', '(') && !At2('$', '{') && (quoted || !At2('$', '\'')) && !At2('$', '[')
      requires Live() ==> Expandable(q) && (quoted ==> !q.top.Code?) && q.pend != Dollar
      modifies `pos, `out, `unproven, `tape, `q, `bare, `exact
      ensures Ok() && pos > old(pos) && (!ok ==> RefusedRightly())
      ensures old(unproven) != NoDoubt ==> unproven == old(unproven)
      ensures ok && Live() ==> AfterExpansion(old(q), quoted)
    {
      if Live() { DollarPends(q); }
      Copy();
      ok := KeyMayFollow();
      if ok && At1('$') && !AtKey(Repo) && !AtKey(Worktree) {
        SecondDollar(quoted, old(q));
      }
    }

    lemma KeyRaisesNoDoubtHere()
      requires Ok()
      ensures KeyAt(text, pos).Found? && unproven != NoDoubt ==> exact < pos
    {
      if KeyAt(text, pos).Found? { KeyRaisesNoDoubt(text, pos, q, bare); }
    }

    /** No value that needs quoting may follow a `$`: it would join the quoting. */
    method KeyMayFollow() returns (ok: bool)
      requires Ok() && (Live() ==> q.pend == Dollar)
      ensures !ok ==> RefusedRightly()
      ensures ok && KeyAt(text, pos).Found? ==> ContextFree(values.Of(KeyAt(text, pos).key))
    {
      hide RaisesDoubt, Trace;
      KeyRaisesNoDoubtHere();
      if AtKey(Repo) && !ContextFree(values.repo) { return false; }
      if AtKey(Worktree) && !ContextFree(values.worktree) {
        KeyIsUnambiguous(text, pos, Worktree);
        return false;
      }
      return true;
    }

    method SecondDollar(quoted: bool, ghost outer: State)
      requires Ok() && At1('$') && !KeyAt(text, pos).Found? && pos > 0 && text[pos - 1] == '$'
      requires Live() ==> Expandable(outer) && (quoted ==> !outer.top.Code?) && q == Resumed(outer).(pend := Dollar)
      modifies `pos, `out, `unproven, `tape, `q, `bare, `exact
      ensures Ok() && pos > old(pos)
      ensures old(unproven) != NoDoubt ==> unproven == old(unproven)
      ensures Live() ==> q == Resumed(outer) && bare == Altered && (quoted ==> NoBracketAhead())
    {
      if Live() { AfterDollar(outer); }
      Copy();
      if quoted && (At1('(') || At1('{') || At1('[')) {
        Doubtful(pos - 1);
        Raise(ProcessIdBracket);
      }
    }

    method Backquoted() returns (ok: bool)
      requires Ok() && pos < |text| && text[pos] == '`'
      requires Live() ==> !q.dead && !q.esc && (q.top.Code? || q.top.Double? || q.top.Parameter?)
      modifies `pos, `out, `unproven, `tape, `q, `bare, `exact
      ensures Ok() && pos > old(pos) && (!ok ==> RefusedRightly())
      ensures old(unproven) != NoDoubt ==> unproven == old(unproven)
      ensures ok && Live() ==> PassedOver(old(q))
    {
      Doubtful(pos);
      KeyStartsWithDollar(text, pos);
      if Live() { BackquoteOpens(q); }
      Copy();
      ok := true;
      while pos < |text|
        invariant Ok() && ok && pos > old(pos)
        invariant old(unproven) != NoDoubt ==> unproven == old(unproven)
        invariant Live() ==> BackquoteAhead(old(q))
      {
        var hit;
        KeyStartsWithDollar(text, pos);
        hit, ok := Placeholder(InsideConstruct);
        if !ok { return; }
        if !hit {
          var c := text[pos];
          if c == '\\' {
            BackslashInBackquotes(old(q));
          } else {
            CharInBackquotes(old(q));
            if c == '`' { return; }
          }
        }
      }
    }

    ghost predicate BackquoteAhead(outer: State)
      reads this
    {
      && InBackquote(q, outer)
      && (pos < |text| ==> (q.pend == Dollar ==> text[pos] != '(') && (q.pend == Less ==> text[pos] != '<'))
    }

    method BackslashInBackquotes(ghost outer: State)
      requires Ok() && pos < |text| && text[pos] == '\\'
      requires Live() ==> BackquoteAhead(outer)
      modifies `pos, `out, `tape, `q, `bare
      ensures Ok() && pos > old(pos)
      ensures Live() ==> BackquoteAhead(outer)
    {
      if Live() { BackquoteEscapes(q, outer, if pos + 1 < |text| then text[pos + 1] else ' '); }
      CopyEscaped(q.(esc := true, pend := Clear));
    }

    method CharInBackquotes(ghost outer: State)
      requires Ok() && !simple && pos < |text| && text[pos] != '\\' && !KeyAt(text, pos).Found?
      requires Live() ==> BackquoteAhead(outer)
      modifies `pos, `out, `unproven, `tape, `q, `bare, `exact
      ensures Ok() && pos == old(pos) + 1
      ensures old(unproven) != NoDoubt ==> unproven == old(unproven)
      ensures Live() ==> if text[old(pos)] == '`' then PassedOver(outer) else BackquoteAhead(outer)
    {
      if text[pos] != '`' && ((text[pos] == '\'' || text[pos] == '"') || At2('$', '(') || At2('<', '<')) {
        Raise(QuotingInside);
      }
      if Live() { BackquoteSteps(q, outer, text[pos]); }
      Copy();
    }

    // ---------------------------------------------------------------- shell code

    /** What the scanner knows before the next character of shell code. After a comment the
        reading is still in it, with its newline next. */
    ghost predicate CodeAhead(nested: bool, depth: nat, wordStart: bool, under: Modes)
      reads this
    {
      || (InCode(q, under, nested, depth) && q.start == wordStart && Ahead(values, text, pos, q.pend))
      || (&& q.top.Comment? && q.under == Under(Code(nested, if nested then depth else 0), under)
          && !q.dead && wordStart && pos < |text| && text[pos] == '\n')
    }

    /** Shell code: the whole command, or the body of `$(...)`, up to the parenthesis that
        closes it. */
    method ShellCode(nested: bool) returns (ok: bool)
      requires Ok() && (nested ==> !simple)
      requires Live() ==> CodeAhead(nested, 0, true, q.under) && q.top.Code? && bare == AsWritten("")
      modifies `pos, `out, `unproven, `tape, `q, `bare, `exact
      ensures Ok() && pos >= old(pos) && (!ok ==> RefusedRightly())
      ensures old(unproven) != NoDoubt ==> unproven == old(unproven)
      ensures ok ==> pos == |text| || (nested && text[pos] == ')')
      ensures ok && Live() ==> InCode(q, old(q).under, true, 0) && !RaisesDoubt(text, pos, q, bare)
      decreases |text| - pos, 4
    {
      hide Trace;
      ok := true;
      var wordStart, word, plain, depth: nat := true, "", true, 0;
      while pos < |text|
        invariant Ok() && ok && pos >= old(pos)
        invariant old(unproven) != NoDoubt ==> unproven == old(unproven)
        invariant Live() ==> CodeAhead(nested, depth, wordStart, old(q).under)
        invariant WordSoFar(wordStart, word, plain)
        decreases |text| - pos
      {
        var hit;
        KeyStartsWithDollar(text, pos);
        hit, ok := Placeholder(UnquotedText);
        if !ok { return; }
        if hit {
          wordStart, plain := false, false;
        } else if !WordEnd(text[pos]) {
          ok, wordStart, word, plain := InsideWord(nested, depth, wordStart, word, plain, old(q).under);
          if !ok { return; }
        } else {
          var closed;
          closed, depth := EndOfWord(nested, depth, wordStart, plain && word == "case", old(q).under);
          if closed { return; }
          word, plain, wordStart := "", true, true;
        }
      }
    }

    /** The scanner has the text of the word while nothing in it is quoted. */
    ghost predicate WordSoFar(wordStart: bool, word: string, plain: bool)
      reads this
    {
      && (wordStart ==> word == "" && plain)
      && (Live() && !q.top.Comment? ==> bare == if plain then AsWritten(word) else Altered)
    }

    /** One character or one quoted part of a word, a continued line, or a comment. */
    method InsideWord(nested: bool, ghost depth: nat, wordStart: bool, word: string, plain: bool, ghost under: Modes)
      returns (ok: bool, wordStart': bool, word': string, plain': bool)
      requires Ok() && (nested ==> !simple) && pos < |text| && !KeyAt(text, pos).Found? && !WordEnd(text[pos])
      requires Live() ==> CodeAhead(nested, depth, wordStart, under)
      requires WordSoFar(wordStart, word, plain)
      modifies `pos, `out, `unproven, `tape, `q, `bare, `exact
      ensures Ok() && pos > old(pos) && (!ok ==> RefusedRightly())
      ensures old(unproven) != NoDoubt ==> unproven == old(unproven)
      ensures ok && Live() ==> CodeAhead(nested, depth, wordStart', under)
      ensures ok ==> WordSoFar(wordStart', word', plain')
      decreases |text| - pos, 3
    {
      ok, wordStart', word', plain' := true, wordStart, word, plain;
      var c := text[pos];
      if c == '\\' {
        if !At2('\\', '\n') { plain' := false; }
        wordStart' := BackslashInCode(nested, depth, wordStart, under);
      } else if c == '\'' || c == '"' || c == '`' || c == '$' {
        wordStart', plain' := false, false;
        ok := QuotingInCode(nested, depth, wordStart, under);
      } else if c == '#' && wordStart {
        ok := CommentInCode(nested, depth, under);
      } else {
        WordInCode(nested, depth, wordStart, under, plain && IsName(word));
        if plain { word' := word + [c]; }
        wordStart' := false;
      }
    }

    method BackslashInCode(ghost nested: bool, ghost depth: nat, wordStart: bool,
                           ghost under: Modes) returns (wordStart': bool)
      requires Ok() && At1('\\')
      requires Live() ==> CodeAhead(nested, depth, wordStart, under) && (q.start ==> bare == AsWritten(""))
      modifies `pos, `out, `unproven, `tape, `q, `bare, `exact
      ensures Ok() && pos > old(pos)
      ensures old(unproven) != NoDoubt ==> unproven == old(unproven)
      ensures Live() ==> CodeAhead(nested, depth, wordStart', under) && q.top.Code?
      ensures wordStart' ==> wordStart && old(At2('\\', '\n'))
      ensures Live() ==> bare == if old(At2('\\', '\n')) then old(bare) else Altered
    {
      hide Trace;
      wordStart' := wordStart && At2('\\', '\n');
      if At2('\\', '\n') && pos > 0 && (text[pos - 1] == '$' || text[pos - 1] == '<' || text[pos - 1] == '(') {
        Doubtful(pos);
        Raise(Joined);
      }
      if Live() { CodeEscapes(q, if pos + 1 < |text| then text[pos + 1] else ' '); }
      CopyEscaped(q.(esc := true));
    }

    method QuotingInCode(ghost nested: bool, ghost depth: nat, ghost wordStart: bool,
                         ghost under: Modes) returns (ok: bool)
      requires Ok() && pos < |text| && !KeyAt(text, pos).Found?
      requires At1('\'') || At1('"') || At1('`') || At1('$')
      requires Live() ==> CodeAhead(nested, depth, wordStart, under)
      modifies `pos, `out, `unproven, `tape, `q, `bare, `exact
      ensures Ok() && pos > old(pos) && (!ok ==> RefusedRightly())
      ensures old(unproven) != NoDoubt ==> unproven == old(unproven)
      ensures ok && Live() ==> CodeAhead(nested, depth, false, under) && bare == Altered
      decreases |text| - pos, 2
    {
      if text[pos] == '\'' {
        ok := SingleQuoted();
      } else if text[pos] == '"' {
        ok := DoubleQuoted();
      } else if text[pos] == '`' {
        ok := Backquoted();
      } else {
        ok := Expansion(false);
      }
    }

    method CommentInCode(nested: bool, ghost depth: nat, ghost under: Modes) returns (ok: bool)
      requires Ok() && (nested ==> !simple) && At1('#')
      requires Live() ==> CodeAhead(nested, depth, true, under)
      modifies `pos, `out, `unproven, `tape, `q, `bare, `exact
      ensures Ok() && pos > old(pos) && (!ok ==> RefusedRightly())
      ensures old(unproven) != NoDoubt ==> unproven == old(unproven)
      ensures ok && Live() ==> CodeAhead(nested, depth, true, under) && q.top.Comment?
    {
      if nested {
        Raise(CommentInSubstitution);
      }
      ok := Comment();
    }

    method WordInCode(ghost nested: bool, ghost depth: nat, ghost wordStart: bool, ghost under: Modes, subscript: bool)
      requires Live() ==> (subscript <==> bare.AsWritten? && IsName(bare.text))
      requires Ok() && pos < |text| && !KeyAt(text, pos).Found?
      requires !WordEnd(text[pos]) && !At1('\\') && !At1('\'') && !At1('"') && !At1('`') && !At1('$')
      requires At1('#') ==> !wordStart
      requires Live() ==> CodeAhead(nested, depth, wordStart, under)
      modifies `pos, `out, `unproven, `tape, `q, `bare, `exact
      ensures Ok() && pos == old(pos) + 1
      ensures old(unproven) != NoDoubt ==> unproven == old(unproven)
      ensures Live() ==> CodeAhead(nested, depth, false, under)
      ensures Live() ==>
        bare == if old(bare).Altered? then Altered else AsWritten(old(bare).text + [text[old(pos)]])
    {
      if text[pos] == '[' && subscript {
        Doubtful(pos);
        Raise(Subscript);
      }
      if Live() { CodeWord(q, text[pos]); }
      Copy();
    }

    /** A word ended: go on after the operator, unless it closes the body. */
    method EndOfWord(nested: bool, depth: nat, ghost wordStart: bool, isCase: bool, ghost under: Modes)
      returns (closed: bool, depth': nat)
      requires Ok() && (nested ==> !simple) && pos < |text| && !KeyAt(text, pos).Found? && WordEnd(text[pos])
      requires Live() ==> CodeAhead(nested, depth, wordStart, under)
      requires Live() && q.top.Code? ==> (isCase <==> bare == AsWritten("case"))
      requires isCase ==> !wordStart
      modifies `pos, `out, `unproven, `tape, `q, `bare, `exact
      ensures Ok() && pos >= old(pos)
      ensures old(unproven) != NoDoubt ==> unproven == old(unproven)
      ensures closed ==> pos < |text| && nested && text[pos] == ')' && (Live() ==> InCode(q, under, true, 0))
      ensures !closed ==> pos > old(pos)
      ensures !closed && Live() ==> CodeAhead(nested, depth', true, under) && bare == AsWritten("")
      ensures closed && Live() ==> !RaisesDoubt(text, pos, q, bare)
    {
      depth' := depth;
      if nested && isCase {
        // a `)` in a case pattern does not close the substitution
        Raise(CaseInSubstitution);
      }
      closed := text[pos] == ')' && nested && depth == 0;
      if !closed {
        depth' := OperatorInCode(nested, depth, wordStart, under);
      }
    }

    /** A blank or an operator character, but not the parenthesis that ends the body. */
    method OperatorInCode(nested: bool, depth: nat, ghost wordStart: bool, ghost under: Modes) returns (depth': nat)
      requires Ok() && pos < |text| && !KeyAt(text, pos).Found? && WordEnd(text[pos])
      requires At1(')') && nested ==> depth > 0
      requires Live() ==> CodeAhead(nested, depth, wordStart, under)
      requires Live() && q.top.Code? ==> !(nested && bare == AsWritten("case"))
      modifies `pos, `out, `unproven, `tape, `q, `bare, `exact
      ensures Ok() && pos > old(pos)
      ensures old(unproven) != NoDoubt ==> unproven == old(unproven)
      ensures Live() ==> CodeAhead(nested, depth', true, under) && bare == AsWritten("")
    {
      depth' := depth;
      if At2('<', '<') {
        HereDocumentInCode(nested, depth, wordStart, under);
        return;
      }
      if At1('(') {
        OpensInCode(nested, depth, wordStart, under);
        depth' := depth + 1;
      } else if At1(')') && nested {
        depth' := depth - 1;
      }
      CopyOperator(nested, depth, depth', wordStart, under);
    }

    /** Two open parentheses may be arithmetic. */
    method OpensInCode(ghost nested: bool, ghost depth: nat, ghost wordStart: bool, ghost under: Modes)
      requires Ok() && At1('(') && (Live() ==> CodeAhead(nested, depth, wordStart, under))
      modifies `unproven, `exact
      ensures Ok() && (old(unproven) != NoDoubt ==> unproven == old(unproven)) && (Live() ==> !At2('(', '('))
    {
      if At2('(', '(') {
        Doubtful(pos);
        Raise(DoubleParenthesis);
      }
    }

    method HereDocumentInCode(ghost nested: bool, ghost depth: nat, ghost wordStart: bool, ghost under: Modes)
      requires Ok() && At2('<', '<') && (Live() ==> CodeAhead(nested, depth, wordStart, under))
      modifies `pos, `out, `unproven, `tape, `q, `bare, `exact
      ensures Ok() && !Live() && pos == old(pos) + 2
      ensures old(unproven) != NoDoubt ==> unproven == old(unproven)
    {
      Doubtful(pos);
      Raise(HereDocument);
      KeyStartsWithDollar(text, pos);
      KeyStartsWithDollar(text, pos + 1);
      Copy();
      Copy();
    }

    lemma OperatorSteps(nested: bool, depth: nat, depth': nat, wordStart: bool, under: Modes)
      requires pos < |text| && WordEnd(text[pos]) && !At2('<', '<') && (At1(')') && nested ==> depth > 0)
      requires depth' == if At1('(') then depth + 1 else if At1(')') && nested then depth - 1 else depth
      requires CodeAhead(nested, depth, wordStart, under)
      ensures Step(q, text[pos]).q == AfterOperator(nested, depth', under, text[pos])
    {
      if !q.top.Code? {
        CommentEnds(q, under, nested, if nested then depth else 0);
      } else if At1('(') {
        CodeOpens(q, under, nested, depth);
      } else if At1(')') {
        CodeCloses(q, under, nested, depth);
      } else {
        CodeSeparates(q, under, nested, depth, text[pos]);
      }
    }

    method CopyOperator(ghost nested: bool, ghost depth: nat, ghost depth': nat, ghost wordStart: bool,
                        ghost under: Modes)
      requires Ok() && pos < |text| && !KeyAt(text, pos).Found? && WordEnd(text[pos])
      requires At1(')') && nested ==> depth > 0
      requires Live() ==> !At2('<', '<') && !At2('(', '(')
      requires Live() && q.top.Code? ==> !(nested && bare == AsWritten("case"))
      requires Live() ==> depth' == if At1('(') then depth + 1 else if At1(')') && nested then depth - 1 else depth
      requires Live() ==> CodeAhead(nested, depth, wordStart, under)
      modifies `pos, `out, `tape, `q, `bare
      ensures Ok() && pos == old(pos) + 1
      ensures Live() ==> CodeAhead(nested, depth', true, under) && bare == AsWritten("")
    {
      if Live() { OperatorSteps(nested, depth, depth', wordStart, under); }
      Copy();
    }
  }

  // ------------------------------------------------------------------ expansion of a whole command

  datatype Outcome = Ok(text: string) | Refused

  /** The text is the command with placeholders replaced, as the tape says, and nothing else
      changed. A shell reads it as the command with each of these placeholders standing for
      exactly its value, if and only if no value runs into a parameter name; no absolute path
      does. A simple command never leaves the scan in doubt. */
  ghost predicate Expands(values: Values, command: string, tape: Tape, exact: nat, text: string) {
    && Legal(values, command, tape, |command|, exact) && Template(tape) == command && Expanded(tape) == text
    && (NoneJoins(values, tape) ==> Run(INIT, text) == Reading(values, tape))
    && (values.repo != "" && values.worktree != "" ==>
          (Lex(text) == Reading(values, tape).ev <==> NoneJoins(values, tape)))
    && (At(values.repo, 0, "/") && At(values.worktree, 0, "/") ==> Lex(text) == Reading(values, tape).ev)
    && exact <= |command| && DoubtFrom(values, command, tape, |command|, exact)
    && (Simple(command) ==> exact == |command|)
  }

  /** The scan stopped at a placeholder whose value needs quoting, after a doubt or where no
      quoting can be proved. */
  ghost predicate RefusedFor(values: Values, command: string, tape: Tape, exact: nat) {
    var at := |Template(tape)|;
    && Legal(values, command, tape, at, exact)
    && KeyAt(command, at).Found?
    && !ContextFree(values.Of(KeyAt(command, at).key))
    && DoubtFrom(values, command, tape, at, exact)
    && (exact < at || (exact == |command| && Unquotable(Reading(values, tape).q, values.Of(KeyAt(command, at).key))))
    && (Simple(command) ==> exact == |command|)
  }

  /** `expand_path_placeholders`. */
  method ExpandPathPlaceholders(command: string, values: Values) returns (r: Outcome)
    ensures r.Ok? ==> exists tape, exact: nat :: Expands(values, command, tape, exact, r.text)
    ensures r.Refused? ==> exists tape, exact: nat :: RefusedFor(values, command, tape, exact)
  {
    var scanner := new Scanner(command, values);
    var ok := scanner.ShellCode(false);
    LegalSpells(values, command, scanner.tape, scanner.pos, scanner.exact);
    if !ok {
      assert RefusedFor(values, command, scanner.tape, scanner.exact);
      return Refused;
    }
    assert command[..|command|] == command;
    ScannedExpands(values, command, scanner.tape, scanner.exact);
    r := Outcome.Ok(scanner.out);
  }

  lemma ScannedExpands(values: Values, command: string, tape: Tape, exact: nat)
    requires Legal(values, command, tape, |command|, exact) && Template(tape) == command
    requires exact <= |command| && DoubtFrom(values, command, tape, |command|, exact)
    requires Simple(command) ==> exact == |command|
    ensures Expands(values, command, tape, exact, Expanded(tape))
  {
    if values.repo != "" && values.worktree != "" {
      ExpansionKeepsMeaningExactlyWhenNoneJoins(values, command, tape, |command|, exact);
    }
    if At(values.repo, 0, "/") && At(values.worktree, 0, "/") { AbsolutePathsNeverJoin(values, tape); }
    if NoneJoins(values, tape) { ExpandedIsReadAsTemplate(values, command, tape, |command|, exact); }
  }
}
