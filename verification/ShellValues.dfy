/**
  The escaping of a value for its context (`shell_quoting.py`, `_Scanner.render`), and that a
  shell reads the escaped text back as exactly the value.
 */
module ShellValues {
  import opened ShellLexer

  /** `_CONTEXT_FREE`. */
  predicate ContextFree(v: string) {
    v != "" && forall i :: 0 <= i < |v| ==> Plain(v[i])
  }

  function Replace(s: string, c: char, with: string): string {
    if s == "" then "" else (if s[0] == c then with else [s[0]]) + Replace(s[1..], c, with)
  }

  const SPLICE := "'\"'\"'"

  /** `value.replace("'", "'\"'\"'")`. */
  function EscapeSingle(v: string): string { Replace(v, '\'', SPLICE) }

  /** `shlex.quote` of a value that needs quoting. */
  function Quote(v: string): string { "'" + EscapeSingle(v) + "'" }

  /** `_escape_double_quoted`: four replacements in sequence, the backslash first. */
  function EscapeDouble(v: string): string {
    Replace(Replace(Replace(Replace(v, '\\', "\\\\"), '"', "\\\""), '$', "\\$"), '`', "\\`")
  }

  function EscapeDoubleChar(c: char): string {
    if (c == '\\' || c == '"' || c == '$' || c == '`') then ['\\', c] else [c]
  }

  function EscapeDoubleEach(v: string): string {
    if v == "" then "" else EscapeDoubleChar(v[0]) + EscapeDoubleEach(v[1..])
  }

  lemma {:induction false} ReplaceConcat(a: string, b: string, c: char, with: string)
    ensures Replace(a + b, c, with) == Replace(a, c, with) + Replace(b, c, with)
  {
    if a == "" {
      assert a + b == b;
    } else {
      assert (a + b)[0] == a[0] && (a + b)[1..] == a[1..] + b;
      ReplaceConcat(a[1..], b, c, with);
    }
  }

  /** The four replacements never touch each other's output. */
  lemma {:induction false} EscapeDoubleIsPerCharacter(v: string)
    ensures EscapeDouble(v) == EscapeDoubleEach(v)
  {
    if v != "" {
      EscapeDoubleIsPerCharacter(v[1..]);
      EscapeDoubleSplits(v[..1], v[1..]);
      assert v == v[..1] + v[1..];
      EscapeDoubleOne(v[0]);
      assert v[..1] == [v[0]];
    }
  }

  lemma EscapeDoubleSplits(a: string, b: string)
    ensures EscapeDouble(a + b) == EscapeDouble(a) + EscapeDouble(b)
  {
    ReplaceConcat(a, b, '\\', "\\\\");
    var a1, b1 := Replace(a, '\\', "\\\\"), Replace(b, '\\', "\\\\");
    ReplaceConcat(a1, b1, '"', "\\\"");
    var a2, b2 := Replace(a1, '"', "\\\""), Replace(b1, '"', "\\\"");
    ReplaceConcat(a2, b2, '$', "\\$");
    ReplaceConcat(Replace(a2, '$', "\\$"), Replace(b2, '$', "\\$"), '`', "\\`");
  }

  lemma ReplaceOne(d: char, c: char, with: string)
    ensures Replace([d], c, with) == if d == c then with else [d]
  {
    assert [d][1..] == "";
  }

  lemma ReplaceTwo(d: char, e: char, c: char, with: string)
    requires d != c
    ensures Replace([d, e], c, with) == [d] + if e == c then with else [e]
  {
    assert [d, e][1..] == [e];
    ReplaceOne(e, c, with);
  }

  lemma EscapeDoubleOne(c: char)
    ensures EscapeDouble([c]) == EscapeDoubleChar(c)
  {
    ReplaceOne(c, '\\', "\\\\");
    if c == '\\' {
      ReplaceTwo('\\', '\\', '"', "\\\"");
      ReplaceTwo('\\', '\\', '$', "\\$");
      ReplaceTwo('\\', '\\', '`', "\\`");
    } else {
      ReplaceOne(c, '"', "\\\"");
      if c == '"' {
        ReplaceTwo('\\', '"', '$', "\\$");
        ReplaceTwo('\\', '"', '`', "\\`");
      } else {
        ReplaceOne(c, '$', "\\$");
        if c == '$' {
          ReplaceTwo('\\', '$', '`', "\\`");
        } else {
          ReplaceOne(c, '`', "\\`");
        }
      }
    }
  }

  // ------------------------------------------------------------------ values are read back

  /** `shown` is how a value may be inserted where the command is read in state `q`. */
  predicate Proper(q: State, v: string, shown: string) {
    if ContextFree(v) then shown == v
    else
      && !q.dead && !q.esc && q.pend != Dollar
      && match q.top
         case Code(_, _) => shown == Quote(v)
         case Single => shown == EscapeSingle(v)
         case Double => shown == EscapeDouble(v)
         case Comment => '\n' !in v && shown == Quote(v)
         case _ => false
  }

  /** The inserted text runs into the parameter expansion before it: the command reads
      `$NAME${worktree}` without quotes between them, or `$${worktree}`. */
  predicate Joins(q: State, v: string) {
    && !q.dead && !q.esc
    && (|| (q.pend == Dollar && (q.top.Code? || q.top.Double?) && v != ""
            && (NameStart(v[0]) || SpecialParameter(v[0])))
        || (q.pend == Name && q.top.Code? && ContextFree(v) && NameChar(v[0]))
        || (q.pend == Name && q.top.Double? && (v == "" || NameChar(v[0]))))
  }

  predicate AllPlain(v: string) { forall i :: 0 <= i < |v| ==> Plain(v[i]) }

  /** A state in which a plain character changes nothing. */
  predicate Neutral(q: State) {
    q.dead || (q.pend == Clear && !q.esc && (q.top.Code? ==> !q.start))
  }

  lemma PlainStep(q: State, c: char)
    requires Plain(c) && Neutral(q)
    ensures Step(q, c) == Out(q, Mark(KindAt(q), c))
  {
  }

  lemma {:induction false} PlainRun(q: State, v: string)
    requires AllPlain(v) && Neutral(q)
    ensures Run(q, v) == Out(q, Marks(KindAt(q), v))
    decreases |v|
  {
    if v != "" {
      PlainStep(q, v[0]);
      RunHead(q, v, Step(q, v[0]));
      PlainRun(q, v[1..]);
    }
  }

  /** Modes that others are nested in. */
  predicate Host(mode: Mode) { mode.Code? || mode.Double? || mode.Parameter? || mode.Arithmetic? }

  predicate Hosts(modes: Modes) {
    match modes
    case Bottom => true
    case Under(mode, rest) => Host(mode) && Hosts(rest)
  }

  /** What every state of a reading satisfies. */
  predicate Sane(q: State) {
    q.dead || (Hosts(q.under) && SaneTop(q))
  }

  predicate SaneTop(q: State) {
    match q.top
    case Code(_, _) => q.pend != Closing && (q.pend in {Dollar, Name} ==> !q.start)
    case Double => !q.start && q.pend in {Clear, Dollar, Name}
    case Single | Comment | AnsiC =>
      !q.start && q.pend == Clear && (!q.top.Comment? ==> !q.esc) && q.under.Under? && q.under.mode.Code?
    case Parameter => !q.start && !q.esc && q.pend in {Clear, Dollar}
    case Arithmetic(_) => !q.start && !q.esc && q.pend in {Clear, Dollar, Closing}
    case Backquote => !q.start && q.pend in {Clear, Dollar, Less} && (q.esc ==> q.pend == Clear)
  }

  lemma SanePop(q: State)
    requires Hosts(q.under)
    ensures Sane(Pop(q)) && (!Pop(q).start || Pop(q).dead)
    ensures q.under.Under? && q.under.mode.Code? ==> Sane(Pop(q).(start := true))
  {
  }

  lemma SaneCodeStep(q: State, c: char)
    requires Sane(q) && q.top.Code? && !q.dead
    ensures Sane(CodeStep(q, c).q)
  {
  }

  lemma SaneDoubleStep(q: State, c: char)
    requires Sane(q) && q.top.Double? && !q.dead
    ensures Sane(DoubleStep(q, c).q)
  {
  }

  lemma SaneStep(q: State, c: char)
    requires Sane(q)
    ensures Sane(Step(q, c).q)
  {
    if q.dead {
    } else if q.top.Code? {
      SaneCodeStep(q, c);
    } else if q.top.Double? {
      SaneDoubleStep(q, c);
    } else {
      SanePop(q);
    }
  }

  lemma SaneLanded(q: State)
    requires Sane(q)
    ensures Sane(Landed(q)) && Neutral(Landed(q)) && KindAt(Landed(q)) == KindAt(q)
    ensures Neutral(q) ==> Landed(q) == q && Lead(q) == []
  {
  }

  lemma FirstPlainInWord(q: State, c: char)
    requires Plain(c) && Sane(q) && !q.dead && (q.top.Code? || q.top.Double?)
    requires q.esc || (&& (q.pend == Dollar ==> !NameStart(c) && !SpecialParameter(c))
                       && (q.pend == Name ==> !NameChar(c)))
    ensures Step(q, c) == Out(Landed(q), Lead(q) + [Lit(c)])
  {
    if q.top.Code? {
      assert CodeStep(q, c) == Out(Landed(q), Lead(q) + [Lit(c)]);
    } else {
      assert DoubleStep(q, c) == Out(Landed(q), Lead(q) + [Lit(c)]);
    }
  }

  lemma FirstPlainElsewhere(q: State, c: char)
    requires Plain(c) && Sane(q) && (q.dead || !(q.top.Code? || q.top.Double?))
    ensures Step(q, c) == Out(Landed(q), Mark(KindAt(q), c)) && Lead(q) == []
  {
  }

  /** A context-free value, inserted as it is. */
  lemma ContextFreeIsLiteral(q: State, v: string)
    requires Sane(q) && ContextFree(v) && !Joins(q, v)
    ensures Run(q, v) == Literal(q, v)
  {
    if q.dead || !(q.top.Code? || q.top.Double?) {
      FirstPlainElsewhere(q, v[0]);
    } else {
      FirstPlainInWord(q, v[0]);
    }
    SaneLanded(q);
    PlainRun(Landed(q), v[1..]);
    FirstThenRest(q, v, Lead(q), Landed(q), KindAt(q));
  }

  lemma FirstThenRest(q: State, v: string, lead: seq<Event>, next: State, kind: Kind)
    requires v != "" && Step(q, v[0]) == Out(next, lead + Mark(kind, v[0]))
    requires Run(next, v[1..]) == Out(next, Marks(kind, v[1..]))
    ensures Run(q, v) == Out(next, lead + Marks(kind, v))
  {
    RunHead(q, v, Out(next, lead + Mark(kind, v[0])));
    MarksHead(lead, kind, v);
  }

  lemma MarksHead(lead: seq<Event>, kind: Kind, v: string)
    requires v != ""
    ensures lead + Marks(kind, v) == (lead + Mark(kind, v[0])) + Marks(kind, v[1..])
  {
  }

  /** The body of single quotes: each quote is closed over, quoted double, and reopened. */
  lemma SpliceIsAQuote(q: State)
    requires q.top.Single? && q.under.Under? && q.under.mode.Code? && !q.dead && q.pend == Clear && !q.esc && !q.start
    ensures Run(q, SPLICE) == Out(q, [Lit('\'')])
  {
    var code := Pop(q);
    var double := Push(code, Double);
    RunHead(q, SPLICE, Out(code, []));
    RunHead(code, SPLICE[1..], Out(double, []));
    RunHead(double, SPLICE[2..], Out(double, [Lit('\'')]));
    RunHead(double, SPLICE[3..], Out(code, []));
    RunHead(code, SPLICE[4..], Out(q, []));
    assert SPLICE[5..] == "";
  }

  lemma {:induction false} SingleBodyIsLiteral(q: State, v: string)
    requires q.top.Single? && q.under.Under? && q.under.mode.Code? && !q.dead && q.pend == Clear && !q.esc && !q.start
    ensures Run(q, EscapeSingle(v)) == Out(q, Marks(AsLiteral, v))
  {
    if v != "" {
      SingleBodyIsLiteral(q, v[1..]);
      var first := if v[0] == '\'' then SPLICE else [v[0]];
      if v[0] == '\'' {
        SpliceIsAQuote(q);
      } else {
        RunHead(q, first, Out(q, [Lit(v[0])]));
        assert first[1..] == "";
      }
      PartsRun(q, first, EscapeSingle(v[1..]), Lit(v[0]), Marks(AsLiteral, v[1..]));
    }
  }

  /** `shlex.quote` in unquoted code. */
  lemma QuoteIsLiteral(q: State, v: string)
    requires Sane(q) && q.top.Code? && !q.dead && !q.esc && q.pend != Dollar
    ensures Run(q, Quote(v)) == Literal(q, v)
  {
    var single := Push(q, Single);
    RunHead(q, Quote(v), Out(single, Begin(q)));
    assert Quote(v)[1..] == EscapeSingle(v) + "'";
    RunConcat(single, EscapeSingle(v), "'");
    SingleBodyIsLiteral(single, v);
    RunHead(single, "'", Out(Pop(single), []));
    assert "'"[1..] == "";
  }

  lemma PartsRun(q: State, a: string, b: string, ev: Event, rest: seq<Event>)
    requires Run(q, a) == Out(q, [ev]) && Run(q, b) == Out(q, rest)
    ensures Run(q, a + b) == Out(q, [ev] + rest)
  {
    RunConcat(q, a, b);
  }

  /** A value inside double quotes, once nothing is pending. */
  lemma {:induction false} DoubleBodyIsLiteral(q: State, v: string)
    requires Sane(q) && q.top.Double? && !q.dead && q.pend == Clear && !q.esc
    ensures Run(q, EscapeDoubleEach(v)) == Out(q, Marks(AsLiteral, v))
  {
    if v != "" {
      DoubleCharIsLiteral(q, v[0]);
      assert q.(pend := Clear) == q;
      DoubleBodyIsLiteral(q, v[1..]);
      PartsRun(q, EscapeDoubleChar(v[0]), EscapeDoubleEach(v[1..]), Lit(v[0]), Marks(AsLiteral, v[1..]));
    }
  }

  lemma DoubleCharIsLiteral(q: State, c: char)
    requires Sane(q) && q.top.Double? && !q.dead && !q.esc && q.pend != Dollar && !(q.pend == Name && NameChar(c))
    ensures Run(q, EscapeDoubleChar(c)) == Out(q.(pend := Clear), [Lit(c)])
  {
    var s := EscapeDoubleChar(c);
    if |s| == 2 {
      RunHead(q, s, Out(q.(esc := true), []));
      RunHead(q.(esc := true), s[1..], Out(q.(pend := Clear), [Lit(c)]));
      assert s[1..][1..] == "";
    } else {
      RunHead(q, s, Out(q.(pend := Clear), [Lit(c)]));
      assert s[1..] == "";
    }
  }

  lemma EscapeDoubleIsLiteral(q: State, v: string)
    requires Sane(q) && q.top.Double? && !q.dead && !q.esc && q.pend != Dollar && !Joins(q, v)
    ensures Run(q, EscapeDouble(v)) == Literal(q, v)
  {
    EscapeDoubleIsPerCharacter(v);
    if v != "" {
      RunConcat(q, EscapeDoubleChar(v[0]), EscapeDoubleEach(v[1..]));
      DoubleCharIsLiteral(q, v[0]);
      DoubleBodyIsLiteral(q.(pend := Clear), v[1..]);
    }
  }

  /** A comment hides everything up to the end of its line. */
  lemma {:induction false} CommentHides(q: State, s: string)
    requires q.top.Comment? && !q.dead && '\n' !in s
    ensures Run(q, s).ev == [] && Run(q, s).q.(esc := false) == q.(esc := false)
    ensures s != "" && s[|s| - 1] != '\\' ==> !Run(q, s).q.esc
    decreases |s|
  {
    if s != "" {
      var out := Step(q, s[0]);
      RunHead(q, s, out);
      CommentHides(out.q, s[1..]);
      assert s[1..] == "" ==> Run(out.q, s[1..]) == Out(out.q, []);
    }
  }

  lemma {:induction false} ReplaceKeepsOut(v: string, c: char, with: string, d: char)
    requires d !in v && d !in with
    ensures d !in Replace(v, c, with)
  {
    if v != "" { ReplaceKeepsOut(v[1..], c, with, d); }
  }

  lemma {:induction false} NothingMarks(v: string)
    ensures Marks(AsNothing, v) == []
  {
    if v != "" { NothingMarks(v[1..]); }
  }

  lemma QuoteInCommentIsNothing(q: State, v: string)
    requires Sane(q) && q.top.Comment? && !q.dead && !q.esc && '\n' !in v
    ensures Run(q, Quote(v)) == Literal(q, v)
  {
    ReplaceKeepsOut(v, '\'', SPLICE, '\n');
    CommentHides(q, Quote(v));
    NothingMarks(v);
  }

  /** The readings differ from event `i` on. */
  predicate Part(a: seq<Event>, b: seq<Event>, i: nat) {
    i < |a| && i < |b| && a[i] != b[i]
  }

  lemma JoiningIsNotLiteral(q: State, v: string, shown: string)
    requires Sane(q) && Proper(q, v, shown) && Joins(q, v)
    ensures Run(q, shown) != Literal(q, v)
    ensures v != "" ==> Part(Run(q, shown).ev, Literal(q, v).ev, 0)
  {
    if v == "" {
      assert shown == "";
    } else {
      EscapeDoubleIsPerCharacter(v);
      assert shown != "" && shown[0] == v[0];
      RunHead(q, shown, Step(q, shown[0]));
      assert Run(q, shown).ev[0].Expand?;
      assert Literal(q, v).ev[0] == (if q.pend == Dollar then Flush(q)[0] else Lit(v[0]));
    }
  }

  /** The shell reads the inserted text as exactly the value, wherever the command is read,
      unless the text runs into a parameter name before it. */
  lemma InsertedTextIsLiteralExactlyWhen(q: State, v: string, shown: string)
    requires Sane(q) && Proper(q, v, shown)
    ensures Run(q, shown) == Literal(q, v) <==> !Joins(q, v)
  {
    if Joins(q, v) {
      JoiningIsNotLiteral(q, v, shown);
    } else if ContextFree(v) {
      ContextFreeIsLiteral(q, v);
    } else {
      match q.top
      case Code(_, _) => QuoteIsLiteral(q, v);
      case Single => SingleBodyIsLiteral(q, v);
      case Double => EscapeDoubleIsLiteral(q, v);
      case Comment => QuoteInCommentIsNothing(q, v);
    }
  }
}

