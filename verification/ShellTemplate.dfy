/**
  A command as the scanner takes it apart (`shell_quoting.py`): characters that are copied
  and placeholders that are replaced. How a shell reads it with each placeholder standing for
  exactly its value, and that it reads the expanded text in the same way.
 */
module ShellTemplate {
  import opened ShellLexer
  import opened ShellValues

  datatype Key = Repo | Worktree

  function KeyText(key: Key): string {
    match key
    case Repo => "${repo}"
    case Worktree => "${worktree}"
  }

  datatype Values = Values(repo: string, worktree: string) {
    function Of(key: Key): string {
      match key
      case Repo => repo
      case Worktree => worktree
    }
  }

  datatype MaybeKey = NoKey | Found(key: Key)

  predicate At(text: string, pos: nat, prefix: string) {
    pos + |prefix| <= |text| && text[pos..pos + |prefix|] == prefix
  }

  /** The placeholder that starts here. */
  function KeyAt(text: string, pos: nat): MaybeKey {
    if At(text, pos, KeyText(Repo)) then Found(Repo)
    else if At(text, pos, KeyText(Worktree)) then Found(Worktree)
    else NoKey
  }

  lemma KeyNeedsBrace(text: string, pos: nat)
    ensures KeyAt(text, pos).Found? ==> pos + 1 < |text| && text[pos + 1] == '{'
  {
    var found := KeyAt(text, pos);
    if found.Found? {
      assert text[pos..pos + |KeyText(found.key)|][1] == KeyText(found.key)[1];
    }
  }

  /** Neither placeholder starts like the other. */
  lemma KeyIsUnambiguous(text: string, pos: nat, key: Key)
    requires At(text, pos, KeyText(key))
    ensures KeyAt(text, pos) == Found(key)
  {
    assert text[pos..pos + |KeyText(key)|][2] == KeyText(key)[2];
    if At(text, pos, KeyText(Repo)) {
      assert text[pos..pos + |KeyText(Repo)|][2] == 'r';
    }
  }

  /** A scan so far: characters copied, and placeholders with the text inserted for them. */
  datatype Tape =
    | Blank
    | Copied(before: Tape, c: char)
    | Filled(before: Tape, key: Key, shown: string)

  function Template(tape: Tape): string {
    match tape
    case Blank => ""
    case Copied(before, c) => Template(before) + [c]
    case Filled(before, key, _) => Template(before) + KeyText(key)
  }

  function Expanded(tape: Tape): string {
    match tape
    case Blank => ""
    case Copied(before, c) => Expanded(before) + [c]
    case Filled(before, _, shown) => Expanded(before) + shown
  }

  /** How a shell reads the command when every placeholder is exactly its value. */
  function Reading(values: Values, tape: Tape): Out
    decreases tape, 1
  {
    if tape.Blank? then Out(INIT, []) else ReadLast(values, tape)
  }

  function ReadLast(values: Values, tape: Tape): Out
    requires !tape.Blank?
    decreases tape, 0
  {
    var r := Reading(values, tape.before);
    Emit(r.ev, if tape.Copied? then Step(r.q, tape.c) else Literal(r.q, values.Of(tape.key)))
  }

  /** The tape takes apart the first `pos` characters of the text. Every insertion is one its
      context allows. Up to `exact`, where the first doubt arose, all placeholders were
      replaced but those whose `$` the shell reads as quoted by a backslash; after it, all but
      some right after a backslash. */
  predicate Legal(values: Values, text: string, tape: Tape, pos: int, exact: nat)
    decreases tape, 1
  {
    match tape
    case Blank => pos == 0
    case Copied(_, _) => CopiedRightly(values, text, tape, pos, exact)
    case Filled(_, key, _) => FilledRightly(values, text, tape, pos - |KeyText(key)|, exact)
  }

  /** The last character, before `end`, was copied. If a placeholder starts there, the
      character is right after a backslash. */
  predicate CopiedRightly(values: Values, text: string, tape: Tape, end: int, exact: nat)
    requires tape.Copied?
    decreases tape, 0
  {
    && 0 < end <= |text| && text[end - 1] == tape.c
    && (KeyAt(text, end - 1).Found? ==>
          end > 1 && text[end - 2] == '\\' && (end - 1 < exact ==> Reading(values, tape.before).q.esc))
    && Legal(values, text, tape.before, end - 1, exact)
  }

  /** A placeholder starts at `at` and was replaced. */
  predicate FilledRightly(values: Values, text: string, tape: Tape, at: int, exact: nat)
    requires tape.Filled?
    decreases tape, 0
  {
    && 0 <= at && KeyAt(text, at) == Found(tape.key)
    && Proper(Reading(values, tape.before).q, values.Of(tape.key), tape.shown)
    && (at < exact ==> !Reading(values, tape.before).q.esc)
    && Legal(values, text, tape.before, at, exact)
  }

  /** No value runs into a parameter name before it. */
  predicate NoneJoins(values: Values, tape: Tape) {
    match tape
    case Blank => true
    case Copied(before, _) => NoneJoins(values, before)
    case Filled(before, key, _) => !Joins(Reading(values, before).q, values.Of(key)) && NoneJoins(values, before)
  }

  lemma {:induction false} ReadingIsSane(values: Values, tape: Tape)
    ensures Sane(Reading(values, tape).q)
  {
    if !tape.Blank? {
      ReadingIsSane(values, tape.before);
      var q := Reading(values, tape.before).q;
      if tape.Copied? { SaneStep(q, tape.c); } else { SaneLanded(q); }
      assert Reading(values, tape) == ReadLast(values, tape);
    }
  }

  lemma LastCopied(values: Values, text: string, tape: Tape, pos: int, exact: nat)
    requires Legal(values, text, tape, pos, exact) && tape.Copied?
    ensures 0 < pos <= |text| && text[pos - 1] == tape.c && Legal(values, text, tape.before, pos - 1, exact)
  {
    assert CopiedRightly(values, text, tape, pos, exact);
  }

  lemma LastFilled(values: Values, text: string, tape: Tape, pos: int, exact: nat)
    requires Legal(values, text, tape, pos, exact) && tape.Filled?
    ensures
      var at := pos - |KeyText(tape.key)|;
      at >= 0 && KeyAt(text, at) == Found(tape.key) && Legal(values, text, tape.before, at, exact)
  {
    assert FilledRightly(values, text, tape, pos - |KeyText(tape.key)|, exact);
  }

  lemma CharSpelled(text: string, pos: int)
    requires 0 < pos <= |text|
    ensures text[..pos] == text[..pos - 1] + [text[pos - 1]]
  {
  }

  lemma KeySpelled(text: string, at: nat, key: Key)
    requires KeyAt(text, at) == Found(key)
    ensures at + |KeyText(key)| <= |text| && text[..at + |KeyText(key)|] == text[..at] + KeyText(key)
  {
    var end := at + |KeyText(key)|;
    assert text[..end] == text[..at] + text[at..end];
  }

  /** The tape spells the text: nothing but the placeholders was changed. */
  lemma {:induction false} LegalSpells(values: Values, text: string, tape: Tape, pos: int, exact: nat)
    requires Legal(values, text, tape, pos, exact)
    ensures 0 <= pos <= |text| && Template(tape) == text[..pos]
  {
    match tape
    case Blank =>
    case Copied(before, c) =>
      LastCopied(values, text, tape, pos, exact);
      LegalSpells(values, text, before, pos - 1, exact);
      CharSpelled(text, pos);
    case Filled(before, key, _) =>
      LastFilled(values, text, tape, pos, exact);
      LegalSpells(values, text, before, pos - |KeyText(key)|, exact);
      KeySpelled(text, pos - |KeyText(key)|, key);
  }

  lemma {:induction false} LessExact(values: Values, text: string, tape: Tape, pos: int, exact: nat, exact': nat)
    requires Legal(values, text, tape, pos, exact) && exact' <= exact
    ensures Legal(values, text, tape, pos, exact')
  {
    match tape
    case Blank =>
    case Copied(before, _) =>
      assert CopiedRightly(values, text, tape, pos, exact);
      LessExact(values, text, before, pos - 1, exact, exact');
      assert CopiedRightly(values, text, tape, pos, exact');
    case Filled(before, key, _) =>
      var at := pos - |KeyText(key)|;
      assert FilledRightly(values, text, tape, at, exact);
      LessExact(values, text, before, at, exact, exact');
      assert FilledRightly(values, text, tape, at, exact');
  }

  /** The expanded command is read as the template with its values, when none joins. */
  lemma {:induction false} ExpandedIsReadAsTemplate(values: Values, text: string, tape: Tape, pos: int, exact: nat)
    requires Legal(values, text, tape, pos, exact) && NoneJoins(values, tape)
    ensures Run(INIT, Expanded(tape)) == Reading(values, tape)
  {
    match tape
    case Blank =>
    case Copied(before, c) =>
      assert CopiedRightly(values, text, tape, pos, exact) && Reading(values, tape) == ReadLast(values, tape);
      ExpandedIsReadAsTemplate(values, text, before, pos - 1, exact);
      RunConcat(INIT, Expanded(before), [c]);
      RunOne(Reading(values, before).q, c);
    case Filled(before, key, shown) =>
      assert FilledRightly(values, text, tape, pos - |KeyText(key)|, exact);
      assert Reading(values, tape) == ReadLast(values, tape);
      ExpandedIsReadAsTemplate(values, text, before, pos - |KeyText(key)|, exact);
      RunConcat(INIT, Expanded(before), shown);
      ReadingIsSane(values, before);
      InsertedTextIsLiteralExactlyWhen(Reading(values, before).q, values.Of(key), shown);
  }

  /** Once a value joined, the two readings stay apart, whatever follows. */
  lemma {:induction false} JoinedIsMisread(values: Values, text: string, tape: Tape, pos: int,
                                           exact: nat) returns (i: nat)
    requires Legal(values, text, tape, pos, exact) && !NoneJoins(values, tape)
    requires values.repo != "" && values.worktree != ""
    ensures Part(Run(INIT, Expanded(tape)).ev, Reading(values, tape).ev, i)
  {
    var before := tape.before;
    assert Reading(values, tape) == ReadLast(values, tape);
    var start := if tape.Copied? then pos - 1 else pos - |KeyText(tape.key)|;
    if tape.Copied? {
      LastCopied(values, text, tape, pos, exact);
    } else {
      LastFilled(values, text, tape, pos, exact);
    }
    RunConcat(INIT, Expanded(before), if tape.Copied? then [tape.c] else tape.shown);
    if !NoneJoins(values, before) {
      i := JoinedIsMisread(values, text, before, start, exact);
    } else {
      assert FilledRightly(values, text, tape, start, exact);
      ExpandedIsReadAsTemplate(values, text, before, start, exact);
      ReadingIsSane(values, before);
      JoiningIsNotLiteral(Reading(values, before).q, values.Of(tape.key), tape.shown);
      i := |Reading(values, before).ev|;
    }
  }

  /** A shell reads the expanded command as the template with its values exactly when no
      value joins a parameter name before it. */
  lemma ExpansionKeepsMeaningExactlyWhenNoneJoins(values: Values, text: string, tape: Tape, pos: int, exact: nat)
    requires Legal(values, text, tape, pos, exact) && values.repo != "" && values.worktree != ""
    ensures Lex(Expanded(tape)) == Reading(values, tape).ev <==> NoneJoins(values, tape)
  {
    if NoneJoins(values, tape) {
      ExpandedIsReadAsTemplate(values, text, tape, pos, exact);
    } else {
      var i := JoinedIsMisread(values, text, tape, pos, exact);
    }
  }

  lemma TapeGrowsByCopy(values: Values, text: string, tape: Tape, pos: nat, exact: nat)
    requires Legal(values, text, tape, pos, exact) && pos < |text|
    requires KeyAt(text, pos).Found? ==>
      0 < pos && text[pos - 1] == '\\' && (pos < exact ==> Reading(values, tape).q.esc)
    ensures Legal(values, text, Copied(tape, text[pos]), pos + 1, exact)
    ensures Reading(values, Copied(tape, text[pos])).q == Step(Reading(values, tape).q, text[pos]).q
    ensures Expanded(Copied(tape, text[pos])) == Expanded(tape) + [text[pos]]
  {
    assert CopiedRightly(values, text, Copied(tape, text[pos]), pos + 1, exact);
    assert Reading(values, Copied(tape, text[pos])) == ReadLast(values, Copied(tape, text[pos]));
  }

  lemma FillIsLegal(values: Values, text: string, tape: Tape, pos: nat, exact: nat, key: Key, shown: string)
    requires Legal(values, text, tape, pos, exact) && KeyAt(text, pos) == Found(key)
    requires Proper(Reading(values, tape).q, values.Of(key), shown) && (pos < exact ==> !Reading(values, tape).q.esc)
    ensures pos + |KeyText(key)| <= |text|
    ensures Legal(values, text, Filled(tape, key, shown), pos + |KeyText(key)|, exact)
  {
    assert FilledRightly(values, text, Filled(tape, key, shown), pos, exact);
  }

  lemma FillIsRead(values: Values, tape: Tape, key: Key, shown: string)
    ensures Reading(values, Filled(tape, key, shown)).q == Landed(Reading(values, tape).q)
  {
    assert Reading(values, Filled(tape, key, shown)) == ReadLast(values, Filled(tape, key, shown));
  }

  lemma TapeGrowsByFill(values: Values, text: string, tape: Tape, pos: nat, exact: nat, key: Key, shown: string)
    requires Legal(values, text, tape, pos, exact) && KeyAt(text, pos) == Found(key)
    requires Proper(Reading(values, tape).q, values.Of(key), shown) && (pos < exact ==> !Reading(values, tape).q.esc)
    ensures pos + |KeyText(key)| <= |text|
    ensures Legal(values, text, Filled(tape, key, shown), pos + |KeyText(key)|, exact)
    ensures Reading(values, Filled(tape, key, shown)).q == Landed(Reading(values, tape).q)
    ensures Expanded(Filled(tape, key, shown)) == Expanded(tape) + shown
  {
    FillIsLegal(values, text, tape, pos, exact, key, shown);
    FillIsRead(values, tape, key, shown);
  }

  lemma RunOne(q: State, c: char)
    ensures Run(q, [c]) == Step(q, c)
  {
    RunHead(q, [c], Step(q, c));
    assert [c][1..] == "";
  }

  /** An absolute path never joins. */
  lemma {:induction false} AbsolutePathsNeverJoin(values: Values, tape: Tape)
    requires At(values.repo, 0, "/") && At(values.worktree, 0, "/")
    ensures NoneJoins(values, tape)
  {
    match tape
    case Blank =>
    case Copied(before, _) => AbsolutePathsNeverJoin(values, before);
    case Filled(before, key, _) =>
      AbsolutePathsNeverJoin(values, before);
      assert values.repo[0..1][0] == '/' && values.worktree[0..1][0] == '/';
  }

  /** In `$A${worktree}` the relative path `x` is inserted as it is, and the shell reads `$Ax`:
      another parameter. */
  lemma RelativePathIsMisread()
    ensures
      var q := Run(INIT, "$A").q;
      Proper(q, "x", "x") && Run(q, "x") != Literal(q, "x")
  {
    var q := Step(Step(INIT, '$').q, 'A').q;
    RunHead(INIT, "$A", Step(INIT, '$'));
    assert "$A"[1..] == "A";
    RunOne(Step(INIT, '$').q, 'A');
    assert Sane(q) && q.pend == Name;
    InsertedTextIsLiteralExactlyWhen(q, "x", "x");
  }
}
