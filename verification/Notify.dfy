/**
  Webhook notifications of a daemon's sweeps (`notify.py`): which outcomes become messages,
  and how messages are delivered, kept and retried over any sequence of sweeps.
 */
module Notify {

  type Path = string

  /** The outcome of one repository in one sweep. `Silent` is idle, skipped or excluded. */
  datatype Outcome =
    | Landed(count: string) | Processed(count: string) | Unverified(count: string)
    | Partial(counts: string) | NoLanding(count: string)
    | ReconcilePaused | SweepError | Silent(text: string) | Other(text: string)

  datatype Category = LandedCategory | BlockedCategory | ReconcileCategory | PausedCategory | NoCategory

  datatype Report = Report(path: Path, name: string, outcome: Outcome, error: string)

  /** `_dedup_key`: an error is told apart by its text. */
  datatype Key = OfOutcome(outcome: Outcome) | OfError(text: string)

  datatype Message = Message(path: Path, key: Key, title: string, body: string)

  /** The state between sweeps: the key last settled for a path, and the event messages that no
      sweep could deliver yet. */
  datatype State = State(keys: map<Path, Key>, kept: seq<Message>)

  /** Which categories are configured; all of them when nothing is. */
  datatype Filter = Everything | Only(categories: set<Category>)

  const KEPT_LIMIT := 20

  function CategoryOf(outcome: Outcome): Category {
    match outcome
    case Landed(_) | Processed(_) | Unverified(_) => LandedCategory
    case Partial(_) | NoLanding(_) => BlockedCategory
    case ReconcilePaused => ReconcileCategory
    case SweepError => PausedCategory
    case Silent(_) | Other(_) => NoCategory
  }

  predicate TransitionOnly(outcome: Outcome) {
    outcome.SweepError? || outcome.ReconcilePaused? || outcome.NoLanding?
  }

  function KeyOf(r: Report): Key {
    if r.outcome.SweepError? then OfError(if r.error == "" then "sweep error" else r.error) else OfOutcome(r.outcome)
  }

  /** A landing, or jobs that did not land, happens once. */
  predicate IsEvent(key: Key) {
    key.OfOutcome? && (key.outcome.Landed? || key.outcome.Processed? || key.outcome.Unverified?
                       || key.outcome.Partial? || key.outcome.NoLanding?)
  }

  function Jobs(count: string): string { count + if count == "1" then " job" else " jobs" }

  function Body(outcome: Outcome): string {
    match outcome
    case Landed(count) => "Train landed (" + Jobs(count) + ")"
    case Processed(count) => "Train landed (" + Jobs(count) + ")"
    case Unverified(count) => "Train landed (" + Jobs(count) + "); verification needs attention"
    case Partial(counts) => "Partial: " + counts + " landed, rest blocked/failed"
    case NoLanding(count) => "Nothing landed \U{2014} " + Jobs(count) + " blocked or failed"
    case ReconcilePaused => "Deploy paused: jobs need reconcile"
    case _ => "Deploy paused: the daemon hit an error; see its log"
  }

  // ------------------------------------------------------------------ one sweep's messages

  /** Nothing is to be sent, and the key is settled. */
  predicate Settles(r: Report, previous: map<Path, Key>, filter: Filter) {
    || (filter.Only? && CategoryOf(r.outcome) !in filter.categories)
    || r.outcome.Silent?
    || (TransitionOnly(r.outcome) && r.path in previous && previous[r.path] == KeyOf(r))
  }

  predicate Sends(r: Report, previous: map<Path, Key>, filter: Filter) {
    !Settles(r, previous, filter) && !r.outcome.Other?
  }

  /** A category is notified of. */
  predicate Wants(filter: Filter, category: Category) { filter.Only? ==> category in filter.categories }

  /** Which outcome is sent, by name: a landing under `landed`, jobs that did not land under
      `blocked`, a pause under its own category, and a lasting state only when it has changed.
      What is not sent is settled, except an outcome the program does not know. */
  lemma WhatIsSent(r: Report, previous: map<Path, Key>, filter: Filter)
    ensures Sends(r, previous, filter) <==>
      var changed := !(r.path in previous && previous[r.path] == KeyOf(r));
      match r.outcome
      case Landed(_) => Wants(filter, LandedCategory)
      case Processed(_) => Wants(filter, LandedCategory)
      case Unverified(_) => Wants(filter, LandedCategory)
      case Partial(_) => Wants(filter, BlockedCategory)
      case NoLanding(_) => Wants(filter, BlockedCategory) && changed
      case ReconcilePaused => Wants(filter, ReconcileCategory) && changed
      case SweepError => Wants(filter, PausedCategory) && changed
      case Silent(_) => false
      case Other(_) => false
    ensures Settles(r, previous, filter) <==>
      !Sends(r, previous, filter) && (r.outcome.Other? ==> !Wants(filter, NoCategory))
  {
  }

  function MessageOf(r: Report): Message { Message(r.path, KeyOf(r), "mergetrain \U{B7} " + r.name, Body(r.outcome)) }

  function Messages(reports: seq<Report>, previous: map<Path, Key>, filter: Filter): seq<Message> {
    if reports == [] then []
    else
      var before, r := Messages(reports[..|reports| - 1], previous, filter), reports[|reports| - 1];
      if Sends(r, previous, filter) then before + [MessageOf(r)] else before
  }

  function SettledKeys(reports: seq<Report>, previous: map<Path, Key>, filter: Filter): map<Path, Key> {
    if reports == [] then map[]
    else
      var before, r := SettledKeys(reports[..|reports| - 1], previous, filter), reports[|reports| - 1];
      if Settles(r, previous, filter) then before[r.path := KeyOf(r)] else before
  }

  /** `sweep_notifications`. */
  method SweepNotifications(reports: seq<Report>, previous: map<Path, Key>, filter: Filter)
    returns (messages: seq<Message>, settled: map<Path, Key>)
    ensures messages == Messages(reports, previous, filter) && settled == SettledKeys(reports, previous, filter)
  {
    messages, settled := [], map[];
    for i := 0 to |reports|
      invariant messages == Messages(reports[..i], previous, filter)
      invariant settled == SettledKeys(reports[..i], previous, filter)
    {
      var r := reports[i];
      assert reports[..i + 1][..i] == reports[..i];
      var key := KeyOf(r);
      if filter.Only? && CategoryOf(r.outcome) !in filter.categories {
        settled := settled[r.path := key];
      } else if r.outcome.Silent? {
        settled := settled[r.path := key];
      } else if TransitionOnly(r.outcome) && r.path in previous && previous[r.path] == key {
        settled := settled[r.path := key];
      } else if !r.outcome.Other? {
        messages := messages + [MessageOf(r)];
      }
    }
    assert reports[..|reports|] == reports;
  }

  // ------------------------------------------------------------------ delivery of one sweep

  /** Which messages were delivered. After one failure nothing more is sent for that path. */
  ghost predicate FailsStop(queue: seq<Message>, sent: seq<bool>) {
    && |sent| == |queue|
    && forall i, j :: 0 <= i < j < |queue| && queue[i].path == queue[j].path && !sent[i] ==> !sent[j]
  }

  /** A message that must not get lost: one already kept, or a new event. */
  predicate Lasting(queue: seq<Message>, held: nat, i: nat)
    requires i < |queue|
  {
    i < held || IsEvent(queue[i].key)
  }

  /** The lasting messages of the first `n`, by whether they were delivered. */
  function Part(queue: seq<Message>, sent: seq<bool>, held: nat, delivered: bool, n: nat): seq<Message>
    requires n <= |queue| == |sent|
  {
    if n == 0 then []
    else
      var before := Part(queue, sent, held, delivered, n - 1);
      if Lasting(queue, held, n - 1) && sent[n - 1] == delivered then before + [queue[n - 1]] else before
  }

  function LastingPart(queue: seq<Message>, held: nat, n: nat): seq<Message>
    requires n <= |queue|
  {
    if n == 0 then []
    else
      var before := LastingPart(queue, held, n - 1);
      if Lasting(queue, held, n - 1) then before + [queue[n - 1]] else before
  }

  /** The keys settled once the first `n` messages were handled: a delivered message settles
      its key, and a kept one too. */
  function KeysAfter(settled: map<Path, Key>, queue: seq<Message>, sent: seq<bool>, held: nat, n: nat): map<Path, Key>
    requires n <= |queue| == |sent|
  {
    if n == 0 then settled
    else
      var before, m := KeysAfter(settled, queue, sent, held, n - 1), queue[n - 1];
      if n - 1 >= held && (sent[n - 1] || IsEvent(m.key)) then before[m.path := m.key] else before
  }

  function Newest(messages: seq<Message>): seq<Message> {
    if |messages| <= KEPT_LIMIT then messages else messages[|messages| - KEPT_LIMIT..]
  }

  function Dropped(messages: seq<Message>): seq<Message> {
    if |messages| <= KEPT_LIMIT then [] else messages[..|messages| - KEPT_LIMIT]
  }

  /** What one sweep does: its queue is the kept messages and then the new ones. */
  datatype Sweep = Sweep(reports: seq<Report>, filter: Filter, sent: seq<bool>)

  function Queue(previous: State, sweep: Sweep): seq<Message> {
    previous.kept + Messages(sweep.reports, previous.keys, sweep.filter)
  }

  ghost predicate Possible(previous: State, sweep: Sweep) { FailsStop(Queue(previous, sweep), sweep.sent) }

  function Unsent(previous: State, sweep: Sweep): seq<Message>
    requires |sweep.sent| == |Queue(previous, sweep)|
  {
    Part(Queue(previous, sweep), sweep.sent, |previous.kept|, false, |sweep.sent|)
  }

  function Delivered(previous: State, sweep: Sweep): seq<Message>
    requires |sweep.sent| == |Queue(previous, sweep)|
  {
    Part(Queue(previous, sweep), sweep.sent, |previous.kept|, true, |sweep.sent|)
  }

  function After(previous: State, sweep: Sweep): State
    requires |sweep.sent| == |Queue(previous, sweep)|
  {
    State(KeysAfter(SettledKeys(sweep.reports, previous.keys, sweep.filter),
                    Queue(previous, sweep), sweep.sent, |previous.kept|, |sweep.sent|),
          Newest(Unsent(previous, sweep)))
  }

  /** The paths for which something failed among the first messages. */
  ghost predicate Failures(queue: seq<Message>, sent: seq<bool>, failed: set<Path>) {
    && |sent| <= |queue|
    && (forall k :: 0 <= k < |sent| && !sent[k] ==> queue[k].path in failed)
    && (forall path <- failed :: exists k :: 0 <= k < |sent| && queue[k].path == path && !sent[k])
    && forall k, l :: 0 <= k < l < |sent| && queue[k].path == queue[l].path && !sent[k] ==> !sent[l]
  }

  /** The webhook takes the message at a place of the queue or not; it is asked only when
      nothing failed for the path before. */
  ghost predicate SentAsTaken(queue: seq<Message>, sent: seq<bool>, takes: nat -> bool) {
    && |sent| <= |queue|
    && forall i :: 0 <= i < |sent| ==>
         (sent[i] <==> takes(i) && forall k :: 0 <= k < i && queue[k].path == queue[i].path ==> sent[k])
  }

  lemma SentAsTakenStep(queue: seq<Message>, sent: seq<bool>, takes: nat -> bool, failed: set<Path>, delivered: bool)
    requires SentAsTaken(queue, sent, takes) && Failures(queue, sent, failed) && |sent| < |queue|
    requires delivered <==> takes(|sent|) && queue[|sent|].path !in failed
    ensures SentAsTaken(queue, sent + [delivered], takes)
  {
    var more := sent + [delivered];
    forall i | 0 <= i < |more|
      ensures more[i] <==> takes(i) && forall k :: 0 <= k < i && queue[k].path == queue[i].path ==> more[k]
    {
      if i < |sent| { assert sent[i] == more[i]; }
    }
  }

  lemma FailuresStep(queue: seq<Message>, sent: seq<bool>, failed: set<Path>, delivered: bool)
    requires Failures(queue, sent, failed) && |sent| < |queue|
    requires queue[|sent|].path in failed ==> !delivered
    ensures Failures(queue, sent + [delivered], if delivered then failed else failed + {queue[|sent|].path})
  {
    var sent', failed' := sent + [delivered], if delivered then failed else failed + {queue[|sent|].path};
    forall path <- failed' ensures exists k :: 0 <= k < |sent'| && queue[k].path == path && !sent'[k] {
      if path in failed {
        var k :| 0 <= k < |sent| && queue[k].path == path && !sent[k];
        assert !sent'[k];
      } else {
        assert !sent'[|sent|];
      }
    }
  }

  /** `deliver_notifications`; whether the webhook takes the message at a place of the queue is
      the world's. */
  method DeliverNotifications(reports: seq<Report>, previous: State, filter: Filter, takes: nat -> bool)
    returns (state: State, sent: seq<bool>)
    ensures Possible(previous, Sweep(reports, filter, sent)) && state == After(previous, Sweep(reports, filter, sent))
    ensures SentAsTaken(Queue(previous, Sweep(reports, filter, sent)), sent, takes)
  {
    hide FailsStop, Failures, SentAsTaken, Part, KeysAfter, Messages, SettledKeys;
    var messages, keys := SweepNotifications(reports, previous.keys, filter);
    ghost var settled := keys;
    var queue, held := previous.kept + messages, |previous.kept|;
    var kept, failed: set<Path> := [], {};
    sent := [];
    NothingSentYet(queue, settled, held, takes);
    for i := 0 to |queue|
      invariant |sent| == i && Failures(queue, sent, failed) && SentAsTaken(queue, sent, takes)
      invariant kept == Part(queue[..i], sent, held, false, i)
      invariant keys == KeysAfter(settled, queue[..i], sent, held, i)
    {
      var message := queue[i];
      var delivered := message.path !in failed && takes(i);
      SentAsTakenStep(queue, sent, takes, failed, delivered);
      FailuresStep(queue, sent, failed, delivered);
      PartStep(queue, sent, delivered, held, i);
      KeysStep(settled, queue, sent, delivered, held, i);
      if !delivered { failed := failed + {message.path}; }
      sent := sent + [delivered];
      if i < held {
        if !delivered { kept := kept + [message]; }
      } else if delivered {
        keys := keys[message.path := message.key];
      } else if IsEvent(message.key) {
        keys := keys[message.path := message.key];
        kept := kept + [message];
      }
    }
    assert queue[..|queue|] == queue;
    state := State(keys, if |kept| <= KEPT_LIMIT then kept else kept[|kept| - KEPT_LIMIT..]);
    FailuresAreLast(queue, sent, failed);
  }

  lemma NothingSentYet(queue: seq<Message>, settled: map<Path, Key>, held: nat, takes: nat -> bool)
    ensures Failures(queue, [], {}) && SentAsTaken(queue, [], takes)
    ensures Part(queue[..0], [], held, false, 0) == [] && KeysAfter(settled, queue[..0], [], held, 0) == settled
  {
  }

  lemma FailuresAreLast(queue: seq<Message>, sent: seq<bool>, failed: set<Path>)
    requires Failures(queue, sent, failed) && |sent| == |queue|
    ensures FailsStop(queue, sent)
  {
  }

  lemma {:induction false} PartPrefix(a: seq<Message>, sa: seq<bool>, b: seq<Message>, sb: seq<bool>, held: nat,
                                      delivered: bool, n: nat)
    requires n <= |a| == |sa| && n <= |b| == |sb| && a[..n] == b[..n] && sa[..n] == sb[..n]
    ensures Part(a, sa, held, delivered, n) == Part(b, sb, held, delivered, n)
  {
    if n > 0 {
      assert a[..n - 1] == a[..n][..n - 1] && b[..n - 1] == b[..n][..n - 1];
      assert sa[..n - 1] == sa[..n][..n - 1] && sb[..n - 1] == sb[..n][..n - 1];
      assert a[n - 1] == a[..n][n - 1] && b[n - 1] == b[..n][n - 1];
      assert sa[n - 1] == sa[..n][n - 1] && sb[n - 1] == sb[..n][n - 1];
      PartPrefix(a, sa, b, sb, held, delivered, n - 1);
    }
  }

  lemma PartStep(queue: seq<Message>, sent: seq<bool>, delivered: bool, held: nat, i: nat)
    requires i < |queue| && |sent| == i
    ensures
      var before := Part(queue[..i], sent, held, false, i);
      Part(queue[..i + 1], sent + [delivered], held, false, i + 1) ==
      if Lasting(queue, held, i) && !delivered then before + [queue[i]] else before
  {
    assert queue[..i + 1][..i] == queue[..i][..i];
    assert (sent + [delivered])[..i] == sent[..i];
    PartPrefix(queue[..i + 1], sent + [delivered], queue[..i], sent, held, false, i);
  }

  lemma {:induction false} KeysPrefix(settled: map<Path, Key>, a: seq<Message>, sa: seq<bool>, b: seq<Message>,
                                      sb: seq<bool>, held: nat, n: nat)
    requires n <= |a| == |sa| && n <= |b| == |sb| && a[..n] == b[..n] && sa[..n] == sb[..n]
    ensures KeysAfter(settled, a, sa, held, n) == KeysAfter(settled, b, sb, held, n)
  {
    if n > 0 {
      assert a[..n - 1] == a[..n][..n - 1] && b[..n - 1] == b[..n][..n - 1];
      assert sa[..n - 1] == sa[..n][..n - 1] && sb[..n - 1] == sb[..n][..n - 1];
      assert a[n - 1] == a[..n][n - 1] && b[n - 1] == b[..n][n - 1];
      assert sa[n - 1] == sa[..n][n - 1] && sb[n - 1] == sb[..n][n - 1];
      KeysPrefix(settled, a, sa, b, sb, held, n - 1);
    }
  }

  lemma KeysStep(settled: map<Path, Key>, queue: seq<Message>, sent: seq<bool>, delivered: bool, held: nat, i: nat)
    requires i < |queue| && |sent| == i
    ensures
      var before := KeysAfter(settled, queue[..i], sent, held, i);
      KeysAfter(settled, queue[..i + 1], sent + [delivered], held, i + 1) ==
      if i >= held && (delivered || IsEvent(queue[i].key)) then before[queue[i].path := queue[i].key] else before
  {
    assert queue[..i + 1][..i] == queue[..i][..i];
    assert (sent + [delivered])[..i] == sent[..i];
    KeysPrefix(settled, queue[..i + 1], sent + [delivered], queue[..i], sent, held, i);
  }

  // ------------------------------------------------------------------ any sequence of sweeps

  function ForPath(messages: seq<Message>, path: Path): seq<Message> {
    if messages == [] then []
    else
      var before, last := ForPath(messages[..|messages| - 1], path), messages[|messages| - 1];
      if last.path == path then before + [last] else before
  }

  lemma {:induction false} ForPathConcat(a: seq<Message>, b: seq<Message>, path: Path)
    ensures ForPath(a + b, path) == ForPath(a, path) + ForPath(b, path)
  {
    if b == [] {
      assert a + b == a;
    } else {
      assert (a + b)[..|a + b| - 1] == a + b[..|b| - 1];
      ForPathConcat(a, b[..|b| - 1], path);
    }
  }

  lemma ForPathAppend(messages: seq<Message>, m: Message, path: Path)
    ensures ForPath(messages + [m], path) ==
            if m.path == path then ForPath(messages, path) + [m] else ForPath(messages, path)
  {
    assert (messages + [m])[..|messages|] == messages;
  }

  lemma {:induction false} UnsentMeansFailed(queue: seq<Message>, sent: seq<bool>, held: nat, n: nat, path: Path)
    requires n <= |queue| == |sent|
    ensures ForPath(Part(queue, sent, held, false, n), path) == [] ||
            exists i :: 0 <= i < n && queue[i].path == path && !sent[i]
  {
    if n > 0 {
      UnsentMeansFailed(queue, sent, held, n - 1, path);
      ForPathAppend(Part(queue, sent, held, false, n - 1), queue[n - 1], path);
    }
  }

  /** For each path, what was delivered comes before what was not. */
  lemma {:induction false} DeliveredThenUnsent(queue: seq<Message>, sent: seq<bool>, held: nat, n: nat, path: Path)
    requires FailsStop(queue, sent) && n <= |queue|
    ensures ForPath(Part(queue, sent, held, true, n), path) + ForPath(Part(queue, sent, held, false, n), path)
            == ForPath(LastingPart(queue, held, n), path)
  {
    if n > 0 {
      DeliveredThenUnsent(queue, sent, held, n - 1, path);
      if Lasting(queue, held, n - 1) { DeliveryStep(queue, sent, held, n, path); }
    }
  }

  lemma NextDelivered(queue: seq<Message>, sent: seq<bool>, held: nat, n: nat, path: Path)
    requires FailsStop(queue, sent) && 0 < n <= |queue| && sent[n - 1] && Lasting(queue, held, n - 1)
    ensures
      var delivered, unsent := Part(queue, sent, held, true, n - 1), Part(queue, sent, held, false, n - 1);
      && Part(queue, sent, held, true, n) == delivered + [queue[n - 1]] && Part(queue, sent, held, false, n) == unsent
      && (queue[n - 1].path == path ==> ForPath(unsent, path) == [])
  {
    if queue[n - 1].path == path {
      UnsentMeansFailed(queue, sent, held, n - 1, path);
    }
  }

  lemma NextKept(queue: seq<Message>, sent: seq<bool>, held: nat, n: nat)
    requires |sent| == |queue| && 0 < n <= |queue| && !sent[n - 1] && Lasting(queue, held, n - 1)
    ensures Part(queue, sent, held, true, n) == Part(queue, sent, held, true, n - 1)
    ensures Part(queue, sent, held, false, n) == Part(queue, sent, held, false, n - 1) + [queue[n - 1]]
  {
  }

  lemma DeliveredGrows(delivered: seq<Message>, unsent: seq<Message>, all: seq<Message>, m: Message, path: Path)
    requires ForPath(delivered, path) + ForPath(unsent, path) == ForPath(all, path)
    requires m.path == path ==> ForPath(unsent, path) == []
    ensures ForPath(delivered + [m], path) + ForPath(unsent, path) == ForPath(all + [m], path)
  {
    hide ForPath;
    ForPathAppend(delivered, m, path);
    ForPathAppend(all, m, path);
  }

  lemma UnsentGrows(delivered: seq<Message>, unsent: seq<Message>, all: seq<Message>, m: Message, path: Path)
    requires ForPath(delivered, path) + ForPath(unsent, path) == ForPath(all, path)
    ensures ForPath(delivered, path) + ForPath(unsent + [m], path) == ForPath(all + [m], path)
  {
    hide ForPath;
    ForPathAppend(unsent, m, path);
    ForPathAppend(all, m, path);
    assert ForPath(delivered, path) + (ForPath(unsent, path) + [m]) == ForPath(all, path) + [m];
  }

  lemma DeliveryStep(queue: seq<Message>, sent: seq<bool>, held: nat, n: nat, path: Path)
    requires FailsStop(queue, sent) && 0 < n <= |queue| && Lasting(queue, held, n - 1)
    requires ForPath(Part(queue, sent, held, true, n - 1), path) + ForPath(Part(queue, sent, held, false, n - 1), path)
             == ForPath(LastingPart(queue, held, n - 1), path)
    ensures ForPath(Part(queue, sent, held, true, n), path) + ForPath(Part(queue, sent, held, false, n), path)
            == ForPath(LastingPart(queue, held, n), path)
  {
    var delivered, unsent := Part(queue, sent, held, true, n - 1), Part(queue, sent, held, false, n - 1);
    assert LastingPart(queue, held, n) == LastingPart(queue, held, n - 1) + [queue[n - 1]];
    if sent[n - 1] {
      NextDelivered(queue, sent, held, n, path);
      DeliveredGrows(delivered, unsent, LastingPart(queue, held, n - 1), queue[n - 1], path);
    } else {
      NextKept(queue, sent, held, n);
      UnsentGrows(delivered, unsent, LastingPart(queue, held, n - 1), queue[n - 1], path);
    }
  }

  /** The new events of a sweep. */
  function NewEvents(messages: seq<Message>): seq<Message> {
    if messages == [] then []
    else
      var before, last := NewEvents(messages[..|messages| - 1]), messages[|messages| - 1];
      if IsEvent(last.key) then before + [last] else before
  }

  lemma {:induction false} LastingIsKeptThenNew(kept: seq<Message>, messages: seq<Message>, n: nat)
    requires n <= |kept + messages|
    ensures LastingPart(kept + messages, |kept|, n) ==
            if n <= |kept| then kept[..n] else kept + NewEvents(messages[..n - |kept|])
  {
    if n > 0 {
      LastingIsKeptThenNew(kept, messages, n - 1);
      if n <= |kept| {
        assert kept[..n] == kept[..n - 1] + [kept[n - 1]];
      } else {
        var k := n - |kept|;
        assert messages[..k][..k - 1] == messages[..k - 1];
        assert (kept + messages)[n - 1] == messages[k - 1];
        if n - 1 == |kept| { assert kept[..n - 1] == kept && messages[..0] == []; }
      }
    }
  }

  /** The event messages a run produced, and those it is done with: delivered, or dropped as
      the oldest beyond the limit. */
  datatype History = History(produced: seq<Message>, resolved: seq<Message>)

  function Extended(h: History, state: State, sweep: Sweep): History
    requires |sweep.sent| == |Queue(state, sweep)|
  {
    History(h.produced + NewEvents(Messages(sweep.reports, state.keys, sweep.filter)),
            h.resolved + Delivered(state, sweep) + Dropped(Unsent(state, sweep)))
  }

  /** For every path, the events produced are those resolved and then those kept, in order. */
  ghost predicate Accounted(h: History, state: State) {
    forall path :: ForPath(h.produced, path) == ForPath(h.resolved, path) + ForPath(state.kept, path)
  }

  /** No event is lost, doubled or overtaken by one sweep. */
  lemma SweepAccounts(h: History, state: State, sweep: Sweep)
    requires Accounted(h, state) && Possible(state, sweep)
    ensures Accounted(Extended(h, state, sweep), After(state, sweep))
    ensures |After(state, sweep).kept| <= KEPT_LIMIT
    ensures Dropped(Unsent(state, sweep)) != [] ==> |After(state, sweep).kept| == KEPT_LIMIT
  {
    var h', state' := Extended(h, state, sweep), After(state, sweep);
    forall path ensures ForPath(h'.produced, path) == ForPath(h'.resolved, path) + ForPath(state'.kept, path) {
      SweepAccountsFor(h, state, sweep, path);
    }
  }

  lemma SweepAccountsFor(h: History, state: State, sweep: Sweep, path: Path)
    requires ForPath(h.produced, path) == ForPath(h.resolved, path) + ForPath(state.kept, path)
    requires Possible(state, sweep)
    ensures
      var h', state' := Extended(h, state, sweep), After(state, sweep);
      ForPath(h'.produced, path) == ForPath(h'.resolved, path) + ForPath(state'.kept, path)
  {
    var queue, messages := Queue(state, sweep), Messages(sweep.reports, state.keys, sweep.filter);
    var delivered, unsent, events := Delivered(state, sweep), Unsent(state, sweep), NewEvents(messages);
    DeliveredThenUnsent(queue, sweep.sent, |state.kept|, |queue|, path);
    QueueIsKeptThenNew(state.kept, messages);
    ForPathConcat(state.kept, events, path);
    ForPathConcat(h.produced, events, path);
    ForPathConcat(h.resolved, delivered, path);
    ForPathConcat(h.resolved + delivered, Dropped(unsent), path);
    ForPathConcat(Dropped(unsent), Newest(unsent), path);
    assert Dropped(unsent) + Newest(unsent) == unsent;
    Balance(ForPath(h.resolved, path), ForPath(state.kept, path), ForPath(events, path), ForPath(delivered, path),
            ForPath(Dropped(unsent), path), ForPath(Newest(unsent), path));
  }

  lemma Balance(resolved: seq<Message>, kept: seq<Message>, events: seq<Message>, delivered: seq<Message>,
                dropped: seq<Message>, newest: seq<Message>)
    requires delivered + (dropped + newest) == kept + events
    ensures (resolved + kept) + events == ((resolved + delivered) + dropped) + newest
  {
    assert (resolved + kept) + events == resolved + (kept + events);
    assert ((resolved + delivered) + dropped) + newest == resolved + (delivered + (dropped + newest));
  }

  lemma QueueIsKeptThenNew(kept: seq<Message>, messages: seq<Message>)
    ensures LastingPart(kept + messages, |kept|, |kept + messages|) == kept + NewEvents(messages)
  {
    LastingIsKeptThenNew(kept, messages, |kept + messages|);
    assert messages[..|messages|] == messages;
    if messages == [] { assert kept[..|kept|] == kept + []; }
  }

  lemma {:induction false} PartHas(queue: seq<Message>, sent: seq<bool>, held: nat, n: nat, i: nat)
    requires i < n <= |queue| == |sent| && Lasting(queue, held, i)
    ensures queue[i] in Part(queue, sent, held, sent[i], n)
  {
    if i < n - 1 { PartHas(queue, sent, held, n - 1, i); }
  }

  lemma {:induction false} PartIsLasting(queue: seq<Message>, sent: seq<bool>, held: nat, delivered: bool, n: nat,
                                         m: Message)
    requires n <= |queue| == |sent| && m in Part(queue, sent, held, delivered, n)
    ensures exists i :: 0 <= i < n && Lasting(queue, held, i) && sent[i] == delivered && queue[i] == m
  {
    if m in Part(queue, sent, held, delivered, n - 1) {
      PartIsLasting(queue, sent, held, delivered, n - 1, m);
    } else {
      assert queue[n - 1] == m;
    }
  }

  /** What must not get lost: that a train landed, was processed, landed unverified or in part,
      or that nothing of it landed. */
  predicate Lands(outcome: Outcome) {
    match outcome
    case Landed(_) => true
    case Processed(_) => true
    case Unverified(_) => true
    case Partial(_) => true
    case NoLanding(_) => true
    case ReconcilePaused => false
    case SweepError => false
    case Silent(_) => false
    case Other(_) => false
  }

  /** The one report of a path that a sweep sends: what must not get lost is delivered or kept,
      and settled in either case. A pause that is not delivered is neither, so that the next
      sweep that reports it sends it again. */
  lemma LandingIsDeliveredOrKept(state: State, sweep: Sweep, path: Path, at: nat) returns (i: nat)
    requires ReportedAt(sweep.reports, path, at) && |sweep.sent| == |Queue(state, sweep)|
    requires Sends(sweep.reports[at], state.keys, sweep.filter)
    ensures |state.kept| <= i < |sweep.sent| && Queue(state, sweep)[i] == MessageOf(sweep.reports[at])
    ensures
      var outcome, message := sweep.reports[at].outcome, MessageOf(sweep.reports[at]);
      && (Lands(outcome) && sweep.sent[i] ==> message in Delivered(state, sweep))
      && (Lands(outcome) && !sweep.sent[i] ==> message in Unsent(state, sweep))
      && (HasKey(After(state, sweep), path, message.key) <==> Lands(outcome) || sweep.sent[i])
      && (!Lands(outcome) && message in Unsent(state, sweep) ==> message in state.kept)
  {
    var messages := Messages(sweep.reports, state.keys, sweep.filter);
    var settled := SettledKeys(sweep.reports, state.keys, sweep.filter);
    var queue, held, message := Queue(state, sweep), |state.kept|, MessageOf(sweep.reports[at]);
    var m := ReportedOnce(sweep.reports, state.keys, sweep.filter, path, at);
    i := held + m;
    assert forall k :: held <= k < |queue| ==> queue[k] == messages[k - held];
    KeyAtMessage(settled, queue, sweep.sent, held, |queue|, i);
    if Lands(sweep.reports[at].outcome) {
      PartHas(queue, sweep.sent, held, |queue|, i);
    } else if message in Unsent(state, sweep) {
      PartIsLasting(queue, sweep.sent, held, false, |queue|, message);
      var k :| 0 <= k < |queue| && Lasting(queue, held, k) && !sweep.sent[k] && queue[k] == message;
      assert k < held && queue[k] == state.kept[k];
    }
  }

  /** A run's history, one sweep after the other. */
  ghost predicate RunHistory(state: State, sweeps: seq<Sweep>, end: State, h: History)
    decreases |sweeps|
  {
    if sweeps == [] then state == end && h == History(state.kept, [])
    else
      var last := |sweeps| - 1;
      exists mid, before :: RunHistory(state, sweeps[..last], mid, before)
                            && Possible(mid, sweeps[last]) && end == After(mid, sweeps[last])
                            && h == Extended(before, mid, sweeps[last])
  }

  /** Over any sequence of sweeps and delivery failures, for each path, the event messages
      produced are exactly those delivered or dropped and then those still kept, in the order
      produced: none is delivered twice, lost, or overtaken. */
  lemma {:induction false} EventsAreDeliveredOnceInOrder(state: State, sweeps: seq<Sweep>, end: State, h: History)
    requires RunHistory(state, sweeps, end, h)
    ensures Accounted(h, end)
    ensures sweeps != [] ==> |end.kept| <= KEPT_LIMIT
    decreases |sweeps|
  {
    if sweeps == [] {
      forall path ensures ForPath(h.produced, path) == ForPath(h.resolved, path) + ForPath(end.kept, path) {
        assert ForPath([], path) == [];
      }
    } else {
      var last := |sweeps| - 1;
      var mid, before :| RunHistory(state, sweeps[..last], mid, before)
                         && Possible(mid, sweeps[last]) && end == After(mid, sweeps[last])
                         && h == Extended(before, mid, sweeps[last]);
      EventsAreDeliveredOnceInOrder(state, sweeps[..last], mid, before);
      SweepAccounts(before, mid, sweeps[last]);
    }
  }

  // ------------------------------------------------------------------ state messages

  /** One report of the sweep is for this path. */
  predicate ReportedAt(reports: seq<Report>, path: Path, at: nat) {
    at < |reports| && forall i :: 0 <= i < |reports| ==> (reports[i].path == path <==> i == at)
  }

  lemma {:induction false} UnreportedHasNoMessage(reports: seq<Report>, previous: map<Path, Key>, filter: Filter,
                                                  path: Path)
    requires forall r <- reports :: r.path != path
    ensures forall m <- Messages(reports, previous, filter) :: m.path != path
    ensures path !in SettledKeys(reports, previous, filter)
  {
    if reports != [] { UnreportedHasNoMessage(reports[..|reports| - 1], previous, filter, path); }
  }

  /** The one report of a path settles its key, or is the one message for the path. */
  lemma {:induction false} ReportedOnce(reports: seq<Report>, previous: map<Path, Key>, filter: Filter, path: Path,
                                        at: nat)
    returns (i: nat)
    requires ReportedAt(reports, path, at) && !reports[at].outcome.Other?
    ensures
      var messages, settled := Messages(reports, previous, filter), SettledKeys(reports, previous, filter);
      var r := reports[at];
      if Settles(r, previous, filter) then
        path in settled && settled[path] == KeyOf(r) && forall m <- messages :: m.path != path
      else
        && path !in settled && i < |messages| && messages[i] == MessageOf(r)
        && forall k :: 0 <= k < |messages| && k != i ==> messages[k].path != path
  {
    var init, last := reports[..|reports| - 1], reports[|reports| - 1];
    if at == |init| {
      UnreportedHasNoMessage(init, previous, filter, path);
      i := |Messages(init, previous, filter)|;
    } else {
      i := ReportedOnce(init, previous, filter, path, at);
    }
  }

  lemma {:induction false} KeyStays(settled: map<Path, Key>, queue: seq<Message>, sent: seq<bool>, held: nat, n: nat,
                                    path: Path)
    requires n <= |queue| == |sent| && forall k :: held <= k < n ==> queue[k].path != path
    ensures path in KeysAfter(settled, queue, sent, held, n) <==> path in settled
    ensures path in settled ==> KeysAfter(settled, queue, sent, held, n)[path] == settled[path]
  {
    if n > 0 { KeyStays(settled, queue, sent, held, n - 1, path); }
  }

  lemma {:induction false} KeyAtMessage(settled: map<Path, Key>, queue: seq<Message>, sent: seq<bool>, held: nat,
                                        n: nat, i: nat)
    requires held <= i < n <= |queue| == |sent| && queue[i].path !in settled
    requires forall k :: held <= k < n && k != i ==> queue[k].path != queue[i].path
    ensures
      var keys := KeysAfter(settled, queue, sent, held, n);
      if sent[i] || IsEvent(queue[i].key) then queue[i].path in keys && keys[queue[i].path] == queue[i].key
      else queue[i].path !in keys
  {
    if n == i + 1 {
      KeyStays(settled, queue, sent, held, i, queue[i].path);
    } else {
      KeyAtMessage(settled, queue, sent, held, n - 1, i);
    }
  }

  /** A sweep that reports a lasting state of this path: it is configured to be notified, and
      only its transitions are. */
  predicate ReportsState(sweep: Sweep, path: Path, key: Key, at: nat) {
    && ReportedAt(sweep.reports, path, at) && KeyOf(sweep.reports[at]) == key
    && TransitionOnly(sweep.reports[at].outcome) && !IsEvent(key)
    && (sweep.filter.Only? ==> CategoryOf(sweep.reports[at].outcome) in sweep.filter.categories)
  }

  predicate IsFor(m: Message, path: Path, key: Key) { m.path == path && m.key == key }

  /** The sweep tries to send the message of this state. */
  predicate Tries(state: State, sweep: Sweep, path: Path, key: Key) {
    exists m <- Messages(sweep.reports, state.keys, sweep.filter) :: IsFor(m, path, key)
  }

  /** The sweep delivers it. */
  predicate Succeeds(state: State, sweep: Sweep, path: Path, key: Key) {
    && |sweep.sent| == |Queue(state, sweep)|
    && exists i :: |state.kept| <= i < |sweep.sent| && sweep.sent[i] && IsFor(Queue(state, sweep)[i], path, key)
  }

  predicate HasKey(state: State, path: Path, key: Key) { path in state.keys && state.keys[path] == key }

  lemma SettledIsNotTried(state: State, sweep: Sweep, path: Path, key: Key, at: nat)
    requires ReportsState(sweep, path, key, at) && |sweep.sent| == |Queue(state, sweep)|
    requires Settles(sweep.reports[at], state.keys, sweep.filter)
    ensures HasKey(state, path, key) && HasKey(After(state, sweep), path, key)
    ensures !Tries(state, sweep, path, key) && !Succeeds(state, sweep, path, key)
  {
    var messages := Messages(sweep.reports, state.keys, sweep.filter);
    var settled := SettledKeys(sweep.reports, state.keys, sweep.filter);
    var queue, held := Queue(state, sweep), |state.kept|;
    var i := ReportedOnce(sweep.reports, state.keys, sweep.filter, path, at);
    assert forall k :: held <= k < |queue| ==> queue[k] == messages[k - held] && queue[k] in messages;
    KeyStays(settled, queue, sweep.sent, held, |queue|, path);
  }

  lemma UnsettledIsTried(state: State, sweep: Sweep, path: Path, key: Key, at: nat)
    requires ReportsState(sweep, path, key, at) && |sweep.sent| == |Queue(state, sweep)|
    requires !Settles(sweep.reports[at], state.keys, sweep.filter)
    ensures !HasKey(state, path, key) && Tries(state, sweep, path, key)
    ensures HasKey(After(state, sweep), path, key) <==> Succeeds(state, sweep, path, key)
  {
    var messages := Messages(sweep.reports, state.keys, sweep.filter);
    var settled := SettledKeys(sweep.reports, state.keys, sweep.filter);
    var queue, held := Queue(state, sweep), |state.kept|;
    var i := ReportedOnce(sweep.reports, state.keys, sweep.filter, path, at);
    assert forall k :: held <= k < |queue| ==> queue[k] == messages[k - held];
    KeyAtMessage(settled, queue, sweep.sent, held, |queue|, held + i);
    assert messages[i] in messages && IsFor(messages[i], path, key);
    assert queue[held + i] == messages[i];
  }

  /** A sweep sends a state's message exactly when its key is not settled, and settles it
      exactly when it was settled before or the message is delivered. */
  lemma StateIsSentUntilSettled(state: State, sweep: Sweep, path: Path, key: Key, at: nat)
    requires ReportsState(sweep, path, key, at) && |sweep.sent| == |Queue(state, sweep)|
    ensures Tries(state, sweep, path, key) <==> !HasKey(state, path, key)
    ensures HasKey(After(state, sweep), path, key) <==> HasKey(state, path, key) || Succeeds(state, sweep, path, key)
  {
    if Settles(sweep.reports[at], state.keys, sweep.filter) {
      SettledIsNotTried(state, sweep, path, key, at);
    } else {
      UnsettledIsTried(state, sweep, path, key, at);
    }
  }

  ghost predicate StepReports(state: State, sweep: Sweep, next: State, path: Path, key: Key) {
    && |sweep.sent| == |Queue(state, sweep)| && next == After(state, sweep)
    && exists at: nat :: ReportsState(sweep, path, key, at)
  }

  /** Each sweep leads from one state to the next and reports this state of the path. */
  ghost predicate KeepsReporting(states: seq<State>, sweeps: seq<Sweep>, path: Path, key: Key) {
    && |states| == |sweeps| + 1
    && forall k :: 0 <= k < |sweeps| ==> StepReports(states[k], sweeps[k], states[k + 1], path, key)
  }

  /** Over sweeps that keep reporting the same state, its message is tried in every sweep until
      one delivers it, and in none after that. */
  lemma {:induction false} StateIsDeliveredOnce(states: seq<State>, sweeps: seq<Sweep>, path: Path, key: Key, n: nat)
    requires KeepsReporting(states, sweeps, path, key) && n <= |sweeps|
    requires !HasKey(states[0], path, key)
    ensures HasKey(states[n], path, key) <==> exists k :: 0 <= k < n && Succeeds(states[k], sweeps[k], path, key)
    ensures n < |sweeps| ==>
      (Tries(states[n], sweeps[n], path, key) <==>
       forall k :: 0 <= k < n ==> !Succeeds(states[k], sweeps[k], path, key))
  {
    if n > 0 {
      StateIsDeliveredOnce(states, sweeps, path, key, n - 1);
      assert StepReports(states[n - 1], sweeps[n - 1], states[n], path, key);
      var at: nat :| ReportsState(sweeps[n - 1], path, key, at);
      StateIsSentUntilSettled(states[n - 1], sweeps[n - 1], path, key, at);
    }
    if n < |sweeps| {
      assert StepReports(states[n], sweeps[n], states[n + 1], path, key);
      var at: nat :| ReportsState(sweeps[n], path, key, at);
      StateIsSentUntilSettled(states[n], sweeps[n], path, key, at);
    }
  }
}
