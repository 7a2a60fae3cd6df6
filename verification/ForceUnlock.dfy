/**
  Clearing a wedged runner lock (`recovery.force_unlock`) while other processes renew,
  release and take it (`persistence/leases.py`). Times are whole seconds of one clock, which
  does not run backwards; every lease lasts at least a minute.
 */
module ForceUnlock {
  import opened JobTable

  /** What is added to a heartbeat interval when a lease is watched for one. */
  const RENEWAL_MARGIN := 5

  datatype Liveness = Alive | Dead | UnknownOwner

  datatype Lock = NoLock | Lock(owner: string, token: Token, heartbeat: int, expires: int)

  /** What other processes can change, and how often each lease was renewed. */
  datatype View = View(now: int, lock: Lock, used: set<Token>, renewals: map<Token, nat>)

  function Renewals(v: View, t: Token): nat { if t in v.renewals then v.renewals[t] else 0 }

  ghost predicate ViewOk(v: View) {
    v.lock.Lock? ==> v.lock.token in v.used && v.lock.heartbeat <= v.now && v.lock.heartbeat + 60 <= v.lock.expires
  }

  function AtLeastOne(n: int): nat { if n < 1 then 1 else n }

  /** The holder of the lock renews its lease for some minutes. */
  function Renewed(v: View, minutes: int): View
    requires v.lock.Lock?
  {
    v.(lock := v.lock.(heartbeat := v.now, expires := v.now + 60 * AtLeastOne(minutes)),
       renewals := v.renewals[v.lock.token := Renewals(v, v.lock.token) + 1])
  }

  function Taken(v: View, owner: string, token: Token, minutes: int): View {
    v.(lock := Lock(owner, token, v.now, v.now + 60 * AtLeastOne(minutes)), used := v.used + {token})
  }

  function Ticked(v: View, seconds: int): View { v.(now := v.now + AtLeastOne(seconds)) }

  /** One step of another process, or of the clock: a renewal, a release, an acquisition under a
      new token, a change of the rows, or a tick. */
  ghost predicate Step(a: View, b: View) {
    || (a.lock.Lock? && exists minutes :: b == Renewed(a, minutes))
    || b == a.(lock := NoLock)
    || (exists owner, token: Token, minutes :: token !in a.used && b == Taken(a, owner, token, minutes))
    || b == a
    || (exists seconds :: b == Ticked(a, seconds))
  }

  /** The same lease: held throughout, as it was or renewed since. */
  ghost predicate SameLease(a: View, b: View) {
    && a.lock.Lock? && b.lock.Lock? && b.lock.token == a.lock.token && b.lock.owner == a.lock.owner
    && Renewals(a, a.lock.token) <= Renewals(b, a.lock.token)
    && (if Renewals(b, a.lock.token) == Renewals(a, a.lock.token) then b.lock == a.lock
        else b.lock.heartbeat >= a.now)
  }

  /** What any number of steps of other processes may lead to: a lease that is gone does not
      come back. */
  ghost predicate Later(a: View, b: View) {
    && a.now <= b.now && a.used <= b.used
    && (SameLease(a, b) || b.lock == NoLock || b.lock.token !in a.used)
  }

  lemma StepIsLater(a: View, b: View)
    requires ViewOk(a) && Step(a, b)
    ensures ViewOk(b) && Later(a, b)
  {
  }

  lemma LaterIsTransitive(a: View, b: View, c: View)
    requires ViewOk(a) && Later(a, b) && Later(b, c)
    ensures Later(a, c)
  {
  }

  /** A lease that had expired by `b` and looks the same in `c` was not renewed in between, and
      before that only in the very second it was inspected in. */
  lemma ExpiredAndUnchangedIsUnrenewed(a: View, b: View, c: View)
    requires ViewOk(a) && Later(a, b) && Later(b, c) && a.lock.Lock? && a.lock.expires <= b.now
    requires c.lock.Lock? && c.lock.token == a.lock.token && c.lock.heartbeat == a.lock.heartbeat
    ensures c.lock == b.lock && c.lock.owner == a.lock.owner
    ensures Renewals(c, a.lock.token) == Renewals(b, a.lock.token)
    ensures a.lock.heartbeat < a.now ==> c.lock == a.lock && Renewals(c, a.lock.token) == Renewals(a, a.lock.token)
  {
  }

  datatype Event = Cleared(owner: string) | Forced(owner: string)

  datatype Result =
    | NothingToClear          // no lock
    | Refused                 // not forced, renewed, or not expired
    | Changed                 // replaced or released while it was checked
    | Done(event: Event)
    | Unreachable             // raised: the remote does not answer
    | AuditFailed             // raised: the audit event could not be written

  /** One check of the lease: whether to go on, and the result if not. */
  datatype Checked = GoOn | Stop(result: Result)

  /** `checked_lock_outcome`. */
  function Check(inspected: Lock, current: Lock, now: int): (c: Checked)
    requires inspected.Lock?
    ensures c.GoOn? <==>
            && current.Lock? && current.owner == inspected.owner && current.token == inspected.token
            && current.heartbeat == inspected.heartbeat && current.expires <= now
    ensures c.Stop? ==> c.result == Refused || c.result == Changed
  {
    if current.NoLock? || current.owner != inspected.owner || current.token != inspected.token then Stop(Changed)
    else if current.heartbeat != inspected.heartbeat then Stop(Refused)
    else if current.expires > now then Stop(Refused)
    else GoOn
  }

  /** The lock is the same lease as before, and was not renewed. */
  ghost predicate StillUnrenewed(a: View, b: View, token: Token) {
    b.lock == a.lock && Renewals(b, token) == Renewals(a, token)
  }

  /** The lease was not renewed, replaced or released, as far as a reader can tell. */
  predicate Unchanged(inspected: Lock, current: Lock)
    requires inspected.Lock?
  {
    current.Lock? && current.token == inspected.token && current.heartbeat == inspected.heartbeat
  }

  function Split(rows: map<JobId, Row>): map<JobId, Row> { map j <- rows :: SplitRow(rows[j]) }

  /** Every claim of the stopped runner was split, and no other row was touched. */
  ghost predicate AllRecovered(before: map<JobId, Row>, after: map<JobId, Row>) {
    after.Keys == before.Keys && forall j <- before :: Recovered(before[j], after[j])
  }

  class Queue {
    var now: int
    var lock: Lock
    var rows: map<JobId, Row>
    var used: set<Token>              // every token ever issued; they are unique
    var events: seq<Event>            // audit events of this command
    ghost var renewals: map<Token, nat>
    ghost var clears: seq<Lock>       // leases cleared by this command

    ghost function Here(): View
      reads this
    {
      View(now, lock, used, renewals)
    }

    constructor (now: int, lock: Lock, rows: map<JobId, Row>, used: set<Token>)
      requires ViewOk(View(now, lock, used, map[]))
      ensures Here() == View(now, lock, used, map[]) && this.rows == rows && events == [] && clears == []
    {
      this.now, this.lock, this.rows, this.used := now, lock, rows, used;
      events, renewals, clears := [], map[], [];
    }

    /** One step of another process, or of the clock. */
    method OneStep()
      requires ViewOk(Here())
      modifies `now, `lock, `rows, `used, `renewals
      ensures ViewOk(Here()) && Step(old(Here()), Here())
    {
      var tick: int, renews: bool, releases: bool, takes: bool, moves: bool := *, *, *, *, *;
      if renews && lock.Lock? {
        var minutes: int := *;
        ghost var renewed := Renewed(Here(), minutes);
        lock := lock.(heartbeat := now, expires := now + 60 * AtLeastOne(minutes));
        renewals := renewals[lock.token := Renewals(Here(), lock.token) + 1];
        assert Here() == renewed;
      } else if releases {
        lock := NoLock;
      } else if takes {
        var owner: string, token: Token, minutes: int := *, *, *;
        ghost var before := Here();
        if token !in used {
          lock, used := Lock(owner, token, now, now + 60 * AtLeastOne(minutes)), used + {token};
          assert Here() == Taken(before, owner, token, minutes);
        }
      } else if moves {
        rows := *;
      } else {
        ghost var before := Here();
        now := now + AtLeastOne(tick);
        assert Here() == Ticked(before, tick);
      }
    }

    /** Any number of steps of other processes and of the clock. */
    method Others()
      requires ViewOk(Here())
      modifies `now, `lock, `rows, `used, `renewals
      ensures ViewOk(Here()) && Later(old(Here()), Here())
    {
      var steps: int := *;
      for i := 0 to AtLeastOne(steps)
        invariant ViewOk(Here()) && Later(old(Here()), Here())
      {
        ghost var before := Here();
        OneStep();
        StepIsLater(before, Here());
        LaterIsTransitive(old(Here()), before, Here());
      }
    }

    /** A second passes. */
    method Tick()
      requires ViewOk(Here())
      modifies `now
      ensures now == old(now) + 1 && Here() == Ticked(old(Here()), 1)
      ensures ViewOk(Here()) && Later(old(Here()), Here())
    {
      ghost var before := Here();
      now := now + 1;
      assert Here() == Ticked(before, 1);
      StepIsLater(before, Here());
    }

    /** `_lock_after_heartbeat`: polls until the lease changes or a heartbeat interval and the
        margin have passed. Five polls take a second. */
    method LockAfterHeartbeat(inspected: Lock, heartbeat: nat) returns (current: Lock)
      requires ViewOk(Here()) && inspected.Lock?
      modifies `now, `lock, `rows, `used, `renewals
      ensures ViewOk(Here()) && Later(old(Here()), Here())
      ensures current == if Unchanged(inspected, lock) then inspected else lock
      ensures Unchanged(inspected, lock) ==> old(now) + heartbeat + RENEWAL_MARGIN <= now
    {
      var deadline := now + heartbeat + RENEWAL_MARGIN;
      var polls := 0;
      while now < deadline
        invariant ViewOk(Here()) && Later(old(Here()), Here())
        invariant 0 <= polls < 5 && (now >= deadline ==> Unchanged(inspected, lock))
        decreases deadline - now, 5 - polls
      {
        ghost var before := Here();
        Others();
        LaterIsTransitive(old(Here()), before, Here());
        if !Unchanged(inspected, lock) { return lock; }
        if polls < 4 {
          polls := polls + 1;
        } else {
          ghost var polled := Here();
          Tick();
          LaterIsTransitive(old(Here()), polled, Here());
          polls := 0;
        }
      }
      return inspected;
    }

    /** `force_clear_lock_and_split` with its audit event, in one transaction: all or nothing. */
    method ClearAndAudit(inspected: Lock, unrenewed: bool, event: Event, audited: bool) returns (r: Result)
      requires inspected.Lock?
      modifies `lock, `rows, `events, `clears
      ensures r.Done? <==>
        audited && SameOwner(inspected, old(lock)) && (unrenewed ==> old(lock).heartbeat == inspected.heartbeat)
      ensures r == Changed <==>
        !(SameOwner(inspected, old(lock)) && (unrenewed ==> old(lock).heartbeat == inspected.heartbeat))
      ensures r.Done? ==>
        && r.event == event && lock == NoLock && AllRecovered(old(rows), rows)
        && events == old(events) + [event] && clears == old(clears) + [old(lock)]
      ensures !r.Done? ==> lock == old(lock) && rows == old(rows) && events == old(events) && clears == old(clears)
      ensures r.Done? || r == Changed || r == AuditFailed
    {
      if lock.NoLock? || lock.owner != inspected.owner || lock.token != inspected.token
         || (unrenewed && lock.heartbeat != inspected.heartbeat) { return Changed; }
      if !audited { return AuditFailed; }   // the transaction rolls back
      clears := clears + [lock];
      lock, rows, events := NoLock, Split(rows), events + [event];
      r := Done(event);
    }

    /** `force_unlock` of a lock whose owner was inspected as `liveness`; whether the remote
        answers and the audit event can be written are the world's. `first` is the inspection,
        `watched` the moment the watch of the expired lease began and `seen` the one it ended,
        and `cleared` the moment of the clearing transaction. */
    method ForceUnlock(force: bool, liveness: Liveness, heartbeat: nat, reachable: bool, audited: bool)
      returns (r: Result, ghost first: View, ghost watched: View, ghost seen: View, ghost cleared: View)
      requires ViewOk(Here())
      modifies this
      ensures ViewOk(first) && first == old(Here())
      ensures r.Done? <==> audited && MayClear(force, liveness, reachable, first, watched, seen, cleared)
      ensures r == AuditFailed <==> !audited && MayClear(force, liveness, reachable, first, watched, seen, cleared)
      ensures r == Unreachable <==> !reachable && MayProbe(force, liveness, first, watched, seen)
      ensures r.Done? ==> events == old(events) + [r.event] && clears == old(clears) + [cleared.lock] && lock == NoLock
      ensures !r.Done? ==> events == old(events) && clears == old(clears)
      // a dead owner's lock may be cleared at any time, any other only by force
      ensures r.Done? && liveness != Dead ==> force && ForcedClear(first, watched, cleared, heartbeat)
      ensures r.Done? ==> first.lock.Lock? && SameOwner(first.lock, cleared.lock)
      ensures r.Done? ==> r.event == if liveness == Dead then Cleared(first.lock.owner) else Forced(first.lock.owner)
      ensures old(lock).NoLock? <==> r == NothingToClear
      ensures old(lock).Lock? && liveness != Dead && !force ==> r == Refused
    {
      first, watched, seen, cleared := Here(), Here(), Here(), Here();
      var inspected := lock;
      if inspected.NoLock? { return NothingToClear, first, watched, seen, cleared; }
      Others();
      watched := Here();
      if liveness == Dead {
        cleared := Here();
        r := ClearAndAudit(inspected, false, Cleared(inspected.owner), audited);
        return;
      }
      if !force { return Refused, first, watched, seen, cleared; }
      var checked := Check(inspected, inspected, now);
      if checked.Stop? { return checked.result, first, watched, seen, cleared; }
      var current := LockAfterHeartbeat(inspected, heartbeat);
      seen := Here();
      LookedUnrenewed(first, watched, seen, current);
      checked := Check(inspected, current, now);
      if checked.Stop? { return checked.result, first, watched, seen, cleared; }
      Others();
      LaterIsTransitive(watched, seen, Here());
      if !reachable { return Unreachable, first, watched, seen, cleared; }
      cleared := Here();
      checked := Check(inspected, lock, now);
      if checked.Stop? { return checked.result, first, watched, seen, cleared; }
      ExpiredAndUnchangedIsUnrenewed(first, watched, cleared);
      r := ClearAndAudit(inspected, true, Forced(inspected.owner), audited);
    }
  }

  /** The lease is the inspected one, shows no renewal, and has expired. */
  predicate Passes(inspected: Lock, v: View)
    requires inspected.Lock?
  {
    SameOwner(inspected, v.lock) && v.lock.heartbeat == inspected.heartbeat && v.lock.expires <= v.now
  }

  /** Whether a forced unlock gets as far as to ask the remote: the inspected lease had expired
      when the watch began, and shows no renewal when it ends. */
  predicate MayProbe(force: bool, liveness: Liveness, first: View, watched: View, seen: View) {
    && first.lock.Lock? && liveness != Dead && force && first.lock.expires <= watched.now
    && Unchanged(first.lock, seen.lock)
  }

  /** Whether the lock is cleared, if the event can be written: a dead owner's when the inspected
      lease still holds it, any other when it may ask the remote, which answers, and the lease
      passes after that. */
  predicate MayClear(force: bool, liveness: Liveness, reachable: bool, first: View, watched: View, seen: View,
                     cleared: View) {
    if first.lock.Lock? && liveness == Dead then SameOwner(first.lock, cleared.lock)
    else MayProbe(force, liveness, first, watched, seen) && reachable && Passes(first.lock, cleared)
  }

  /** What the watch returned passes exactly when the lease shows no renewal. */
  lemma LookedUnrenewed(first: View, watched: View, seen: View, current: Lock)
    requires ViewOk(first) && Later(first, watched) && Later(watched, seen) && first.lock.Lock?
    requires first.lock.expires <= watched.now
    requires current == if Unchanged(first.lock, seen.lock) then first.lock else seen.lock
    ensures Check(first.lock, current, seen.now).GoOn? <==> Unchanged(first.lock, seen.lock)
  {
  }

  predicate SameOwner(a: Lock, b: Lock)
    requires a.Lock?
  {
    b.Lock? && b.token == a.token && b.owner == a.owner
  }

  /** A forced clear takes exactly the inspected lease, which had expired when the watch began,
      shows the inspected heartbeat after a whole heartbeat interval and the margin, and is
      expired in the clearing transaction. */
  ghost predicate ForcedClear(first: View, watched: View, cleared: View, heartbeat: nat) {
    && first.lock.Lock? && cleared.lock.Lock?
    && cleared.lock.token == first.lock.token && cleared.lock.owner == first.lock.owner
    && cleared.lock.heartbeat == first.lock.heartbeat
    && first.lock.expires <= watched.now && cleared.lock.expires <= cleared.now
    && watched.now + heartbeat + RENEWAL_MARGIN <= cleared.now
    && Later(first, watched) && Later(watched, cleared)
  }

  /** The moment both leases have expired. */
  function BothExpired(a: Lock, b: Lock): int
    requires a.Lock? && b.Lock?
  {
    if a.expires < b.expires then b.expires else a.expires
  }

  /** The holder renews its lease at once and then never again, and both leases expire. */
  function RenewedAndLeft(first: View): View
    requires first.lock.Lock?
  {
    var renewed := Renewed(first, 1);
    Ticked(renewed, BothExpired(first.lock, renewed.lock) - renewed.now)
  }

  /** A forced clear of a lease that was inspected in the second of its last heartbeat may be
      of a lease renewed since: it is renewed once more in that second, then no more. */
  lemma RenewalInTheInspectedSecondIsMissed(first: View, heartbeat: nat)
    requires ViewOk(first) && first.lock.Lock? && first.lock.heartbeat == first.now
    ensures
      var left := RenewedAndLeft(first);
      var late := Ticked(left, heartbeat + RENEWAL_MARGIN);
      && Step(first, Renewed(first, 1)) && Step(Renewed(first, 1), left) && Step(left, late)
      && ForcedClear(first, left, late, heartbeat)
      && Renewals(late, first.lock.token) != Renewals(first, first.lock.token)
  {
    var renewed, left := Renewed(first, 1), RenewedAndLeft(first);
    StepIsLater(first, renewed);
    StepIsLater(renewed, left);
    LaterIsTransitive(first, renewed, left);
    StepIsLater(left, Ticked(left, heartbeat + RENEWAL_MARGIN));
  }

  /** A concrete one: the lease is inspected and renewed in second 0, and heartbeats are due
      every ten seconds. */
  lemma RenewedLeaseIsCleared()
    ensures
      var lease := Lock("owner", "token", 0, 60);
      var first := View(0, lease, {"token"}, map[]);
      var watched := View(60, lease, {"token"}, map["token" := 1]);
      var cleared := watched.(now := 75);
      && ViewOk(first) && Step(first, Renewed(first, 1)) && Step(Renewed(first, 1), watched)
      && Step(watched, cleared) && ForcedClear(first, watched, cleared, 10) && Renewals(first, "token") == 0
  {
    var first := View(0, Lock("owner", "token", 0, 60), {"token"}, map[]);
    RenewalInTheInspectedSecondIsMissed(first, 10);
    assert RenewedAndLeft(first) == View(60, first.lock, {"token"}, map["token" := 1]);
  }

  ghost predicate ClearedUnrenewed(first: View, watched: View, cleared: View, heartbeat: nat) {
    ForcedClear(first, watched, cleared, heartbeat) ==> StillUnrenewed(first, cleared, first.lock.token)
  }

  /** Forced clears are of leases not renewed since the inspection if and only if the inspected
      heartbeat was of an earlier second. */
  lemma ForcedClearsAreUnrenewedExactlyWhen(first: View, heartbeat: nat)
    requires ViewOk(first) && first.lock.Lock?
    ensures (forall watched, cleared :: ClearedUnrenewed(first, watched, cleared, heartbeat))
       <==> first.lock.heartbeat < first.now
  {
    if first.lock.heartbeat == first.now {
      var left := RenewedAndLeft(first);
      RenewalInTheInspectedSecondIsMissed(first, heartbeat);
      assert !ClearedUnrenewed(first, left, Ticked(left, heartbeat + RENEWAL_MARGIN), heartbeat);
    } else {
      forall watched, cleared | ForcedClear(first, watched, cleared, heartbeat)
        ensures ClearedUnrenewed(first, watched, cleared, heartbeat)
      {
        ExpiredAndUnchangedIsUnrenewed(first, watched, cleared);
      }
    }
  }

  /** The command on a queue of its own, so that its whole effect is seen: a clear and its
      audit event come together or not at all; a dead owner's lock is cleared whenever the
      inspected lease still holds it, and any other exactly when it is forced, expired before
      the watch, unrenewed at its end, and unrenewed and expired after the remote answered. */
  method UnlockOnce(now: int, lock: Lock, rows: map<JobId, Row>, used: set<Token>, force: bool, liveness: Liveness,
                    heartbeat: nat, reachable: bool, audited: bool)
    returns (r: Result, events: seq<Event>, after: Lock,
             ghost cleared: seq<Lock>, ghost watched: View, ghost seen: View, ghost at: View)
    requires ViewOk(View(now, lock, used, map[]))
    ensures |events| == |cleared| <= 1
    ensures r.Done? <==>
      audited && MayClear(force, liveness, reachable, View(now, lock, used, map[]), watched, seen, at)
    ensures r.Done? <==> |cleared| == 1
    ensures r.Done? ==> after == NoLock && lock.Lock? && SameOwner(lock, cleared[0])
    ensures r.Done? ==> events == [if liveness == Dead then Cleared(lock.owner) else Forced(lock.owner)]
    ensures r.Done? && liveness != Dead ==>
      && force && cleared == [at.lock] && ForcedClear(View(now, lock, used, map[]), watched, at, heartbeat)
      && StillUnrenewed(watched, at, lock.token)
    ensures r.Done? && !force ==> liveness == Dead
    ensures r.Done? && liveness != Dead && lock.heartbeat < now ==> cleared == [lock]
    ensures lock.NoLock? <==> r == NothingToClear
  {
    var queue := new Queue(now, lock, rows, used);
    ghost var first;
    r, first, watched, seen, at := queue.ForceUnlock(force, liveness, heartbeat, reachable, audited);
    if r.Done? && liveness != Dead { ExpiredAndUnchangedIsUnrenewed(first, watched, at); }
    events, after, cleared := queue.events, queue.lock, queue.clears;
  }
}
