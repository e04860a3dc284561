/** What a room lease excludes, what it permits, and what presence marks write. */
module RoomLeases {
  import opened Outcomes
  import opened RoomTables
  import opened RoomLog
  import opened RoomGuarantees

  /* ---------- One call ---------- */

  /** The row still belongs to this holder under this token. */
  predicate HeldBy(t: Tables, instance: string, token: nat) {
    t.lease.Some? && t.lease.value.instance == instance && t.lease.value.token == token
  }

  /**
   * A lease is handed out exactly when there is none, or the room is the same game's and the asker is
   * the holder or the lease has ended. Only a holder whose lease is still running keeps the token;
   * everyone else gets the next one, and nothing the log explains changes.
   */
  lemma AcquireExactly(t: Tables, owner: string, game: string, duration: int, now: int)
    ensures var o := Acquire(t, owner, game, duration, now);
      && (o.reply.Ok? <==>
            || t.lease.None?
            || (t.lease.value.game == game && (t.lease.value.instance == owner || t.lease.value.until <= now)))
      && (o.reply.Err? ==> o == Outcome(t, Err(LeaseUnavailable)))
      && (o.reply.Ok? ==>
            var running := t.lease.Some? && t.lease.value.until > now;
            var token := if t.lease.None? then 1 else if running then t.lease.value.token else t.lease.value.token + 1;
            && o.reply.value == Lease(owner, game, token, now + duration)
            && o.tables.lease == Some(o.reply.value)
            && LogFrame(t, o.tables) && o.tables.events == t.events
            && (t.lease.None? || running ==> o.tables == t.(lease := o.tables.lease)))
  {
  }

  /** When the lease changes hands, the guarded rows follow the new token and the room counts as offline since the old lease ended. */
  lemma TakeoverExactly(t: Tables, owner: string, game: string, duration: int, now: int)
    requires t.lease.Some? && t.lease.value.until <= now && t.lease.value.game == game
    ensures var o, ended := Acquire(t, owner, game, duration, now), t.lease.value.until;
      && HeldBy(o.tables, owner, t.lease.value.token + 1)
      && (t.checkpoint.Some? ==> o.tables.checkpoint == Some(t.checkpoint.value.(token := t.lease.value.token + 1)))
      && (t.presence.None? ==> o.tables.presence.None?)
      && (t.presence.Some? ==>
            && o.tables.presence.Some? && o.tables.presence.value.token == t.lease.value.token + 1
            && o.tables.presence.value.game == t.presence.value.game
            && o.tables.presence.value.allOfflineAt
               == (if t.presence.value.allOfflineAt.Some? then t.presence.value.allOfflineAt else Some(ended))
            && o.tables.presence.value.abortDeadlineAt
               == (if t.presence.value.abortDeadlineAt.Some? then t.presence.value.abortDeadlineAt else Some(ended + 120_000)))
  {
  }

  /** A running lease is renewed and given up by its holder; a lease that has ended can do nothing, even under the current token. */
  lemma RenewAndReleaseExactly(t: Tables, l: Lease, duration: int, now: int)
    requires t.lease.Some? && t.lease.value.game == l.game
    ensures var o := Renew(t, l, duration, now);
      if HeldBy(t, l.instance, l.token) && t.lease.value.until > now then
        o == Outcome(t.(lease := Some(Lease(l.instance, l.game, l.token, now + duration))),
                     Ok(Lease(l.instance, l.game, l.token, now + duration)))
      else o == Outcome(t, Err(LeaseUnavailable))
    ensures var o := Release(t, l, now);
      if HeldBy(t, l.instance, l.token) && t.lease.value.until > now then
        o == Outcome(t.(lease := Some(Lease(l.instance, l.game, l.token, now))), Ok(true))
      else o == Outcome(t, Ok(false))
  {
  }

  /** Every use of a lease at `now`. */
  ghost predicate PowerlessAt<S(!new)>(rules: Rules<S>, t: Tables, l: Lease, now: int) {
    && (forall duration :: Renew(t, l, duration, now) == Failed<Lease>(t, LeaseUnavailable))
    && Release(t, l, now) == Outcome(t, Ok(false))
    && (forall version, state ::
          var o := Initialize(VersionOf(rules), t, l, version, state, now); o.tables == t && o.reply.Err?)
    && (forall expected, version, state ::
          var o := Save(VersionOf(rules), t, l, expected, version, state, now); o.tables == t && o.reply.Err?)
    && Load(VersionOf(rules), t, l, now) == Err(LeaseUnavailable)
    && (forall player, command :: FindReplay(rules.collation, t, l, player, command, now) == Err(LeaseUnavailable))
    && (forall v :: var o := CommitCommand(rules.collation, VersionOf(rules), t, l, v, now); o.tables == t && o.reply.Err?)
    && MarkConnected(t, l, now) == Failed<Option<int>>(t, LeaseUnavailable)
    && MarkAllOffline(t, l, now) == Failed<int>(t, LeaseUnavailable)
  }

  /** From the instant the row names on, no lease works until the room is acquired or renewed again. */
  lemma EndedIsPowerless<S(!new)>(rules: Rules<S>, t: Tables, l: Lease, now: int)
    requires t.lease.Some? && t.lease.value.until <= now
    ensures PowerlessAt(rules, t, l, now)
  {
    assert !Owned(t, l, now);
  }

  /* ---------- Whole runs ---------- */

  /** A step that asks for the room while the lease it finds is running, or does not ask at all. */
  predicate Early<S>(sys: System<S>, step: Step<S>) {
    step.DoAcquire? && sys.tables.lease.Some? ==> step.now < sys.tables.lease.value.until
  }

  predicate EarlyUnlessBy<S>(sys: System<S>, step: Step<S>, instance: string) {
    (step.DoAcquire? && step.owner == instance) || Early(sys, step)
  }

  lemma CommitKeepsLease<S>(rules: Rules<S>, sys: System<S>, id: nat, now: int, d: Delivery)
    requires id in sys.handlers && sys.handlers[id].pending.Some?
    ensures Committing(rules, sys, id, now, d).tables.lease == sys.tables.lease
  {
  }

  lemma EarlyStepKeepsHolder<S(!new)>(rules: Rules<S>, sys: System<S>, step: Step<S>, instance: string, token: nat)
    requires HeldBy(sys.tables, instance, token) && EarlyUnlessBy(sys, step, instance)
    ensures var u := Do(rules, sys, step).tables;
      u.lease.Some? && u.lease.value.instance == instance && u.lease.value.token >= token
    ensures Early(sys, step) ==> HeldBy(Do(rules, sys, step).tables, instance, token)
    ensures Do(rules, sys, step).tables.lease.value.game == sys.tables.lease.value.game
  {
    match step
    case DoAcquire(owner, game, duration, now) => AcquireExactly(sys.tables, owner, game, duration, now);
    case DoCommit(id, now, d) =>
      if id in sys.handlers && sys.handlers[id].pending.Some? { CommitKeepsLease(rules, sys, id, now, d); }
    case DoRenew(l, duration, now) =>
    case DoRelease(l, now) =>
    case DoInitialize(id, l, s, now) =>
    case DoLoad(id, l, now) =>
    case DoSubmit(id, input, now) =>
    case DoCrash(id) =>
    case DoConnected(l, now) =>
    case DoAllOffline(l, now) =>
  }

  /** Wherever another instance asks for the room in the rest of a run, the lease it finds is still running. */
  ghost predicate OthersAskEarly<S(!new)>(rules: Rules<S>, sys: System<S>, more: seq<Step<S>>, instance: string) {
    forall k :: 0 <= k < |more| ==> EarlyUnlessBy(Continue(rules, sys, more[..k]), more[k], instance)
  }

  ghost predicate AllAskEarly<S(!new)>(rules: Rules<S>, sys: System<S>, more: seq<Step<S>>) {
    forall k :: 0 <= k < |more| ==> Early(Continue(rules, sys, more[..k]), more[k])
  }

  lemma {:induction false} HolderStays<S(!new)>(rules: Rules<S>, sys: System<S>, more: seq<Step<S>>, instance: string, token: nat)
    requires HeldBy(sys.tables, instance, token) && OthersAskEarly(rules, sys, more, instance)
    ensures var u := Continue(rules, sys, more).tables;
      && u.lease.Some? && u.lease.value.instance == instance && u.lease.value.token >= token
      && u.lease.value.game == sys.tables.lease.value.game
      && (AllAskEarly(rules, sys, more) ==> u.lease.value.token == token)
    decreases |more|
  {
    if more != [] {
      var init, step := more[..|more| - 1], more[|more| - 1];
      forall k | 0 <= k < |init|
        ensures EarlyUnlessBy(Continue(rules, sys, init[..k]), init[k], instance)
        ensures AllAskEarly(rules, sys, more) ==> Early(Continue(rules, sys, init[..k]), init[k])
      {
        assert init[..k] == more[..k] && init[k] == more[k];
      }
      HolderStays(rules, sys, init, instance, token);
      var before := Continue(rules, sys, init);
      assert EarlyUnlessBy(before, step, instance);
      EarlyStepKeepsHolder(rules, before, step, instance, before.tables.lease.value.token);
    }
  }

  /**
   * A running lease excludes everyone else: whatever steps follow, as long as every other instance
   * that asks finds the lease still running, the room stays with its holder; and as long as the holder
   * asks in time as well, it stays under the same token, so the old lease works exactly until the row says.
   */
  lemma LiveLeaseExcludes<S(!new)>(rules: Rules<S>, steps: seq<Step<S>>, more: seq<Step<S>>, l: Lease, now: int)
    requires Owned(Reach(rules, steps).tables, l, now)
    requires OthersAskEarly(rules, Reach(rules, steps), more, l.instance)
    ensures var t := Reach(rules, steps + more).tables;
      && t.lease.Some? && t.lease.value.instance == l.instance && t.lease.value.token >= l.token
      && (AllAskEarly(rules, Reach(rules, steps), more) ==>
            && t.lease.value.token == l.token
            && forall later :: Owned(t, l, later) <==> later < t.lease.value.until)
  {
    ContinueConcat(rules, Start(), steps, more);
    HolderStays(rules, Reach(rules, steps), more, l.instance, l.token);
  }

  /** And once it has ended anyone can take the room over, after which no older lease ever works again. */
  lemma EndedLeaseIsTaken<S(!new)>(
    rules: Rules<S>, steps: seq<Step<S>>, more: seq<Step<S>>, l: Lease, owner: string, duration: int, now: int)
    requires Lawful(rules) && l in Reach(rules, steps).granted
    requires var t := Reach(rules, steps).tables; t.lease.Some? && t.lease.value.until <= now
    ensures var taken := steps + [DoAcquire(owner, l.game, duration, now)];
      && Reach(rules, taken).tables.lease
         == Some(Lease(owner, l.game, Reach(rules, steps).tables.lease.value.token + 1, now + duration))
      && Powerless(rules, Reach(rules, taken + more).tables, l)
  {
    var sys, ask := Reach(rules, steps), DoAcquire(owner, l.game, duration, now);
    var taken := steps + [ask];
    ReachInvariant(rules, steps);
    assert SameRoom(sys.tables.lease.value, l);
    AcquireExactly(sys.tables, owner, l.game, duration, now);
    assert taken[..|taken| - 1] == steps;
    assert Reach(rules, taken) == Do(rules, sys, ask);
    SupersededForever(rules, taken, more, l);
  }

  /* ---------- Presence ---------- */

  /** A connection clears both instants and tells since when everybody was away. */
  lemma ConnectedExactly(t: Tables, l: Lease, now: int)
    requires Owned(t, l, now)
    ensures var o := MarkConnected(t, l, now);
      && o.reply == Ok(if t.presence.Some? then t.presence.value.allOfflineAt else None)
      && o.tables.presence.Some?
      && o.tables.presence.value.allOfflineAt.None? && o.tables.presence.value.abortDeadlineAt.None?
      && o.tables == t.(presence := o.tables.presence)
  {
  }

  /** The first mark sets the deadline two minutes ahead; a later one returns the deadline that stands. */
  lemma OfflineExactly(t: Tables, l: Lease, now: int)
    requires Owned(t, l, now) && WindowHolds(t)
    ensures var o := MarkAllOffline(t, l, now);
      var already := t.presence.Some? && t.presence.value.allOfflineAt.Some?;
      var since := if already then t.presence.value.allOfflineAt.value else now;
      if now + 120_000 > MAX_DATE_MS then o == Outcome(t, Err(DeadlineOverflow))
      else
        && o.reply == Ok(since + 120_000)
        && o.tables.presence.Some? && o.tables.presence.value.token == l.token
        && o.tables.presence.value.allOfflineAt == Some(since)
        && o.tables.presence.value.abortDeadlineAt == Some(since + 120_000)
        && o.tables == t.(presence := o.tables.presence)
  {
  }
}
