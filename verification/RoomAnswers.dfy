/** Exactly when a room's reads and commits succeed, in terms of the one log. */
module RoomAnswers {
  import opened Outcomes
  import opened RoomTables
  import opened RoomLog
  import opened RoomGuarantees
  import opened RoomEvents
  import opened RoomLeases

  /* ---------- The size and the version of what is stored ---------- */

  predicate Storable(state: Blob) {
    0 < |state| <= 1_048_576
  }

  ghost predicate Fits<S(!new)>(rules: Rules<S>, sys: System<S>) {
    sys.tables.checkpoint.Some? ==>
      sys.origin.Some? && 0 <= rules.version(sys.origin.value) <= MAX_SAFE_INTEGER && Storable(sys.tables.checkpoint.value.state)
  }

  lemma CommitFits<S(!new)>(rules: Rules<S>, sys: System<S>, id: nat, now: int, d: Delivery)
    requires Lawful(rules) && Refines(rules, sys) && Fits(rules, sys)
    requires id in sys.handlers && sys.handlers[id].pending.Some?
    ensures Fits(rules, Committing(rules, sys, id, now, d))
  {
    var o := Attempt(rules, sys, id, now);
    if !(d.RolledBack? || o.reply.Err? || o.reply.value.duplicate) {
      AcceptedIsNext(rules, sys, id, now);
      AcceptedSystem(rules, sys, id, now, d);
    }
  }

  lemma OthersFit<S(!new)>(rules: Rules<S>, sys: System<S>, step: Step<S>)
    requires Fits(rules, sys) && !step.DoCommit?
    ensures Fits(rules, Do(rules, sys, step))
  {
    match step
    case DoAcquire(owner, game, duration, now) =>
    case DoRenew(l, duration, now) =>
    case DoRelease(l, now) =>
    case DoInitialize(id, l, s, now) =>
    case DoLoad(id, l, now) =>
    case DoSubmit(id, input, now) =>
    case DoCrash(id) =>
    case DoConnected(l, now) =>
    case DoAllOffline(l, now) =>
  }

  lemma {:induction false} ReachFits<S(!new)>(rules: Rules<S>, steps: seq<Step<S>>)
    requires Lawful(rules)
    ensures Fits(rules, Reach(rules, steps))
    decreases |steps|
  {
    if steps != [] {
      var before, step := steps[..|steps| - 1], steps[|steps| - 1];
      ReachFits(rules, before);
      ReachInvariant(rules, before);
      var sys := Reach(rules, before);
      if step.DoCommit? {
        if step.id in sys.handlers && sys.handlers[step.id].pending.Some? {
          CommitFits(rules, sys, step.id, step.now, step.delivery);
        }
      } else {
        OthersFit(rules, sys, step);
      }
    }
  }

  /* ---------- Reading ---------- */

  /** The lease row names this holder and token, and has not ended. */
  predicate Running(t: Tables, l: Lease, now: int) {
    HeldBy(t, l.instance, l.token) && now < t.lease.value.until
  }

  lemma RunningIsOwned<S(!new)>(sys: System<S>, l: Lease, now: int)
    requires Fenced(sys) && l in sys.granted
    ensures Owned(sys.tables, l, now) <==> Running(sys.tables, l, now)
  {
    assert sys.tables.lease.Some? ==> SameRoom(sys.tables.lease.value, l);
  }

  /** The stored state passes every check of a load as long as its version is a safe integer. */
  lemma NewestIsReadable<S(!new)>(rules: Rules<S>, sys: System<S>)
    requires Lawful(rules) && Refines(rules, sys) && Fits(rules, sys) && sys.tables.checkpoint.Some?
    ensures var c, version := sys.tables.checkpoint.value, rules.version(sys.origin.value) + |sys.log|;
      && rules.parse(c.state) == Fold(rules, sys.origin.value, sys.log) && c.version == version
      && (Readable(VersionOf(rules), c) <==> version <= MAX_SAFE_INTEGER)
  {
    assert sys.log[..|sys.log|] == sys.log;
    FoldPrefix(rules, sys.origin.value, sys.log, |sys.log|);
  }

  /** Under a running lease the compare-and-swap is a test of the version alone. */
  lemma CurrentIffNewest<S(!new)>(sys: System<S>, l: Lease, expected: int, now: int)
    requires Fenced(sys) && l in sys.granted && Running(sys.tables, l, now)
    ensures Current(sys.tables, l, expected)
      <==> sys.tables.checkpoint.Some? && sys.tables.checkpoint.value.version == expected
  {
    assert SameRoom(sys.tables.lease.value, l);
  }

  /**
   * The holder of a running lease always loads the newest state, the fold of the whole log, unless the
   * version has left the safe integers; anyone else is refused.
   */
  lemma LoadExactly<S(!new)>(rules: Rules<S>, steps: seq<Step<S>>, l: Lease, now: int)
    requires Lawful(rules) && l in Reach(rules, steps).granted
    ensures var sys := Reach(rules, steps);
      var r := Load(VersionOf(rules), sys.tables, l, now);
      if !Running(sys.tables, l, now) then r == Err(LeaseUnavailable)
      else if sys.tables.checkpoint.None? then r == Ok(None)
      else
        && sys.origin.Some?
        && if rules.version(sys.origin.value) + |sys.log| > MAX_SAFE_INTEGER then r == Err(CorruptCheckpoint)
           else r.Ok? && r.value.Some? && rules.parse(r.value.value.state) == Fold(rules, sys.origin.value, sys.log)
                && r.value.value.version == rules.version(sys.origin.value) + |sys.log|
  {
    ReachInvariant(rules, steps);
    ReachFits(rules, steps);
    var sys := Reach(rules, steps);
    RunningIsOwned(sys, l, now);
    if sys.tables.checkpoint.Some? {
      NewestIsReadable(rules, sys);
      if Running(sys.tables, l, now) {
        CurrentIffNewest(sys, l, sys.tables.checkpoint.value.version, now);
      }
    }
  }

  ghost predicate Logged(log: seq<Entry>, key: CommandKey) {
    exists i :: 0 <= i < |log| && Key(log[i]) == key
  }

  /** A key is in the command table exactly when its command is in the log. */
  lemma StoredIffLogged<S(!new)>(rules: Rules<S>, sys: System<S>, key: CommandKey)
    requires Refines(rules, sys)
    ensures key in sys.tables.commands <==> Logged(sys.log, key)
  {
    if sys.tables.checkpoint.Some? {
      assert RowsMatch(rules, rules.version(sys.origin.value), sys.log, sys.tables.commands);
    }
  }

  /** A request is new to the holder of a running lease exactly when the log does not have it. */
  lemma NewRequestExactly<S(!new)>(rules: Rules<S>, steps: seq<Step<S>>, l: Lease, player: string, command: Command, now: int)
    requires Lawful(rules) && l in Reach(rules, steps).granted
    ensures var sys := Reach(rules, steps);
      FindReplay(rules.collation, sys.tables, l, player, command, now) == Ok(None)
      <==> Running(sys.tables, l, now) && !Logged(sys.log, CommandKey(player, command.requestId))
  {
    ReachInvariant(rules, steps);
    var sys := Reach(rules, steps);
    RunningIsOwned(sys, l, now);
    StoredIffLogged(rules, sys, CommandKey(player, command.requestId));
  }

  /** A room is set up exactly once, by the holder of a running lease, with a state that can be stored. */
  lemma InitializeExactly<S(!new)>(rules: Rules<S>, steps: seq<Step<S>>, l: Lease, s: S, now: int)
    requires Lawful(rules) && l in Reach(rules, steps).granted
    ensures var t := Reach(rules, steps).tables;
      var o := Initialize(VersionOf(rules), t, l, rules.version(s), rules.serialize(s), now);
      && (o.reply.Ok? <==>
            && Running(t, l, now) && t.checkpoint.None?
            && 0 <= rules.version(s) <= MAX_SAFE_INTEGER && Storable(rules.serialize(s)))
      && (o.reply.Ok? ==>
            o.tables == t.(checkpoint := Some(Checkpoint(l.game, l.token, rules.version(s), rules.serialize(s), rules.serialize(s)))))
      && (o.reply.Err? ==> o.tables == t)
  {
    ReachInvariant(rules, steps);
    RunningIsOwned(Reach(rules, steps), l, now);
  }

  /* ---------- Committing ---------- */

  /** The ids a command would announce are told apart, and no earlier command of the log announced one of them. */
  ghost predicate NewIds<S(!new)>(rules: Rules<S>, log: seq<Entry>, requestId: string, count: nat) {
    && (forall m, n :: 0 <= m < n < count ==> rules.eventId(requestId, m) != rules.eventId(requestId, n))
    && (forall n, i :: 0 <= n < count && 0 <= i < |log| ==> rules.eventId(requestId, n) !in Ids(log[i]))
  }

  lemma InsertableIffNew<S(!new)>(rules: Rules<S>, sys: System<S>, x: S, p: Pending<S>)
    requires Lawful(rules) && EventsHold(rules, sys) && Prepare(rules, x, p.input) == Some(p)
    ensures rules.transition(x, p.input).Some?
    ensures EventsInsertable(sys.tables.events, p.commit.events)
      <==> NewIds(rules, sys.log, p.input.command.requestId, |rules.transition(x, p.input).value.payloads|)
  {
    AcknowledgedIds(rules, x, p);
    var events, log, id := sys.tables.events, sys.log, p.input.command.requestId;
    var count := |rules.transition(x, p.input).value.payloads|;
    assert forall n :: 0 <= n < count ==> p.commit.events[n].id == rules.eventId(id, n);
    assert forall n :: 0 <= n < count ==>
      (rules.eventId(id, n) in events <==> exists i :: 0 <= i < |log| && rules.eventId(id, n) in Ids(log[i]));
  }

  lemma PreparedCommit<S(!new)>(rules: Rules<S>, x: S, p: Pending<S>)
    requires Lawful(rules) && Prepare(rules, x, p.input) == Some(p)
    ensures FinalizationMatches(p.commit) && KeyOf(p.commit) == CommandKey(p.input.player, p.input.command.requestId)
    ensures p.commit.command == p.input.command && p.commit.version == rules.version(x) + 1
    ensures p.commit.state == rules.serialize(p.next) && p.commit.verdict == rules.verdict(p.next)
    ensures ResultConsistent(p.commit) <==> p.input.command.expectedVersion == rules.version(x)
    ensures ValidSnapshot(VersionOf(rules), p.commit.state, p.commit.version) <==> Storable(rules.serialize(p.next))
  {
  }

  /** What a prepared command meets when it is committed. */
  ghost predicate Committable<S(!new)>(rules: Rules<S>, sys: System<S>, h: Handler<S>, now: int)
    requires h.pending.Some?
  {
    var p := h.pending.value;
    var effect := rules.transition(h.state, p.input);
    && Running(sys.tables, h.lease, now)
    && !Logged(sys.log, CommandKey(p.input.player, p.input.command.requestId))
    && sys.tables.checkpoint.Some? && sys.tables.checkpoint.value.version == rules.version(h.state)
    && p.input.command.expectedVersion == rules.version(h.state)
    && Storable(rules.serialize(p.next))
    && effect.Some? && NewIds(rules, sys.log, p.input.command.requestId, |effect.value.payloads|)
    && (rules.verdict(p.next).Some? ==> sys.tables.proof.None?)
  }

  lemma AcceptsIffCommittable<S(!new)>(rules: Rules<S>, sys: System<S>, h: Handler<S>, now: int)
    requires Lawful(rules) && Fenced(sys) && Refines(rules, sys) && EventsHold(rules, sys)
    requires h.lease in sys.granted && h.pending.Some? && Prepare(rules, h.state, h.pending.value.input) == h.pending
    ensures Accepts(VersionOf(rules), sys.tables, h.lease, h.pending.value.commit, now) <==> Committable(rules, sys, h, now)
  {
    var p := h.pending.value;
    PreparedCommit(rules, h.state, p);
    InsertableIffNew(rules, sys, h.state, p);
    RunningIsOwned(sys, h.lease, now);
    StoredIffLogged(rules, sys, KeyOf(p.commit));
    if Running(sys.tables, h.lease, now) {
      CurrentIffNewest(sys, h.lease, p.input.command.expectedVersion, now);
    }
  }

  /**
   * A handler's commit goes through exactly when its lease is running, its memory is the newest state,
   * the command was made for that state and is not in the log, its successor can be stored, its
   * event ids are new, and the game has no verdict yet if this one ends it.
   */
  lemma CommitSucceedsIff<S(!new)>(rules: Rules<S>, steps: seq<Step<S>>, id: nat, now: int)
    requires Lawful(rules)
    requires id in Reach(rules, steps).handlers && Reach(rules, steps).handlers[id].pending.Some?
    ensures var sys := Reach(rules, steps);
      var reply := Attempt(rules, sys, id, now).reply;
      (reply.Ok? && !reply.value.duplicate) <==> Committable(rules, sys, sys.handlers[id], now)
  {
    ReachInvariant(rules, steps);
    ReachEvents(rules, steps);
    var sys := Reach(rules, steps);
    var h := sys.handlers[id];
    assert Historical(rules, sys.origin.value, sys.log, h);
    AcceptsIffCommittable(rules, sys, h, now);
    CommitExactly(rules.collation, VersionOf(rules), sys.tables, h.lease, h.pending.value.commit, now);
  }

  /** The log has this very command, up to what the hash tells apart. */
  ghost predicate CommittedBefore<S(!new)>(rules: Rules<S>, log: seq<Entry>, player: string, command: Command, a: Acknowledgement) {
    exists i :: 0 <= i < |log| && Key(log[i]) == CommandKey(player, command.requestId)
      && RequestHash(rules.collation, log[i].input.command) == RequestHash(rules.collation, command)
      && log[i].acknowledgement == a
  }

  lemma StoredAnswer<S(!new)>(rules: Rules<S>, sys: System<S>, player: string, command: Command, a: Acknowledgement)
    requires Refines(rules, sys)
    ensures var key := CommandKey(player, command.requestId);
      (key in sys.tables.commands && Replay(sys.tables.commands[key], RequestHash(rules.collation, command)) == Ok(a))
      <==> CommittedBefore(rules, sys.log, player, command, a)
  {
    if sys.tables.checkpoint.Some? {
      assert RowsMatch(rules, rules.version(sys.origin.value), sys.log, sys.tables.commands);
    }
  }

  /** A commit is answered as a duplicate exactly when the log has the command, with the acknowledgement it got then. */
  lemma DuplicateExactly<S(!new)>(rules: Rules<S>, steps: seq<Step<S>>, id: nat, now: int, a: Acknowledgement)
    requires Lawful(rules)
    requires id in Reach(rules, steps).handlers && Reach(rules, steps).handlers[id].pending.Some?
    ensures var sys := Reach(rules, steps);
      var h := sys.handlers[id];
      var p := h.pending.value;
      Attempt(rules, sys, id, now).reply == Ok(CommitReply(a, true)) <==>
        && Running(sys.tables, h.lease, now) && Storable(rules.serialize(p.next))
        && p.input.command.expectedVersion == rules.version(h.state)
        && CommittedBefore(rules, sys.log, p.input.player, p.input.command, a)
  {
    ReachInvariant(rules, steps);
    var sys := Reach(rules, steps);
    var h := sys.handlers[id];
    assert Historical(rules, sys.origin.value, sys.log, h);
    PreparedCommit(rules, h.state, h.pending.value);
    RunningIsOwned(sys, h.lease, now);
    StoredAnswer(rules, sys, h.pending.value.input.player, h.pending.value.input.command, a);
  }

  /* ---------- A handler's own steps ---------- */

  /** A handler that loads has the newest state in memory, and nothing in flight. */
  lemma LoadedIsNewest<S(!new)>(rules: Rules<S>, steps: seq<Step<S>>, id: nat, l: Lease, now: int)
    requires Lawful(rules) && l in Reach(rules, steps).granted && id !in Reach(rules, steps).handlers
    ensures var sys := Reach(rules, steps);
      var after := Do(rules, sys, DoLoad(id, l, now));
      if Running(sys.tables, l, now) && sys.tables.checkpoint.Some? && sys.origin.Some?
         && rules.version(sys.origin.value) + |sys.log| <= MAX_SAFE_INTEGER
      then
        && Fold(rules, sys.origin.value, sys.log).Some?
        && after == sys.(handlers := sys.handlers[id := Handler(l, Fold(rules, sys.origin.value, sys.log).value, None)])
      else after == sys
  {
    LoadExactly(rules, steps, l, now);
    ReachInvariant(rules, steps);
  }

  /** A submitted command is computed from the handler's memory exactly when the lease is running and the log does not have it. */
  lemma SubmittedIsPending<S(!new)>(rules: Rules<S>, steps: seq<Step<S>>, id: nat, input: Input, now: int)
    requires Lawful(rules) && id in Reach(rules, steps).handlers && Reach(rules, steps).handlers[id].pending.None?
    ensures var sys := Reach(rules, steps);
      var h, after := sys.handlers[id], Do(rules, sys, DoSubmit(id, input, now));
      && id in after.handlers && after == sys.(handlers := sys.handlers[id := h.(pending := after.handlers[id].pending)])
      && var effect, pending := rules.transition(h.state, input), after.handlers[id].pending;
      && (pending.Some? <==>
            && Running(sys.tables, h.lease, now) && !Logged(sys.log, CommandKey(input.player, input.command.requestId))
            && effect.Some?)
      && (pending.Some? ==> pending.value.input == input && pending.value.next == effect.value.state)
  {
    ReachInvariant(rules, steps);
    var sys := Reach(rules, steps);
    NewRequestExactly(rules, steps, sys.handlers[id].lease, input.player, input.command, now);
    SubmitCases(rules, sys, id, input, now);
  }

  lemma SubmitCases<S(!new)>(rules: Rules<S>, sys: System<S>, id: nat, input: Input, now: int)
    requires id in sys.handlers && sys.handlers[id].pending.None?
    ensures var h, after := sys.handlers[id], Submitting(rules, sys, id, input, now);
      && id in after.handlers && after == sys.(handlers := sys.handlers[id := h.(pending := after.handlers[id].pending)])
      && var effect, pending := rules.transition(h.state, input), after.handlers[id].pending;
      && (pending.Some? <==>
            FindReplay(rules.collation, sys.tables, h.lease, input.player, input.command, now) == Ok(None) && effect.Some?)
      && (pending.Some? ==> pending.value.input == input && pending.value.next == effect.value.state)
  {
    var h := sys.handlers[id];
    if FindReplay(rules.collation, sys.tables, h.lease, input.player, input.command, now) != Ok(None) {
      assert sys.handlers[id := h.(pending := h.pending)] == sys.handlers;
    }
  }

  /** The command is the next entry of the log, and the handler has its state if the reply arrived. */
  ghost predicate Entered<S(!new)>(rules: Rules<S>, sys: System<S>, after: System<S>, id: nat, d: Delivery)
    requires id in sys.handlers && sys.handlers[id].pending.Some?
  {
    var h := sys.handlers[id];
    var p := h.pending.value;
    && after.log == sys.log + [Entry(p.input, p.commit.acknowledgement)]
    && sys.origin.Some? && Fold(rules, sys.origin.value, after.log) == Some(p.next)
    && after.handlers == sys.handlers[id := Handler(h.lease, if d.Delivered? then p.next else h.state, None)]
  }

  /**
   * Exactly a committable command that is not rolled back enters the log. The handler then has the new
   * state if the reply reached it, and its old one if not; any other ending only drops what was pending.
   */
  lemma CommittedEntersTheLog<S(!new)>(rules: Rules<S>, steps: seq<Step<S>>, id: nat, now: int, d: Delivery)
    requires Lawful(rules)
    requires id in Reach(rules, steps).handlers && Reach(rules, steps).handlers[id].pending.Some?
    ensures var sys := Reach(rules, steps);
      var after := Committing(rules, sys, id, now, d);
      if Committable(rules, sys, sys.handlers[id], now) && !d.RolledBack? then Entered(rules, sys, after, id, d)
      else after == sys.(handlers := sys.handlers[id := sys.handlers[id].(pending := None)])
  {
    ReachInvariant(rules, steps);
    CommitSucceedsIff(rules, steps, id, now);
    CommitEndings(rules, Reach(rules, steps), id, now, d);
  }

  lemma CommitEndings<S(!new)>(rules: Rules<S>, sys: System<S>, id: nat, now: int, d: Delivery)
    requires Lawful(rules) && Refines(rules, sys) && id in sys.handlers && sys.handlers[id].pending.Some?
    ensures var o, after := Attempt(rules, sys, id, now), Committing(rules, sys, id, now, d);
      if o.reply.Ok? && !o.reply.value.duplicate && !d.RolledBack? then Entered(rules, sys, after, id, d)
      else after == sys.(handlers := sys.handlers[id := sys.handlers[id].(pending := None)])
  {
    var o := Attempt(rules, sys, id, now);
    if o.reply.Ok? && !o.reply.value.duplicate && !d.RolledBack? {
      AcceptedEnters(rules, sys, id, now, d);
    } else {
      RefusedDrops(rules, sys, id, now, d);
    }
  }

  lemma AcceptedEnters<S(!new)>(rules: Rules<S>, sys: System<S>, id: nat, now: int, d: Delivery)
    requires Lawful(rules) && Refines(rules, sys) && id in sys.handlers && sys.handlers[id].pending.Some?
    requires var o := Attempt(rules, sys, id, now); o.reply.Ok? && !o.reply.value.duplicate
    requires !d.RolledBack?
    ensures Entered(rules, sys, Committing(rules, sys, id, now, d), id, d)
  {
    var p := sys.handlers[id].pending.value;
    AcceptedIsNext(rules, sys, id, now);
    AcceptedSystem(rules, sys, id, now, d);
    FoldOneMore(rules, sys.origin.value, sys.log, sys.handlers[id].state, p, p.commit.acknowledgement);
  }

  lemma RefusedDrops<S(!new)>(rules: Rules<S>, sys: System<S>, id: nat, now: int, d: Delivery)
    requires id in sys.handlers && sys.handlers[id].pending.Some?
    requires var o := Attempt(rules, sys, id, now); d.RolledBack? || o.reply.Err? || o.reply.value.duplicate
    ensures Committing(rules, sys, id, now, d) == sys.(handlers := sys.handlers[id := sys.handlers[id].(pending := None)])
  {
  }

  /* ---------- The terminal proof ---------- */

  /** The verdict on the state after the first `k` entries. */
  ghost function VerdictAfter<S(!new)>(rules: Rules<S>, s: S, log: seq<Entry>, k: nat): Option<Verdict>
    requires k <= |log|
  {
    var x := Fold(rules, s, log[..k]);
    if x.Some? then rules.verdict(x.value) else None
  }

  ghost predicate ProofComplete<S(!new)>(rules: Rules<S>, s: S, log: seq<Entry>, proof: Option<Proof>) {
    forall k :: 0 < k <= |log| ==>
      (VerdictAfter(rules, s, log, k).Some? <==> proof.Some? && proof.value.version == rules.version(s) + k)
  }

  ghost predicate ProofsHold<S(!new)>(rules: Rules<S>, sys: System<S>) {
    sys.tables.checkpoint.Some? ==>
      && sys.origin.Some? && ProofComplete(rules, sys.origin.value, sys.log, sys.tables.proof)
      && (sys.tables.proof.Some? && sys.tables.lease.Some? ==> sys.tables.proof.value.game == sys.tables.lease.value.game)
  }

  lemma ProofCompleteOneMore<S(!new)>(rules: Rules<S>, s: S, log: seq<Entry>, x: S, p: Pending<S>, proof: Option<Proof>, after: Option<Proof>)
    requires Lawful(rules) && Fold(rules, s, log) == Some(x) && Prepare(rules, x, p.input) == Some(p)
    requires ProofSound(rules, s, log, proof) && ProofComplete(rules, s, log, proof)
    requires p.commit.verdict.Some? ==> proof.None? && after.Some? && after.value.version == rules.version(s) + |log| + 1
    requires p.commit.verdict.None? ==> after == proof
    ensures ProofComplete(rules, s, log + [Entry(p.input, p.commit.acknowledgement)], after)
  {
    var longer := log + [Entry(p.input, p.commit.acknowledgement)];
    FoldOneMore(rules, s, log, x, p, p.commit.acknowledgement);
    assert longer[..|longer|] == longer;
    assert rules.verdict(p.next) == p.commit.verdict;
    forall k | 0 < k <= |longer|
      ensures VerdictAfter(rules, s, longer, k).Some? <==> after.Some? && after.value.version == rules.version(s) + k
    {
      if k <= |log| {
        assert longer[..k] == log[..k];
        assert VerdictAfter(rules, s, longer, k) == VerdictAfter(rules, s, log, k);
      }
    }
  }

  lemma CommitKeepsProofs<S(!new)>(rules: Rules<S>, sys: System<S>, id: nat, now: int, d: Delivery)
    requires Lawful(rules) && Fenced(sys) && Refines(rules, sys) && ProofsHold(rules, sys)
    requires id in sys.handlers && sys.handlers[id].pending.Some?
    ensures ProofsHold(rules, Committing(rules, sys, id, now, d))
  {
    var o := Attempt(rules, sys, id, now);
    if !(d.RolledBack? || o.reply.Err? || o.reply.value.duplicate) {
      var h := sys.handlers[id];
      var p := h.pending.value;
      AcceptedIsNext(rules, sys, id, now);
      AcceptedSystem(rules, sys, id, now, d);
      assert sys.log[..|sys.log|] == sys.log;
      FoldPrefix(rules, sys.origin.value, sys.log, |sys.log|);
      ProofCompleteOneMore(rules, sys.origin.value, sys.log, h.state, p, sys.tables.proof,
                           Committed(rules.collation, sys.tables, h.lease, p.commit).proof);
    }
  }

  lemma OthersKeepProofs<S(!new)>(rules: Rules<S>, sys: System<S>, step: Step<S>)
    requires Lawful(rules) && Fenced(sys) && Refines(rules, sys) && ProofsHold(rules, sys) && !step.DoCommit?
    ensures ProofsHold(rules, Do(rules, sys, step))
  {
    if step.DoAcquire? || step.DoRenew? || step.DoRelease? {
      LeaseStepKeepsLog(rules, sys, step);
      LeaseStepKeepsGame(rules, sys, step);
      QuietKeepsProofs(rules, sys, Do(rules, sys, step));
    } else if step.DoCrash? || step.DoConnected? || step.DoAllOffline? {
      OtherStepKeepsLog(rules, sys, step);
      QuietKeepsProofs(rules, sys, Do(rules, sys, step));
    } else {
      HandlerStepsKeepProofs(rules, sys, step);
    }
  }

  lemma QuietKeepsProofs<S(!new)>(rules: Rules<S>, sys: System<S>, after: System<S>)
    requires Fenced(sys) && ProofsHold(rules, sys) && KeepsLog(sys, after)
    requires sys.tables.lease.Some? ==> after.tables.lease.Some? && after.tables.lease.value.game == sys.tables.lease.value.game
    ensures ProofsHold(rules, after)
  {
  }

  lemma LeaseStepKeepsGame<S(!new)>(rules: Rules<S>, sys: System<S>, step: Step<S>)
    requires step.DoAcquire? || step.DoRenew? || step.DoRelease?
    ensures var t, u := sys.tables, Do(rules, sys, step).tables;
      t.lease.Some? ==> u.lease.Some? && u.lease.value.game == t.lease.value.game
  {
  }

  lemma HandlerStepsKeepProofs<S(!new)>(rules: Rules<S>, sys: System<S>, step: Step<S>)
    requires Fenced(sys) && Refines(rules, sys) && ProofsHold(rules, sys)
    requires step.DoInitialize? || step.DoLoad? || step.DoSubmit?
    ensures ProofsHold(rules, Do(rules, sys, step))
  {
  }

  lemma {:induction false} ReachProofs<S(!new)>(rules: Rules<S>, steps: seq<Step<S>>)
    requires Lawful(rules)
    ensures ProofsHold(rules, Reach(rules, steps))
    decreases |steps|
  {
    if steps != [] {
      var before, step := steps[..|steps| - 1], steps[|steps| - 1];
      ReachProofs(rules, before);
      ReachInvariant(rules, before);
      var sys := Reach(rules, before);
      if step.DoCommit? {
        if step.id in sys.handlers && sys.handlers[step.id].pending.Some? {
          CommitKeepsProofs(rules, sys, step.id, step.now, step.delivery);
        }
      } else {
        OthersKeepProofs(rules, sys, step);
      }
    }
  }

  /** A proof is on record exactly when some committed state had a verdict; it is for that one state, and there is no second. */
  lemma ProofExactly<S(!new)>(rules: Rules<S>, steps: seq<Step<S>>)
    requires Lawful(rules) && Reach(rules, steps).tables.checkpoint.Some?
    ensures var sys := Reach(rules, steps);
      && sys.origin.Some?
      && forall k :: 0 < k <= |sys.log| ==>
           && (VerdictAfter(rules, sys.origin.value, sys.log, k).Some? <==>
                 sys.tables.proof.Some? && sys.tables.proof.value.version == rules.version(sys.origin.value) + k)
           && (VerdictAfter(rules, sys.origin.value, sys.log, k).Some? ==>
                 && VerdictAfter(rules, sys.origin.value, sys.log, k) == Some(sys.tables.proof.value.verdict)
                 && Fold(rules, sys.origin.value, sys.log[..k]).Some?
                 && sys.tables.proof.value.checksum == rules.serialize(Fold(rules, sys.origin.value, sys.log[..k]).value))
  {
    ReachProofs(rules, steps);
    ReachInvariant(rules, steps);
  }
}
