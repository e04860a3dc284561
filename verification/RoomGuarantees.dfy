/** What every run of a room guarantees: one log, fencing, exactly-once commands, the reconnect window. */
module RoomGuarantees {
  import opened Outcomes
  import opened RoomTables
  import opened RoomLog
  import CanonicalJson
  import JsonText

  /* ---------- One log ---------- */

  /**
   * The durable checkpoint is the sequential machine folded over the committed commands, and every
   * handler's memory is the state the machine had at the handler's own version, never a later one.
   */
  lemma LogRefinement<S(!new)>(rules: Rules<S>, steps: seq<Step<S>>)
    requires Lawful(rules)
    ensures var sys := Reach(rules, steps);
      sys.tables.checkpoint.Some? ==>
        && sys.origin.Some?
        && var s, c := sys.origin.value, sys.tables.checkpoint.value;
        && Fold(rules, s, sys.log).Some?
        && rules.parse(c.state) == Fold(rules, s, sys.log)
        && c.version == rules.version(s) + |sys.log| == rules.version(Fold(rules, s, sys.log).value)
        && forall id :: id in sys.handlers ==>
             var k := rules.version(sys.handlers[id].state) - rules.version(s);
             0 <= k <= |sys.log| && Fold(rules, s, sys.log[..k]) == Some(sys.handlers[id].state)
  {
    ReachInvariant(rules, steps);
    var sys := Reach(rules, steps);
    if sys.tables.checkpoint.Some? {
      assert sys.log[..|sys.log|] == sys.log;
      FoldPrefix(rules, sys.origin.value, sys.log, |sys.log|);
      forall id | id in sys.handlers ensures Historical(rules, sys.origin.value, sys.log, sys.handlers[id]) {
      }
    }
  }

  /** A handler that has fallen behind changes nothing: its commit fails, or was made before. */
  lemma StaleHandlerCannotCommit<S(!new)>(rules: Rules<S>, steps: seq<Step<S>>, id: nat, now: int)
    requires Lawful(rules)
    requires var sys := Reach(rules, steps);
      && id in sys.handlers && sys.handlers[id].pending.Some? && sys.tables.checkpoint.Some?
      && rules.version(sys.handlers[id].state) != sys.tables.checkpoint.value.version
    ensures var sys := Reach(rules, steps);
      var o := Attempt(rules, sys, id, now);
      o.tables == sys.tables && (o.reply.Ok? ==> o.reply.value.duplicate)
      && rules.version(sys.handlers[id].state) < sys.tables.checkpoint.value.version
  {
    ReachInvariant(rules, steps);
    var sys := Reach(rules, steps);
    var h := sys.handlers[id];
    assert Historical(rules, sys.origin.value, sys.log, h);
    CommitExactly(rules.collation, VersionOf(rules), sys.tables, h.lease, h.pending.value.commit, now);
  }

  /** A terminal proof is the verdict on a state of the one machine, with that state's own checksum. */
  lemma TerminalProofIsHistorical<S(!new)>(rules: Rules<S>, steps: seq<Step<S>>)
    requires Lawful(rules) && Reach(rules, steps).tables.proof.Some?
    ensures var sys := Reach(rules, steps);
      && sys.origin.Some?
      && ProofSound(rules, sys.origin.value, sys.log, sys.tables.proof)
  {
    ReachInvariant(rules, steps);
  }

  /* ---------- Runs ---------- */

  lemma {:induction false} ContinueConcat<S>(rules: Rules<S>, sys: System<S>, a: seq<Step<S>>, b: seq<Step<S>>)
    ensures Continue(rules, sys, a + b) == Continue(rules, Continue(rules, sys, a), b)
    decreases |b|
  {
    if b == [] {
      assert a + b == a;
    } else {
      assert (a + b)[..|a + b| - 1] == a + b[..|b| - 1];
      ContinueConcat(rules, sys, a, b[..|b| - 1]);
    }
  }

  /** What no later step can take back. */
  ghost predicate Grows<S(!new)>(sys: System<S>, after: System<S>) {
    var t, u := sys.tables, after.tables;
    && (t.lease.Some? ==> u.lease.Some? && u.lease.value.token >= t.lease.value.token)
    && (forall k :: k in t.commands ==> k in u.commands && u.commands[k] == t.commands[k])
    && (forall k :: k in t.finalizations ==> k in u.finalizations && u.finalizations[k] == t.finalizations[k])
    && (t.checkpoint.Some? ==> u.checkpoint.Some? && after.origin == sys.origin)
    && sys.granted <= after.granted
    && sys.log <= after.log
  }

  lemma OutboxKeysAreCommands<S(!new)>(rules: Rules<S>, v: int, log: seq<Entry>, t: Tables)
    requires Recorded(rules, v, log, t)
    ensures forall k :: k in t.finalizations ==> k in t.commands
  {
    forall k | k in t.finalizations ensures k in t.commands {
      var i :| 0 <= i < |log| && Key(log[i]) == k;
    }
  }

  lemma CommittedGrows<S(!new)>(rules: Rules<S>, t: Tables, l: Lease, v: Commit)
    requires KeyOf(v) !in t.commands && forall k :: k in t.finalizations ==> k in t.commands
    ensures var u := Committed(rules.collation, t, l, v);
      && (forall k :: k in t.commands ==> k in u.commands && u.commands[k] == t.commands[k])
      && (forall k :: k in t.finalizations ==> k in u.finalizations && u.finalizations[k] == t.finalizations[k])
      && u.lease == t.lease
  {
  }

  lemma CommitGrows<S(!new)>(rules: Rules<S>, sys: System<S>, id: nat, now: int, d: Delivery)
    requires Lawful(rules) && Refines(rules, sys) && id in sys.handlers && sys.handlers[id].pending.Some?
    ensures Grows(sys, Committing(rules, sys, id, now, d))
  {
    var o := Attempt(rules, sys, id, now);
    if !(d.RolledBack? || o.reply.Err? || o.reply.value.duplicate) {
      AcceptedIsNext(rules, sys, id, now);
      AcceptedSystem(rules, sys, id, now, d);
      OutboxKeysAreCommands(rules, rules.version(sys.origin.value), sys.log, sys.tables);
      CommittedGrows(rules, sys.tables, sys.handlers[id].lease, sys.handlers[id].pending.value.commit);
    }
  }

  lemma LeaseTokensGrow(t: Tables, l: Lease, owner: string, game: string, duration: int, now: int)
    requires t.lease.Some?
    ensures var u := Acquire(t, owner, game, duration, now).tables; u.lease.Some? && u.lease.value.token >= t.lease.value.token
    ensures var u := Renew(t, l, duration, now).tables; u.lease.Some? && u.lease.value.token == t.lease.value.token
    ensures var u := Release(t, l, now).tables; u.lease.Some? && u.lease.value.token == t.lease.value.token
  {
  }

  /** Steps on the lease and the presence row, and crashes. */
  lemma QuietGrows<S(!new)>(rules: Rules<S>, sys: System<S>, step: Step<S>)
    requires !step.DoInitialize? && !step.DoLoad? && !step.DoSubmit? && !step.DoCommit?
    ensures Grows(sys, Do(rules, sys, step)) && LogFrame(sys.tables, Do(rules, sys, step).tables)
    ensures Do(rules, sys, step).log == sys.log
  {
    var t := sys.tables;
    match step {
      case DoAcquire(owner, game, duration, now) =>
        LeaseStepsAreQuiet(t, Lease(owner, game, 0, 0), owner, game, duration, now);
        if t.lease.Some? { LeaseTokensGrow(t, t.lease.value, owner, game, duration, now); }
      case DoRenew(l, duration, now) =>
        LeaseStepsAreQuiet(t, l, l.instance, l.game, duration, now);
        if t.lease.Some? { LeaseTokensGrow(t, l, l.instance, l.game, duration, now); }
      case DoRelease(l, now) =>
        LeaseStepsAreQuiet(t, l, l.instance, l.game, 0, now);
        if t.lease.Some? { LeaseTokensGrow(t, l, l.instance, l.game, 0, now); }
      case DoCrash(_) =>
      case DoConnected(l, now) => PresenceStepsAreQuiet(t, l, now);
      case DoAllOffline(l, now) => PresenceStepsAreQuiet(t, l, now);
    }
  }

  lemma InitializeGrows<S(!new)>(rules: Rules<S>, sys: System<S>, id: nat, l: Lease, s: S, now: int)
    ensures Grows(sys, Initializing(rules, sys, id, l, s, now))
    ensures sys.tables.checkpoint.Some? ==> Initializing(rules, sys, id, l, s, now) == sys
  {
  }

  /** Loading and submitting only change a handler's memory. */
  lemma LoadGrows<S(!new)>(rules: Rules<S>, sys: System<S>, id: nat, l: Lease, now: int)
    ensures Grows(sys, Loading(rules, sys, id, l, now))
  {
    HandlersOnly(sys, Loading(rules, sys, id, l, now).handlers);
  }

  lemma SubmitGrows<S(!new)>(rules: Rules<S>, sys: System<S>, id: nat, input: Input, now: int)
    requires id in sys.handlers
    ensures Grows(sys, Submitting(rules, sys, id, input, now))
  {
    HandlersOnly(sys, Submitting(rules, sys, id, input, now).handlers);
  }

  lemma HandlersOnly<S(!new)>(sys: System<S>, handlers: map<nat, Handler<S>>)
    ensures Grows(sys, sys.(handlers := handlers))
  {
  }

  lemma StepGrows<S(!new)>(rules: Rules<S>, sys: System<S>, step: Step<S>)
    requires Lawful(rules) && Refines(rules, sys)
    ensures Grows(sys, Do(rules, sys, step))
  {
    if step.DoCommit? {
      HandlersOnly(sys, sys.handlers);
      if step.id in sys.handlers && sys.handlers[step.id].pending.Some? {
        CommitGrows(rules, sys, step.id, step.now, step.delivery);
      }
    } else {
      OtherStepGrows(rules, sys, step);
    }
  }

  lemma OtherStepGrows<S(!new)>(rules: Rules<S>, sys: System<S>, step: Step<S>)
    requires !step.DoCommit?
    ensures Grows(sys, Do(rules, sys, step))
  {
    HandlersOnly(sys, sys.handlers);
    match step
    case DoInitialize(id, l, s, now) => InitializeGrows(rules, sys, id, l, s, now);
    case DoLoad(id, l, now) => LoadGrows(rules, sys, id, l, now);
    case DoSubmit(id, input, now) =>
      if id in sys.handlers { SubmitGrows(rules, sys, id, input, now); }
    case _ => QuietGrows(rules, sys, step);
  }

  lemma {:induction false} RunGrows<S(!new)>(rules: Rules<S>, steps: seq<Step<S>>, more: seq<Step<S>>)
    requires Lawful(rules)
    ensures Grows(Reach(rules, steps), Reach(rules, steps + more))
    decreases |more|
  {
    if more == [] {
      assert steps + more == steps;
    } else {
      var init := more[..|more| - 1];
      assert (steps + more)[..|steps + more| - 1] == steps + init;
      RunGrows(rules, steps, init);
      ReachInvariant(rules, steps + init);
      StepGrows(rules, Reach(rules, steps + init), more[|more| - 1]);
    }
  }

  /* ---------- Fencing ---------- */

  /** Each token has one owner, and the rows a lease guards carry the lease row's own token. */
  lemma FencingState<S(!new)>(rules: Rules<S>, steps: seq<Step<S>>)
    requires Lawful(rules)
    ensures var sys := Reach(rules, steps);
      && (forall l, m :: l in sys.granted && m in sys.granted && l.token == m.token ==> l.instance == m.instance)
      && (sys.tables.lease.Some? ==>
            var token := sys.tables.lease.value.token;
            && (forall l :: l in sys.granted ==> l.token <= token)
            && (sys.tables.checkpoint.Some? ==> sys.tables.checkpoint.value.token == token)
            && (sys.tables.presence.Some? ==> sys.tables.presence.value.token == token))
  {
    ReachInvariant(rules, steps);
  }

  /** Every way to use a lease, with any clock: nothing is written and nothing is read. */
  ghost predicate Powerless<S(!new)>(rules: Rules<S>, t: Tables, l: Lease) {
    && (forall now, duration :: Renew(t, l, duration, now) == Failed<Lease>(t, LeaseUnavailable))
    && (forall now :: Release(t, l, now) == Outcome(t, Ok(false)))
    && (forall now, version, state ::
          var o := Initialize(VersionOf(rules), t, l, version, state, now); o.tables == t && o.reply.Err?)
    && (forall now, expected, version, state ::
          var o := Save(VersionOf(rules), t, l, expected, version, state, now); o.tables == t && o.reply.Err?)
    && (forall now :: Load(VersionOf(rules), t, l, now) == Err(LeaseUnavailable))
    && (forall now, player, command :: FindReplay(rules.collation, t, l, player, command, now) == Err(LeaseUnavailable))
    && (forall now, v ::
          var o := CommitCommand(rules.collation, VersionOf(rules), t, l, v, now); o.tables == t && o.reply.Err?)
    && (forall now :: MarkConnected(t, l, now) == Failed<Option<int>>(t, LeaseUnavailable))
    && (forall now :: MarkAllOffline(t, l, now) == Failed<int>(t, LeaseUnavailable))
  }

  lemma StaleTokenIsPowerless<S(!new)>(rules: Rules<S>, t: Tables, l: Lease)
    requires t.lease.Some? && l.token < t.lease.value.token
    ensures Powerless(rules, t, l)
  {
    assert forall now: int :: !Owned(t, l, now);
  }

  /** Once a higher token has been granted, a lease with a lower one never works again, whatever the clocks say. */
  lemma SupersededForever<S(!new)>(rules: Rules<S>, steps: seq<Step<S>>, more: seq<Step<S>>, l: Lease)
    requires Lawful(rules)
    requires var sys := Reach(rules, steps); sys.tables.lease.Some? && l.token < sys.tables.lease.value.token
    ensures Powerless(rules, Reach(rules, steps + more).tables, l)
  {
    RunGrows(rules, steps, more);
    StaleTokenIsPowerless(rules, Reach(rules, steps + more).tables, l);
  }

  /** `save` is not used by the room; even so it can only move the version up. */
  lemma SaveAdvances(versionOf: Blob -> Option<int>, t: Tables, l: Lease, expected: int, version: int, state: Blob, now: int)
    ensures var o := Save(versionOf, t, l, expected, version, state, now);
      if o.reply.Ok? then
        t.checkpoint.Some? && o.tables == t.(checkpoint := Some(o.reply.value)) &&
        o.reply.value.version == version > t.checkpoint.value.version && o.reply.value.state == state
      else o.tables == t
  {
  }

  /* ---------- Exactly once ---------- */

  /** The committed versions are contiguous, and no request appears in the log twice. */
  lemma VersionsAreContiguous<S(!new)>(rules: Rules<S>, steps: seq<Step<S>>)
    requires Lawful(rules) && Reach(rules, steps).tables.checkpoint.Some?
    ensures var sys := Reach(rules, steps);
      && sys.origin.Some?
      && (forall i :: 0 <= i < |sys.log| ==>
            && Key(sys.log[i]) in sys.tables.commands
            && sys.tables.commands[Key(sys.log[i])] == RowOf(rules, rules.version(sys.origin.value), i, sys.log[i]))
      && (forall i, j :: 0 <= i < j < |sys.log| ==> Key(sys.log[i]) != Key(sys.log[j]))
      && (forall k :: k in sys.tables.commands ==> exists i :: 0 <= i < |sys.log| && Key(sys.log[i]) == k)
  {
    ReachInvariant(rules, steps);
    var sys := Reach(rules, steps);
    assert Recorded(rules, rules.version(sys.origin.value), sys.log, sys.tables);
  }

  /** The only way for the checkpoint's content to change is one new entry of the log. */
  lemma CheckpointMovesWithTheLog<S(!new)>(rules: Rules<S>, steps: seq<Step<S>>, step: Step<S>)
    requires Lawful(rules) && Reach(rules, steps).tables.checkpoint.Some?
    ensures var sys, after := Reach(rules, steps), Do(rules, Reach(rules, steps), step);
      var c := sys.tables.checkpoint.value;
      && after.tables.checkpoint.Some?
      && var d := after.tables.checkpoint.value;
      || (after.log == sys.log && d.version == c.version && d.state == c.state)
      || (exists e :: after.log == sys.log + [e] && Key(e) !in sys.tables.commands && d.version == c.version + 1)
  {
    ReachInvariant(rules, steps);
    var sys := Reach(rules, steps);
    if step.DoCommit? {
      if step.id in sys.handlers && sys.handlers[step.id].pending.Some? {
        CommitMoves(rules, sys, step.id, step.now, step.delivery);
      }
    } else {
      OtherStepKeepsCheckpoint(rules, sys, step);
    }
  }

  lemma OtherStepKeepsCheckpoint<S(!new)>(rules: Rules<S>, sys: System<S>, step: Step<S>)
    requires !step.DoCommit? && sys.tables.checkpoint.Some?
    ensures var after := Do(rules, sys, step);
      && after.log == sys.log && after.tables.checkpoint.Some?
      && after.tables.checkpoint.value.version == sys.tables.checkpoint.value.version
      && after.tables.checkpoint.value.state == sys.tables.checkpoint.value.state
  {
    match step
    case DoInitialize(id, l, s, now) => InitializeGrows(rules, sys, id, l, s, now);
    case DoLoad(id, l, now) =>
    case DoSubmit(id, input, now) =>
    case _ => QuietGrows(rules, sys, step);
  }

  lemma CommitMoves<S(!new)>(rules: Rules<S>, sys: System<S>, id: nat, now: int, d: Delivery)
    requires Lawful(rules) && Refines(rules, sys) && id in sys.handlers && sys.handlers[id].pending.Some?
    ensures sys.tables.checkpoint.Some?
    ensures var after := Committing(rules, sys, id, now, d);
      || (after.log == sys.log && after.tables == sys.tables)
      || (after.tables.checkpoint.Some? && after.tables.checkpoint.value.version == sys.tables.checkpoint.value.version + 1
          && exists e :: after.log == sys.log + [e] && Key(e) !in sys.tables.commands)
  {
    var o := Attempt(rules, sys, id, now);
    if !d.RolledBack? && o.reply.Ok? && !o.reply.value.duplicate {
      AcceptedIsNext(rules, sys, id, now);
      AcceptedSystem(rules, sys, id, now, d);
      var p := sys.handlers[id].pending.value;
      assert Key(Entry(p.input, p.commit.acknowledgement)) == KeyOf(p.commit);
    }
  }

  /**
   * A request that has been committed is answered by its first acknowledgement for ever, by any owner
   * and after any takeover; with other content it is refused; either way nothing changes.
   */
  lemma AnsweredOnceForEver<S(!new)>(
    rules: Rules<S>, steps: seq<Step<S>>, more: seq<Step<S>>, key: CommandKey, l: Lease, command: Command, now: int)
    requires Lawful(rules) && key in Reach(rules, steps).tables.commands
    requires command.requestId == key.requestId && Owned(Reach(rules, steps + more).tables, l, now)
    ensures var row, t := Reach(rules, steps).tables.commands[key], Reach(rules, steps + more).tables;
      if RequestHash(rules.collation, command) == row.hash then
        FindReplay(rules.collation, t, l, key.player, command, now) == Ok(Some(row.acknowledgement))
      else
        FindReplay(rules.collation, t, l, key.player, command, now) == Err(IdempotencyConflict)
    ensures var row, t := Reach(rules, steps).tables.commands[key], Reach(rules, steps + more).tables;
      forall v: Commit :: v.player == key.player && v.command == command ==>
        var o := CommitCommand(rules.collation, VersionOf(rules), t, l, v, now);
        && o.tables == t
        && (o.reply.Ok? ==> o.reply.value == CommitReply(row.acknowledgement, true))
        && (RequestHash(rules.collation, command) != row.hash ==> o.reply.Err?)
  {
    RunGrows(rules, steps, more);
  }

  /**
   * Replay goes by content: a committed request is recognized exactly when the command is the same
   * up to the order of object entries, provided the collation tells its keys apart.
   */
  lemma ReplayGoesByContent<S(!new)>(
    rules: Rules<S>, steps: seq<Step<S>>, i: nat, l: Lease, command: Command, now: int)
    requires Lawful(rules)
    requires var sys := Reach(rules, steps);
      && sys.tables.checkpoint.Some? && i < |sys.log| && Owned(sys.tables, l, now)
      && command.requestId == sys.log[i].input.command.requestId
      && CanonicalJson.Valid(sys.log[i].input.command.content) && CanonicalJson.Valid(command.content)
      && CanonicalJson.Distinguished(rules.collation, sys.log[i].input.command.content)
    ensures var sys := Reach(rules, steps);
      FindReplay(rules.collation, sys.tables, l, sys.log[i].input.player, command, now)
        == Ok(Some(sys.log[i].acknowledgement))
      <==> CanonicalJson.Same(sys.log[i].input.command.content, command.content)
  {
    VersionsAreContiguous(rules, steps);
    var sys := Reach(rules, steps);
    CanonicalJson.CanonicalIffSame(rules.collation, sys.log[i].input.command.content, command.content);
  }

  /** The code units of a word; every character used here is a single unit. */
  function Units(word: string): JsonText.Text {
    seq(|word|, i requires 0 <= i < |word| => if word[i] as int < 0x1_0000 then word[i] as int else 0xFFFD)
  }

  /** Every key that the schemas of the players' and the room's own commands allow. */
  function CommandKeys(): set<JsonText.Text> {
    set word | word in {
      "requestId", "expectedStateVersion", "type", "payload",
      "gameId", "maximumPlayers", "timeLimitMs",
      "position", "buildingType", "deck",
      "tradeId", "tradeType", "receiverId",
      "offeredCash", "requestedCash", "offeredPropertyPosition", "requestedPropertyPosition"
    } :: Units(word)
  }

  /** A tree that a command schema has let through. */
  predicate CommandTree(v: JsonText.Json) {
    CanonicalJson.Valid(v) && CanonicalJson.KeysWithin(v, CommandKeys())
  }

  /**
   * For the commands the room really stores: a replay is recognized exactly when the command is the
   * same up to entry order. The only condition is on the collation, once and for all.
   */
  lemma CommandReplayGoesByContent<S(!new)>(
    rules: Rules<S>, steps: seq<Step<S>>, i: nat, l: Lease, command: Command, now: int)
    requires Lawful(rules) && CanonicalJson.RanksApart(rules.collation, CommandKeys())
    requires var sys := Reach(rules, steps);
      && sys.tables.checkpoint.Some? && i < |sys.log| && Owned(sys.tables, l, now)
      && command.requestId == sys.log[i].input.command.requestId
      && CommandTree(sys.log[i].input.command.content) && CommandTree(command.content)
    ensures var sys := Reach(rules, steps);
      FindReplay(rules.collation, sys.tables, l, sys.log[i].input.player, command, now)
        == Ok(Some(sys.log[i].acknowledgement))
      <==> CanonicalJson.Same(sys.log[i].input.command.content, command.content)
  {
    CanonicalJson.KnownKeysAreDistinguished(
      rules.collation, Reach(rules, steps).log[i].input.command.content, CommandKeys());
    ReplayGoesByContent(rules, steps, i, l, command, now);
  }

  /** The outbox row of a leave or cancel: its action, the key made for it and the reservation; none for any other command. */
  predicate EndingStored<S>(rules: Rules<S>, e: Entry, outbox: map<CommandKey, Finalization>) {
    var input := e.input;
    if input.command.finalizes.Some? then
      && Key(e) in outbox && FinalizationOf(rules, input) == Some(outbox[Key(e)])
      && outbox[Key(e)] == Finalization(
           input.command.finalizes.value,
           rules.finalizationKey(input.player, input.command.requestId, input.command.finalizes.value),
           input.reservation)
    else Key(e) !in outbox
  }

  /** Every committed leave or cancel left its outbox row in the same commit, and nothing else did. */
  lemma EndingsReachTheOutbox<S(!new)>(rules: Rules<S>, steps: seq<Step<S>>)
    requires Lawful(rules) && Reach(rules, steps).tables.checkpoint.Some?
    ensures var sys := Reach(rules, steps);
      && (forall i :: 0 <= i < |sys.log| ==>
            EndingStored(rules, sys.log[i], sys.tables.finalizations))
      && (forall k :: k in sys.tables.finalizations ==> exists i :: 0 <= i < |sys.log| && Key(sys.log[i]) == k)
  {
    ReachInvariant(rules, steps);
    var sys := Reach(rules, steps);
    assert Recorded(rules, rules.version(sys.origin.value), sys.log, sys.tables);
  }

  /* ---------- The reconnect window ---------- */

  /** Both columns are null, or they are exactly 120 seconds apart. */
  predicate WindowHolds(t: Tables) {
    t.presence.Some? ==>
      var p := t.presence.value;
      || (p.allOfflineAt.None? && p.abortDeadlineAt.None?)
      || (p.allOfflineAt.Some? && p.abortDeadlineAt == Some(p.allOfflineAt.value + RECONNECT_WINDOW_MS))
  }

  lemma WindowStep<S>(rules: Rules<S>, sys: System<S>, step: Step<S>)
    requires WindowHolds(sys.tables)
    ensures WindowHolds(Do(rules, sys, step).tables)
  {
  }

  lemma {:induction false} ReconnectWindow<S>(rules: Rules<S>, steps: seq<Step<S>>)
    ensures WindowHolds(Reach(rules, steps).tables)
    decreases |steps|
  {
    if steps != [] {
      ReconnectWindow(rules, steps[..|steps| - 1]);
      WindowStep(rules, Reach(rules, steps[..|steps| - 1]), steps[|steps| - 1]);
    }
  }

  predicate Offline(t: Tables, deadline: int) {
    t.presence.Some? && t.presence.value.abortDeadlineAt == Some(deadline)
  }

  lemma OfflineStep<S>(rules: Rules<S>, sys: System<S>, step: Step<S>, deadline: int)
    requires Offline(sys.tables, deadline) && !step.DoConnected?
    ensures Offline(Do(rules, sys, step).tables, deadline)
  {
  }

  /** While nobody reconnects, no number of offline marks and takeovers moves the abort deadline. */
  lemma {:induction false} DeadlineStays<S>(rules: Rules<S>, steps: seq<Step<S>>, more: seq<Step<S>>, deadline: int)
    requires Offline(Reach(rules, steps).tables, deadline)
    requires forall i :: 0 <= i < |more| ==> !more[i].DoConnected?
    ensures Offline(Reach(rules, steps + more).tables, deadline)
    decreases |more|
  {
    if more == [] {
      assert steps + more == steps;
    } else {
      var init := more[..|more| - 1];
      assert (steps + more)[..|steps + more| - 1] == steps + init;
      DeadlineStays(rules, steps, init, deadline);
      OfflineStep(rules, Reach(rules, steps + init), more[|more| - 1], deadline);
    }
  }

  /** Marking the room offline again at the instant `markConnected` returned restores the old deadline. */
  lemma RemarkRestoresDeadline(t: Tables, l: Lease, now: int, deadline: int)
    requires WindowHolds(t) && Offline(t, deadline) && Owned(t, l, now)
    ensures var o := MarkConnected(t, l, now);
      && o.reply.Ok? && o.reply.value.Some?
      && var again := MarkAllOffline(o.tables, l, o.reply.value.value);
      && (again.reply.Ok? <==> t.lease.value.until > o.reply.value.value && deadline <= MAX_DATE_MS)
      && (again.reply.Ok? ==> again.reply.value == deadline && Offline(again.tables, deadline))
  {
  }
}
