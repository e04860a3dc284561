/**
 * One room over any run of any number of game-server processes: lease takeovers, crashes, lost
 * replies, retries and stale handlers (command-handler.ts on top of the repositories).
 * The board rules are a parameter: any partial transition function that advances the version by one.
 */
module RoomLog {
  import opened Outcomes
  import opened RoomTables
  import CanonicalJson
  import JsonText

  /** All that a transition depends on besides the state; randomness is part of the state. */
  datatype Input = Input(player: string, reservation: string, command: Command, nowMs: int)

  datatype Effect<S> = Effect(state: S, payloads: seq<string>)

  datatype Rules<!S> = Rules(
    transition: (S, Input) -> Option<Effect<S>>,
    version: S -> int,
    serialize: S -> Blob,
    parse: Blob -> Option<S>,
    verdict: S -> Option<Verdict>,
    eventId: (string, nat) -> string,
    finalizationKey: (string, string, Action) -> string,
    collation: CanonicalJson.Collation)

  ghost predicate Lawful<S(!new)>(rules: Rules<S>) {
    && (forall s, i :: rules.transition(s, i).Some? ==>
          rules.version(rules.transition(s, i).value.state) == rules.version(s) + 1)
    && (forall s :: rules.parse(rules.serialize(s)) == Some(s))
  }

  function VersionOf<S>(rules: Rules<S>): Blob -> Option<int> {
    b => if rules.parse(b).Some? then Some(rules.version(rules.parse(b).value)) else None
  }

  /* ---------- A command handler ---------- */

  /** A command that has been computed in memory and is about to be committed. */
  datatype Pending<S> = Pending(input: Input, next: S, commit: Commit)

  /** The serial queue lets one command be in flight at a time. */
  datatype Handler<S> = Handler(lease: Lease, state: S, pending: Option<Pending<S>>)

  function EventsOf<S>(rules: Rules<S>, input: Input, e: Effect<S>): (r: seq<Event>)
    ensures |r| == |e.payloads|
  {
    seq(|e.payloads|, i requires 0 <= i < |e.payloads| =>
      Event(rules.eventId(input.command.requestId, i), rules.version(e.state), e.payloads[i]))
  }

  function FinalizationOf<S>(rules: Rules<S>, input: Input): Option<Finalization> {
    match input.command.finalizes
    case None => None
    case Some(action) =>
      Some(Finalization(
        action, rules.finalizationKey(input.player, input.command.requestId, action), input.reservation))
  }

  function AcknowledgementOf<S>(rules: Rules<S>, input: Input, e: Effect<S>): Acknowledgement {
    var events := EventsOf(rules, input, e);
    Acknowledgement(
      input.command.requestId, rules.version(e.state),
      seq(|events|, i requires 0 <= i < |events| => events[i].id))
  }

  /** What handling a command computes before the commit. */
  function Prepare<S>(rules: Rules<S>, s: S, input: Input): Option<Pending<S>> {
    match rules.transition(s, input)
    case None => None
    case Some(e) =>
      Some(Pending(input, e.state, Commit(
        input.player, input.command, AcknowledgementOf(rules, input, e), EventsOf(rules, input, e),
        rules.serialize(e.state), rules.version(e.state), rules.verdict(e.state), FinalizationOf(rules, input))))
  }

  /* ---------- The whole system ---------- */

  datatype Entry = Entry(input: Input, acknowledgement: Acknowledgement)

  /**
   * The tables, every lease ever handed out, the live handlers, and two history variables: the state
   * the room was initialized with and the commands committed since.
   */
  datatype System<S> = System(
    tables: Tables,
    granted: set<Lease>,
    handlers: map<nat, Handler<S>>,
    origin: Option<S>,
    log: seq<Entry>)

  datatype Delivery = Delivered | ReplyLost | RolledBack

  datatype Step<S> =
    | DoAcquire(owner: string, game: string, duration: int, now: int)
    | DoRenew(lease: Lease, duration: int, now: int)
    | DoRelease(lease: Lease, now: int)
    | DoInitialize(id: nat, lease: Lease, initial: S, now: int)
    | DoLoad(id: nat, lease: Lease, now: int)
    | DoSubmit(id: nat, input: Input, now: int)
    | DoCommit(id: nat, now: int, delivery: Delivery)
    | DoCrash(id: nat)
    | DoConnected(lease: Lease, now: int)
    | DoAllOffline(lease: Lease, now: int)

  function Start<S>(): System<S> {
    System(EMPTY, {}, map[], None, [])
  }

  function Granting<S>(sys: System<S>, o: Outcome<Lease>): System<S> {
    sys.(tables := o.tables, granted := if o.reply.Ok? then sys.granted + {o.reply.value} else sys.granted)
  }

  function Initializing<S>(rules: Rules<S>, sys: System<S>, id: nat, l: Lease, s: S, now: int): System<S> {
    var o := Initialize(VersionOf(rules), sys.tables, l, rules.version(s), rules.serialize(s), now);
    if o.reply.Err? then sys
    else sys.(tables := o.tables, origin := Some(s), handlers := sys.handlers[id := Handler(l, s, None)])
  }

  function Loading<S>(rules: Rules<S>, sys: System<S>, id: nat, l: Lease, now: int): System<S> {
    match Load(VersionOf(rules), sys.tables, l, now)
    case Ok(Some(c)) => sys.(handlers := sys.handlers[id := Handler(l, rules.parse(c.state).value, None)])
    case _ => sys
  }

  function Submitting<S>(rules: Rules<S>, sys: System<S>, id: nat, input: Input, now: int): System<S>
    requires id in sys.handlers
  {
    var h := sys.handlers[id];
    if FindReplay(rules.collation, sys.tables, h.lease, input.player, input.command, now) != Ok(None) then sys
    else sys.(handlers := sys.handlers[id := h.(pending := Prepare(rules, h.state, input))])
  }

  function Attempt<S>(rules: Rules<S>, sys: System<S>, id: nat, now: int): Outcome<CommitReply>
    requires id in sys.handlers && sys.handlers[id].pending.Some?
  {
    var h := sys.handlers[id];
    CommitCommand(rules.collation, VersionOf(rules), sys.tables, h.lease, h.pending.value.commit, now)
  }

  /** A reply that reaches the handler moves it on; any other ending leaves its memory as it was. */
  function Committing<S>(rules: Rules<S>, sys: System<S>, id: nat, now: int, d: Delivery): System<S>
    requires id in sys.handlers && sys.handlers[id].pending.Some?
  {
    var h := sys.handlers[id];
    var p := h.pending.value;
    var o := Attempt(rules, sys, id, now);
    if d.RolledBack? || o.reply.Err? || o.reply.value.duplicate then
      sys.(handlers := sys.handlers[id := h.(pending := None)])
    else
      System(
        o.tables, sys.granted,
        sys.handlers[id := Handler(h.lease, if d.Delivered? then p.next else h.state, None)],
        sys.origin, sys.log + [Entry(p.input, o.reply.value.acknowledgement)])
  }

  function Do<S>(rules: Rules<S>, sys: System<S>, step: Step<S>): System<S> {
    match step
    case DoAcquire(owner, game, duration, now) => Granting(sys, Acquire(sys.tables, owner, game, duration, now))
    case DoRenew(l, duration, now) =>
      if l in sys.granted then Granting(sys, Renew(sys.tables, l, duration, now)) else sys
    case DoRelease(l, now) =>
      if l in sys.granted then sys.(tables := Release(sys.tables, l, now).tables) else sys
    case DoInitialize(id, l, s, now) =>
      if l in sys.granted && id !in sys.handlers then Initializing(rules, sys, id, l, s, now) else sys
    case DoLoad(id, l, now) =>
      if l in sys.granted && id !in sys.handlers then Loading(rules, sys, id, l, now) else sys
    case DoSubmit(id, input, now) =>
      if id in sys.handlers && sys.handlers[id].pending.None? then Submitting(rules, sys, id, input, now) else sys
    case DoCommit(id, now, d) =>
      if id in sys.handlers && sys.handlers[id].pending.Some? then Committing(rules, sys, id, now, d) else sys
    case DoCrash(id) => sys.(handlers := sys.handlers - {id})
    case DoConnected(l, now) =>
      if l in sys.granted then sys.(tables := MarkConnected(sys.tables, l, now).tables) else sys
    case DoAllOffline(l, now) =>
      if l in sys.granted then sys.(tables := MarkAllOffline(sys.tables, l, now).tables) else sys
  }

  function Continue<S>(rules: Rules<S>, sys: System<S>, steps: seq<Step<S>>): System<S>
    decreases |steps|
  {
    if steps == [] then sys
    else Do(rules, Continue(rules, sys, steps[..|steps| - 1]), steps[|steps| - 1])
  }

  /** The system after any run from the empty tables. */
  function Reach<S>(rules: Rules<S>, steps: seq<Step<S>>): System<S> {
    Continue(rules, Start(), steps)
  }

  /* ---------- The sequential machine ---------- */

  /** One state machine folded over one log. */
  function Fold<S>(rules: Rules<S>, s: S, log: seq<Entry>): Option<S>
    decreases |log|
  {
    if log == [] then Some(s)
    else
      match Fold(rules, s, log[..|log| - 1])
      case None => None
      case Some(x) =>
        match rules.transition(x, log[|log| - 1].input)
        case None => None
        case Some(e) => Some(e.state)
  }

  lemma {:induction false} FoldPrefix<S(!new)>(rules: Rules<S>, s: S, log: seq<Entry>, k: nat)
    requires Lawful(rules) && Fold(rules, s, log).Some? && k <= |log|
    ensures Fold(rules, s, log[..k]).Some?
    ensures rules.version(Fold(rules, s, log[..k]).value) == rules.version(s) + k
    decreases |log|
  {
    if k < |log| {
      assert log[..|log| - 1][..k] == log[..k];
      FoldPrefix(rules, s, log[..|log| - 1], k);
    } else {
      assert log[..k] == log;
      if log != [] {
        var init := log[..|log| - 1];
        FoldPrefix(rules, s, init, |init|);
        assert init[..|init|] == init;
      }
    }
  }

  /* ---------- The invariant ---------- */

  predicate SameRoom(row: Lease, l: Lease) {
    l.game == row.game && 1 <= l.token <= row.token && (l.token == row.token ==> l.instance == row.instance)
  }

  /** Fencing: who may hold which token, and the tokens of the rows that a lease guards. */
  ghost predicate Fenced<S(!new)>(sys: System<S>) {
    var t := sys.tables;
    && (t.lease.None? ==> sys.granted == {} && t.checkpoint.None? && t.presence.None?)
    && (t.lease.Some? ==>
          && t.lease.value.token >= 1
          && (forall l :: l in sys.granted ==> SameRoom(t.lease.value, l))
          && (t.checkpoint.Some? ==>
                t.checkpoint.value.token == t.lease.value.token && t.checkpoint.value.game == t.lease.value.game)
          && (t.presence.Some? ==>
                t.presence.value.token == t.lease.value.token && t.presence.value.game == t.lease.value.game))
    && (forall l, m :: l in sys.granted && m in sys.granted && l.token == m.token ==> l.instance == m.instance)
    && (forall id :: id in sys.handlers ==> sys.handlers[id].lease in sys.granted)
  }

  function Key(e: Entry): CommandKey {
    CommandKey(e.input.player, e.input.command.requestId)
  }

  /** The row that the `i`-th command of a log started at version `v` must have left. */
  function RowOf<S>(rules: Rules<S>, v: int, i: nat, e: Entry): CommandRow {
    CommandRow(v + i, v + i + 1, RequestHash(rules.collation, e.input.command), e.acknowledgement)
  }

  /** One row per entry, in version order. */
  ghost predicate RowsMatch<S(!new)>(rules: Rules<S>, v: int, log: seq<Entry>, commands: map<CommandKey, CommandRow>) {
    && (forall i :: 0 <= i < |log| ==> Key(log[i]) in commands && commands[Key(log[i])] == RowOf(rules, v, i, log[i]))
    && (forall i, j :: 0 <= i < j < |log| ==> Key(log[i]) != Key(log[j]))
    && (forall k :: k in commands ==> exists i :: 0 <= i < |log| && Key(log[i]) == k)
  }

  /** One outbox row per committed leave or cancel, and no other. */
  ghost predicate OutboxMatches<S(!new)>(rules: Rules<S>, log: seq<Entry>, outbox: map<CommandKey, Finalization>) {
    && (forall i :: 0 <= i < |log| ==>
          && (Key(log[i]) in outbox <==> log[i].input.command.finalizes.Some?)
          && (Key(log[i]) in outbox ==> FinalizationOf(rules, log[i].input) == Some(outbox[Key(log[i])])))
    && (forall k :: k in outbox ==> exists i :: 0 <= i < |log| && Key(log[i]) == k)
  }

  /** The command table and the outbox are the log. */
  ghost predicate Recorded<S(!new)>(rules: Rules<S>, v: int, log: seq<Entry>, t: Tables) {
    RowsMatch(rules, v, log, t.commands) && OutboxMatches(rules, log, t.finalizations)
  }

  /** A terminal proof describes a state the sequential machine really reached. */
  ghost predicate ProofSound<S(!new)>(rules: Rules<S>, s: S, log: seq<Entry>, proof: Option<Proof>) {
    proof.Some? ==>
      var k := proof.value.version - rules.version(s);
      && 0 < k <= |log|
      && Fold(rules, s, log[..k]).Some?
      && proof.value.checksum == rules.serialize(Fold(rules, s, log[..k]).value)
      && rules.verdict(Fold(rules, s, log[..k]).value) == Some(proof.value.verdict)
  }

  /** A handler's memory is a past state of the machine, and what it is about to commit follows from it. */
  ghost predicate Historical<S(!new)>(rules: Rules<S>, s: S, log: seq<Entry>, h: Handler<S>) {
    var k := rules.version(h.state) - rules.version(s);
    && 0 <= k <= |log|
    && Fold(rules, s, log[..k]) == Some(h.state)
    && (h.pending.Some? ==> Prepare(rules, h.state, h.pending.value.input) == h.pending)
  }

  /** The tables are the image of the sequential machine started in `s` and folded over the log. */
  ghost predicate Durable<S(!new)>(rules: Rules<S>, s: S, log: seq<Entry>, t: Tables) {
    && t.checkpoint.Some? && Fold(rules, s, log).Some?
    && t.checkpoint.value.version == rules.version(s) + |log|
    && t.checkpoint.value.state == t.checkpoint.value.checksum == rules.serialize(Fold(rules, s, log).value)
    && Recorded(rules, rules.version(s), log, t)
    && ProofSound(rules, s, log, t.proof)
  }

  ghost predicate Refines<S(!new)>(rules: Rules<S>, sys: System<S>) {
    var t := sys.tables;
    if t.checkpoint.None? then
      sys.log == [] && t.commands == map[] && t.finalizations == map[] && t.proof.None? && sys.handlers == map[]
    else
      && sys.origin.Some?
      && Durable(rules, sys.origin.value, sys.log, t)
      && AllHistorical(rules, sys.origin.value, sys.log, sys.handlers)
  }

  ghost predicate AllHistorical<S(!new)>(rules: Rules<S>, s: S, log: seq<Entry>, handlers: map<nat, Handler<S>>) {
    forall id :: id in handlers ==> Historical(rules, s, log, handlers[id])
  }

  /* ---------- Every step keeps the fencing ---------- */

  /** Nothing that fencing speaks of has changed, apart from rows written under the current token. */
  ghost predicate FenceFrame<S(!new)>(sys: System<S>, after: System<S>) {
    var t, u := sys.tables, after.tables;
    && after.granted == sys.granted
    && (t.lease.None? ==> u == t)
    && (t.lease.Some? ==>
          && u.lease.Some?
          && u.lease.value.(until := 0) == t.lease.value.(until := 0)
          && (u.checkpoint == t.checkpoint || (u.checkpoint.Some? &&
                u.checkpoint.value.token == t.lease.value.token && u.checkpoint.value.game == t.lease.value.game))
          && (u.presence == t.presence || (u.presence.Some? &&
                u.presence.value.token == t.lease.value.token && u.presence.value.game == t.lease.value.game)))
    && (forall id :: id in after.handlers ==> after.handlers[id].lease in sys.granted)
  }

  lemma FrameFenced<S(!new)>(sys: System<S>, after: System<S>)
    requires Fenced(sys) && FenceFrame(sys, after)
    ensures Fenced(after)
  {
  }

  /** Handing out `l` keeps the fencing if its token is the current one of the same owner, or the next. */
  lemma GrantFenced<S(!new)>(sys: System<S>, after: System<S>, l: Lease)
    requires Fenced(sys)
    requires after.granted == sys.granted + {l} && after.handlers == sys.handlers && after.tables.lease == Some(l)
    requires l.token >= 1
    requires sys.tables.lease.Some? ==>
      var row := sys.tables.lease.value;
      l.game == row.game && ((l.token == row.token && l.instance == row.instance) || l.token == row.token + 1)
    requires after.tables.checkpoint.Some? ==>
      after.tables.checkpoint.value.token == l.token && after.tables.checkpoint.value.game == l.game
    requires after.tables.presence.Some? ==>
      after.tables.presence.value.token == l.token && after.tables.presence.value.game == l.game
    ensures Fenced(after)
  {
    forall m | m in sys.granted ensures SameRoom(l, m) {
      assert SameRoom(sys.tables.lease.value, m);
    }
    forall m, n | m in after.granted && n in after.granted && m.token == n.token ensures m.instance == n.instance {
      assert m in sys.granted ==> SameRoom(l, m);
      assert n in sys.granted ==> SameRoom(l, n);
    }
  }

  lemma AcquireFenced<S(!new)>(sys: System<S>, owner: string, game: string, duration: int, now: int)
    requires Fenced(sys)
    ensures Fenced(Granting(sys, Acquire(sys.tables, owner, game, duration, now)))
  {
    var o := Acquire(sys.tables, owner, game, duration, now);
    if o.reply.Ok? {
      GrantFenced(sys, Granting(sys, o), o.reply.value);
    }
  }

  lemma RenewFenced<S(!new)>(sys: System<S>, l: Lease, duration: int, now: int)
    requires Fenced(sys) && l in sys.granted
    ensures Fenced(Granting(sys, Renew(sys.tables, l, duration, now)))
  {
  }

  lemma CommitFrame<S(!new)>(rules: Rules<S>, sys: System<S>, id: nat, now: int, d: Delivery)
    requires Fenced(sys) && id in sys.handlers && sys.handlers[id].pending.Some?
    ensures FenceFrame(sys, Committing(rules, sys, id, now, d))
  {
  }

  lemma OtherFrame<S(!new)>(rules: Rules<S>, sys: System<S>, step: Step<S>)
    requires Fenced(sys) && !step.DoAcquire? && !step.DoRenew? && !step.DoCommit?
    ensures FenceFrame(sys, Do(rules, sys, step))
  {
    match step
    case DoInitialize(_, _, _, _) => HandlerFrame(rules, sys, step);
    case DoLoad(_, _, _) => HandlerFrame(rules, sys, step);
    case DoSubmit(_, _, _) => HandlerFrame(rules, sys, step);
    case _ =>
  }

  lemma HandlerFrame<S(!new)>(rules: Rules<S>, sys: System<S>, step: Step<S>)
    requires Fenced(sys) && (step.DoInitialize? || step.DoLoad? || step.DoSubmit?)
    ensures FenceFrame(sys, Do(rules, sys, step))
  {
  }

  lemma FencedStep<S(!new)>(rules: Rules<S>, sys: System<S>, step: Step<S>)
    requires Fenced(sys)
    ensures Fenced(Do(rules, sys, step))
  {
    match step
    case DoAcquire(owner, game, duration, now) => AcquireFenced(sys, owner, game, duration, now);
    case DoRenew(l, duration, now) =>
      if l in sys.granted { RenewFenced(sys, l, duration, now); }
    case DoCommit(id, now, d) =>
      if id in sys.handlers && sys.handlers[id].pending.Some? {
        CommitFrame(rules, sys, id, now, d);
        FrameFenced(sys, Committing(rules, sys, id, now, d));
      }
    case _ =>
      OtherFrame(rules, sys, step);
      FrameFenced(sys, Do(rules, sys, step));
  }

  /* ---------- Every step keeps the refinement ---------- */

  /** The part of the tables that the log explains: the checkpoint but for its token, and the rows. */
  ghost predicate LogFrame(t: Tables, u: Tables) {
    && u.commands == t.commands && u.finalizations == t.finalizations && u.proof == t.proof
    && (t.checkpoint.None? <==> u.checkpoint.None?)
    && (t.checkpoint.Some? ==>
          && u.checkpoint.value.version == t.checkpoint.value.version
          && u.checkpoint.value.state == t.checkpoint.value.state
          && u.checkpoint.value.checksum == t.checkpoint.value.checksum)
  }

  /** Steps that only touch the lease and the presence row, or drop a handler. */
  lemma QuietRefines<S(!new)>(rules: Rules<S>, sys: System<S>, after: System<S>)
    requires Refines(rules, sys) && LogFrame(sys.tables, after.tables)
    requires after.origin == sys.origin && after.log == sys.log
    requires forall id :: id in after.handlers ==> id in sys.handlers && after.handlers[id] == sys.handlers[id]
    ensures Refines(rules, after)
  {
    if sys.tables.checkpoint.None? {
      assert after.handlers.Keys == {};
    }
  }

  lemma InitializeRefines<S(!new)>(rules: Rules<S>, sys: System<S>, id: nat, l: Lease, s: S, now: int)
    requires Lawful(rules) && Refines(rules, sys)
    ensures Refines(rules, Initializing(rules, sys, id, l, s, now))
  {
    assert sys.log[..0] == [];
  }

  /** Adding a handler whose memory is historical. */
  lemma HandlerRefines<S(!new)>(rules: Rules<S>, sys: System<S>, id: nat, h: Handler<S>)
    requires Refines(rules, sys) && sys.tables.checkpoint.Some?
    requires Historical(rules, sys.origin.value, sys.log, h)
    ensures Refines(rules, sys.(handlers := sys.handlers[id := h]))
  {
  }

  lemma LoadRefines<S(!new)>(rules: Rules<S>, sys: System<S>, id: nat, l: Lease, now: int)
    requires Lawful(rules) && Refines(rules, sys)
    ensures Refines(rules, Loading(rules, sys, id, l, now))
  {
    var r := Load(VersionOf(rules), sys.tables, l, now);
    if r.Ok? && r.value.Some? {
      assert sys.log[..|sys.log|] == sys.log;
      FoldPrefix(rules, sys.origin.value, sys.log, |sys.log|);
      HandlerRefines(rules, sys, id, Handler(l, rules.parse(r.value.value.state).value, None));
    }
  }

  lemma SubmitRefines<S(!new)>(rules: Rules<S>, sys: System<S>, id: nat, input: Input, now: int)
    requires Refines(rules, sys) && id in sys.handlers
    ensures Refines(rules, Submitting(rules, sys, id, input, now))
  {
    PreparedRefines(rules, sys, id, input);
  }

  /** A handler that has computed its next command is still historical. */
  lemma PreparedRefines<S(!new)>(rules: Rules<S>, sys: System<S>, id: nat, input: Input)
    requires Refines(rules, sys) && id in sys.handlers
    ensures Refines(rules, sys.(handlers := sys.handlers[id := sys.handlers[id].(pending := Prepare(rules, sys.handlers[id].state, input))]))
  {
    PreparedHistorical(rules, sys.origin.value, sys.log, sys.handlers[id], input);
    HandlerRefines(rules, sys, id, sys.handlers[id].(pending := Prepare(rules, sys.handlers[id].state, input)));
  }

  lemma PreparedHistorical<S(!new)>(rules: Rules<S>, s: S, log: seq<Entry>, h: Handler<S>, input: Input)
    requires Historical(rules, s, log, h)
    ensures Historical(rules, s, log, h.(pending := Prepare(rules, h.state, input)))
  {
    var p := Prepare(rules, h.state, input);
    assert p.Some? ==> p.value.input == input;
  }

  /** A commit that goes through was computed from the newest state. */
  lemma AcceptedIsNext<S(!new)>(rules: Rules<S>, sys: System<S>, id: nat, now: int)
    requires Lawful(rules) && Refines(rules, sys) && id in sys.handlers && sys.handlers[id].pending.Some?
    requires var o := Attempt(rules, sys, id, now); o.reply.Ok? && !o.reply.value.duplicate
    ensures sys.origin.Some?
    ensures Fold(rules, sys.origin.value, sys.log) == Some(sys.handlers[id].state)
    ensures var p := sys.handlers[id].pending.value;
      && Prepare(rules, sys.handlers[id].state, p.input) == Some(p)
      && Accepts(VersionOf(rules), sys.tables, sys.handlers[id].lease, p.commit, now)
      && Attempt(rules, sys, id, now)
         == Outcome(Committed(rules.collation, sys.tables, sys.handlers[id].lease, p.commit),
                    Ok(CommitReply(p.commit.acknowledgement, false)))
  {
    var h := sys.handlers[id];
    CommitExactly(rules.collation, VersionOf(rules), sys.tables, h.lease, h.pending.value.commit, now);
    NewestIfCurrent(rules, sys, h);
  }

  /** A handler whose next version is one past the checkpoint's has the newest state. */
  lemma NewestIfCurrent<S(!new)>(rules: Rules<S>, sys: System<S>, h: Handler<S>)
    requires Lawful(rules) && Refines(rules, sys) && sys.tables.checkpoint.Some?
    requires Historical(rules, sys.origin.value, sys.log, h) && h.pending.Some?
    requires h.pending.value.commit.version == sys.tables.checkpoint.value.version + 1
    ensures Fold(rules, sys.origin.value, sys.log) == Some(h.state)
  {
    assert sys.log[..|sys.log|] == sys.log;
    FoldPrefix(rules, sys.origin.value, sys.log, |sys.log|);
  }

  lemma FoldOneMore<S(!new)>(rules: Rules<S>, s: S, log: seq<Entry>, x: S, p: Pending<S>, a: Acknowledgement)
    requires Fold(rules, s, log) == Some(x) && Prepare(rules, x, p.input) == Some(p)
    ensures Fold(rules, s, log + [Entry(p.input, a)]) == Some(p.next)
  {
    var longer := log + [Entry(p.input, a)];
    assert longer[..|longer| - 1] == log;
  }

  lemma RowsOneMore<S(!new)>(rules: Rules<S>, v: int, log: seq<Entry>, commands: map<CommandKey, CommandRow>, e: Entry)
    requires RowsMatch(rules, v, log, commands) && Key(e) !in commands
    ensures RowsMatch(rules, v, log + [e], commands[Key(e) := RowOf(rules, v, |log|, e)])
  {
    var longer, after := log + [e], commands[Key(e) := RowOf(rules, v, |log|, e)];
    forall i | 0 <= i < |log| ensures longer[i] == log[i] && Key(log[i]) != Key(e) {
      assert Key(log[i]) in commands;
    }
    forall k | k in after ensures exists i :: 0 <= i < |longer| && Key(longer[i]) == k {
      KeyStaysLogged(log, e, k);
    }
  }

  /** Appending to a log adds its own key and loses none. */
  lemma KeyStaysLogged(log: seq<Entry>, e: Entry, k: CommandKey)
    requires k == Key(e) || exists i :: 0 <= i < |log| && Key(log[i]) == k
    ensures exists i :: 0 <= i < |log + [e]| && Key((log + [e])[i]) == k
  {
    if k == Key(e) {
      assert Key((log + [e])[|log|]) == k;
    } else {
      var i :| 0 <= i < |log| && Key(log[i]) == k;
      assert Key((log + [e])[i]) == k;
    }
  }

  function Outboxed<S>(rules: Rules<S>, outbox: map<CommandKey, Finalization>, e: Entry): map<CommandKey, Finalization> {
    var f := FinalizationOf(rules, e.input);
    if f.Some? then outbox[Key(e) := f.value] else outbox
  }

  lemma OutboxOneMore<S(!new)>(rules: Rules<S>, log: seq<Entry>, outbox: map<CommandKey, Finalization>, e: Entry)
    requires OutboxMatches(rules, log, outbox) && forall i :: 0 <= i < |log| ==> Key(log[i]) != Key(e)
    ensures OutboxMatches(rules, log + [e], Outboxed(rules, outbox, e))
  {
    var longer, after := log + [e], Outboxed(rules, outbox, e);
    assert forall i :: 0 <= i < |log| ==> longer[i] == log[i];
    assert Key(e) !in outbox;
    forall k | k in after ensures exists i :: 0 <= i < |longer| && Key(longer[i]) == k {
      if k == Key(e) {
        assert Key(longer[|log|]) == k;
      } else {
        var i :| 0 <= i < |log| && Key(log[i]) == k;
        assert Key(longer[i]) == k;
      }
    }
  }

  lemma RecordedOneMore<S(!new)>(rules: Rules<S>, v: int, log: seq<Entry>, t: Tables, l: Lease, p: Pending<S>, x: S)
    requires Recorded(rules, v, log, t) && Prepare(rules, x, p.input) == Some(p)
    requires KeyOf(p.commit) !in t.commands
    requires p.commit.command.expectedVersion == v + |log| && p.commit.version == v + |log| + 1
    ensures Recorded(rules, v, log + [Entry(p.input, p.commit.acknowledgement)], Committed(rules.collation, t, l, p.commit))
  {
    var e := Entry(p.input, p.commit.acknowledgement);
    assert forall i :: 0 <= i < |log| ==> Key(log[i]) in t.commands;
    RowsOneMore(rules, v, log, t.commands, e);
    OutboxOneMore(rules, log, t.finalizations, e);
  }

  lemma ProofOneMore<S(!new)>(rules: Rules<S>, s: S, log: seq<Entry>, t: Tables, l: Lease, p: Pending<S>, x: S)
    requires ProofSound(rules, s, log, t.proof) && Fold(rules, s, log) == Some(x) && Prepare(rules, x, p.input) == Some(p)
    requires p.commit.version == rules.version(s) + |log| + 1
    ensures ProofSound(rules, s, log + [Entry(p.input, p.commit.acknowledgement)],
                       Committed(rules.collation, t, l, p.commit).proof)
  {
    var e := Entry(p.input, p.commit.acknowledgement);
    if p.commit.verdict.Some? {
      FoldOneMore(rules, s, log, x, p, p.commit.acknowledgement);
      NewProofSound(rules, s, log + [e], p.next, Proof(l.game, p.commit.version, p.commit.state, p.commit.verdict.value));
    } else {
      OldProofSound(rules, s, log, e, t.proof);
    }
  }

  /** A proof stays sound when the log grows. */
  lemma OldProofSound<S(!new)>(rules: Rules<S>, s: S, log: seq<Entry>, e: Entry, proof: Option<Proof>)
    requires ProofSound(rules, s, log, proof)
    ensures ProofSound(rules, s, log + [e], proof)
  {
    if proof.Some? {
      var k := proof.value.version - rules.version(s);
      assert (log + [e])[..k] == log[..k];
    }
  }

  /** The verdict on the state at the end of the log, with that state's checksum. */
  lemma NewProofSound<S(!new)>(rules: Rules<S>, s: S, log: seq<Entry>, x: S, proof: Proof)
    requires log != [] && Fold(rules, s, log) == Some(x) && proof.version == rules.version(s) + |log|
    requires proof.checksum == rules.serialize(x) && rules.verdict(x) == Some(proof.verdict)
    ensures ProofSound(rules, s, log, Some(proof))
  {
    assert log[..|log|] == log;
  }

  lemma HistoricalLonger<S(!new)>(rules: Rules<S>, s: S, log: seq<Entry>, e: Entry, h: Handler<S>)
    requires Historical(rules, s, log, h)
    ensures Historical(rules, s, log + [e], h)
  {
    var k := rules.version(h.state) - rules.version(s);
    assert (log + [e])[..k] == log[..k];
  }

  lemma AcceptedDurable<S(!new)>(rules: Rules<S>, s: S, log: seq<Entry>, t: Tables, l: Lease, x: S, p: Pending<S>)
    requires Lawful(rules) && Durable(rules, s, log, t)
    requires Fold(rules, s, log) == Some(x) && Prepare(rules, x, p.input) == Some(p)
    requires ResultConsistent(p.commit) && KeyOf(p.commit) !in t.commands
    ensures Durable(rules, s, log + [Entry(p.input, p.commit.acknowledgement)], Committed(rules.collation, t, l, p.commit))
  {
    assert log[..|log|] == log;
    FoldPrefix(rules, s, log, |log|);
    FoldOneMore(rules, s, log, x, p, p.commit.acknowledgement);
    RecordedOneMore(rules, rules.version(s), log, t, l, p, x);
    ProofOneMore(rules, s, log, t, l, p, x);
  }

  /** Whether or not the reply arrives, the committing handler ends in a historical state. */
  lemma AcceptedHistorical<S(!new)>(rules: Rules<S>, s: S, log: seq<Entry>, l: Lease, x: S, p: Pending<S>)
    requires Lawful(rules) && Fold(rules, s, log) == Some(x) && Prepare(rules, x, p.input) == Some(p)
    ensures Historical(rules, s, log + [Entry(p.input, p.commit.acknowledgement)], Handler(l, p.next, None))
    ensures Historical(rules, s, log + [Entry(p.input, p.commit.acknowledgement)], Handler(l, x, None))
  {
    var longer := log + [Entry(p.input, p.commit.acknowledgement)];
    assert log[..|log|] == log && longer[..|log|] == log && longer[..|longer|] == longer;
    FoldPrefix(rules, s, log, |log|);
    FoldOneMore(rules, s, log, x, p, p.commit.acknowledgement);
  }

  /** The system after an accepted commit, in terms of the committed value. */
  lemma AcceptedSystem<S(!new)>(rules: Rules<S>, sys: System<S>, id: nat, now: int, d: Delivery)
    requires Lawful(rules) && Refines(rules, sys) && id in sys.handlers && sys.handlers[id].pending.Some?
    requires var o := Attempt(rules, sys, id, now); o.reply.Ok? && !o.reply.value.duplicate
    requires !d.RolledBack?
    ensures var h := sys.handlers[id];
      var p := h.pending.value;
      Committing(rules, sys, id, now, d) == System(
        Committed(rules.collation, sys.tables, h.lease, p.commit), sys.granted,
        sys.handlers[id := Handler(h.lease, if d.Delivered? then p.next else h.state, None)],
        sys.origin, sys.log + [Entry(p.input, p.commit.acknowledgement)])
  {
    AcceptedIsNext(rules, sys, id, now);
  }

  lemma HandlersLonger<S(!new)>(rules: Rules<S>, s: S, log: seq<Entry>, e: Entry, hs: map<nat, Handler<S>>, id: nat, h: Handler<S>)
    requires AllHistorical(rules, s, log, hs) && Historical(rules, s, log + [e], h)
    ensures AllHistorical(rules, s, log + [e], hs[id := h])
  {
    forall i | i in hs ensures Historical(rules, s, log + [e], hs[i]) {
      HistoricalLonger(rules, s, log, e, hs[i]);
    }
  }

  lemma RefinesIntro<S(!new)>(rules: Rules<S>, sys: System<S>, s: S)
    requires sys.origin == Some(s) && Durable(rules, s, sys.log, sys.tables)
    requires AllHistorical(rules, s, sys.log, sys.handlers)
    ensures Refines(rules, sys)
  {
  }

  lemma AcceptedRefines<S(!new)>(rules: Rules<S>, sys: System<S>, id: nat, now: int, d: Delivery)
    requires Lawful(rules) && Refines(rules, sys) && id in sys.handlers && sys.handlers[id].pending.Some?
    requires var o := Attempt(rules, sys, id, now); o.reply.Ok? && !o.reply.value.duplicate
    requires !d.RolledBack?
    ensures Refines(rules, Committing(rules, sys, id, now, d))
  {
    var h := sys.handlers[id];
    var p := h.pending.value;
    AcceptedIsNext(rules, sys, id, now);
    AcceptedRefinesAs(rules, sys, sys.origin.value, id, h.lease, h.state, p,
                      Handler(h.lease, if d.Delivered? then p.next else h.state, None));
    AcceptedSystem(rules, sys, id, now, d);
  }

  lemma AcceptedRefinesAs<S(!new)>(
    rules: Rules<S>, sys: System<S>, s: S, id: nat, l: Lease, x: S, p: Pending<S>, h: Handler<S>)
    requires Lawful(rules) && sys.origin == Some(s) && Durable(rules, s, sys.log, sys.tables)
    requires AllHistorical(rules, s, sys.log, sys.handlers)
    requires Fold(rules, s, sys.log) == Some(x) && Prepare(rules, x, p.input) == Some(p)
    requires ResultConsistent(p.commit) && KeyOf(p.commit) !in sys.tables.commands
    requires h == Handler(l, p.next, None) || h == Handler(l, x, None)
    ensures Refines(rules, System(
      Committed(rules.collation, sys.tables, l, p.commit), sys.granted, sys.handlers[id := h],
      sys.origin, sys.log + [Entry(p.input, p.commit.acknowledgement)]))
  {
    var e := Entry(p.input, p.commit.acknowledgement);
    AcceptedDurable(rules, s, sys.log, sys.tables, l, x, p);
    AcceptedHistorical(rules, s, sys.log, l, x, p);
    HandlersLonger(rules, s, sys.log, e, sys.handlers, id, h);
    RefinesIntro(rules, System(
      Committed(rules.collation, sys.tables, l, p.commit), sys.granted, sys.handlers[id := h],
      sys.origin, sys.log + [e]), s);
  }

  lemma CommitRefines<S(!new)>(rules: Rules<S>, sys: System<S>, id: nat, now: int, d: Delivery)
    requires Lawful(rules) && Refines(rules, sys) && id in sys.handlers && sys.handlers[id].pending.Some?
    ensures Refines(rules, Committing(rules, sys, id, now, d))
  {
    var o := Attempt(rules, sys, id, now);
    if d.RolledBack? || o.reply.Err? || o.reply.value.duplicate {
      RefusedRefines(rules, sys, id);
    } else {
      AcceptedRefines(rules, sys, id, now, d);
    }
  }

  /** A commit that does not go through only clears what was pending. */
  lemma RefusedRefines<S(!new)>(rules: Rules<S>, sys: System<S>, id: nat)
    requires Refines(rules, sys) && id in sys.handlers
    ensures Refines(rules, sys.(handlers := sys.handlers[id := sys.handlers[id].(pending := None)]))
  {
    HandlerRefines(rules, sys, id, sys.handlers[id].(pending := None));
  }

  lemma LeaseStepsAreQuiet(t: Tables, l: Lease, owner: string, game: string, duration: int, now: int)
    ensures LogFrame(t, Acquire(t, owner, game, duration, now).tables)
    ensures LogFrame(t, Renew(t, l, duration, now).tables) && LogFrame(t, Release(t, l, now).tables)
  {
  }

  lemma PresenceStepsAreQuiet(t: Tables, l: Lease, now: int)
    ensures LogFrame(t, MarkConnected(t, l, now).tables) && LogFrame(t, MarkAllOffline(t, l, now).tables)
  {
  }

  lemma QuietStep<S(!new)>(rules: Rules<S>, sys: System<S>, step: Step<S>)
    requires Refines(rules, sys)
    requires !step.DoInitialize? && !step.DoLoad? && !step.DoSubmit? && !step.DoCommit?
    ensures Refines(rules, Do(rules, sys, step))
  {
    if step.DoAcquire? || step.DoRenew? || step.DoRelease? {
      LeaseStepKeepsLog(rules, sys, step);
    } else {
      OtherStepKeepsLog(rules, sys, step);
    }
    QuietRefines(rules, sys, Do(rules, sys, step));
  }

  /** Nothing that the log explains has changed, and no handler has appeared. */
  ghost predicate KeepsLog<S(!new)>(sys: System<S>, after: System<S>) {
    && LogFrame(sys.tables, after.tables) && after.log == sys.log && after.origin == sys.origin
    && forall id :: id in after.handlers ==> id in sys.handlers && after.handlers[id] == sys.handlers[id]
  }

  lemma LeaseStepKeepsLog<S(!new)>(rules: Rules<S>, sys: System<S>, step: Step<S>)
    requires step.DoAcquire? || step.DoRenew? || step.DoRelease?
    ensures KeepsLog(sys, Do(rules, sys, step))
  {
    match step
    case DoAcquire(owner, game, duration, now) =>
      LeaseStepsAreQuiet(sys.tables, Lease(owner, game, 0, 0), owner, game, duration, now);
    case DoRenew(l, duration, now) => LeaseStepsAreQuiet(sys.tables, l, l.instance, l.game, duration, now);
    case DoRelease(l, now) => LeaseStepsAreQuiet(sys.tables, l, l.instance, l.game, 0, now);
  }

  lemma OtherStepKeepsLog<S(!new)>(rules: Rules<S>, sys: System<S>, step: Step<S>)
    requires step.DoCrash? || step.DoConnected? || step.DoAllOffline?
    ensures KeepsLog(sys, Do(rules, sys, step))
  {
    match step
    case DoConnected(l, now) => PresenceStepsAreQuiet(sys.tables, l, now);
    case DoAllOffline(l, now) => PresenceStepsAreQuiet(sys.tables, l, now);
    case DoCrash(_) =>
  }

  lemma RefinesStep<S(!new)>(rules: Rules<S>, sys: System<S>, step: Step<S>)
    requires Lawful(rules) && Refines(rules, sys)
    ensures Refines(rules, Do(rules, sys, step))
  {
    match step
    case DoInitialize(id, l, s, now) =>
      if l in sys.granted && id !in sys.handlers { InitializeRefines(rules, sys, id, l, s, now); }
    case DoLoad(id, l, now) =>
      if l in sys.granted && id !in sys.handlers { LoadRefines(rules, sys, id, l, now); }
    case DoSubmit(id, input, now) =>
      if id in sys.handlers && sys.handlers[id].pending.None? { SubmitRefines(rules, sys, id, input, now); }
    case DoCommit(id, now, d) =>
      if id in sys.handlers && sys.handlers[id].pending.Some? { CommitRefines(rules, sys, id, now, d); }
    case _ => QuietStep(rules, sys, step);
  }

  lemma {:induction false} ReachInvariant<S(!new)>(rules: Rules<S>, steps: seq<Step<S>>)
    requires Lawful(rules)
    ensures Fenced(Reach(rules, steps)) && Refines(rules, Reach(rules, steps))
    decreases |steps|
  {
    if steps != [] {
      var before := steps[..|steps| - 1];
      ReachInvariant(rules, before);
      FencedStep(rules, Reach(rules, before), steps[|steps| - 1]);
      RefinesStep(rules, Reach(rules, before), steps[|steps| - 1]);
    }
  }
}
