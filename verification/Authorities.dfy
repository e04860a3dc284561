/**
 * The two authorities together, for one room and its session. The API reads the room's terminal proof
 * and its outbox through views of the game server's tables; everything else on either side is free to
 * interleave. Whoever is paid is the winner that the room's own log decides, and every finalization the
 * API carries out was committed to that log.
 */
module Authorities {
  import opened Outcomes
  import RoomTables
  import RoomLog
  import RoomGuarantees
  import opened CoinBank
  import opened Sessions
  import opened SessionGuarantees
  import Soundness
  import LiveRooms

  /** The session of the room on the API's side, and what the room's identifiers and checksums are called there. */
  datatype Names = Names(
    game: GameId,
    room: RoomId,
    player: string -> PlayerId,
    reservation: string -> ReservationId,
    text: RoomTables.Blob -> string)

  datatype Joint<S> = Joint(sys: RoomLog.System<S>, db: Db)

  datatype JointStep<S> = InRoom(step: RoomLog.Step<S>) | InApi(call: Call)

  /* ---------- The views ---------- */

  /** The room's proof row as api_settlement_proofs shows it. */
  function ProofView(names: Names, p: RoomTables.Proof): TerminalProof
    requires p.version >= 0
  {
    TerminalProof(names.room, p.version, names.text(p.checksum), names.player(p.verdict.winner))
  }

  function ActionView(a: RoomTables.Action): Action {
    if a == RoomTables.LeaveSession then LeaveRoom else CancelRoom
  }

  /** An outbox row as api_session_finalizations shows it, handed to the API at `now`. */
  function OutboxCall(names: Names, k: RoomTables.CommandKey, f: RoomTables.Finalization, now: int): Call {
    CallFinalize(
      names.game, Binding(names.room, names.player(k.player), names.reservation(f.reservation)), ActionView(f.action), f.key, now)
  }

  /** What the API is told about this room's session is what the room's tables say. */
  predicate Truthful(names: Names, t: RoomTables.Tables, call: Call) {
    match call
    case RoomProved(g, proof) =>
      g == names.game ==> t.proof.Some? && t.proof.value.version >= 0 && proof == ProofView(names, t.proof.value)
    case CallFinalize(g, _, _, _, now) =>
      g == names.game ==> exists k :: k in t.finalizations && call == OutboxCall(names, k, t.finalizations[k], now)
    case _ => true
  }

  /* ---------- Joint runs ---------- */

  function Move<S>(rules: RoomLog.Rules<S>, cfg: Config, names: Names, j: Joint<S>, step: JointStep<S>): Joint<S> {
    match step
    case InRoom(s) => j.(sys := RoomLog.Do(rules, j.sys, s))
    case InApi(call) => if Truthful(names, j.sys.tables, call) then j.(db := Step(cfg, j.db, call).db) else j
  }

  function Meet<S>(rules: RoomLog.Rules<S>, cfg: Config, names: Names, steps: seq<JointStep<S>>): Joint<S> {
    if steps == [] then Joint(RoomLog.Start(), EMPTY)
    else Move(rules, cfg, names, Meet(rules, cfg, names, steps[..|steps| - 1]), steps[|steps| - 1])
  }

  function RoomSide<S>(steps: seq<JointStep<S>>): seq<RoomLog.Step<S>> {
    if steps == [] then []
    else
      var earlier, last := RoomSide(steps[..|steps| - 1]), steps[|steps| - 1];
      if last.InRoom? then earlier + [last.step] else earlier
  }

  function ApiSide<S>(rules: RoomLog.Rules<S>, cfg: Config, names: Names, steps: seq<JointStep<S>>): seq<Call> {
    if steps == [] then []
    else
      var init, last := steps[..|steps| - 1], steps[|steps| - 1];
      var earlier := ApiSide(rules, cfg, names, init);
      if last.InApi? && Truthful(names, Meet(rules, cfg, names, init).sys.tables, last.call) then earlier + [last.call] else earlier
  }

  /** Each side of a joint run is an ordinary run, so all that is proved of either side holds here. */
  lemma {:induction false} SidesAreRuns<S>(rules: RoomLog.Rules<S>, cfg: Config, names: Names, steps: seq<JointStep<S>>)
    ensures Meet(rules, cfg, names, steps)
         == Joint(RoomLog.Reach(rules, RoomSide(steps)), Reached(cfg, ApiSide(rules, cfg, names, steps)))
    decreases |steps|
  {
    if steps != [] {
      var init, last := steps[..|steps| - 1], steps[|steps| - 1];
      SidesAreRuns(rules, cfg, names, init);
      if last.InRoom? {
        RoomRunSnoc(rules, RoomSide(init), last.step);
      } else {
        ReachedStep(cfg, ApiSide(rules, cfg, names, init), last.call);
      }
    }
  }

  lemma RoomRunSnoc<S>(rules: RoomLog.Rules<S>, steps: seq<RoomLog.Step<S>>, step: RoomLog.Step<S>)
    ensures RoomLog.Reach(rules, steps + [step]) == RoomLog.Do(rules, RoomLog.Reach(rules, steps), step)
  {
    assert (steps + [step])[..|steps + [step]| - 1] == steps;
  }

  /* ---------- The proof the API holds is the room's ---------- */

  /** A terminal proof is written once. */
  lemma ProofStands<S(!new)>(rules: RoomLog.Rules<S>, sys: RoomLog.System<S>, step: RoomLog.Step<S>)
    requires sys.tables.proof.Some?
    ensures RoomLog.Do(rules, sys, step).tables.proof == sys.tables.proof
  {
    if step.DoCommit? {
      if step.id in sys.handlers && sys.handlers[step.id].pending.Some? {
        var h := sys.handlers[step.id];
        RoomTables.CommitExactly(rules.collation, RoomLog.VersionOf(rules), sys.tables, h.lease, h.pending.value.commit, step.now);
      }
    } else {
      OtherStepsKeepProof(rules, sys, step);
    }
  }

  lemma OtherStepsKeepProof<S(!new)>(rules: RoomLog.Rules<S>, sys: RoomLog.System<S>, step: RoomLog.Step<S>)
    requires !step.DoCommit?
    ensures RoomLog.Do(rules, sys, step).tables.proof == sys.tables.proof
  {
    match step
    case DoInitialize(_, _, _, _) =>
    case DoLoad(_, _, _) =>
    case DoSubmit(_, _, _) =>
    case _ => RoomGuarantees.QuietGrows(rules, sys, step);
  }

  ghost predicate ProofAgrees<S>(names: Names, j: Joint<S>) {
    names.game in j.db.proofs ==>
      && j.sys.tables.proof.Some? && j.sys.tables.proof.value.version >= 0
      && j.db.proofs[names.game] == ProofView(names, j.sys.tables.proof.value)
  }

  lemma {:induction false} ProofsAgree<S(!new)>(rules: RoomLog.Rules<S>, cfg: Config, names: Names, steps: seq<JointStep<S>>)
    ensures ProofAgrees(names, Meet(rules, cfg, names, steps))
    decreases |steps|
  {
    if steps != [] {
      var init, last := steps[..|steps| - 1], steps[|steps| - 1];
      var j := Meet(rules, cfg, names, init);
      ProofsAgree(rules, cfg, names, init);
      if last.InRoom? {
        if j.sys.tables.proof.Some? {
          ProofStands(rules, j.sys, last.step);
        }
      } else {
        OnlyTheRoomProves(cfg, j.db, last.call);
      }
    }
  }

  /* ---------- Who is paid ---------- */

  /** The state the room's log reaches at version `v`, if it gets that far. */
  ghost predicate StateAt<S(!new)>(rules: RoomLog.Rules<S>, sys: RoomLog.System<S>, v: int, x: S) {
    && sys.origin.Some?
    && var k := v - rules.version(sys.origin.value);
    && 0 < k <= |sys.log|
    && RoomLog.Fold(rules, sys.origin.value, sys.log[..k]) == Some(x)
  }

  /**
   * A settlement that commits pays the player whom the rules declare the winner in the state that the
   * room's log reaches at the settled version, and the checksum it was given is that state's.
   */
  lemma PaidWinnerIsTheVerdict<S(!new)>(rules: RoomLog.Rules<S>, cfg: Config, names: Names, steps: seq<JointStep<S>>,
      room: RoomId, version: nat, checksum: string, key: string, now: int) returns (winner: ReservationId, x: S)
    requires RoomLog.Lawful(rules) && ValidConfig(cfg)
    requires var db := Meet(rules, cfg, names, steps).db;
      && names.game in db.sessions && OpKey(db.sessions[names.game].creator, SettleSession, key) !in db.ops
      && Settle(db, names.game, room, version, checksum, key, now).reply.Ok?
    ensures var j := Meet(rules, cfg, names, steps);
      && StateAt(rules, j.sys, version, x)
      && rules.verdict(x).Some? && winner in j.db.seats
      && names.player(rules.verdict(x).value.winner) == j.db.seats[winner].player
      && names.text(rules.serialize(x)) == checksum
      && Settles(j.db, Settle(j.db, names.game, room, version, checksum, key, now).db, names.game, version, winner)
  {
    var j := Meet(rules, cfg, names, steps);
    SidesAreRuns(rules, cfg, names, steps);
    winner := SettleExactly(cfg, ApiSide(rules, cfg, names, steps), names.game, room, version, checksum, key, now);
    ProofsAgree(rules, cfg, names, steps);
    RoomGuarantees.TerminalProofIsHistorical(rules, RoomSide(steps));
    x := ProvedState(rules, j.sys);
  }

  lemma ProvedState<S(!new)>(rules: RoomLog.Rules<S>, sys: RoomLog.System<S>) returns (x: S)
    requires sys.tables.proof.Some? && sys.origin.Some?
    requires RoomLog.ProofSound(rules, sys.origin.value, sys.log, sys.tables.proof)
    ensures var p := sys.tables.proof.value;
      && StateAt(rules, sys, p.version, x) && p.checksum == rules.serialize(x) && rules.verdict(x) == Some(p.verdict)
  {
    x := RoomLog.Fold(rules, sys.origin.value, sys.log[..sys.tables.proof.value.version - rules.version(sys.origin.value)]).value;
  }

  /* ---------- What is finalized ---------- */

  /** The call carries out a leave or cancel that the room's log holds. */
  ghost predicate Logged<S(!new)>(rules: RoomLog.Rules<S>, names: Names, sys: RoomLog.System<S>, call: Call) {
    exists i :: 0 <= i < |sys.log| && LoggedAt(rules, names, sys.log[i], call)
  }

  predicate LoggedAt<S>(rules: RoomLog.Rules<S>, names: Names, e: RoomLog.Entry, call: Call) {
    && call.CallFinalize? && RoomLog.FinalizationOf(rules, e.input).Some?
    && call == OutboxCall(names, RoomLog.Key(e), RoomLog.FinalizationOf(rules, e.input).value, call.now)
  }

  lemma OutboxIsLogged<S(!new)>(rules: RoomLog.Rules<S>, names: Names, steps: seq<RoomLog.Step<S>>, k: RoomTables.CommandKey, now: int)
    requires RoomLog.Lawful(rules) && k in RoomLog.Reach(rules, steps).tables.finalizations
    ensures var sys := RoomLog.Reach(rules, steps); Logged(rules, names, sys, OutboxCall(names, k, sys.tables.finalizations[k], now))
  {
    var sys := RoomLog.Reach(rules, steps);
    RoomLog.ReachInvariant(rules, steps);
    RoomGuarantees.EndingsReachTheOutbox(rules, steps);
    var i :| 0 <= i < |sys.log| && RoomLog.Key(sys.log[i]) == k;
    assert RoomGuarantees.EndingStored(rules, sys.log[i], sys.tables.finalizations);
    assert LoggedAt(rules, names, sys.log[i], OutboxCall(names, k, sys.tables.finalizations[k], now));
  }

  lemma LoggedStays<S(!new)>(rules: RoomLog.Rules<S>, names: Names, sys: RoomLog.System<S>, after: RoomLog.System<S>, call: Call)
    requires Logged(rules, names, sys, call) && sys.log <= after.log
    ensures Logged(rules, names, after, call)
  {
    var i :| 0 <= i < |sys.log| && LoggedAt(rules, names, sys.log[i], call);
    assert after.log[i] == sys.log[i];
  }

  lemma RoomSideGrows<S(!new)>(rules: RoomLog.Rules<S>, steps: seq<RoomLog.Step<S>>, step: RoomLog.Step<S>)
    requires RoomLog.Lawful(rules)
    ensures RoomLog.Reach(rules, steps).log <= RoomLog.Reach(rules, steps + [step]).log
  {
    RoomGuarantees.RunGrows(rules, steps, [step]);
  }

  /** Every finalization of this session that the API ever carried out stands in the room's log. */
  lemma {:induction false} FinalizationsComeFromTheLog<S(!new)>(rules: RoomLog.Rules<S>, cfg: Config, names: Names, steps: seq<JointStep<S>>, n: nat)
    requires RoomLog.Lawful(rules) && n < |ApiSide(rules, cfg, names, steps)|
    requires var call := ApiSide(rules, cfg, names, steps)[n]; call.CallFinalize? && call.game == names.game
    ensures Logged(rules, names, Meet(rules, cfg, names, steps).sys, ApiSide(rules, cfg, names, steps)[n])
    decreases |steps|
  {
    var init, last := steps[..|steps| - 1], steps[|steps| - 1];
    var earlier := ApiSide(rules, cfg, names, init);
    SidesAreRuns(rules, cfg, names, steps);
    SidesAreRuns(rules, cfg, names, init);
    if n < |earlier| {
      FinalizationsComeFromTheLog(rules, cfg, names, init, n);
      if last.InRoom? {
        RoomSideGrows(rules, RoomSide(init), last.step);
        LoggedStays(rules, names, Meet(rules, cfg, names, init).sys, Meet(rules, cfg, names, steps).sys, earlier[n]);
      }
    } else {
      var t, call := Meet(rules, cfg, names, init).sys.tables, last.call;
      var k :| k in t.finalizations && call == OutboxCall(names, k, t.finalizations[k], call.now);
      OutboxIsLogged(rules, names, RoomSide(init), k, call.now);
    }
  }

  /* ---------- Exactly once, across both sides ---------- */

  lemma {:induction false} RoomSideExtends<S>(steps: seq<JointStep<S>>, more: seq<JointStep<S>>) returns (rest: seq<RoomLog.Step<S>>)
    ensures RoomSide(steps + more) == RoomSide(steps) + rest
    decreases |more|
  {
    if more == [] {
      assert steps + more == steps;
      rest := [];
    } else {
      var init, last := more[..|more| - 1], more[|more| - 1];
      assert (steps + more)[..|steps + more| - 1] == steps + init;
      var earlier := RoomSideExtends(steps, init);
      rest := if last.InRoom? then earlier + [last.step] else earlier;
    }
  }

  lemma {:induction false} ApiSideExtends<S>(rules: RoomLog.Rules<S>, cfg: Config, names: Names, steps: seq<JointStep<S>>, more: seq<JointStep<S>>)
      returns (rest: seq<Call>)
    ensures ApiSide(rules, cfg, names, steps + more) == ApiSide(rules, cfg, names, steps) + rest
    decreases |more|
  {
    if more == [] {
      assert steps + more == steps;
      rest := [];
    } else {
      var init, last := more[..|more| - 1], more[|more| - 1];
      assert (steps + more)[..|steps + more| - 1] == steps + init;
      var earlier := ApiSideExtends(rules, cfg, names, steps, init);
      rest :=
        if last.InApi? && Truthful(names, Meet(rules, cfg, names, steps + init).sys.tables, last.call)
        then earlier + [last.call] else earlier;
    }
  }

  /** The call with which log entry `e`, a leave or cancel, is handed to the API. */
  function EntryCall<S>(rules: RoomLog.Rules<S>, names: Names, e: RoomLog.Entry, now: int): Call
    requires RoomLog.FinalizationOf(rules, e.input).Some?
  {
    OutboxCall(names, RoomLog.Key(e), RoomLog.FinalizationOf(rules, e.input).value, now)
  }

  /** A leave or cancel in the log is in the outbox, so the API may be handed it. */
  lemma LoggedIsTruthful<S(!new)>(rules: RoomLog.Rules<S>, names: Names, steps: seq<RoomLog.Step<S>>, i: nat, now: int)
    requires RoomLog.Lawful(rules) && i < |RoomLog.Reach(rules, steps).log|
    requires RoomLog.FinalizationOf(rules, RoomLog.Reach(rules, steps).log[i].input).Some?
    ensures var sys := RoomLog.Reach(rules, steps); Truthful(names, sys.tables, EntryCall(rules, names, sys.log[i], now))
  {
    var sys := RoomLog.Reach(rules, steps);
    RoomLog.ReachInvariant(rules, steps);
    RoomGuarantees.EndingsReachTheOutbox(rules, steps);
    var k := RoomLog.Key(sys.log[i]);
    assert k in sys.tables.finalizations;
    assert EntryCall(rules, names, sys.log[i], now) == OutboxCall(names, k, sys.tables.finalizations[k], now);
  }

  /** What carrying out `call` on `db` closed, and that `after` has not touched it since. */
  ghost predicate CarriedOut(db: Db, mid: Db, after: Db, call: Call)
    requires call.CallFinalize?
  {
    var rows := Finalizes(db, call.game, call.binding, call.action);
    && ActorOf(db, call.game, call.binding).Some?
    && var k := FinalKey(ActorOf(db, call.game, call.binding).value, call.action, call.key);
    && Closable(db.bank.reservations, rows)
    && ClosesExactly(db.bank.reservations, mid.bank.reservations, rows, Released, k)
    && forall r :: r in rows ==>
         r in db.bank.reservations && r in after.bank.reservations
         && after.bank.reservations[r] == Closed(db.bank.reservations[r], Released, k)
  }

  lemma CarriedOutOnce(cfg: Config, calls: seq<Call>, more: seq<Call>, call: Call, later: int)
    requires ValidConfig(cfg) && call.CallFinalize?
    requires var db := Reached(cfg, calls);
      var o := Finalize(db, call.game, call.binding, call.action, call.key, call.now); o.reply.Ok? && o.db != db
    ensures var db, after := Reached(cfg, calls), Reached(cfg, calls + [call] + more);
      && CarriedOut(db, Reached(cfg, calls + [call]), after, call)
      && Finalize(after, call.game, call.binding, call.action, call.key, later) == Outcome(after, Ok(Committed(db.nextId)))
  {
    ReleasedExactlyOnce(cfg, calls, more, call.game, call.binding, call.action, call.key, call.now, later);
    FinalizedIsRecorded(Reached(cfg, calls), call.game, call.binding, call.action, call.key, call.now);
  }

  /**
   * A leave or cancel in the room's log is carried out exactly once. When the API first does so, it
   * closes exactly the reservations that entry is for, under the entry's own key. After any further
   * steps on either side the entry still stands in the log, those reservations still carry that one
   * closing operation, and every repetition gets the same operation id and changes nothing.
   */
  lemma LoggedEndingsHappenOnce<S(!new)>(rules: RoomLog.Rules<S>, cfg: Config, names: Names,
      steps: seq<JointStep<S>>, more: seq<JointStep<S>>, i: nat, now: int, later: int)
    requires RoomLog.Lawful(rules) && ValidConfig(cfg)
    requires var j := Meet(rules, cfg, names, steps);
      && i < |j.sys.log| && RoomLog.FinalizationOf(rules, j.sys.log[i].input).Some?
      && var call := EntryCall(rules, names, j.sys.log[i], now);
      var o := Finalize(j.db, call.game, call.binding, call.action, call.key, now);
      o.reply.Ok? && o.db != j.db
    ensures var j := Meet(rules, cfg, names, steps);
      var call := EntryCall(rules, names, j.sys.log[i], now);
      var mid, after := Meet(rules, cfg, names, steps + [InApi(call)]), Meet(rules, cfg, names, steps + [InApi(call)] + more);
      && i < |after.sys.log| && after.sys.log[i] == j.sys.log[i]
      && CarriedOut(j.db, mid.db, after.db, call)
      && Finalize(after.db, call.game, call.binding, call.action, call.key, later) == Outcome(after.db, Ok(Committed(j.db.nextId)))
  {
    var j := Meet(rules, cfg, names, steps);
    var call := EntryCall(rules, names, j.sys.log[i], now);
    var first := steps + [InApi(call)];
    SidesAreRuns(rules, cfg, names, steps);
    SidesAreRuns(rules, cfg, names, first);
    SidesAreRuns(rules, cfg, names, first + more);
    LoggedIsTruthful(rules, names, RoomSide(steps), i, now);
    SideAfter(rules, cfg, names, steps, call);
    var calls := ApiSideExtends(rules, cfg, names, first, more);
    CarriedOutOnce(cfg, ApiSide(rules, cfg, names, steps), calls, call, later);
    var rest := RoomSideExtends(first, more);
    RoomGuarantees.RunGrows(rules, RoomSide(steps), rest);
  }

  lemma SideAfter<S>(rules: RoomLog.Rules<S>, cfg: Config, names: Names, steps: seq<JointStep<S>>, call: Call)
    requires Truthful(names, Meet(rules, cfg, names, steps).sys.tables, call)
    ensures ApiSide(rules, cfg, names, steps + [InApi(call)]) == ApiSide(rules, cfg, names, steps) + [call]
    ensures RoomSide(steps + [InApi(call)]) == RoomSide(steps)
  {
    assert (steps + [InApi(call)])[..|steps + [InApi(call)]| - 1] == steps;
  }

  /* ---------- Only the room ends a live room's stakes ---------- */

  /** The step carries out a leave or cancel of this session that the room's log holds. */
  ghost predicate RoomsWord<S(!new)>(rules: RoomLog.Rules<S>, names: Names, sys: RoomLog.System<S>, step: JointStep<S>) {
    step.InApi? && step.call.CallFinalize? && step.call.game == names.game && Logged(rules, names, sys, step.call)
  }

  predicate WaitedTooLong<S>(names: Names, step: JointStep<S>) {
    step.InApi? && step.call.CallCancelExpired? && step.call.game == names.game
  }

  predicate Starts<S>(names: Names, step: JointStep<S>) {
    step.InApi? && step.call.CallStart? && step.call.game == names.game
  }

  /** The stake is still reserved after the step, unless it was the room's word or the waiting limit; and in an open session, unless it started. */
  ghost predicate Spared<S(!new)>(
    rules: RoomLog.Rules<S>, names: Names, sys: RoomLog.System<S>, after: Db, step: JointStep<S>, r: ReservationId)
  {
    || RoomsWord(rules, names, sys, step) || WaitedTooLong(names, step)
    || (&& StillReserved(after.bank.reservations, names.game, r)
        && (!Starts(names, step) ==> LiveRooms.Staked(after, names.game, r)))
  }

  /**
   * While the session is open and its room is live, one step on either side takes a stake out of
   * reserved only if it carries out a leave or cancel of the room's log, or the waiting limit has passed.
   */
  lemma OnlyTheRoomReleases<S(!new)>(rules: RoomLog.Rules<S>, cfg: Config, names: Names, steps: seq<JointStep<S>>, step: JointStep<S>, r: ReservationId)
    requires RoomLog.Lawful(rules) && ValidConfig(cfg) && LiveRooms.Staked(Meet(rules, cfg, names, steps).db, names.game, r)
    ensures var j := Meet(rules, cfg, names, steps); Spared(rules, names, j.sys, Move(rules, cfg, names, j, step).db, step, r)
  {
    var j := Meet(rules, cfg, names, steps);
    SidesAreRuns(rules, cfg, names, steps);
    if step.InApi? && Truthful(names, j.sys.tables, step.call) {
      ReachedSound(cfg, ApiSide(rules, cfg, names, steps));
      if step.call.CallFinalize? && step.call.game == names.game {
        var t, call := j.sys.tables, step.call;
        var k :| k in t.finalizations && call == OutboxCall(names, k, t.finalizations[k], call.now);
        OutboxIsLogged(rules, names, RoomSide(steps), k, call.now);
      } else {
        ApiSpares(cfg, j.db, step.call, names.game, r);
      }
    }
  }

  lemma ApiSpares(cfg: Config, db: Db, call: Call, g: GameId, r: ReservationId)
    requires ValidConfig(cfg) && Soundness.Sound(cfg, db) && LiveRooms.Staked(db, g, r)
    requires !(call.CallFinalize? && call.game == g)
    ensures var after := Step(cfg, db, call).db;
      || (call.CallCancelExpired? && call.game == g)
      || (&& StillReserved(after.bank.reservations, g, r)
          && (!(call.CallStart? && call.game == g) ==> LiveRooms.Staked(after, g, r)))
  {
    if LiveRooms.WayOut(call, g) {
      if call.CallStart? {
        LiveRooms.StartMovesNoStake(db, call.game, call.room, call.started, call.key, call.now);
      }
    } else {
      LiveRooms.StakeStays(cfg, db, call, g, r);
      Soundness.StepAdvances(cfg, db, call);
      Soundness.OpenGrowth(db, Step(cfg, db, call).db);
    }
  }

  /** Somewhere in `more` the room's word, the waiting limit or the start came. */
  ghost predicate WayOutTaken<S(!new)>(
    rules: RoomLog.Rules<S>, cfg: Config, names: Names, steps: seq<JointStep<S>>, more: seq<JointStep<S>>)
  {
    exists n :: 0 <= n < |more| && TakenAt(rules, cfg, names, steps, more, n)
  }

  ghost predicate TakenAt<S(!new)>(
    rules: RoomLog.Rules<S>, cfg: Config, names: Names, steps: seq<JointStep<S>>, more: seq<JointStep<S>>, n: nat)
    requires n < |more|
  {
    ExitBy(rules, names, Meet(rules, cfg, names, steps + more[..n]).sys, more[n])
  }

  lemma TakenEarlier<S(!new)>(rules: RoomLog.Rules<S>, cfg: Config, names: Names, steps: seq<JointStep<S>>, more: seq<JointStep<S>>)
    requires more != [] && WayOutTaken(rules, cfg, names, steps, more[..|more| - 1])
    ensures WayOutTaken(rules, cfg, names, steps, more)
  {
    var init := more[..|more| - 1];
    var n :| 0 <= n < |init| && TakenAt(rules, cfg, names, steps, init, n);
    assert more[..n] == init[..n] && more[n] == init[n];
    assert TakenAt(rules, cfg, names, steps, more, n);
  }

  lemma TakenLast<S(!new)>(rules: RoomLog.Rules<S>, cfg: Config, names: Names, steps: seq<JointStep<S>>, more: seq<JointStep<S>>, r: ReservationId)
    requires RoomLog.Lawful(rules) && ValidConfig(cfg) && more != []
    requires LiveRooms.Staked(Meet(rules, cfg, names, steps + more[..|more| - 1]).db, names.game, r)
    ensures LiveRooms.Staked(Meet(rules, cfg, names, steps + more).db, names.game, r) || WayOutTaken(rules, cfg, names, steps, more)
  {
    var init, last := more[..|more| - 1], more[|more| - 1];
    OnlyTheRoomReleases(rules, cfg, names, steps + init, last, r);
    MeetSnoc(rules, cfg, names, steps, more);
    if ExitBy(rules, names, Meet(rules, cfg, names, steps + init).sys, last) {
      assert more[..|init|] == init;
      assert TakenAt(rules, cfg, names, steps, more, |init|);
    } else {
      SparedStays(rules, names, Meet(rules, cfg, names, steps + init).sys, Meet(rules, cfg, names, steps + more).db, last, r);
    }
  }

  ghost predicate ExitBy<S(!new)>(rules: RoomLog.Rules<S>, names: Names, sys: RoomLog.System<S>, step: JointStep<S>) {
    RoomsWord(rules, names, sys, step) || WaitedTooLong(names, step) || Starts(names, step)
  }

  lemma SparedStays<S(!new)>(
    rules: RoomLog.Rules<S>, names: Names, sys: RoomLog.System<S>, after: Db, step: JointStep<S>, r: ReservationId)
    requires Spared(rules, names, sys, after, step, r) && !ExitBy(rules, names, sys, step)
    ensures LiveRooms.Staked(after, names.game, r)
  {
  }

  lemma MeetSnoc<S(!new)>(rules: RoomLog.Rules<S>, cfg: Config, names: Names, steps: seq<JointStep<S>>, more: seq<JointStep<S>>)
    requires more != []
    ensures Meet(rules, cfg, names, steps + more)
         == Move(rules, cfg, names, Meet(rules, cfg, names, steps + more[..|more| - 1]), more[|more| - 1])
  {
    var all := steps + more;
    assert all[..|all| - 1] == steps + more[..|more| - 1] && all[|all| - 1] == more[|more| - 1];
    MeetLast(rules, cfg, names, all);
  }

  lemma MeetLast<S>(rules: RoomLog.Rules<S>, cfg: Config, names: Names, steps: seq<JointStep<S>>)
    requires steps != []
    ensures Meet(rules, cfg, names, steps) == Move(rules, cfg, names, Meet(rules, cfg, names, steps[..|steps| - 1]), steps[|steps| - 1])
  {
  }

  /** Over any further steps: the stake stays reserved in its open session until the room's word, the waiting limit or the start. */
  lemma {:induction false} StakesWaitForTheRoom<S(!new)>(
    rules: RoomLog.Rules<S>, cfg: Config, names: Names, steps: seq<JointStep<S>>, more: seq<JointStep<S>>, r: ReservationId)
    requires RoomLog.Lawful(rules) && ValidConfig(cfg) && LiveRooms.Staked(Meet(rules, cfg, names, steps).db, names.game, r)
    ensures LiveRooms.Staked(Meet(rules, cfg, names, steps + more).db, names.game, r) || WayOutTaken(rules, cfg, names, steps, more)
    decreases |more|
  {
    if more == [] {
      assert steps + more == steps;
    } else {
      StakesWaitForTheRoom(rules, cfg, names, steps, more[..|more| - 1], r);
      if WayOutTaken(rules, cfg, names, steps, more[..|more| - 1]) {
        TakenEarlier(rules, cfg, names, steps, more);
      } else {
        TakenLast(rules, cfg, names, steps, more, r);
      }
    }
  }
}
