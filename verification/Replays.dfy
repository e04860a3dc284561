/**
 * A request that is sent again under its key, after whatever has happened in between: it is answered
 * as it was the first time, and a key that has been used for something else is refused.
 */
module Replays {
  import opened Outcomes
  import opened CoinBank
  import opened Sessions
  import opened Seating
  import opened Growth
  import opened Admissions
  import opened Soundness
  import opened SessionGuarantees
  import opened EndingAnswers
  import opened AdmissionAnswers

  /* ---------- Calls that are answered from their operation row ---------- */

  predicate AnsweredFromRow(call: Call) {
    call.CallLeave? || call.CallCancel? || call.CallSettle? || call.CallAbort? || call.CallStart? || call.CallRescue?
  }

  /** The same request at another time. */
  function Again(call: Call, later: int): Call
    requires AnsweredFromRow(call)
  {
    match call
    case CallLeave(u, g, key, now) => CallLeave(u, g, key, later)
    case CallCancel(u, g, key, now) => CallCancel(u, g, key, later)
    case CallSettle(g, room, version, checksum, key, now) => CallSettle(g, room, version, checksum, key, later)
    case CallAbort(g, reason, key, now) => CallAbort(g, reason, key, later)
    case CallStart(g, room, version, key, now) => CallStart(g, room, version, key, later)
    case CallRescue(u, key, now) => CallRescue(u, key, later)
  }

  /** The operation row is there with this answer, and so is whatever is looked up before it. */
  predicate Remembered(db: Db, call: Call, answer: Result<Response, ApiError>) {
    match call
    case CallLeave(u, g, key, now) =>
      && u in db.bank.accounts && g in db.sessions && OpKey(u, ReleaseJoinIntent, key) in db.ops
      && Replayed(db.ops[OpKey(u, ReleaseJoinIntent, key)], ForGame(g), CommittedOp) == answer
    case CallCancel(u, g, key, now) =>
      && g in db.sessions && db.sessions[g].creator == u && OpKey(u, CancelSession, key) in db.ops
      && Replayed(db.ops[OpKey(u, CancelSession, key)], ForGame(g), CommittedOp) == answer
    case CallSettle(g, room, version, checksum, key, now) =>
      && g in db.sessions && OpKey(db.sessions[g].creator, SettleSession, key) in db.ops
      && Replayed(db.ops[OpKey(db.sessions[g].creator, SettleSession, key)],
                  ForSettlement(g, room, version, checksum), CommittedOp) == answer
    case CallAbort(g, reason, key, now) =>
      && g in db.sessions && OpKey(db.sessions[g].creator, AbortSession, key) in db.ops
      && Replayed(db.ops[OpKey(db.sessions[g].creator, AbortSession, key)], ForAbort(g, reason), CommittedOp) == answer
    case CallStart(g, room, version, key, now) =>
      && g in db.sessions && OpKey(db.sessions[g].creator, MarkStarted, key) in db.ops
      && Replayed(db.ops[OpKey(db.sessions[g].creator, MarkStarted, key)], ForStart(g, room, version), NoOp) == answer
    case CallRescue(u, key, now) =>
      && u in db.bank.accounts && OpKey(u, RescueGrant, key) in db.ops
      && var row := db.ops[OpKey(u, RescueGrant, key)];
      && row.request == ForRescue && row.status != PendingOp && row.response.Some? && answer == Ok(row.response.value)
    case _ => false
  }

  lemma SettleIsRemembered(cfg: Config, db: Db, g: GameId, room: RoomId, version: nat, checksum: string, key: string, now: int)
    requires Sound(cfg, db) && Settle(db, g, room, version, checksum, key, now).reply.Ok?
    ensures var o := Settle(db, g, room, version, checksum, key, now);
      Remembered(o.db, CallSettle(g, room, version, checksum, key, now), o.reply)
  {
    if g in db.sessions && OpKey(db.sessions[g].creator, SettleSession, key) !in db.ops {
      SettleAnswers(cfg, db, g, room, version, checksum, key, now);
      var r :| CanSettle(db, g, room, version, checksum, r);
      SettledIsRemembered(db, Settle(db, g, room, version, checksum, key, now), g, room, version, checksum, key, r, now);
    } else {
      KnownSettlement(db, g, room, version, checksum, key, now);
    }
  }

  lemma SettledIsRemembered(
    db: Db, o: Sessions.Outcome, g: GameId, room: RoomId, version: nat, checksum: string, key: string, r: ReservationId, now: int)
    requires SettleDone(db, o, g, room, version, checksum, key, r, now)
    ensures Remembered(o.db, CallSettle(g, room, version, checksum, key, now), o.reply)
  {
    assert o.db.sessions == db.sessions[g := o.db.sessions[g]] && o.db.sessions[g].creator == db.sessions[g].creator;
  }

  lemma KnownSettlement(db: Db, g: GameId, room: RoomId, version: nat, checksum: string, key: string, now: int)
    requires Settle(db, g, room, version, checksum, key, now).reply.Ok?
    requires g in db.sessions ==> OpKey(db.sessions[g].creator, SettleSession, key) in db.ops
    ensures var o := Settle(db, g, room, version, checksum, key, now);
      Remembered(o.db, CallSettle(g, room, version, checksum, key, now), o.reply)
  {
  }

  lemma AbortIsRemembered(cfg: Config, db: Db, g: GameId, reason: string, key: string, now: int)
    requires Sound(cfg, db) && Abort(db, g, reason, key, now).reply.Ok?
    ensures var o := Abort(db, g, reason, key, now); Remembered(o.db, CallAbort(g, reason, key, now), o.reply)
  {
    if g in db.sessions && OpKey(db.sessions[g].creator, AbortSession, key) !in db.ops {
      AbortAnswers(cfg, db, g, reason, key, now);
    }
  }

  lemma StartIsRemembered(db: Db, g: GameId, room: RoomId, version: int, key: string, now: int)
    requires Start(db, g, room, version, key, now).reply.Ok?
    ensures var o := Start(db, g, room, version, key, now); Remembered(o.db, CallStart(g, room, version, key, now), o.reply)
  {
    if g in db.sessions && OpKey(db.sessions[g].creator, MarkStarted, key) !in db.ops {
      StartCases(db, g, room, version, key, now);
    }
  }

  lemma RescueIsRemembered(cfg: Config, db: Db, u: UserId, key: string, now: int)
    requires ValidConfig(cfg) && Rescue(cfg, db, u, key, now).reply.Ok?
    ensures var o := Rescue(cfg, db, u, key, now); Remembered(o.db, CallRescue(u, key, now), o.reply)
  {
    if OpKey(u, RescueGrant, key) !in db.ops {
      RescueExactly(cfg, db, u, key, now);
    }
  }

  lemma OkIsRemembered(cfg: Config, db: Db, call: Call)
    requires ValidConfig(cfg) && Sound(cfg, db) && AnsweredFromRow(call) && Step(cfg, db, call).reply.Ok?
    ensures Remembered(Step(cfg, db, call).db, call, Step(cfg, db, call).reply)
  {
    match call
    case CallLeave(u, g, key, now) => LeaveIsRecorded(db, u, g, key, ForGame(g), now, None);
    case CallCancel(u, g, key, now) => CancelIsRecorded(db, u, g, key, ForGame(g), now, None);
    case CallSettle(g, room, version, checksum, key, now) => SettleIsRemembered(cfg, db, g, room, version, checksum, key, now);
    case CallAbort(g, reason, key, now) => AbortIsRemembered(cfg, db, g, reason, key, now);
    case CallStart(g, room, version, key, now) => StartIsRemembered(db, g, room, version, key, now);
    case CallRescue(u, key, now) => RescueIsRemembered(cfg, db, u, key, now);
  }

  lemma RememberedStays(db: Db, after: Db, call: Call, answer: Result<Response, ApiError>)
    requires Remembered(db, call, answer) && GrowPart(db, after)
    ensures Remembered(after, call, answer)
  {
    OpenGrowth(db, after);
    if !call.CallRescue? {
      assert GameGrows(db.sessions[call.game], after.sessions[call.game]);
    }
  }

  lemma RememberedAnswers(cfg: Config, db: Db, call: Call, later: int, answer: Result<Response, ApiError>)
    requires Sound(cfg, db) && AnsweredFromRow(call) && Remembered(db, call, answer)
    ensures Step(cfg, db, Again(call, later)) == Outcome(db, answer)
  {
    match call
    case CallLeave(u, g, key, now) =>
    case CallCancel(u, g, key, now) =>
    case CallSettle(g, room, version, checksum, key, now) => AccountsArePresent(db, Participants(db, g));
    case CallAbort(g, reason, key, now) => AccountsArePresent(db, Participants(db, g));
    case CallStart(g, room, version, key, now) =>
    case CallRescue(u, key, now) =>
  }

  /** Sent again at any time after it has succeeded, a request gets the very answer it got, and changes nothing. */
  lemma AnsweredTheSame(cfg: Config, calls: seq<Call>, more: seq<Call>, call: Call, later: int)
    requires ValidConfig(cfg) && AnsweredFromRow(call) && Step(cfg, Reached(cfg, calls), call).reply.Ok?
    ensures var after := Reached(cfg, calls + [call] + more);
      Step(cfg, after, Again(call, later)) == Outcome(after, Step(cfg, Reached(cfg, calls), call).reply)
  {
    var db, mid, after := Reached(cfg, calls), Reached(cfg, calls + [call]), Reached(cfg, calls + [call] + more);
    ReachedSound(cfg, calls);
    OkIsRemembered(cfg, db, call);
    ReachedStep(cfg, calls, call);
    LaterAdvances(cfg, calls + [call], more);
    RememberedStays(mid, after, call, Step(cfg, db, call).reply);
    RememberedAnswers(cfg, after, call, later, Step(cfg, db, call).reply);
  }

  /* ---------- Keys used for something else ---------- */

  /** The key and the content of a call, where its operation row is looked up; None for a call without a row of its own. */
  function RowOf(db: Db, call: Call): Option<(OpKey, Request)> {
    match call
    case CallRescue(u, key, now) => Some((OpKey(u, RescueGrant, key), ForRescue))
    case CallCreate(u, id, d, key, now) => Some((OpKey(u, CreateSession, key), ForDefinition(id)))
    case CallJoin(u, g, key, now) => Some((OpKey(u, JoinIntent, key), ForGame(g)))
    case CallReconnect(u, g, key, now) => Some((OpKey(u, ReconnectTicket, key), ForGame(g)))
    case CallLeave(u, g, key, now) => Some((OpKey(u, ReleaseJoinIntent, key), ForGame(g)))
    case CallCancel(u, g, key, now) => Some((OpKey(u, CancelSession, key), ForGame(g)))
    case CallSettle(g, room, version, checksum, key, now) =>
      if g in db.sessions
      then Some((OpKey(db.sessions[g].creator, SettleSession, key), ForSettlement(g, room, version, checksum))) else None
    case CallAbort(g, reason, key, now) =>
      if g in db.sessions then Some((OpKey(db.sessions[g].creator, AbortSession, key), ForAbort(g, reason))) else None
    case CallStart(g, room, version, key, now) =>
      if g in db.sessions then Some((OpKey(db.sessions[g].creator, MarkStarted, key), ForStart(g, room, version))) else None
    case _ => None
  }

  /** A key under which something else was asked refuses the call and changes nothing. */
  lemma UsedKeyRefuses(cfg: Config, db: Db, call: Call)
    requires RowOf(db, call).Some? && RowOf(db, call).value.0 in db.ops
    requires db.ops[RowOf(db, call).value.0].request != RowOf(db, call).value.1
    ensures Step(cfg, db, call).reply.Err? && Step(cfg, db, call).db == db
  {
    match call
    case CallRescue(u, key, now) =>
    case CallCreate(u, id, d, key, now) =>
    case CallJoin(u, g, key, now) =>
    case CallReconnect(u, g, key, now) =>
    case CallLeave(u, g, key, now) =>
    case CallCancel(u, g, key, now) =>
    case CallSettle(g, room, version, checksum, key, now) =>
    case CallAbort(g, reason, key, now) =>
    case CallStart(g, room, version, key, now) =>
  }

  /* ---------- Admissions are issued again ---------- */

  predicate Admitting(call: Call) {
    call.CallCreate? || call.CallJoin? || call.CallReconnect?
  }

  function AskedAgain(call: Call, later: int): Call
    requires Admitting(call)
  {
    match call
    case CallCreate(u, id, d, key, now) => CallCreate(u, id, d, key, later)
    case CallJoin(u, g, key, now) => CallJoin(u, g, key, later)
    case CallReconnect(u, g, key, now) => CallReconnect(u, g, key, later)
  }

  /** The operation row holds this admission. */
  predicate Kept(db: Db, call: Call, a: Response) {
    match call
    case CallCreate(u, id, d, key, now) =>
      && u in db.bank.accounts && OpKey(u, CreateSession, key) in db.ops
      && Replayed(db.ops[OpKey(u, CreateSession, key)], ForDefinition(id), CommittedOp) == Ok(a)
    case CallJoin(u, g, key, now) =>
      && u in db.bank.accounts && g in db.sessions && OpKey(u, JoinIntent, key) in db.ops
      && Replayed(db.ops[OpKey(u, JoinIntent, key)], ForGame(g), CommittedOp) == Ok(a)
    case CallReconnect(u, g, key, now) =>
      && u in db.bank.accounts && g in db.sessions && OpKey(u, ReconnectTicket, key) in db.ops
      && a.Admission? && a.game == g
      && Replayed(db.ops[OpKey(u, ReconnectTicket, key)], ForGame(g), NoOp) == Ok(a)
    case _ => false
  }

  lemma KeptStays(db: Db, after: Db, call: Call, a: Response)
    requires Kept(db, call, a) && GrowPart(db, after)
    ensures Kept(after, call, a)
  {
    OpenGrowth(db, after);
  }

  lemma KeptIsReissued(cfg: Config, db: Db, call: Call, a: Response, later: int)
    requires Admitting(call) && a.Admission? && Kept(db, call, a)
    ensures Step(cfg, db, AskedAgain(call, later)) == Reissue(cfg, db, a, later)
  {
    match call
    case CallCreate(u, id, d, key, now) =>
    case CallJoin(u, g, key, now) =>
    case CallReconnect(u, g, key, now) =>
  }

  lemma NewAdmissionIsKept(cfg: Config, db: Db, call: Call)
    requires Sound(cfg, db) && Admitting(call)
    requires RowOf(db, call).Some? && RowOf(db, call).value.0 !in db.ops && Step(cfg, db, call).reply.Ok?
    ensures var o := Step(cfg, db, call);
      o.reply.value.Ticketed? && o.reply.value.admission.Admission? && Kept(o.db, call, o.reply.value.admission)
  {
    match call
    case CallCreate(u, id, d, key, now) => CreateIsKept(cfg, db, u, id, d, key, now);
    case CallJoin(u, g, key, now) => JoinIsKept(cfg, db, u, g, key, now);
    case CallReconnect(u, g, key, now) => ReconnectIsKept(cfg, db, u, g, key, now);
  }

  lemma CreateIsKept(cfg: Config, db: Db, u: UserId, id: string, d: Option<Definition>, key: string, now: int)
    requires OpKey(u, CreateSession, key) !in db.ops && Create(cfg, db, u, id, d, key, now).reply.Ok?
    ensures var o := Create(cfg, db, u, id, d, key, now);
      && o.reply.value.Ticketed? && o.reply.value.admission.Admission?
      && Kept(o.db, CallCreate(u, id, d, key, now), o.reply.value.admission)
  {
    CreateIs(cfg, db, u, id, d.value, key, now);
    HoldKeepsAccounts(db.bank, OpKey(u, CreateSession, key), u, db.nextId + 2, db.nextId, d.value.entry);
  }

  lemma HoldKeepsAccounts(b: Bank, k: OpKey, u: UserId, r: ReservationId, g: GameId, amount: nat)
    requires u in b.accounts && Hold(b, k, u, r, g, amount).Ok?
    ensures u in Hold(b, k, u, r, g, amount).value.accounts
  {
  }

  lemma JoinIsKept(cfg: Config, db: Db, u: UserId, g: GameId, key: string, now: int)
    requires OpKey(u, JoinIntent, key) !in db.ops && Join(cfg, db, u, g, key, now).reply.Ok?
    ensures var o := Join(cfg, db, u, g, key, now);
      && o.reply.value.Ticketed? && o.reply.value.admission.Admission?
      && Kept(o.db, CallJoin(u, g, key, now), o.reply.value.admission)
  {
    JoinCases(cfg, db, u, g, key, now);
    var free := First(db.sessions[g].capacity, Vacant(db.seats, g)).value;
    JoinAtIsExactly(cfg, db, OpKey(u, JoinIntent, key), g, free, now);
    HoldKeepsAccounts(db.bank, OpKey(u, JoinIntent, key), u, db.nextId, g, db.sessions[g].entry);
  }

  lemma ReissueKeeps(cfg: Config, db: Db, a: Response, now: int)
    requires a.Admission? && Reissue(cfg, db, a, now).reply.Ok?
    ensures var o := Reissue(cfg, db, a, now);
      && o.db.bank == db.bank && o.db.sessions == db.sessions && o.db.ops == db.ops
      && o.reply.value.Ticketed? && o.reply.value.admission == a
  {
  }

  lemma ReconnectIsKept(cfg: Config, db: Db, u: UserId, g: GameId, key: string, now: int)
    requires OpKey(u, ReconnectTicket, key) !in db.ops && Reconnect(cfg, db, u, g, key, now).reply.Ok?
    ensures var o := Reconnect(cfg, db, u, g, key, now);
      && o.reply.value.Ticketed? && o.reply.value.admission.Admission?
      && Kept(o.db, CallReconnect(u, g, key, now), o.reply.value.admission)
  {
    ReconnectCases(cfg, db, u, g, key, now);
    var r := First(db.nextId, SeatOfUser(db.seats, g, u)).value;
    ReissueKeeps(cfg, db, Admission(g, db.sessions[g].room, r, db.seats[r].player), now);
  }

  /** Asked for again at any time, an admission is the same one, with a ticket issued exactly when `CanIssue` holds of it. */
  lemma ReadmittedTheSame(cfg: Config, calls: seq<Call>, more: seq<Call>, call: Call, later: int)
    requires ValidConfig(cfg) && Admitting(call) && Step(cfg, Reached(cfg, calls), call).reply.Ok?
    requires RowOf(Reached(cfg, calls), call).Some? && RowOf(Reached(cfg, calls), call).value.0 !in Reached(cfg, calls).ops
    ensures var after, first := Reached(cfg, calls + [call] + more), Step(cfg, Reached(cfg, calls), call).reply.value;
      && first.Ticketed? && first.admission.Admission?
      && var o := Step(cfg, after, AskedAgain(call, later));
      && (o.reply.Ok? <==> CanIssue(after, first.admission))
      && (o.reply.Ok? ==> o.reply.value.Ticketed? && o.reply.value.admission == first.admission)
      && (o.reply.Err? ==> o.db == after)
  {
    var db, mid, after := Reached(cfg, calls), Reached(cfg, calls + [call]), Reached(cfg, calls + [call] + more);
    ReachedSound(cfg, calls);
    NewAdmissionIsKept(cfg, db, call);
    var a := Step(cfg, db, call).reply.value.admission;
    ReachedStep(cfg, calls, call);
    LaterAdvances(cfg, calls + [call], more);
    KeptStays(mid, after, call, a);
    KeptIsReissued(cfg, after, call, a, later);
    ReissueAnswers(cfg, after, a, later);
    if Reissue(cfg, after, a, later).reply.Ok? {
      ReissueKeeps(cfg, after, a, later);
    }
  }

  /* ---------- Tickets presented again ---------- */

  /** The ticket has been consumed by this instance, and its answer is on record. */
  ghost predicate AdmittedBefore(db: Db, id: TicketId, g: GameId, room: RoomId, instance: string, key: string, response: Response) {
    && id in db.tickets && db.tickets[id].consumedBy == Some(instance)
    && OpKey(db.tickets[id].user, ConsumeTicket, key) in db.ops
    && Replayed(db.ops[OpKey(db.tickets[id].user, ConsumeTicket, key)], ForTicket(db.tickets[id].token, g, room, instance), NoOp) == Ok(response)
  }

  lemma AdmittedStays(db: Db, after: Db, id: TicketId, g: GameId, room: RoomId, instance: string, key: string, response: Response)
    requires AdmittedBefore(db, id, g, room, instance, key, response) && GrowPart(db, after)
    ensures AdmittedBefore(after, id, g, room, instance, key, response) && after.tickets[id] == db.tickets[id]
  {
    OpenGrowth(db, after);
    assert TicketGrows(db.tickets[id], after.tickets[id], db.nextId);
  }

  lemma AdmittedAnswers(db: Db, id: TicketId, g: GameId, room: RoomId, instance: string, key: string, response: Response, now: int)
    requires AdmittedBefore(db, id, g, room, instance, key, response) && db.tickets[id].game == g && g in db.sessions
    requires BoundSeat(db, db.tickets[id]) == Some(db.tickets[id].reservation) && SeatFits(db, db.tickets[id], db.tickets[id].reservation)
    ensures Honour(db, id, OpKey(db.tickets[id].user, ConsumeTicket, key), ForTicket(db.tickets[id].token, g, room, instance), instance, now)
         == Outcome(db, Ok(response))
  {
  }

  lemma PresentedTwice(cfg: Config, db: Db, id: TicketId, g: GameId, room: RoomId, instance: string, key: string, response: Response, now: int)
    requires Sound(cfg, db) && AdmittedBefore(db, id, g, room, instance, key, response)
    ensures var o := Consume(db, db.tickets[id].token, g, room, instance, key, now);
      if Presentable(db, id, g, room) then o == Outcome(db, Ok(response)) else o.reply.Err? && o.db == db
  {
    TokenFindsTicket(db, id);
    ConsumeCases(db, id, g, room, instance, key, now);
    if Presentable(db, id, g, room) {
      BoundSeatFits(db, id);
      AdmittedAnswers(db, id, g, room, instance, key, response, now);
    }
  }

  /** Presented again under its key at any time, even past its expiry, a ticket gets the very answer it got as long as it is presentable. */
  lemma AdmittedTheSame(
    cfg: Config, calls: seq<Call>, more: seq<Call>, id: TicketId, g: GameId, room: RoomId, instance: string, key: string, now: int, later: int)
    requires ValidConfig(cfg) && id in Reached(cfg, calls).tickets
    requires OpKey(Reached(cfg, calls).tickets[id].user, ConsumeTicket, key) !in Reached(cfg, calls).ops
    requires Consume(Reached(cfg, calls), Reached(cfg, calls).tickets[id].token, g, room, instance, key, now).reply.Ok?
    ensures var db := Reached(cfg, calls);
      var token := db.tickets[id].token;
      var after := Reached(cfg, calls + [CallConsume(token, g, room, instance, key, now)] + more);
      && id in after.tickets
      && var o := Consume(after, token, g, room, instance, key, later);
      if Presentable(after, id, g, room) then o == Outcome(after, Consume(db, token, g, room, instance, key, now).reply)
      else o.reply.Err? && o.db == after
  {
    var db := Reached(cfg, calls);
    var call := CallConsume(db.tickets[id].token, g, room, instance, key, now);
    var mid, after := Reached(cfg, calls + [call]), Reached(cfg, calls + [call] + more);
    var first := Consume(db, db.tickets[id].token, g, room, instance, key, now);
    ConsumeExactly(cfg, calls, id, g, room, instance, key, now);
    assert AdmitsHolder(db, first, id, instance, key, now);
    ReachedConsume(cfg, calls, db.tickets[id].token, g, room, instance, key, now);
    LaterAdvances(cfg, calls + [call], more);
    AdmitsIsRecorded(db, first, id, g, room, instance, key, now);
    AdmittedStays(mid, after, id, g, room, instance, key, first.reply.value);
    PresentedTwice(cfg, after, id, g, room, instance, key, first.reply.value, later);
  }

  lemma ReachedConsume(cfg: Config, calls: seq<Call>, token: Token, g: GameId, room: RoomId, instance: string, key: string, now: int)
    ensures Reached(cfg, calls + [CallConsume(token, g, room, instance, key, now)])
         == Consume(Reached(cfg, calls), token, g, room, instance, key, now).db
  {
    ReachedStep(cfg, calls, CallConsume(token, g, room, instance, key, now));
    StepConsumes(cfg, Reached(cfg, calls), token, g, room, instance, key, now);
  }

  lemma StepConsumes(cfg: Config, db: Db, token: Token, g: GameId, room: RoomId, instance: string, key: string, now: int)
    ensures Step(cfg, db, CallConsume(token, g, room, instance, key, now)) == Consume(db, token, g, room, instance, key, now)
  {
  }

  lemma AdmitsIsRecorded(db: Db, o: Sessions.Outcome, id: TicketId, g: GameId, room: RoomId, instance: string, key: string, now: int)
    requires id in db.tickets && AdmitsHolder(db, o, id, instance, key, now) && db.tickets[id].game == g && db.tickets[id].room == room
    ensures AdmittedBefore(o.db, id, g, room, instance, key, o.reply.value)
    ensures o.db.tickets[id].token == db.tickets[id].token
  {
  }
}
