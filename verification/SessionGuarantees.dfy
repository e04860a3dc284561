/** What every run of the coin API guarantees, whatever transactions arrive and in whatever order. */
module SessionGuarantees {
  import opened Outcomes
  import opened CoinBank
  import opened Sessions
  import opened Seating
  import opened Growth
  import opened Admissions
  import opened Records
  import opened Rescues
  import opened Soundness

  function Reached(cfg: Config, calls: seq<Call>): Db {
    Run(cfg, EMPTY, calls)
  }

  lemma {:induction false} RunAdvances(cfg: Config, db: Db, calls: seq<Call>)
    requires Sound(cfg, db) && ValidConfig(cfg)
    ensures Advances(cfg, db, Run(cfg, db, calls))
    decreases |calls|
  {
    if calls == [] {
      Still(cfg, db);
    } else {
      var before := Run(cfg, db, calls[..|calls| - 1]);
      RunAdvances(cfg, db, calls[..|calls| - 1]);
      StepAdvances(cfg, before, calls[|calls| - 1]);
      AdvancesTrans(cfg, db, before, Run(cfg, db, calls));
    }
  }

  lemma ReachedSound(cfg: Config, calls: seq<Call>)
    requires ValidConfig(cfg)
    ensures Sound(cfg, Reached(cfg, calls))
  {
    EmptyIsSound(cfg);
    RunAdvances(cfg, EMPTY, calls);
  }

  lemma {:induction false} RunConcat(cfg: Config, db: Db, a: seq<Call>, b: seq<Call>)
    ensures Run(cfg, db, a + b) == Run(cfg, Run(cfg, db, a), b)
    decreases |b|
  {
    if b == [] {
      assert a + b == a;
    } else {
      assert (a + b)[..|a + b| - 1] == a + b[..|b| - 1];
      RunConcat(cfg, db, a, b[..|b| - 1]);
    }
  }

  lemma LaterAdvances(cfg: Config, calls: seq<Call>, more: seq<Call>)
    requires ValidConfig(cfg)
    ensures Sound(cfg, Reached(cfg, calls)) && Advances(cfg, Reached(cfg, calls), Reached(cfg, calls + more))
  {
    ReachedSound(cfg, calls);
    RunAdvances(cfg, Reached(cfg, calls), more);
    RunConcat(cfg, EMPTY, calls, more);
  }

  lemma LaterGrows(cfg: Config, calls: seq<Call>, more: seq<Call>)
    requires ValidConfig(cfg)
    ensures Grows(Reached(cfg, calls), Reached(cfg, calls + more))
    ensures Sound(cfg, Reached(cfg, calls)) && Sound(cfg, Reached(cfg, calls + more))
  {
    LaterAdvances(cfg, calls, more);
    OpenGrowth(Reached(cfg, calls), Reached(cfg, calls + more));
  }

  /* ---------- Coins ---------- */

  /** Every operation's entries cancel out, every balance is its ledger, and coins exist only as issued. */
  lemma CoinConservation(cfg: Config, calls: seq<Call>)
    requires ValidConfig(cfg)
    ensures var b := Reached(cfg, calls).bank;
      && (forall k :: OpSum(b.ledger, k) == 0)
      && (forall u :: u in b.accounts ==>
           && 0 <= b.accounts[u].available == AccountSum(b.ledger, Available(u))
           && 0 <= b.accounts[u].reserved == AccountSum(b.ledger, ReservedFor(u)))
      && Total(b) == Issued(b)
  {
    ReachedSound(cfg, calls);
    var b := Reached(cfg, calls).bank;
    OpenBank(b);
    forall u | u in b.accounts
      ensures 0 <= b.accounts[u].available == AccountSum(b.ledger, Available(u))
      ensures 0 <= b.accounts[u].reserved == AccountSum(b.ledger, ReservedFor(u))
    {
      assert Column(b, Available(u)) == AccountSum(b.ledger, Available(u));
      assert Column(b, ReservedFor(u)) == AccountSum(b.ledger, ReservedFor(u));
    }
  }

  /** The reserved column is exactly the user's reservations that are still reserved. */
  lemma ReservedBacking(cfg: Config, calls: seq<Call>, u: UserId)
    requires ValidConfig(cfg)
    ensures var b := Reached(cfg, calls).bank; Column(b, ReservedFor(u)) == Held(b, u)
  {
    ReachedSound(cfg, calls);
    OpenBank(Reached(cfg, calls).bank);
  }

  predicate Unbackable(o: Outcome) {
    o.reply == Err(CoinFailure(Unbacked))
  }

  lemma WithdrawBacked(db: Db, k: OpKey, request: Request, r: ReservationId, now: int)
    requires BankPart(db.bank) && r in db.bank.reservations && db.bank.reservations[r].status == Reserved
    ensures Withdraw(db, k, request, r, now) != Err(Unbacked)
  {
    OpenBank(db.bank);
    BalancedIsBooks(db.bank, k);
    FreeKeeps(db.bank, k, 0, r);
  }

  lemma LeaveBacked(db: Db, u: UserId, g: GameId, key: string, request: Request, now: int, expected: Option<Binding>)
    requires BankPart(db.bank)
    ensures !Unbackable(Leave(db, u, g, key, request, now, expected))
  {
    var r := First(db.nextId, ReservedByUser(db.bank.reservations, g, u));
    if r.Some? {
      WithdrawBacked(db, OpKey(u, ReleaseJoinIntent, key), request, r.value, now);
    }
  }

  lemma FreeAllBacked(b: Bank, k: OpKey, rows: seq<ReservationId>)
    requires BankPart(b) && Closable(b.reservations, rows)
    ensures CloseAll(b, k, rows, Released) != Err(Unbacked)
  {
    OpenBank(b);
    FreeAllKeeps(b, k, rows);
  }

  lemma DisbandBacked(cfg: Config, db: Db, k: OpKey, request: Request, g: GameId, now: int)
    requires Sound(cfg, db) && g in db.sessions
    ensures Disband(db, k, request, g, now) != Err(Unbacked)
  {
    ReservedInIs(db, g);
    FreeAllBacked(db.bank, k, ReservedIn(db, g));
  }

  lemma SettleBacked(cfg: Config, db: Db, g: GameId, room: RoomId, version: nat, checksum: string, key: string, now: int)
    requires Sound(cfg, db)
    ensures !Unbackable(Settle(db, g, room, version, checksum, key, now))
  {
    if g in db.sessions && SettlesFrom(db.sessions[g].lifecycle) && ProofHolds(db, g, room, version, checksum) {
      var k := OpKey(db.sessions[g].creator, SettleSession, key);
      var rows := Participants(db, g);
      var r := WinnerRow(db, rows, db.proofs[g].winner);
      WinnerRowIsListed(db, rows, db.proofs[g].winner);
      StartedFacts(db.sessions, db.seats, db.bank.reservations, db.nextId, g);
      if r.Some? && k !in db.ops {
        var winner := db.bank.reservations[r.value].user;
        if PayoutFits(db, winner, Amounts(db.bank.reservations, rows)) {
          PayOutAdvances(cfg, db, k, ForSettlement(g, room, version, checksum), g, version, winner, now);
        }
      }
    }
  }

  lemma GiveBackBacked(cfg: Config, db: Db, k: OpKey, request: Request, g: GameId, now: int)
    requires Sound(cfg, db) && g in db.sessions && Live(db.sessions[g].lifecycle)
    ensures GiveBack(db, k, request, g, now) != Err(Unbacked)
  {
    ParticipantsIs(db, g);
    FreeAllBacked(db.bank, k, Participants(db, g));
  }

  /** The failures "cannot be captured" and "cannot be released" never happen. */
  lemma NeverUnbacked(cfg: Config, calls: seq<Call>, call: Call)
    requires ValidConfig(cfg)
    ensures Step(cfg, Reached(cfg, calls), call).reply != Err(CoinFailure(Unbacked))
  {
    ReachedSound(cfg, calls);
    StepBacked(cfg, Reached(cfg, calls), call);
  }

  lemma StepBacked(cfg: Config, db: Db, call: Call)
    requires Sound(cfg, db)
    ensures !Unbackable(Step(cfg, db, call))
  {
    if call.CallLeave? || call.CallCancel? || call.CallFinalize? || call.CallCancelExpired? || call.CallReleaseExpired? {
      WithdrawalBacked(cfg, db, call);
    } else {
      OtherBacked(cfg, db, call);
    }
  }

  lemma WithdrawalBacked(cfg: Config, db: Db, call: Call)
    requires Sound(cfg, db)
    requires call.CallLeave? || call.CallCancel? || call.CallFinalize? || call.CallCancelExpired? || call.CallReleaseExpired?
    ensures !Unbackable(Step(cfg, db, call))
  {
    match call
    case CallLeave(u, g, key, now) => LeaveBacked(db, u, g, key, ForGame(g), now, None);
    case CallCancel(u, g, key, now) => CancelBacked(cfg, db, u, g, key, ForGame(g), now, None);
    case CallFinalize(g, b, action, key, now) => FinalizeBacked(cfg, db, g, b, action, key, now);
    case CallCancelExpired(g, before, key, now) => CancelExpiredBacked(cfg, db, g, before, key, now);
    case CallReleaseExpired(r, before, key, now) => ReleaseExpiredBacked(db, r, before, key, now);
  }

  lemma OtherBacked(cfg: Config, db: Db, call: Call)
    requires Sound(cfg, db)
    requires !(call.CallLeave? || call.CallCancel? || call.CallFinalize? || call.CallCancelExpired? || call.CallReleaseExpired?)
    ensures !Unbackable(Step(cfg, db, call))
  {
    match call
    case CallCreate(u, id, d, key, now) => CreateBacked(cfg, db, u, id, d, key, now);
    case CallJoin(u, g, key, now) => JoinBacked(cfg, db, u, g, key, now);
    case CallReconnect(u, g, key, now) => ReconnectBacked(cfg, db, u, g, key, now);
    case CallConsume(token, g, room, instance, key, now) => ConsumeBacked(db, token, g, room, instance, key, now);
    case CallSettle(g, room, version, checksum, key, now) => SettleBacked(cfg, db, g, room, version, checksum, key, now);
    case CallAbort(g, reason, key, now) => AbortBacked(cfg, db, g, reason, key, now);
    case CallProvision(u, now) => GrantsBacked(cfg, db, u, "", now);
    case CallRescue(u, key, now) => GrantsBacked(cfg, db, u, key, now);
    case _ =>
  }

  lemma GrantsBacked(cfg: Config, db: Db, u: UserId, key: string, now: int)
    ensures !Unbackable(ProvisionUser(cfg, db, u, now)) && !Unbackable(Rescue(cfg, db, u, key, now))
  {
  }

  lemma CreateBacked(cfg: Config, db: Db, u: UserId, id: string, d: Option<Definition>, key: string, now: int)
    ensures !Unbackable(Create(cfg, db, u, id, d, key, now))
  {
  }

  lemma JoinBacked(cfg: Config, db: Db, u: UserId, g: GameId, key: string, now: int)
    ensures !Unbackable(Join(cfg, db, u, g, key, now))
  {
  }

  lemma ReconnectBacked(cfg: Config, db: Db, u: UserId, g: GameId, key: string, now: int)
    ensures !Unbackable(Reconnect(cfg, db, u, g, key, now))
  {
  }

  lemma ConsumeBacked(db: Db, token: Token, g: GameId, room: RoomId, instance: string, key: string, now: int)
    ensures !Unbackable(Consume(db, token, g, room, instance, key, now))
  {
  }

  lemma CancelExpiredBacked(cfg: Config, db: Db, g: GameId, before: int, key: string, now: int)
    requires Sound(cfg, db)
    ensures !Unbackable(CancelExpired(db, g, before, key, now))
  {
    if g in db.sessions {
      DisbandBacked(cfg, db, OpKey(db.sessions[g].creator, CancelSession, key), ForWaitingExpiry(g), g, now);
    }
  }

  lemma CancelBacked(cfg: Config, db: Db, u: UserId, g: GameId, key: string, request: Request, now: int, expected: Option<Binding>)
    requires Sound(cfg, db)
    ensures !Unbackable(Cancel(db, u, g, key, request, now, expected))
  {
    if g in db.sessions {
      DisbandBacked(cfg, db, OpKey(u, CancelSession, key), request, g, now);
    }
  }

  lemma FinalizeBacked(cfg: Config, db: Db, g: GameId, b: Binding, action: Action, key: string, now: int)
    requires Sound(cfg, db)
    ensures !Unbackable(Finalize(db, g, b, action, key, now))
  {
    var u := ActorOf(db, g, b);
    if u.Some? {
      if action == LeaveRoom {
        LeaveBacked(db, u.value, g, key, ForFinalization(g, b, action), now, Some(b));
      } else {
        CancelBacked(cfg, db, u.value, g, key, ForFinalization(g, b, action), now, Some(b));
      }
    }
  }

  lemma ReleaseExpiredBacked(db: Db, r: ReservationId, before: int, key: string, now: int)
    requires BankPart(db.bank)
    ensures !Unbackable(ReleaseExpired(db, r, before, key, now))
  {
    if r in db.bank.reservations && db.bank.reservations[r].status == Reserved {
      WithdrawBacked(db, OpKey(db.bank.reservations[r].user, ReleaseJoinIntent, key), ForTicketExpiry(r), r, now);
    }
  }

  lemma AbortBacked(cfg: Config, db: Db, g: GameId, reason: string, key: string, now: int)
    requires Sound(cfg, db)
    ensures !Unbackable(Abort(db, g, reason, key, now))
  {
    if g in db.sessions && Live(db.sessions[g].lifecycle) {
      GiveBackBacked(cfg, db, OpKey(db.sessions[g].creator, AbortSession, key), ForAbort(g, reason), g, now);
    }
  }

  /* ---------- One ending ---------- */

  /** An ended session never changes again, whatever ended it. */
  lemma EndingsAreFinal(cfg: Config, calls: seq<Call>, more: seq<Call>, g: GameId)
    requires ValidConfig(cfg)
    requires g in Reached(cfg, calls).sessions && Ended(Reached(cfg, calls).sessions[g].lifecycle)
    ensures var db, after := Reached(cfg, calls), Reached(cfg, calls + more);
      g in after.sessions && after.sessions[g] == db.sessions[g]
  {
    LaterGrows(cfg, calls, more);
    assert GameGrows(Reached(cfg, calls).sessions[g], Reached(cfg, calls + more).sessions[g]);
  }

  /** A reservation leaves reserved at most once: once closed, its row and its closing operation stand. */
  lemma ReservationsCloseOnce(cfg: Config, calls: seq<Call>, more: seq<Call>, r: ReservationId)
    requires ValidConfig(cfg)
    requires r in Reached(cfg, calls).bank.reservations
    ensures var row := Reached(cfg, calls).bank.reservations[r];
      && r in Reached(cfg, calls + more).bank.reservations
      && var after := Reached(cfg, calls + more).bank.reservations[r];
      && after.user == row.user && after.game == row.game && after.amount == row.amount
      && (row.status != Reserved ==> row.terminal.Some? && after == row)
  {
    LaterGrows(cfg, calls, more);
    var db, after := Reached(cfg, calls), Reached(cfg, calls + more);
    OpenSeats(db.sessions, db.seats, db.bank.reservations, db.nextId);
    assert RowOk(db.sessions, db.bank.reservations[r]);
    assert RowGrows(db.bank.reservations[r], after.bank.reservations[r]);
  }

  /** Nothing is left reserved in an ended session; in a live one, reserved and seated are the same thing. */
  lemma NothingStranded(cfg: Config, calls: seq<Call>, g: GameId, r: ReservationId)
    requires ValidConfig(cfg) && g in Reached(cfg, calls).sessions
    ensures var db := Reached(cfg, calls);
      && (Live(db.sessions[g].lifecycle) || Ended(db.sessions[g].lifecycle))
      && (Ended(db.sessions[g].lifecycle) ==> !StillReserved(db.bank.reservations, g, r))
      && (Live(db.sessions[g].lifecycle) ==> (StillReserved(db.bank.reservations, g, r) <==> SeatedIn(db.seats, g, r)))
  {
    ReachedSound(cfg, calls);
    var db := Reached(cfg, calls);
    StartedFacts(db.sessions, db.seats, db.bank.reservations, db.nextId, g);
    OpenSeats(db.sessions, db.seats, db.bank.reservations, db.nextId);
    if StillReserved(db.bank.reservations, g, r) {
      assert Agrees(db.sessions, db.bank.reservations[r], r in db.seats);
    }
    if Live(db.sessions[g].lifecycle) {
      SeatedIffReserved(db.sessions, db.seats, db.bank.reservations, db.nextId, g, r);
    }
  }

  /** One settlement for each settled session, of one kind, and none for any other session. */
  lemma OneSettlement(cfg: Config, calls: seq<Call>, g: GameId)
    requires ValidConfig(cfg)
    ensures var db := Reached(cfg, calls);
      && (HasSettlement(db, g) <==> g in db.sessions && db.sessions[g].lifecycle == Settled)
      && (forall i, j :: 0 <= i < j < |db.settlements| && db.settlements[i].game == g ==> db.settlements[j].game != g)
  {
    ReachedSound(cfg, calls);
    OpenRecords(Reached(cfg, calls));
  }

  /** What a settlement stands for: a committed operation of the creator closed every stake and scored every seat. */
  lemma SettlementIsExecuted(cfg: Config, calls: seq<Call>, i: nat)
    requires ValidConfig(cfg) && i < |Reached(cfg, calls).settlements|
    ensures var db := Reached(cfg, calls);
      var s := db.settlements[i];
      && s.game in db.sessions && s.op.actor == db.sessions[s.game].creator
      && s.op in db.ops && db.ops[s.op].status == CommittedOp
      && s.op.scope == (if s.kind == Completed then SettleSession else AbortSession)
      && (forall r :: SeatedIn(db.seats, s.game, r) ==>
           && r in db.bank.reservations && db.bank.reservations[r].terminal == Some(s.op)
           && db.bank.reservations[r].status == (if s.kind == Completed then Captured else Released)
           && ScoredIn(db.history, db.seats[r]))
      && DeltaSum(db.history, s.game) == 0
      && Wins(db.history, s.game) == (if s.kind == Completed then 1 else 0)
  {
    ReachedSound(cfg, calls);
    var db := Reached(cfg, calls);
    OpenRecords(db);
    var s := db.settlements[i];
    assert Authorized(db.sessions, db.ops, s) && Executed(db.seats, db.bank.reservations, db.history, s);
    forall r | SeatedIn(db.seats, s.game, r) ensures SeatSettled(db.bank.reservations, db.history, s, r, db.seats[r]) {
    }
  }

  /** Every session's history sums to zero, with one row a user, written only when the session ended. */
  lemma HistoryIsZeroSum(cfg: Config, calls: seq<Call>, g: GameId)
    requires ValidConfig(cfg)
    ensures var db := Reached(cfg, calls);
      && DeltaSum(db.history, g) == 0
      && (forall i, j :: 0 <= i < j < |db.history| && db.history[i].game == db.history[j].game ==>
           db.history[i].user != db.history[j].user)
      && (forall i :: 0 <= i < |db.history| ==>
           db.history[i].game in db.sessions && Ended(db.sessions[db.history[i].game].lifecycle))
  {
    ReachedSound(cfg, calls);
    OpenRecords(Reached(cfg, calls));
  }

  /* ---------- Frozen participants ---------- */

  /** From the start of a session on, its seats and its reservations are fixed. */
  lemma ParticipantsFrozen(cfg: Config, calls: seq<Call>, more: seq<Call>, g: GameId, r: ReservationId)
    requires ValidConfig(cfg)
    requires g in Reached(cfg, calls).sessions && Started(Reached(cfg, calls).sessions[g].lifecycle)
    ensures var db, after := Reached(cfg, calls), Reached(cfg, calls + more);
      && (SeatedIn(after.seats, g, r) <==> SeatedIn(db.seats, g, r))
      && (SeatedIn(db.seats, g, r) ==> after.seats[r] == db.seats[r])
      && (r in after.bank.reservations && after.bank.reservations[r].game == g <==>
          r in db.bank.reservations && db.bank.reservations[r].game == g)
  {
    LaterGrows(cfg, calls, more);
    var db, after := Reached(cfg, calls), Reached(cfg, calls + more);
    if r in after.seats {
      SeatOfRow(after.sessions, after.seats, after.bank.reservations, after.nextId, r);
    }
    assert r in db.bank.reservations ==> RowGrows(db.bank.reservations[r], after.bank.reservations[r]);
  }

  /** Who plays a started session: the creator on seat 0 and at least one other user, all apart and within capacity. */
  lemma StartedLineUp(cfg: Config, calls: seq<Call>, g: GameId) returns (creator: ReservationId, rival: ReservationId)
    requires ValidConfig(cfg)
    requires g in Reached(cfg, calls).sessions && Started(Reached(cfg, calls).sessions[g].lifecycle)
    ensures var db := Reached(cfg, calls);
      && SeatedIn(db.seats, g, creator) && db.seats[creator].user == db.sessions[g].creator && db.seats[creator].index == 0
      && SeatedIn(db.seats, g, rival) && db.seats[rival].user != db.sessions[g].creator
      && (forall r, s :: SeatedIn(db.seats, g, r) && SeatedIn(db.seats, g, s) && r != s ==>
           db.seats[r].user != db.seats[s].user && db.seats[r].index != db.seats[s].index && db.seats[r].player != db.seats[s].player)
      && (forall r :: SeatedIn(db.seats, g, r) ==> db.seats[r].index < db.sessions[g].capacity)
  {
    ReachedSound(cfg, calls);
    var db := Reached(cfg, calls);
    OpenSeats(db.sessions, db.seats, db.bank.reservations, db.nextId);
    assert GameOk(db.sessions[g], db.seats, g);
    creator :| SeatedIn(db.seats, g, creator) && db.seats[creator].user == db.sessions[g].creator && db.seats[creator].index == 0;
    rival :| SeatedIn(db.seats, g, rival) && db.seats[rival].user != db.sessions[g].creator;
    forall r, s | SeatedIn(db.seats, g, r) && SeatedIn(db.seats, g, s) && r != s ensures Apart(db.seats[r], db.seats[s]) {
    }
    forall r | SeatedIn(db.seats, g, r) ensures db.seats[r].index < db.sessions[g].capacity {
      assert SeatOk(db.sessions, db.bank.reservations, db.nextId, db.seats[r], r);
    }
  }

  /** A session only starts with two or more players seated, every one of whom has consumed a ticket. */
  lemma StartNeedsEveryone(cfg: Config, calls: seq<Call>, g: GameId, room: RoomId, version: int, key: string, now: int)
    requires ValidConfig(cfg)
    requires var db := Reached(cfg, calls);
      && g in db.sessions && OpKey(db.sessions[g].creator, MarkStarted, key) !in db.ops
      && Start(db, g, room, version, key, now).reply.Ok?
    ensures var db, after := Reached(cfg, calls), Start(Reached(cfg, calls), g, room, version, key, now).db;
      && |Participants(db, g)| >= 2
      && (forall r :: SeatedIn(db.seats, g, r) ==> r in Participants(db, g) && Consumed(db.tickets, r))
      && db.sessions[g].lifecycle == Open && after.sessions[g].lifecycle == Active && after.sessions[g].version == version > 0
      && after.seats == db.seats && after.bank == db.bank
  {
    ReachedSound(cfg, calls);
    var db := Reached(cfg, calls);
    var rows := Participants(db, g);
    ParticipantsIs(db, g);
    forall r | SeatedIn(db.seats, g, r) ensures r in rows && Consumed(db.tickets, r) {
      assert r in rows;
      var i :| 0 <= i < |rows| && rows[i] == r;
      assert Consumed(db.tickets, rows[i]);
    }
  }

  /* ---------- Who ends up with what ---------- */

  /** The prize of a started session, and the row each participant gets when `winner` takes it. */
  function ScoreOf(db: Db, g: GameId, r: ReservationId, winner: UserId): HistoryRow
    requires g in db.sessions && r in db.seats
  {
    var seat, entry := db.seats[r], db.sessions[g].entry;
    var prize := |Participants(db, g)| * entry;
    HistoryRow(g, seat.user, seat.player, if seat.user == winner then Won else Lost, if seat.user == winner then prize - entry else 0 - entry)
  }

  ghost predicate ScoresExactly(db: Db, after: Db, g: GameId, winner: UserId)
    requires g in db.sessions
  {
    var rows := Participants(db, g);
    && |after.history| == |db.history| + |rows| && after.history[..|db.history|] == db.history
    && forall i :: 0 <= i < |rows| ==> after.history[|db.history| + i] == ScoreOf(db, g, rows[i], winner)
  }

  ghost predicate MovesExactly(db: Db, after: Db, g: GameId, winner: UserId)
    requires g in db.sessions
  {
    var rows := Participants(db, g);
    && (forall i :: 0 <= i < |rows| ==>
         Wealth(after.bank, db.seats[rows[i]].user) == Wealth(db.bank, db.seats[rows[i]].user) + ScoreOf(db, g, rows[i], winner).delta)
    && (forall u :: (forall i :: 0 <= i < |rows| ==> db.seats[rows[i]].user != u) ==> Wealth(after.bank, u) == Wealth(db.bank, u))
  }

  /** What a settlement does: each participant's coins change by exactly the delta in that participant's new history row. */
  ghost predicate PaysExactly(db: Db, after: Db, g: GameId, winner: UserId)
    requires g in db.sessions
  {
    ScoresExactly(db, after, g, winner) && MovesExactly(db, after, g, winner)
  }

  lemma SeatUsers(db: Db, g: GameId)
    requires SeatPart(db.sessions, db.seats, db.bank.reservations, db.nextId)
    ensures forall i :: 0 <= i < |Participants(db, g)| ==>
      db.seats[Participants(db, g)[i]].user == db.bank.reservations[Participants(db, g)[i]].user
  {
    forall i | 0 <= i < |Participants(db, g)|
      ensures db.seats[Participants(db, g)[i]].user == db.bank.reservations[Participants(db, g)[i]].user
    {
      SeatOfRow(db.sessions, db.seats, db.bank.reservations, db.nextId, Participants(db, g)[i]);
    }
  }

  lemma PayOutHistory(db: Db, k: OpKey, request: Request, g: GameId, version: nat, winner: UserId, now: int, after: Db)
    requires g in db.sessions && winner in db.bank.accounts && PayOut(db, k, request, g, version, winner, now) == Ok(after)
    ensures after.history
         == db.history + ScoreRows(db, Participants(db, g), Some(winner), Amounts(db.bank.reservations, Participants(db, g)))
  {
  }

  lemma PayOutScores(cfg: Config, db: Db, k: OpKey, request: Request, g: GameId, version: nat, winner: UserId, now: int, after: Db)
    requires Sound(cfg, db) && g in db.sessions && Live(db.sessions[g].lifecycle) && winner in db.bank.accounts
    requires PayOut(db, k, request, g, version, winner, now) == Ok(after)
    ensures ScoresExactly(db, after, g, winner)
  {
    PayOutHistory(db, k, request, g, version, winner, now, after);
    HistoryScores(db, after, g, winner);
  }

  lemma HistoryScores(db: Db, after: Db, g: GameId, winner: UserId)
    requires SeatPart(db.sessions, db.seats, db.bank.reservations, db.nextId)
    requires g in db.sessions && Live(db.sessions[g].lifecycle)
    requires after.history
          == db.history + ScoreRows(db, Participants(db, g), Some(winner), Amounts(db.bank.reservations, Participants(db, g)))
    ensures ScoresExactly(db, after, g, winner)
  {
    var rows := Participants(db, g);
    var added := ScoreRows(db, rows, Some(winner), Amounts(db.bank.reservations, rows));
    ScoreRowsAt(db, rows, Some(winner), Amounts(db.bank.reservations, rows));
    forall i | 0 <= i < |rows| ensures added[i] == ScoreOf(db, g, rows[i], winner) {
      ParticipantScore(db, g, i, winner);
    }
    AddedScores(db, after, g, winner, added);
  }

  lemma AddedScores(db: Db, after: Db, g: GameId, winner: UserId, added: seq<HistoryRow>)
    requires g in db.sessions && after.history == db.history + added && |added| == |Participants(db, g)|
    requires forall i :: 0 <= i < |added| ==> added[i] == ScoreOf(db, g, Participants(db, g)[i], winner)
    ensures ScoresExactly(db, after, g, winner)
  {
  }

  lemma ParticipantScore(db: Db, g: GameId, i: nat, winner: UserId)
    requires SeatPart(db.sessions, db.seats, db.bank.reservations, db.nextId)
    requires g in db.sessions && Live(db.sessions[g].lifecycle) && i < |Participants(db, g)|
    ensures var rows := Participants(db, g);
      ScoreRow(db, rows[i], Some(winner), Amounts(db.bank.reservations, rows)) == ScoreOf(db, g, rows[i], winner)
  {
    var rows := Participants(db, g);
    ParticipantsIs(db, g);
    SeatUsers(db, g);
    AmountsUniform(db.bank.reservations, rows, db.sessions[g].entry);
    ScoreRowIs(db, g, rows[i], winner, Amounts(db.bank.reservations, rows));
  }

  lemma ScoreRowIs(db: Db, g: GameId, r: ReservationId, winner: UserId, prize: int)
    requires g in db.sessions && r in db.seats && r in db.bank.reservations
    requires db.bank.reservations[r].game == g && db.bank.reservations[r].user == db.seats[r].user
    requires db.bank.reservations[r].amount == db.sessions[g].entry && prize == |Participants(db, g)| * db.sessions[g].entry
    ensures ScoreRow(db, r, Some(winner), prize) == ScoreOf(db, g, r, winner)
  {
  }

  lemma PayOutMoves(cfg: Config, db: Db, k: OpKey, request: Request, g: GameId, version: nat, winner: UserId, now: int, after: Db)
    requires Sound(cfg, db) && g in db.sessions && Live(db.sessions[g].lifecycle) && winner in db.bank.accounts
    requires PayOut(db, k, request, g, version, winner, now) == Ok(after)
    requires Plays(db, Participants(db, g), winner)
    ensures MovesExactly(db, after, g, winner)
  {
    PayOutWealth(cfg, db, k, request, g, version, winner, now, after);
    StakesMove(db, after, g, winner);
  }

  /** Every user pays their own stakes, and the winner gets them all. */
  ghost predicate StakesPaid(db: Db, after: Db, g: GameId, winner: UserId) {
    var rows, stakes := Participants(db, g), db.bank.reservations;
    forall v {:trigger Wealth(after.bank, v)} ::
      Wealth(after.bank, v) == Wealth(db.bank, v) - StakeOf(stakes, rows, v) + if v == winner then Amounts(stakes, rows) else 0
  }

  lemma PayOutWealth(cfg: Config, db: Db, k: OpKey, request: Request, g: GameId, version: nat, winner: UserId, now: int, after: Db)
    requires Sound(cfg, db) && g in db.sessions && Live(db.sessions[g].lifecycle) && winner in db.bank.accounts
    requires PayOut(db, k, request, g, version, winner, now) == Ok(after)
    ensures StakesPaid(db, after, g, winner)
  {
    ParticipantsIs(db, g);
    TakenAllParts(db.bank, k, Participants(db, g), winner);
  }

  lemma StakesMove(db: Db, after: Db, g: GameId, winner: UserId)
    requires SeatPart(db.sessions, db.seats, db.bank.reservations, db.nextId)
    requires g in db.sessions && Live(db.sessions[g].lifecycle) && StakesPaid(db, after, g, winner)
    requires Plays(db, Participants(db, g), winner)
    ensures MovesExactly(db, after, g, winner)
  {
    var rows, stakes := Participants(db, g), db.bank.reservations;
    ParticipantsIs(db, g);
    SeatUsers(db, g);
    AmountsUniform(stakes, rows, db.sessions[g].entry);
    forall i | 0 <= i < |rows|
      ensures Wealth(after.bank, db.seats[rows[i]].user) == Wealth(db.bank, db.seats[rows[i]].user) + ScoreOf(db, g, rows[i], winner).delta
    {
      StakeOfOwner(stakes, rows, stakes[rows[i]].user);
    }
    forall u | forall i :: 0 <= i < |rows| ==> db.seats[rows[i]].user != u ensures Wealth(after.bank, u) == Wealth(db.bank, u) {
      StakeOfOwner(stakes, rows, u);
    }
  }

  /**
   * A settlement that commits pays |participants| times the entry to the participant whose player the
   * terminal proof names, charges every participant one entry, and touches nobody else.
   */
  lemma SettleExactly(cfg: Config, calls: seq<Call>, g: GameId, room: RoomId, version: nat, checksum: string, key: string, now: int)
      returns (winner: ReservationId)
    requires ValidConfig(cfg)
    requires var db := Reached(cfg, calls);
      && g in db.sessions && OpKey(db.sessions[g].creator, SettleSession, key) !in db.ops
      && Settle(db, g, room, version, checksum, key, now).reply.Ok?
    ensures var db := Reached(cfg, calls);
      && ProvedWinner(db, g, room, version, checksum, winner) && |Participants(db, g)| >= 2
      && Settles(db, Settle(db, g, room, version, checksum, key, now).db, g, version, winner)
  {
    ReachedSound(cfg, calls);
    winner := SettlesExactly(cfg, Reached(cfg, calls), g, room, version, checksum, key, now);
  }

  /** The room's own proof, of that version and checksum, names the player on this seat as the winner. */
  ghost predicate ProvedWinner(db: Db, g: GameId, room: RoomId, version: nat, checksum: string, winner: ReservationId) {
    && g in db.sessions && g in db.proofs && SeatedIn(db.seats, g, winner)
    && db.proofs[g] == TerminalProof(room, version, checksum, db.seats[winner].player) && room == db.sessions[g].room
  }

  ghost predicate Settles(db: Db, after: Db, g: GameId, version: nat, winner: ReservationId) {
    && g in db.sessions && g in after.sessions && winner in db.seats
    && PaysExactly(db, after, g, db.seats[winner].user)
    && after.sessions[g].lifecycle == Settled && after.sessions[g].version == version
  }

  lemma SettlesExactly(cfg: Config, db: Db, g: GameId, room: RoomId, version: nat, checksum: string, key: string, now: int)
      returns (winner: ReservationId)
    requires Sound(cfg, db) && g in db.sessions && OpKey(db.sessions[g].creator, SettleSession, key) !in db.ops
    requires Settle(db, g, room, version, checksum, key, now).reply.Ok?
    ensures ProvedWinner(db, g, room, version, checksum, winner) && |Participants(db, g)| >= 2
    ensures Settles(db, Settle(db, g, room, version, checksum, key, now).db, g, version, winner)
  {
    var rows := Participants(db, g);
    var k := OpKey(db.sessions[g].creator, SettleSession, key);
    WinnerRowIsListed(db, rows, db.proofs[g].winner);
    winner := WinnerRow(db, rows, db.proofs[g].winner).value;
    StartedFacts(db.sessions, db.seats, db.bank.reservations, db.nextId, g);
    ParticipantsIs(db, g);
    SeatUsers(db, g);
    var u := db.bank.reservations[winner].user;
    var request, after := ForSettlement(g, room, version, checksum), Settle(db, g, room, version, checksum, key, now).db;
    PayOutScores(cfg, db, k, request, g, version, u, now, after);
    PayOutMoves(cfg, db, k, request, g, version, u, now, after);
  }

  /** Leaving, cancelling and aborting give every coin back: nobody's total changes. */
  lemma ReleasesReturnEverything(cfg: Config, calls: seq<Call>, call: Call, u: UserId)
    requires ValidConfig(cfg)
    requires call.CallLeave? || call.CallCancel? || call.CallFinalize? || call.CallCancelExpired? || call.CallReleaseExpired? || call.CallAbort?
    ensures var db := Reached(cfg, calls); Wealth(Step(cfg, db, call).db.bank, u) == Wealth(db.bank, u)
  {
    ReachedSound(cfg, calls);
    if call.CallLeave? || call.CallCancel? || call.CallFinalize? {
      PlayersReturn(cfg, Reached(cfg, calls), call, u);
    } else {
      ReconcilerReturns(cfg, Reached(cfg, calls), call, u);
    }
  }

  lemma PlayersReturn(cfg: Config, db: Db, call: Call, u: UserId)
    requires Sound(cfg, db) && (call.CallLeave? || call.CallCancel? || call.CallFinalize?)
    ensures Wealth(Step(cfg, db, call).db.bank, u) == Wealth(db.bank, u)
  {
    match call
    case CallLeave(v, g, key, now) => LeaveReturns(db, v, g, key, ForGame(g), now, None, u);
    case CallCancel(v, g, key, now) => CancelReturns(cfg, db, v, g, key, ForGame(g), now, None, u);
    case CallFinalize(g, b, action, key, now) => FinalizeReturns(cfg, db, g, b, action, key, now, u);
  }

  lemma ReconcilerReturns(cfg: Config, db: Db, call: Call, u: UserId)
    requires Sound(cfg, db) && (call.CallCancelExpired? || call.CallReleaseExpired? || call.CallAbort?)
    ensures Wealth(Step(cfg, db, call).db.bank, u) == Wealth(db.bank, u)
  {
    match call
    case CallCancelExpired(g, before, key, now) => CancelExpiredReturns(cfg, db, g, before, key, now, u);
    case CallReleaseExpired(r, before, key, now) => ReleaseExpiredDoesNothing(db, r, before, key, now);
    case CallAbort(g, reason, key, now) => AbortReturns(cfg, db, g, reason, key, now, u);
  }

  lemma CancelExpiredReturns(cfg: Config, db: Db, g: GameId, before: int, key: string, now: int, u: UserId)
    requires Sound(cfg, db)
    ensures Wealth(CancelExpired(db, g, before, key, now).db.bank, u) == Wealth(db.bank, u)
  {
    if g in db.sessions {
      DisbandReturns(cfg, db, OpKey(db.sessions[g].creator, CancelSession, key), ForWaitingExpiry(g), g, now, u);
    }
  }

  lemma FinalizeReturns(cfg: Config, db: Db, g: GameId, b: Binding, action: Action, key: string, now: int, u: UserId)
    requires Sound(cfg, db)
    ensures Wealth(Finalize(db, g, b, action, key, now).db.bank, u) == Wealth(db.bank, u)
  {
    var v := ActorOf(db, g, b);
    if v.Some? {
      LeaveReturns(db, v.value, g, key, ForFinalization(g, b, action), now, Some(b), u);
      CancelReturns(cfg, db, v.value, g, key, ForFinalization(g, b, action), now, Some(b), u);
    }
  }

  lemma LeaveReturns(db: Db, v: UserId, g: GameId, key: string, request: Request, now: int, expected: Option<Binding>, u: UserId)
    requires BankPart(db.bank)
    ensures Wealth(Leave(db, v, g, key, request, now, expected).db.bank, u) == Wealth(db.bank, u)
  {
    var r := First(db.nextId, ReservedByUser(db.bank.reservations, g, v));
    if r.Some? {
      WithdrawReturns(db, OpKey(v, ReleaseJoinIntent, key), request, r.value, now, u);
    }
  }

  lemma WithdrawReturns(db: Db, k: OpKey, request: Request, r: ReservationId, now: int, u: UserId)
    requires BankPart(db.bank) && r in db.bank.reservations && db.bank.reservations[r].status == Reserved
    ensures var o := Withdraw(db, k, request, r, now); o.Ok? ==> Wealth(o.value.bank, u) == Wealth(db.bank, u)
  {
    OpenBank(db.bank);
    BalancedIsBooks(db.bank, k);
    FreeKeeps(db.bank, k, 0, r);
  }

  lemma DisbandReturns(cfg: Config, db: Db, k: OpKey, request: Request, g: GameId, now: int, u: UserId)
    requires Sound(cfg, db) && g in db.sessions
    ensures var o := Disband(db, k, request, g, now); o.Ok? ==> Wealth(o.value.bank, u) == Wealth(db.bank, u)
  {
    ReservedInIs(db, g);
    OpenBank(db.bank);
    FreeAllKeeps(db.bank, k, ReservedIn(db, g));
  }

  lemma CancelReturns(cfg: Config, db: Db, v: UserId, g: GameId, key: string, request: Request, now: int, expected: Option<Binding>, u: UserId)
    requires Sound(cfg, db)
    ensures Wealth(Cancel(db, v, g, key, request, now, expected).db.bank, u) == Wealth(db.bank, u)
  {
    if g in db.sessions {
      DisbandReturns(cfg, db, OpKey(v, CancelSession, key), request, g, now, u);
    }
  }

  lemma AbortReturns(cfg: Config, db: Db, g: GameId, reason: string, key: string, now: int, u: UserId)
    requires Sound(cfg, db)
    ensures Wealth(Abort(db, g, reason, key, now).db.bank, u) == Wealth(db.bank, u)
  {
    if g in db.sessions && Live(db.sessions[g].lifecycle) {
      ParticipantsIs(db, g);
      OpenBank(db.bank);
      FreeAllKeeps(db.bank, OpKey(db.sessions[g].creator, AbortSession, key), Participants(db, g));
    }
  }

  /* ---------- Finalization ---------- */

  lemma {:induction false} FirstExists(n: nat, p: nat -> bool, i: nat)
    requires i < n && p(i)
    ensures First(n, p).Some?
  {
  }

  /** Every ticket of a binding belongs to the user of its reservation. */
  lemma ActorIsOwner(db: Db, g: GameId, b: Binding, id: TicketId)
    requires Desk(db) && id in db.tickets && Bound(db.tickets, g, b)(id)
    ensures ActorOf(db, g, b) == Some(db.tickets[id].user)
  {
    assert TicketOk(db.sessions, db.bank.reservations, db.seats, db.nextId, db.tickets[id]);
    FirstExists(db.nextId, Bound(db.tickets, g, b), id);
    forall s | s in db.tickets && Bound(db.tickets, g, b)(s) ensures db.tickets[s].user == db.tickets[id].user {
      assert TicketOk(db.sessions, db.bank.reservations, db.seats, db.nextId, db.tickets[s]);
    }
  }

  /** The user behind a room's player never changes. */
  lemma ActorStays(db: Db, after: Db, g: GameId, b: Binding)
    requires Desk(after) && TicketsGrow(db.tickets, after.tickets, db.nextId)
    requires ActorOf(db, g, b).Some?
    ensures ActorOf(after, g, b) == ActorOf(db, g, b)
  {
    var t := First(db.nextId, Bound(db.tickets, g, b)).value;
    assert TicketGrows(db.tickets[t], after.tickets[t], db.nextId);
    ActorIsOwner(after, g, b, t);
  }

  function FinalKey(u: UserId, action: Action, key: string): OpKey {
    OpKey(u, if action == LeaveRoom then ReleaseJoinIntent else CancelSession, key)
  }

  /** A finalization that succeeded has its answer on record. */
  lemma FinalizedIsRecorded(db: Db, g: GameId, b: Binding, action: Action, key: string, now: int)
    requires Finalize(db, g, b, action, key, now).reply.Ok?
    ensures var o := Finalize(db, g, b, action, key, now);
      && ActorOf(db, g, b).Some? && g in o.db.sessions
      && var u := ActorOf(db, g, b).value;
      && FinalKey(u, action, key) in o.db.ops
      && Replayed(o.db.ops[FinalKey(u, action, key)], ForFinalization(g, b, action), CommittedOp) == o.reply
      && (action == LeaveRoom ==> u in o.db.bank.accounts)
      && (action == CancelRoom ==> o.db.sessions[g].creator == u)
  {
    var u := ActorOf(db, g, b).value;
    if action == LeaveRoom {
      LeaveIsRecorded(db, u, g, key, ForFinalization(g, b, action), now, Some(b));
    } else {
      CancelIsRecorded(db, u, g, key, ForFinalization(g, b, action), now, Some(b));
    }
  }

  lemma LeaveIsRecorded(db: Db, u: UserId, g: GameId, key: string, request: Request, now: int, expected: Option<Binding>)
    requires Leave(db, u, g, key, request, now, expected).reply.Ok?
    ensures var o, k := Leave(db, u, g, key, request, now, expected), OpKey(u, ReleaseJoinIntent, key);
      g in o.db.sessions && u in o.db.bank.accounts && k in o.db.ops && Replayed(o.db.ops[k], request, CommittedOp) == o.reply
  {
    var k := OpKey(u, ReleaseJoinIntent, key);
    if k !in db.ops {
      WithdrawIsRecorded(db, k, request, First(db.nextId, ReservedByUser(db.bank.reservations, g, u)).value, now);
    }
  }

  lemma WithdrawIsRecorded(db: Db, k: OpKey, request: Request, r: ReservationId, now: int)
    requires r in db.bank.reservations && Withdraw(db, k, request, r, now).Ok?
    ensures var after := Withdraw(db, k, request, r, now).value;
      && after.sessions == db.sessions && db.bank.accounts.Keys <= after.bank.accounts.Keys
      && k in after.ops && Replayed(after.ops[k], request, CommittedOp) == Ok(Committed(db.nextId))
  {
  }

  lemma CancelIsRecorded(db: Db, u: UserId, g: GameId, key: string, request: Request, now: int, expected: Option<Binding>)
    requires Cancel(db, u, g, key, request, now, expected).reply.Ok?
    ensures var o, k := Cancel(db, u, g, key, request, now, expected), OpKey(u, CancelSession, key);
      g in o.db.sessions && o.db.sessions[g].creator == u && k in o.db.ops && Replayed(o.db.ops[k], request, CommittedOp) == o.reply
  {
  }

  /** A recorded finalization answers the same for ever, and changes nothing more. */
  lemma RecordedFinalizationReplays(db: Db, g: GameId, b: Binding, action: Action, key: string, now: int, u: UserId, answer: Result<Response, ApiError>)
    requires ActorOf(db, g, b) == Some(u) && g in db.sessions && FinalKey(u, action, key) in db.ops
    requires Replayed(db.ops[FinalKey(u, action, key)], ForFinalization(g, b, action), CommittedOp) == answer
    requires action == LeaveRoom ==> u in db.bank.accounts
    requires action == CancelRoom ==> db.sessions[g].creator == u
    ensures Finalize(db, g, b, action, key, now) == Outcome(db, answer)
  {
  }

  /**
   * Once any finalization call (the room's own, a retry or the reconciler's) has succeeded under a key,
   * every later one with the same content gets the same operation and changes nothing.
   */
  lemma FinalizedOnce(cfg: Config, calls: seq<Call>, more: seq<Call>, g: GameId, b: Binding, action: Action, key: string, now: int, later: int)
    requires ValidConfig(cfg)
    requires Finalize(Reached(cfg, calls), g, b, action, key, now).reply.Ok?
    ensures var first := CallFinalize(g, b, action, key, now);
      var after := Reached(cfg, calls + [first] + more);
      Finalize(after, g, b, action, key, later) == Outcome(after, Finalize(Reached(cfg, calls), g, b, action, key, now).reply)
  {
    var db, first := Reached(cfg, calls), CallFinalize(g, b, action, key, now);
    FinalizedIsRecorded(db, g, b, action, key, now);
    var mid, after := Reached(cfg, calls + [first]), Reached(cfg, calls + [first] + more);
    ReachedFinalize(cfg, calls, g, b, action, key, now);
    LaterAdvances(cfg, calls, [first]);
    LaterAdvances(cfg, calls + [first], more);
    FinalizedStays(db, mid, after, g, b, action, key, later, Finalize(db, g, b, action, key, now).reply);
  }

  lemma ReachedFinalize(cfg: Config, calls: seq<Call>, g: GameId, b: Binding, action: Action, key: string, now: int)
    ensures Reached(cfg, calls + [CallFinalize(g, b, action, key, now)]) == Finalize(Reached(cfg, calls), g, b, action, key, now).db
  {
    ReachedStep(cfg, calls, CallFinalize(g, b, action, key, now));
    StepFinalizes(cfg, Reached(cfg, calls), g, b, action, key, now);
  }

  lemma ReachedStep(cfg: Config, calls: seq<Call>, call: Call)
    ensures Reached(cfg, calls + [call]) == Step(cfg, Reached(cfg, calls), call).db
  {
    assert (calls + [call])[..|calls + [call]| - 1] == calls;
  }

  lemma FinalizedStays(db: Db, mid: Db, after: Db, g: GameId, b: Binding, action: Action, key: string, later: int, answer: Result<Response, ApiError>)
    requires GrowPart(db, mid) && GrowPart(mid, after) && DeskPart(after)
    requires ActorOf(db, g, b).Some? && g in mid.sessions
    requires var u := ActorOf(db, g, b).value;
      && FinalKey(u, action, key) in mid.ops
      && Replayed(mid.ops[FinalKey(u, action, key)], ForFinalization(g, b, action), CommittedOp) == answer
      && (action == LeaveRoom ==> u in mid.bank.accounts)
      && (action == CancelRoom ==> mid.sessions[g].creator == u)
    ensures Finalize(after, g, b, action, key, later) == Outcome(after, answer)
  {
    OpenDesk(after);
    OpenGrowth(db, mid);
    OpenGrowth(mid, after);
    GrowsTrans(db, mid, after);
    ActorStays(db, after, g, b);
    assert GameGrows(mid.sessions[g], after.sessions[g]);
    RecordedFinalizationReplays(after, g, b, action, key, later, ActorOf(db, g, b).value, answer);
  }

  /** The finalization that does the work releases the bound reservation, and only that one, and gives up its seat. */
  lemma FinalizedLeaveReleases(cfg: Config, calls: seq<Call>, g: GameId, b: Binding, key: string, now: int)
    requires ValidConfig(cfg)
    requires var o := Finalize(Reached(cfg, calls), g, b, LeaveRoom, key, now); o.reply.Ok? && o.db != Reached(cfg, calls)
    ensures var db, o := Reached(cfg, calls), Finalize(Reached(cfg, calls), g, b, LeaveRoom, key, now);
      && o.reply == Ok(Committed(db.nextId))
      && StillReserved(db.bank.reservations, g, b.reservation)
      && o.db.bank.reservations == db.bank.reservations[b.reservation :=
           Closed(db.bank.reservations[b.reservation], Released, FinalKey(ActorOf(db, g, b).value, LeaveRoom, key))]
      && o.db.seats == db.seats - {b.reservation}
  {
    ReachedSound(cfg, calls);
    LeaveReleases(Reached(cfg, calls), ActorOf(Reached(cfg, calls), g, b).value, g, key, ForFinalization(g, b, LeaveRoom), now, b);
  }

  lemma LeaveReleases(db: Db, u: UserId, g: GameId, key: string, request: Request, now: int, b: Binding)
    requires BankPart(db.bank)
    requires var o := Leave(db, u, g, key, request, now, Some(b)); o.reply.Ok? && o.db != db
    ensures var o, k := Leave(db, u, g, key, request, now, Some(b)), OpKey(u, ReleaseJoinIntent, key);
      && o.reply == Ok(Committed(db.nextId))
      && StillReserved(db.bank.reservations, g, b.reservation)
      && o.db.bank.reservations == db.bank.reservations[b.reservation := Closed(db.bank.reservations[b.reservation], Released, k)]
      && o.db.seats == db.seats - {b.reservation}
  {
    var k := OpKey(u, ReleaseJoinIntent, key);
    var r := First(db.nextId, ReservedByUser(db.bank.reservations, g, u)).value;
    FreedParts(db.bank, k, r, Free(db.bank, k, r).value);
  }

  /**
   * The finalized cancellation that does the work releases every reservation of the session that was
   * still reserved, and no other, empties its seats and closes it.
   */
  lemma FinalizedCancelReleases(cfg: Config, calls: seq<Call>, g: GameId, b: Binding, key: string, now: int)
    requires ValidConfig(cfg)
    requires var o := Finalize(Reached(cfg, calls), g, b, CancelRoom, key, now); o.reply.Ok? && o.db != Reached(cfg, calls)
    ensures var db, o := Reached(cfg, calls), Finalize(Reached(cfg, calls), g, b, CancelRoom, key, now);
      && o.reply == Ok(Committed(db.nextId))
      && ClosesExactly(db.bank.reservations, o.db.bank.reservations, ReservedIn(db, g), Released,
           FinalKey(ActorOf(db, g, b).value, CancelRoom, key))
      && o.db.seats == WithoutGame(db.seats, g)
      && g in db.sessions && o.db.sessions == db.sessions[g := db.sessions[g].(lifecycle := Cancelled)]
  {
    ReachedSound(cfg, calls);
    CancelReleases(Reached(cfg, calls), ActorOf(Reached(cfg, calls), g, b).value, g, key, ForFinalization(g, b, CancelRoom), now, Some(b));
  }

  lemma CancelReleases(db: Db, u: UserId, g: GameId, key: string, request: Request, now: int, expected: Option<Binding>)
    requires BankPart(db.bank) && SeatPart(db.sessions, db.seats, db.bank.reservations, db.nextId)
    requires var o := Cancel(db, u, g, key, request, now, expected); o.reply.Ok? && o.db != db
    ensures var o, k := Cancel(db, u, g, key, request, now, expected), OpKey(u, CancelSession, key);
      && o.reply == Ok(Committed(db.nextId))
      && ClosesExactly(db.bank.reservations, o.db.bank.reservations, ReservedIn(db, g), Released, k)
      && o.db.seats == WithoutGame(db.seats, g)
      && g in db.sessions && o.db.sessions == db.sessions[g := db.sessions[g].(lifecycle := Cancelled)]
  {
    CancelIs(db, u, g, key, request, now, expected);
    DisbandReleases(db, OpKey(u, CancelSession, key), request, g, now);
  }

  lemma DisbandReleases(db: Db, k: OpKey, request: Request, g: GameId, now: int)
    requires BankPart(db.bank) && SeatPart(db.sessions, db.seats, db.bank.reservations, db.nextId)
    requires g in db.sessions && Disband(db, k, request, g, now).Ok?
    ensures var after := Disband(db, k, request, g, now).value;
      && ClosesExactly(db.bank.reservations, after.bank.reservations, ReservedIn(db, g), Released, k)
      && after.seats == WithoutGame(db.seats, g)
      && after.sessions == db.sessions[g := db.sessions[g].(lifecycle := Cancelled)]
  {
    ReservedInIs(db, g);
    FreedAllParts(db.bank, k, ReservedIn(db, g), CloseAll(db.bank, k, ReservedIn(db, g), Released).value);
  }

  /** What a finalization has to release: the bound reservation, or all that is reserved in the session. */
  function Finalizes(db: Db, g: GameId, b: Binding, action: Action): seq<ReservationId> {
    if action == LeaveRoom then [b.reservation] else ReservedIn(db, g)
  }

  lemma FinalizedReleases(cfg: Config, calls: seq<Call>, g: GameId, b: Binding, action: Action, key: string, now: int)
    requires ValidConfig(cfg)
    requires var o := Finalize(Reached(cfg, calls), g, b, action, key, now); o.reply.Ok? && o.db != Reached(cfg, calls)
    ensures var db, o := Reached(cfg, calls), Finalize(Reached(cfg, calls), g, b, action, key, now);
      && o.reply == Ok(Committed(db.nextId))
      && Closable(db.bank.reservations, Finalizes(db, g, b, action))
      && ClosesExactly(db.bank.reservations, o.db.bank.reservations, Finalizes(db, g, b, action), Released,
           FinalKey(ActorOf(db, g, b).value, action, key))
  {
    if action == LeaveRoom {
      FinalizedLeaveReleases(cfg, calls, g, b, key, now);
    } else {
      FinalizedCancelReleases(cfg, calls, g, b, key, now);
      ReachedSound(cfg, calls);
      ReservedInIs(Reached(cfg, calls), g);
    }
  }

  /**
   * The outbox is carried out exactly once. The finalization that does the work, leave or cancel, closes
   * exactly the reservations it is for. Whatever happens afterwards, each of them keeps that closing
   * operation for ever, and every later finalization with the same key and content is answered with the
   * same operation id and changes nothing.
   */
  lemma ReleasedExactlyOnce(cfg: Config, calls: seq<Call>, more: seq<Call>, g: GameId, b: Binding, action: Action, key: string, now: int, later: int)
    requires ValidConfig(cfg)
    requires var o := Finalize(Reached(cfg, calls), g, b, action, key, now); o.reply.Ok? && o.db != Reached(cfg, calls)
    ensures var db, first := Reached(cfg, calls), CallFinalize(g, b, action, key, now);
      var mid, after := Reached(cfg, calls + [first]), Reached(cfg, calls + [first] + more);
      var rows, k := Finalizes(db, g, b, action), FinalKey(ActorOf(db, g, b).value, action, key);
      && Closable(db.bank.reservations, rows)
      && ClosesExactly(db.bank.reservations, mid.bank.reservations, rows, Released, k)
      && (forall r :: r in rows ==> r in after.bank.reservations && after.bank.reservations[r] == Closed(db.bank.reservations[r], Released, k))
      && Finalize(after, g, b, action, key, later) == Outcome(after, Ok(Committed(db.nextId)))
  {
    var db, first := Reached(cfg, calls), CallFinalize(g, b, action, key, now);
    FinalizedReleases(cfg, calls, g, b, action, key, now);
    ReachedFinalize(cfg, calls, g, b, action, key, now);
    FinalizedOnce(cfg, calls, more, g, b, action, key, now, later);
    forall r | r in Finalizes(db, g, b, action)
      ensures r in Reached(cfg, calls + [first] + more).bank.reservations
      ensures Reached(cfg, calls + [first] + more).bank.reservations[r]
           == Closed(db.bank.reservations[r], Released, FinalKey(ActorOf(db, g, b).value, action, key))
    {
      ReservationsCloseOnce(cfg, calls + [first], more, r);
    }
  }

  /* ---------- Tickets ---------- */

  /** No two tickets share a value, and a reservation has at most one unconsumed ticket. */
  lemma TicketsAreUnique(cfg: Config, calls: seq<Call>, i: TicketId, j: TicketId)
    requires ValidConfig(cfg) && i in Reached(cfg, calls).tickets && j in Reached(cfg, calls).tickets && i != j
    ensures var t := Reached(cfg, calls).tickets;
      && t[i].token != t[j].token
      && (t[i].reservation == t[j].reservation ==> t[i].consumedBy.Some? || t[j].consumedBy.Some?)
  {
    ReachedSound(cfg, calls);
    OpenDesk(Reached(cfg, calls));
    assert TicketApart(Reached(cfg, calls).tickets[i], Reached(cfg, calls).tickets[j]);
  }

  ghost predicate Retired(db: Db, token: Token) {
    token < db.nextId && forall id :: id in db.tickets ==> db.tickets[id].token != token
  }

  /** A ticket value that no ticket carries any more can never be presented again. */
  lemma RetiredForever(cfg: Config, calls: seq<Call>, more: seq<Call>, token: Token, g: GameId, room: RoomId, instance: string, key: string, now: int)
    requires ValidConfig(cfg) && Retired(Reached(cfg, calls), token)
    ensures var after := Reached(cfg, calls + more);
      && Retired(after, token)
      && Consume(after, token, g, room, instance, key, now)
         == Outcome(after, Err(if g in after.sessions then TicketInvalid else SessionNotFound))
  {
    LaterGrows(cfg, calls, more);
    var db, after := Reached(cfg, calls), Reached(cfg, calls + more);
    forall id | id in after.tickets ensures after.tickets[id].token != token {
      assert id in db.tickets ==> TicketGrows(db.tickets[id], after.tickets[id], db.nextId);
    }
    NoSuchToken(after, token, g, room, instance, key, now);
  }

  lemma NoSuchToken(db: Db, token: Token, g: GameId, room: RoomId, instance: string, key: string, now: int)
    requires forall id :: id in db.tickets ==> db.tickets[id].token != token
    ensures Consume(db, token, g, room, instance, key, now)
         == Outcome(db, Err(if g in db.sessions then TicketInvalid else SessionNotFound))
  {
    assert First(db.nextId, HasToken(db.tickets, token)).None?;
  }

  /** Issuing again for a reservation with an unconsumed ticket retires that ticket's value. */
  lemma ReissueRetires(cfg: Config, calls: seq<Call>, a: Response, id: TicketId, now: int)
    requires ValidConfig(cfg) && a.Admission?
    requires var db := Reached(cfg, calls); Unused(db.tickets, id, a.reservation) && Reissue(cfg, db, a, now).reply.Ok?
    ensures var db := Reached(cfg, calls);
      var o := Reissue(cfg, db, a, now);
      && Retired(o.db, db.tickets[id].token)
      && o.reply == Ok(Ticketed(a, db.nextId, now + cfg.ticketTtl))
      && o.db.tickets == db.tickets[id := db.tickets[id].(token := db.nextId, expiresAt := now + cfg.ticketTtl)]
  {
    ReachedSound(cfg, calls);
    var db := Reached(cfg, calls);
    OpenDesk(db);
    OnlyUnused(db, a.reservation, id);
    forall j | j in db.tickets && j != id ensures db.tickets[j].token != db.tickets[id].token {
      assert TicketApart(db.tickets[j], db.tickets[id]);
    }
    assert TicketOk(db.sessions, db.bank.reservations, db.seats, db.nextId, db.tickets[id]);
  }

  lemma OnlyUnused(db: Db, r: ReservationId, id: TicketId)
    requires Desk(db) && Unused(db.tickets, id, r)
    ensures LatestUnused(db.tickets, r, db.nextId) == Some(id)
  {
    assert TicketOk(db.sessions, db.bank.reservations, db.seats, db.nextId, db.tickets[id]);
    var t := LatestUnused(db.tickets, r, db.nextId);
    assert t.Some?;
    assert t.value == id || TicketApart(db.tickets[t.value], db.tickets[id]);
  }

  /** The instance that consumed a ticket is its only consumer for ever. */
  lemma ConsumerIsForever(cfg: Config, calls: seq<Call>, more: seq<Call>, id: TicketId, g: GameId, room: RoomId, instance: string, key: string, now: int)
    requires ValidConfig(cfg)
    requires id in Reached(cfg, calls).tickets && Reached(cfg, calls).tickets[id].consumedBy.Some?
    ensures var db, after := Reached(cfg, calls), Reached(cfg, calls + more);
      && id in after.tickets && after.tickets[id] == db.tickets[id]
      && (Consume(after, db.tickets[id].token, g, room, instance, key, now).reply.Ok? ==> Some(instance) == db.tickets[id].consumedBy)
  {
    LaterGrows(cfg, calls, more);
    var db, after := Reached(cfg, calls), Reached(cfg, calls + more);
    assert TicketGrows(db.tickets[id], after.tickets[id], db.nextId);
    OpenDesk(after);
    ConsumedOnlyBy(after, id, g, room, instance, key, now);
  }

  lemma ConsumedOnlyBy(db: Db, id: TicketId, g: GameId, room: RoomId, instance: string, key: string, now: int)
    requires Desk(db) && id in db.tickets && db.tickets[id].consumedBy.Some?
    ensures Consume(db, db.tickets[id].token, g, room, instance, key, now).reply.Ok? ==> Some(instance) == db.tickets[id].consumedBy
  {
    var token := db.tickets[id].token;
    assert TicketOk(db.sessions, db.bank.reservations, db.seats, db.nextId, db.tickets[id]);
    FirstExists(db.nextId, HasToken(db.tickets, token), id);
    var found := First(db.nextId, HasToken(db.tickets, token)).value;
    assert found == id || TicketApart(db.tickets[found], db.tickets[id]);
  }

  /** Presenting a ticket never seats anybody: the seat is always there already. */
  lemma ConsumingNeverSeats(cfg: Config, calls: seq<Call>, token: Token, g: GameId, room: RoomId, instance: string, key: string, now: int)
    requires ValidConfig(cfg)
    ensures var db := Reached(cfg, calls); Consume(db, token, g, room, instance, key, now).db.seats == db.seats
  {
    ReachedSound(cfg, calls);
    var db := Reached(cfg, calls);
    var id := ConsumeHonours(db, token, g, room, instance, key, now);
    if id.Some? {
      BoundSeatFits(db, id.value);
      HonourNeverSeats(db, id.value, OpKey(db.tickets[id.value].user, ConsumeTicket, key),
        ForTicket(token, g, room, instance), instance, now);
    }
  }

  lemma HonourNeverSeats(db: Db, id: TicketId, k: OpKey, request: Request, instance: string, now: int)
    requires id in db.tickets && db.tickets[id].game in db.sessions
    requires BoundSeat(db, db.tickets[id]) == Some(db.tickets[id].reservation)
    ensures Honour(db, id, k, request, instance, now).db.seats == db.seats
  {
    PresentNeverSeats(db, id, k, request, instance, now);
  }

  lemma PresentNeverSeats(db: Db, id: TicketId, k: OpKey, request: Request, instance: string, now: int)
    requires id in db.tickets && db.tickets[id].game in db.sessions
    requires BoundSeat(db, db.tickets[id]) == Some(db.tickets[id].reservation)
    ensures Present(db, id, k, request, instance, now).db.seats == db.seats
  {
  }

  /** The reconciler's release of expired admissions never releases anything. */
  lemma ExpiredAdmissionsNeverRelease(cfg: Config, calls: seq<Call>, r: ReservationId, before: int, key: string, now: int)
    requires ValidConfig(cfg)
    ensures var db := Reached(cfg, calls);
      var o := ReleaseExpired(db, r, before, key, now);
      o.db == db && o.reply != Ok(Done(true))
  {
    ReachedSound(cfg, calls);
    ReleaseExpiredDoesNothing(Reached(cfg, calls), r, before, key, now);
  }

  /* ---------- Rescues ---------- */

  /** A granted rescue issues coins to bring the user's total exactly to the rescue balance. */
  lemma RescueTopsUp(cfg: Config, calls: seq<Call>, u: UserId, key: string, now: int)
    requires ValidConfig(cfg) && OpKey(u, RescueGrant, key) !in Reached(cfg, calls).ops
    requires var o := Rescue(cfg, Reached(cfg, calls), u, key, now); o.reply.Ok? && o.reply.value.Rescued? && o.reply.value.granted.Some?
    ensures var db, after := Reached(cfg, calls), Rescue(cfg, Reached(cfg, calls), u, key, now).db;
      && Wealth(after.bank, u) == cfg.rescueBalance
      && Issued(after.bank) == Issued(db.bank) + cfg.rescueBalance - Wealth(db.bank, u)
      && 0 <= Wealth(db.bank, u) < cfg.rescueBalance
      && forall v :: v != u ==> Wealth(after.bank, v) == Wealth(db.bank, v)
  {
    ReachedSound(cfg, calls);
    var db := Reached(cfg, calls);
    var a := db.bank.accounts[u];
    assert a.available + a.reserved < cfg.rescueBalance;
    GrantTopsUp(cfg, db, OpKey(u, RescueGrant, key), u, now);
  }

  lemma GrantTopsUp(cfg: Config, db: Db, k: OpKey, u: UserId, now: int)
    requires BankPart(db.bank) && u in db.bank.accounts && Wealth(db.bank, u) < cfg.rescueBalance
    requires RescueGranted(cfg, db, k, u, now).reply.Ok?
    ensures var after := RescueGranted(cfg, db, k, u, now).db;
      && Wealth(after.bank, u) == cfg.rescueBalance
      && Issued(after.bank) == Issued(db.bank) + cfg.rescueBalance - Wealth(db.bank, u)
      && 0 <= Wealth(db.bank, u)
      && forall v :: v != u ==> Wealth(after.bank, v) == Wealth(db.bank, v)
  {
    BankTopsUp(db.bank, k, u, cfg.rescueBalance, now);
  }

  lemma BankTopsUp(b: Bank, k: OpKey, u: UserId, balance: nat, now: int)
    requires BankPart(b) && u in b.accounts && Wealth(b, u) < balance
    ensures 0 <= Wealth(b, u)
    ensures var o := Grant(b, k, u, balance - Wealth(b, u), now, true);
      o.Ok? ==>
        && Wealth(o.value, u) == balance && Issued(o.value) == Issued(b) + balance - Wealth(b, u)
        && forall v :: v != u ==> Wealth(o.value, v) == Wealth(b, v)
  {
    OpenBank(b);
    SolventColumns(b);
    assert Column(b, Available(u)) >= 0;
    GrantKeeps(b, k, u, balance - Wealth(b, u), now, true);
  }

  /** Rescues of one user are at least one window apart, by the clock the service was given, even if it runs backwards. */
  lemma RescuesAreSpaced(cfg: Config, calls: seq<Call>, u: UserId)
    requires ValidConfig(cfg)
    ensures var db := Reached(cfg, calls);
      var rs := RescuesOf(db.bank.ledger, db.ops, u);
      && (forall i, j :: 0 <= i < j < |rs| ==> rs[i].at + cfg.rescueWindow <= rs[j].at)
      && (forall i :: 0 <= i < |rs| ==> 0 < rs[i].amount <= cfg.rescueBalance)
  {
    ReachedSound(cfg, calls);
    var db := Reached(cfg, calls);
    OpenRescues(cfg, db.bank, db.ops);
    assert UserRescues(cfg, db.bank, db.ops, u);
  }

  /** Coins issued to one user over any interval. */
  lemma IssuanceBound(cfg: Config, calls: seq<Call>, u: UserId, since: int, until: int)
    requires ValidConfig(cfg) && since <= until
    ensures var db := Reached(cfg, calls);
      IssuedTo(db.bank.ledger, db.ops, u, since, until)
      <= cfg.initialGrant + ((until - since) / cfg.rescueWindow + 1) * cfg.rescueBalance
  {
    ReachedSound(cfg, calls);
    var db := Reached(cfg, calls);
    OpenRescues(cfg, db.bank, db.ops);
    IssueBound(cfg, db.bank, db.ops, u, since, until);
  }

  /* ---------- Joining ---------- */

  predicate Occupied(seats: Seats, g: GameId, j: nat) {
    exists r :: r in seats && seats[r].game == g && seats[r].index == j
  }

  /** `index` is the lowest seat of `g` that nobody holds, and `u` holds none. */
  ghost predicate LowestFree(db: Db, u: UserId, g: GameId, index: nat) {
    && g in db.sessions && index < db.sessions[g].capacity
    && !Occupied(db.seats, g, index) && (forall j :: 0 <= j < index ==> Occupied(db.seats, g, j))
    && forall r :: SeatedIn(db.seats, g, r) ==> db.seats[r].user != u
  }

  /** The user is seated there, with exactly the entry reserved and nobody's total changed. */
  ghost predicate JoinsLowest(db: Db, after: Db, u: UserId, g: GameId, index: nat) {
    && LowestFree(db, u, g, index)
    && after.seats == db.seats[db.nextId := Seat(g, db.nextId + 1, u, index)]
    && after.bank.reservations == db.bank.reservations[db.nextId := Reservation(u, g, db.sessions[g].entry, Reserved, None)]
    && forall v :: Wealth(after.bank, v) == Wealth(db.bank, v)
  }

  lemma LowestVacancy(db: Db, u: UserId, g: GameId, index: nat)
    requires SeatPart(db.sessions, db.seats, db.bank.reservations, db.nextId) && g in db.sessions
    requires First(db.nextId, SeatOfUser(db.seats, g, u)).None?
    requires First(db.sessions[g].capacity, Vacant(db.seats, g)) == Some(index)
    ensures LowestFree(db, u, g, index)
  {
    forall r | SeatedIn(db.seats, g, r) ensures db.seats[r].user != u {
      SeatIdIsOld(db.sessions, db.seats, db.bank.reservations, db.nextId, r);
      assert !SeatOfUser(db.seats, g, u)(r);
    }
    assert Vacant(db.seats, g)(index);
    forall j | 0 <= j < index ensures Occupied(db.seats, g, j) {
      assert !Vacant(db.seats, g)(j);
    }
  }

  /** A fresh join takes the lowest free seat and ties up exactly the entry. */
  lemma JoinTakesLowestSeat(cfg: Config, calls: seq<Call>, u: UserId, g: GameId, key: string, now: int) returns (index: nat)
    requires ValidConfig(cfg)
    requires var db := Reached(cfg, calls); OpKey(u, JoinIntent, key) !in db.ops && Join(cfg, db, u, g, key, now).reply.Ok?
    ensures JoinsLowest(Reached(cfg, calls), Join(cfg, Reached(cfg, calls), u, g, key, now).db, u, g, index)
  {
    ReachedSound(cfg, calls);
    index := FreshJoin(cfg, Reached(cfg, calls), u, g, key, now);
  }

  lemma FreshJoin(cfg: Config, db: Db, u: UserId, g: GameId, key: string, now: int) returns (index: nat)
    requires BankPart(db.bank) && SeatPart(db.sessions, db.seats, db.bank.reservations, db.nextId)
    requires OpKey(u, JoinIntent, key) !in db.ops && Join(cfg, db, u, g, key, now).reply.Ok?
    ensures JoinsLowest(db, Join(cfg, db, u, g, key, now).db, u, g, index)
  {
    index := JoinIsAt(cfg, db, u, g, key, now);
    LowestVacancy(db, u, g, index);
    JoinAtMoves(cfg, db, OpKey(u, JoinIntent, key), g, index, now);
  }

  lemma JoinIsAt(cfg: Config, db: Db, u: UserId, g: GameId, key: string, now: int) returns (index: nat)
    requires OpKey(u, JoinIntent, key) !in db.ops && Join(cfg, db, u, g, key, now).reply.Ok?
    ensures u in db.bank.accounts && g in db.sessions
    ensures First(db.nextId, SeatOfUser(db.seats, g, u)).None?
    ensures First(db.sessions[g].capacity, Vacant(db.seats, g)) == Some(index)
    ensures Join(cfg, db, u, g, key, now) == JoinAt(cfg, db, OpKey(u, JoinIntent, key), g, index, now)
  {
    index := First(db.sessions[g].capacity, Vacant(db.seats, g)).value;
  }

  lemma SeatIdIsOld(games: Games, seats: Seats, rows: Rows, n: nat, r: ReservationId)
    requires SeatPart(games, seats, rows, n) && r in seats
    ensures r < n
  {
    SeatOfRow(games, seats, rows, n, r);
    OpenSeats(games, seats, rows, n);
    assert RowOk(games, rows[r]);
  }

  lemma JoinAtMoves(cfg: Config, db: Db, k: OpKey, g: GameId, index: nat, now: int)
    requires BankPart(db.bank) && SeatPart(db.sessions, db.seats, db.bank.reservations, db.nextId)
    requires k.actor in db.bank.accounts && g in db.sessions && JoinAt(cfg, db, k, g, index, now).reply.Ok?
    ensures var after := JoinAt(cfg, db, k, g, index, now).db;
      && after.seats == db.seats[db.nextId := Seat(g, db.nextId + 1, k.actor, index)]
      && after.bank.reservations == db.bank.reservations[db.nextId := Reservation(k.actor, g, db.sessions[g].entry, Reserved, None)]
      && forall v :: Wealth(after.bank, v) == Wealth(db.bank, v)
  {
    FreshId(db.sessions, db.seats, db.bank.reservations, db.nextId, db.nextId);
    OpenBank(db.bank);
    HoldKeeps(db.bank, k, k.actor, db.nextId, g, db.sessions[g].entry);
  }

  /* ---------- Terminal proofs ---------- */

  /** No transaction of the API writes a terminal proof; a proof that is there stays. */
  lemma OnlyTheRoomProves(cfg: Config, db: Db, call: Call)
    ensures var after := Step(cfg, db, call).db;
      if call.RoomProved? && call.game !in db.proofs then after.proofs == db.proofs[call.game := call.proof]
      else after.proofs == db.proofs
  {
    if call.CallCreate? || call.CallJoin? || call.CallReconnect? || call.CallConsume? || call.CallProvision? || call.CallRescue? {
      RequestsKeepProofs(cfg, db, call);
    } else {
      OthersKeepProofs(cfg, db, call);
    }
  }

  lemma RequestsKeepProofs(cfg: Config, db: Db, call: Call)
    requires call.CallCreate? || call.CallJoin? || call.CallReconnect? || call.CallConsume? || call.CallProvision? || call.CallRescue?
    ensures Step(cfg, db, call).db.proofs == db.proofs
  {
    match call
    case CallCreate(u, id, d, key, now) => CreateKeepsProofs(cfg, db, u, id, d, key, now);
    case CallJoin(u, g, key, now) => JoinKeepsProofs(cfg, db, u, g, key, now);
    case CallReconnect(u, g, key, now) => ReconnectKeepsProofs(cfg, db, u, g, key, now);
    case CallConsume(token, g, room, instance, key, now) => ConsumeKeepsProofs(db, token, g, room, instance, key, now);
    case CallProvision(u, now) => GrantsKeepProofs(cfg, db, u, "", now);
    case CallRescue(u, key, now) => GrantsKeepProofs(cfg, db, u, key, now);
  }

  lemma OthersKeepProofs(cfg: Config, db: Db, call: Call)
    requires !(call.CallCreate? || call.CallJoin? || call.CallReconnect? || call.CallConsume? || call.CallProvision? || call.CallRescue?)
    ensures var after := Step(cfg, db, call).db;
      if call.RoomProved? && call.game !in db.proofs then after.proofs == db.proofs[call.game := call.proof]
      else after.proofs == db.proofs
  {
    match call
    case CallCancelExpired(g, before, key, now) => CancelExpiredKeepsProofs(db, g, before, key, now);
    case CallReleaseExpired(r, before, key, now) => ReleaseExpiredKeepsProofs(db, r, before, key, now);
    case CallStart(g, room, version, key, now) => StartKeepsProofs(db, g, room, version, key, now);
    case CallAbort(g, reason, key, now) => AbortKeepsProofs(db, g, reason, key, now);
    case CallLeave(u, g, key, now) => LeaveKeepsProofs(db, u, g, key, ForGame(g), now, None);
    case CallCancel(u, g, key, now) => CancelKeepsProofs(db, u, g, key, ForGame(g), now, None);
    case CallFinalize(g, b, action, key, now) => FinalizeKeepsProofs(db, g, b, action, key, now);
    case CallSettle(g, room, version, checksum, key, now) => SettleKeepsProofs(db, g, room, version, checksum, key, now);
    case _ =>
  }

  lemma CreateKeepsProofs(cfg: Config, db: Db, u: UserId, id: string, d: Option<Definition>, key: string, now: int)
    ensures Create(cfg, db, u, id, d, key, now).db.proofs == db.proofs
  {
  }

  lemma JoinKeepsProofs(cfg: Config, db: Db, u: UserId, g: GameId, key: string, now: int)
    ensures Join(cfg, db, u, g, key, now).db.proofs == db.proofs
  {
  }

  lemma ReconnectKeepsProofs(cfg: Config, db: Db, u: UserId, g: GameId, key: string, now: int)
    ensures Reconnect(cfg, db, u, g, key, now).db.proofs == db.proofs
  {
  }

  lemma ConsumeKeepsProofs(db: Db, token: Token, g: GameId, room: RoomId, instance: string, key: string, now: int)
    ensures Consume(db, token, g, room, instance, key, now).db.proofs == db.proofs
  {
    var id := ConsumeHonours(db, token, g, room, instance, key, now);
    if id.Some? {
      HonourKeepsProofs(db, id.value, OpKey(db.tickets[id.value].user, ConsumeTicket, key), ForTicket(token, g, room, instance), instance, now);
    }
  }

  lemma HonourKeepsProofs(db: Db, id: TicketId, k: OpKey, request: Request, instance: string, now: int)
    requires id in db.tickets && db.tickets[id].game in db.sessions
    ensures Honour(db, id, k, request, instance, now).db.proofs == db.proofs
  {
    PresentKeepsProofs(db, id, k, request, instance, now);
    if db.tickets[id].consumedBy.Some? {
      ReuseKeepsProofs(db, id, k, request, instance, now);
    }
  }

  lemma PresentKeepsProofs(db: Db, id: TicketId, k: OpKey, request: Request, instance: string, now: int)
    requires id in db.tickets && db.tickets[id].game in db.sessions
    ensures Present(db, id, k, request, instance, now).db.proofs == db.proofs
  {
    UnseatedKeepsProofs(db, id, k, request, instance, now);
  }

  lemma UnseatedKeepsProofs(db: Db, id: TicketId, k: OpKey, request: Request, instance: string, now: int)
    requires id in db.tickets && db.tickets[id].game in db.sessions
    ensures PresentUnseated(db, id, k, request, instance, now).db.proofs == db.proofs
  {
  }

  lemma ReuseKeepsProofs(db: Db, id: TicketId, k: OpKey, request: Request, instance: string, now: int)
    requires id in db.tickets && db.tickets[id].consumedBy.Some?
    ensures Reuse(db, id, k, request, instance, now).db.proofs == db.proofs
  {
  }

  lemma GrantsKeepProofs(cfg: Config, db: Db, u: UserId, key: string, now: int)
    ensures ProvisionUser(cfg, db, u, now).db.proofs == db.proofs && Rescue(cfg, db, u, key, now).db.proofs == db.proofs
  {
  }

  lemma LeaveKeepsProofs(db: Db, u: UserId, g: GameId, key: string, request: Request, now: int, expected: Option<Binding>)
    ensures Leave(db, u, g, key, request, now, expected).db.proofs == db.proofs
  {
  }

  lemma CancelKeepsProofs(db: Db, u: UserId, g: GameId, key: string, request: Request, now: int, expected: Option<Binding>)
    ensures Cancel(db, u, g, key, request, now, expected).db.proofs == db.proofs
  {
    CancelIs(db, u, g, key, request, now, expected);
    if g in db.sessions {
      DisbandKeepsProofs(db, OpKey(u, CancelSession, key), request, g, now);
    }
  }

  lemma DisbandKeepsProofs(db: Db, k: OpKey, request: Request, g: GameId, now: int)
    requires g in db.sessions
    ensures var o := Disband(db, k, request, g, now); o.Ok? ==> o.value.proofs == db.proofs
  {
  }

  lemma CancelExpiredKeepsProofs(db: Db, g: GameId, before: int, key: string, now: int)
    ensures CancelExpired(db, g, before, key, now).db.proofs == db.proofs
  {
    if g in db.sessions {
      DisbandKeepsProofs(db, OpKey(db.sessions[g].creator, CancelSession, key), ForWaitingExpiry(g), g, now);
    }
  }

  lemma ReleaseExpiredKeepsProofs(db: Db, r: ReservationId, before: int, key: string, now: int)
    ensures ReleaseExpired(db, r, before, key, now).db.proofs == db.proofs
  {
  }

  lemma StartKeepsProofs(db: Db, g: GameId, room: RoomId, version: int, key: string, now: int)
    ensures Start(db, g, room, version, key, now).db.proofs == db.proofs
  {
  }

  lemma AbortKeepsProofs(db: Db, g: GameId, reason: string, key: string, now: int)
    ensures Abort(db, g, reason, key, now).db.proofs == db.proofs
  {
  }

  lemma FinalizeKeepsProofs(db: Db, g: GameId, b: Binding, action: Action, key: string, now: int)
    ensures Finalize(db, g, b, action, key, now).db.proofs == db.proofs
  {
    var u := ActorOf(db, g, b);
    if u.Some? {
      LeaveKeepsProofs(db, u.value, g, key, ForFinalization(g, b, action), now, Some(b));
      CancelKeepsProofs(db, u.value, g, key, ForFinalization(g, b, action), now, Some(b));
    }
  }

  lemma SettleKeepsProofs(db: Db, g: GameId, room: RoomId, version: nat, checksum: string, key: string, now: int)
    ensures Settle(db, g, room, version, checksum, key, now).db.proofs == db.proofs
  {
  }

  /* ---------- Who holds a reservation ---------- */

  /** A live session's creator is among the users whose accounts a cancel, settle or abort of it locks. */
  lemma CreatorIsAHolder(cfg: Config, calls: seq<Call>, g: GameId) returns (r: ReservationId)
    requires ValidConfig(cfg)
    requires g in Reached(cfg, calls).sessions && Live(Reached(cfg, calls).sessions[g].lifecycle)
    ensures var db := Reached(cfg, calls);
      && r in ReservedIn(db, g) && r in Participants(db, g)
      && r in db.bank.reservations && db.bank.reservations[r].user == db.sessions[g].creator
  {
    ReachedSound(cfg, calls);
    var db := Reached(cfg, calls);
    r := CreatorsSeat(db.sessions, db.seats, db.bank.reservations, db.nextId, g);
    SeatOfRow(db.sessions, db.seats, db.bank.reservations, db.nextId, r);
    ReservedInIs(db, g);
    ParticipantsIs(db, g);
  }

  lemma CreatorsSeat(games: Games, seats: Seats, rows: Rows, n: nat, g: GameId) returns (r: ReservationId)
    requires SeatPart(games, seats, rows, n) && g in games && Live(games[g].lifecycle)
    ensures SeatedIn(seats, g, r) && seats[r].user == games[g].creator && StillReserved(rows, g, r)
  {
    OpenSeats(games, seats, rows, n);
    assert GameOk(games[g], seats, g);
    r :| SeatedIn(seats, g, r) && seats[r].user == games[g].creator && seats[r].index == 0;
    SeatedIffReserved(games, seats, rows, n, g, r);
  }
}
