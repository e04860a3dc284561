/** Once a room is live, the API on its own can no longer take a stake out of its open session. */
module LiveRooms {
  import opened Outcomes
  import opened CoinBank
  import opened Sessions
  import opened Seating
  import opened Growth
  import opened Soundness
  import opened SessionGuarantees
  import opened EndingAnswers
  import opened AdmissionAnswers

  /** An open session with a live room, and a stake in it. */
  predicate Staked(db: Db, g: GameId, r: ReservationId) {
    && g in db.sessions && db.sessions[g].lifecycle == Open && g in db.materialized
    && StillReserved(db.bank.reservations, g, r)
  }

  predicate Untouched(db: Db, after: Db, g: GameId, r: ReservationId) {
    && g in db.sessions && g in after.sessions && after.sessions[g] == db.sessions[g]
    && r in db.bank.reservations && r in after.bank.reservations && after.bank.reservations[r] == db.bank.reservations[r]
  }

  /** New identifiers are never those of a session or a stake that is there. */
  lemma KnownIds(games: Games, seats: Seats, rows: Rows, n: nat, g: GameId, r: ReservationId)
    requires SeatPart(games, seats, rows, n) && g in games && r in rows
    ensures g < n && r < n
  {
    OpenSeats(games, seats, rows, n);
    assert RowOk(games, rows[r]);
  }

  predicate SameStakes(db: Db, after: Db) {
    after.sessions == db.sessions && after.bank.reservations == db.bank.reservations
  }

  lemma GrantKeepsRows(b: Bank, k: OpKey, u: UserId, amount: nat, now: int, rescue: bool)
    requires u in b.accounts && Grant(b, k, u, amount, now, rescue).Ok?
    ensures Grant(b, k, u, amount, now, rescue).value.reservations == b.reservations
  {
  }

  lemma ProvisionTouchesNothing(cfg: Config, db: Db, u: UserId, now: int)
    ensures SameStakes(db, ProvisionUser(cfg, db, u, now).db)
  {
    ProvisionExactly(cfg, db, u, now);
  }

  lemma RescueTouchesNothing(cfg: Config, db: Db, u: UserId, key: string, now: int)
    ensures SameStakes(db, Rescue(cfg, db, u, key, now).db)
  {
    if u in db.bank.accounts && Wealth(db.bank, u) < cfg.rescueBalance {
      RescueGrantTouchesNothing(cfg, db, OpKey(u, RescueGrant, key), u, now);
    }
  }

  lemma RescueGrantTouchesNothing(cfg: Config, db: Db, k: OpKey, u: UserId, now: int)
    requires u in db.bank.accounts && Wealth(db.bank, u) < cfg.rescueBalance
    ensures SameStakes(db, RescueGranted(cfg, db, k, u, now).db)
  {
    if Grant(db.bank, k, u, cfg.rescueBalance - Wealth(db.bank, u), now, true).Ok? {
      GrantKeepsRows(db.bank, k, u, cfg.rescueBalance - Wealth(db.bank, u), now, true);
    }
  }

  lemma HoldAddsOne(b: Bank, k: OpKey, u: UserId, r: ReservationId, g: GameId, amount: nat)
    requires u in b.accounts && Hold(b, k, u, r, g, amount).Ok?
    ensures Hold(b, k, u, r, g, amount).value.reservations == b.reservations[r := Reservation(u, g, amount, Reserved, None)]
  {
  }

  lemma ReissueTouchesNothing(cfg: Config, db: Db, a: Response, now: int)
    requires a.Admission?
    ensures SameStakes(db, Reissue(cfg, db, a, now).db)
  {
  }

  lemma ReplayTouchesNothing(cfg: Config, db: Db, stored: Result<Response, ApiError>, now: int)
    ensures SameStakes(db, ReplayAdmission(cfg, db, stored, now).db)
  {
    if stored.Ok? && stored.value.Admission? {
      ReissueTouchesNothing(cfg, db, stored.value, now);
    }
  }

  lemma CreateSpares(cfg: Config, db: Db, u: UserId, id: string, d: Option<Definition>, key: string, now: int, g: GameId, r: ReservationId)
    requires g in db.sessions && r in db.bank.reservations && g < db.nextId && r < db.nextId
    ensures Untouched(db, Create(cfg, db, u, id, d, key, now).db, g, r)
  {
    var k := OpKey(u, CreateSession, key);
    if k in db.ops {
      ReplayTouchesNothing(cfg, db, Replayed(db.ops[k], ForDefinition(id), CommittedOp), now);
    } else {
      CreateAnswers(cfg, db, u, id, d, key, now);
    }
  }

  lemma JoinSpares(cfg: Config, db: Db, u: UserId, game: GameId, key: string, now: int, g: GameId, r: ReservationId)
    requires g in db.sessions && r in db.bank.reservations && r < db.nextId
    ensures Untouched(db, Join(cfg, db, u, game, key, now).db, g, r)
  {
    var k := OpKey(u, JoinIntent, key);
    if k in db.ops {
      ReplayTouchesNothing(cfg, db, Replayed(db.ops[k], ForGame(game), CommittedOp), now);
    } else {
      JoinCases(cfg, db, u, game, key, now);
      if u in db.bank.accounts && game in db.sessions && Join(cfg, db, u, game, key, now).reply.Ok? {
        JoinAtIsExactly(cfg, db, k, game, First(db.sessions[game].capacity, Vacant(db.seats, game)).value, now);
        HoldAddsOne(db.bank, k, u, db.nextId, game, db.sessions[game].entry);
      }
    }
  }

  lemma ReconnectTouchesNothing(cfg: Config, db: Db, u: UserId, g: GameId, key: string, now: int)
    ensures SameStakes(db, Reconnect(cfg, db, u, g, key, now).db)
  {
    var k := OpKey(u, ReconnectTicket, key);
    if k in db.ops {
      ReplayTouchesNothing(cfg, db, Replayed(db.ops[k], ForGame(g), NoOp), now);
    } else {
      ReconnectCases(cfg, db, u, g, key, now);
      var found := First(db.nextId, SeatOfUser(db.seats, g, u));
      if g in db.sessions && found.Some? && found.value in db.seats {
        ReissueTouchesNothing(cfg, db, Admission(g, db.sessions[g].room, found.value, db.seats[found.value].player), now);
      }
    }
  }

  lemma ConsumeTouchesNothing(db: Db, token: Token, g: GameId, room: RoomId, instance: string, key: string, now: int)
    ensures SameStakes(db, Consume(db, token, g, room, instance, key, now).db)
  {
    var id := ConsumeHonours(db, token, g, room, instance, key, now);
    if id.Some? {
      HonourTouchesNothing(db, id.value, OpKey(db.tickets[id.value].user, ConsumeTicket, key), ForTicket(token, g, room, instance), instance, now);
    }
  }

  lemma HonourTouchesNothing(db: Db, id: TicketId, k: OpKey, request: Request, instance: string, now: int)
    requires id in db.tickets && db.tickets[id].game in db.sessions
    ensures SameStakes(db, Honour(db, id, k, request, instance, now).db)
  {
    PresentTouchesNothing(db, id, k, request, instance, now);
    if db.tickets[id].consumedBy.Some? {
      ReuseTouchesNothing(db, id, k, request, instance, now);
    }
  }

  lemma ReuseTouchesNothing(db: Db, id: TicketId, k: OpKey, request: Request, instance: string, now: int)
    requires id in db.tickets && db.tickets[id].consumedBy.Some?
    ensures SameStakes(db, Reuse(db, id, k, request, instance, now).db)
  {
    var t, found := db.tickets[id], BoundSeat(db, db.tickets[id]);
    if t.consumedBy.value == instance && found.Some? && SeatFits(db, t, found.value) && k !in db.ops {
      var response := Admitted(t.user, AdmissionOf(t), db.seats[found.value].index, true);
      assert Reuse(db, id, k, request, instance, now).db == Record(db, k, request, NoOp, response, now);
    }
  }

  lemma PresentTouchesNothing(db: Db, id: TicketId, k: OpKey, request: Request, instance: string, now: int)
    requires id in db.tickets && db.tickets[id].game in db.sessions
    ensures SameStakes(db, Present(db, id, k, request, instance, now).db)
  {
    UnseatedTouchesNothing(db, id, k, request, instance, now);
  }

  lemma UnseatedTouchesNothing(db: Db, id: TicketId, k: OpKey, request: Request, instance: string, now: int)
    requires id in db.tickets && db.tickets[id].game in db.sessions
    ensures SameStakes(db, PresentUnseated(db, id, k, request, instance, now).db)
  {
  }

  /** Leaving another session, or this one without the room's word, spares the stake. */
  lemma LeaveSpares(cfg: Config, db: Db, u: UserId, game: GameId, key: string, request: Request, now: int, expected: Option<Binding>, g: GameId, r: ReservationId)
    requires Sound(cfg, db) && Staked(db, g, r) && (game != g || expected.None?)
    ensures Untouched(db, Leave(db, u, game, key, request, now, expected).db, g, r)
  {
    if OpKey(u, ReleaseJoinIntent, key) !in db.ops {
      LeaveAnswers(cfg, db, u, game, key, request, now, expected);
      var o := Leave(db, u, game, key, request, now, expected);
      if o.reply.Ok? {
        var s :| CanLeave(db, u, game, expected, s);
        SeatOfRow(db.sessions, db.seats, db.bank.reservations, db.nextId, s);
        LeftElsewhere(db, o, u, s, key, request, now, g, r);
      }
    } else {
      KnownLeaveSpares(db, u, game, key, request, now, expected);
    }
  }

  lemma LeftElsewhere(db: Db, o: Sessions.Outcome, u: UserId, s: ReservationId, key: string, request: Request, now: int, g: GameId, r: ReservationId)
    requires LeaveDone(db, o, u, s, key, request, now) && Staked(db, g, r) && s != r
    ensures Untouched(db, o.db, g, r)
  {
  }

  lemma KnownLeaveSpares(db: Db, u: UserId, game: GameId, key: string, request: Request, now: int, expected: Option<Binding>)
    requires OpKey(u, ReleaseJoinIntent, key) in db.ops
    ensures Leave(db, u, game, key, request, now, expected).db == db
  {
  }

  /** Cancelling another session, or this one without the room's word, spares the stake. */
  lemma CancelSpares(cfg: Config, db: Db, u: UserId, game: GameId, key: string, request: Request, now: int, expected: Option<Binding>, g: GameId, r: ReservationId)
    requires Sound(cfg, db) && Staked(db, g, r) && (game != g || expected.None?)
    ensures Untouched(db, Cancel(db, u, game, key, request, now, expected).db, g, r)
  {
    if OpKey(u, CancelSession, key) !in db.ops {
      CancelAnswers(cfg, db, u, game, key, request, now, expected);
    }
  }

  lemma FinalizeSpares(cfg: Config, db: Db, game: GameId, b: Binding, action: Action, key: string, now: int, g: GameId, r: ReservationId)
    requires Sound(cfg, db) && Staked(db, g, r) && game != g
    ensures Untouched(db, Finalize(db, game, b, action, key, now).db, g, r)
  {
    var u := ActorOf(db, game, b);
    if u.Some? {
      LeaveSpares(cfg, db, u.value, game, key, ForFinalization(game, b, action), now, Some(b), g, r);
      CancelSpares(cfg, db, u.value, game, key, ForFinalization(game, b, action), now, Some(b), g, r);
    }
  }

  lemma ExpirySpares(cfg: Config, db: Db, game: GameId, before: int, key: string, now: int, g: GameId, r: ReservationId)
    requires Sound(cfg, db) && Staked(db, g, r) && game != g
    ensures Untouched(db, CancelExpired(db, game, before, key, now).db, g, r)
  {
    if game in db.sessions && OpKey(db.sessions[game].creator, CancelSession, key) !in db.ops {
      WaitingExpiryAnswers(cfg, db, game, before, key, now);
    }
  }

  lemma SettleSpares(cfg: Config, db: Db, game: GameId, room: RoomId, version: nat, checksum: string, key: string, now: int, g: GameId, r: ReservationId)
    requires Sound(cfg, db) && Staked(db, g, r)
    ensures Untouched(db, Settle(db, game, room, version, checksum, key, now).db, g, r)
  {
    if game in db.sessions && OpKey(db.sessions[game].creator, SettleSession, key) !in db.ops {
      SettleAnswers(cfg, db, game, room, version, checksum, key, now);
      var o := Settle(db, game, room, version, checksum, key, now);
      if o.reply.Ok? {
        var w :| CanSettle(db, game, room, version, checksum, w);
        SettledElsewhere(db, o, game, room, version, checksum, key, w, now, g, r);
      }
    } else {
      KnownSettlementSpares(db, game, room, version, checksum, key, now);
    }
  }

  lemma SettledElsewhere(
    db: Db, o: Sessions.Outcome, game: GameId, room: RoomId, version: nat, checksum: string, key: string, w: ReservationId, now: int,
    g: GameId, r: ReservationId)
    requires SettleDone(db, o, game, room, version, checksum, key, w, now) && Staked(db, g, r) && game != g
    ensures Untouched(db, o.db, g, r)
  {
  }

  lemma KnownSettlementSpares(db: Db, game: GameId, room: RoomId, version: nat, checksum: string, key: string, now: int)
    requires game in db.sessions ==> OpKey(db.sessions[game].creator, SettleSession, key) in db.ops
    ensures Settle(db, game, room, version, checksum, key, now).db == db
  {
  }

  lemma AbortSpares(cfg: Config, db: Db, game: GameId, reason: string, key: string, now: int, g: GameId, r: ReservationId)
    requires Sound(cfg, db) && Staked(db, g, r)
    ensures Untouched(db, Abort(db, game, reason, key, now).db, g, r)
  {
    if game in db.sessions && OpKey(db.sessions[game].creator, AbortSession, key) !in db.ops {
      AbortAnswers(cfg, db, game, reason, key, now);
    }
  }

  /** A start moves no stake. */
  lemma StartMovesNoStake(db: Db, game: GameId, room: RoomId, version: int, key: string, now: int)
    ensures var o := Start(db, game, room, version, key, now);
      o.db.bank == db.bank && forall g :: g in db.sessions && g != game ==> g in o.db.sessions && o.db.sessions[g] == db.sessions[g]
  {
    if game in db.sessions && OpKey(db.sessions[game].creator, MarkStarted, key) !in db.ops {
      StartCases(db, game, room, version, key, now);
    }
  }

  /** The three ways out of an open session with a live room: the room's word, the waiting limit, or the start. */
  predicate WayOut(call: Call, g: GameId) {
    (call.CallFinalize? || call.CallCancelExpired? || call.CallStart?) && call.game == g
  }

  lemma StakeStays(cfg: Config, db: Db, call: Call, g: GameId, r: ReservationId)
    requires Sound(cfg, db) && Staked(db, g, r) && !WayOut(call, g)
    ensures Untouched(db, Step(cfg, db, call).db, g, r)
  {
    KnownIds(db.sessions, db.seats, db.bank.reservations, db.nextId, g, r);
    if call.CallProvision? || call.CallRescue? || call.CallCreate? || call.CallJoin? || call.CallReconnect? || call.CallConsume? {
      RequestsSpare(cfg, db, call, g, r);
    } else if call.CallLeave? || call.CallCancel? || call.CallFinalize? || call.CallCancelExpired? || call.CallReleaseExpired? {
      WithdrawalsSpare(cfg, db, call, g, r);
    } else {
      OthersSpare(cfg, db, call, g, r);
    }
  }

  lemma RequestsSpare(cfg: Config, db: Db, call: Call, g: GameId, r: ReservationId)
    requires call.CallProvision? || call.CallRescue? || call.CallCreate? || call.CallJoin? || call.CallReconnect? || call.CallConsume?
    requires Staked(db, g, r) && g < db.nextId && r < db.nextId
    ensures Untouched(db, Step(cfg, db, call).db, g, r)
  {
    match call
    case CallProvision(u, now) => ProvisionTouchesNothing(cfg, db, u, now);
    case CallRescue(u, key, now) => RescueTouchesNothing(cfg, db, u, key, now);
    case CallCreate(u, id, d, key, now) => CreateSpares(cfg, db, u, id, d, key, now, g, r);
    case CallJoin(u, game, key, now) => JoinSpares(cfg, db, u, game, key, now, g, r);
    case CallReconnect(u, game, key, now) => ReconnectTouchesNothing(cfg, db, u, game, key, now);
    case CallConsume(token, game, room, instance, key, now) => ConsumeTouchesNothing(db, token, game, room, instance, key, now);
  }

  lemma WithdrawalsSpare(cfg: Config, db: Db, call: Call, g: GameId, r: ReservationId)
    requires call.CallLeave? || call.CallCancel? || call.CallFinalize? || call.CallCancelExpired? || call.CallReleaseExpired?
    requires Sound(cfg, db) && Staked(db, g, r) && !WayOut(call, g)
    ensures Untouched(db, Step(cfg, db, call).db, g, r)
  {
    match call
    case CallLeave(u, game, key, now) => LeaveSpares(cfg, db, u, game, key, ForGame(game), now, None, g, r);
    case CallCancel(u, game, key, now) => CancelSpares(cfg, db, u, game, key, ForGame(game), now, None, g, r);
    case CallFinalize(game, b, action, key, now) => FinalizeSpares(cfg, db, game, b, action, key, now, g, r);
    case CallCancelExpired(game, before, key, now) => ExpirySpares(cfg, db, game, before, key, now, g, r);
    case CallReleaseExpired(s, before, key, now) => ReleaseExpiredDoesNothing(db, s, before, key, now);
  }

  lemma OthersSpare(cfg: Config, db: Db, call: Call, g: GameId, r: ReservationId)
    requires call.CallStart? || call.CallSettle? || call.CallAbort? || call.CallMarkRecovery? || call.CallMarkProofRecovery?
      || call.RoomMaterialized? || call.RoomProved?
    requires Sound(cfg, db) && Staked(db, g, r) && !WayOut(call, g)
    ensures Untouched(db, Step(cfg, db, call).db, g, r)
  {
    match call
    case CallStart(game, room, version, key, now) => StartMovesNoStake(db, game, room, version, key, now);
    case CallSettle(game, room, version, checksum, key, now) => SettleSpares(cfg, db, game, room, version, checksum, key, now, g, r);
    case CallAbort(game, reason, key, now) => AbortSpares(cfg, db, game, reason, key, now, g, r);
    case _ => MarksSpare(cfg, db, call, g, r);
  }

  lemma MarkRecoverySpares(db: Db, game: GameId, before: int, evidence: bool, g: GameId, r: ReservationId)
    requires Staked(db, g, r)
    ensures Untouched(db, MarkRecovery(db, game, before, evidence).db, g, r)
  {
  }

  lemma MarkProofRecoverySpares(db: Db, game: GameId, g: GameId, r: ReservationId)
    requires Staked(db, g, r)
    ensures Untouched(db, MarkProofRecovery(db, game).db, g, r)
  {
  }

  lemma MarksSpare(cfg: Config, db: Db, call: Call, g: GameId, r: ReservationId)
    requires call.CallMarkRecovery? || call.CallMarkProofRecovery? || call.RoomMaterialized? || call.RoomProved?
    requires Staked(db, g, r)
    ensures Untouched(db, Step(cfg, db, call).db, g, r)
  {
    match call
    case CallMarkRecovery(game, before, evidence) => MarkRecoverySpares(db, game, before, evidence, g, r);
    case CallMarkProofRecovery(game) => MarkProofRecoverySpares(db, game, g, r);
    case RoomMaterialized(game) =>
    case RoomProved(game, proof) =>
  }
}
