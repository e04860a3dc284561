/**
 * Exactly when a transaction that ends a stake succeeds, in every reachable state and under a new key,
 * and everything it then changes: leaving, cancelling, waiting too long, aborting, settling.
 */
module EndingAnswers {
  import opened Outcomes
  import opened CoinBank
  import opened Sessions
  import opened Seating
  import opened Growth
  import opened Admissions
  import opened Records
  import opened Soundness
  import opened SessionGuarantees

  /* ---------- The seats of a session ---------- */

  function SeatsOf(seats: Seats, g: GameId): set<ReservationId> {
    set r | r in seats && seats[r].game == g
  }

  lemma {:induction false} CountDistinct(s: seq<ReservationId>, t: set<ReservationId>)
    requires Distinct(s) && forall r :: r in s <==> r in t
    ensures |s| == |t|
    decreases |s|
  {
    if s == [] {
      assert t == {};
    } else {
      var init, last := s[..|s| - 1], s[|s| - 1];
      assert s == init + [last] && last !in init;
      CountDistinct(init, t - {last});
    }
  }

  /** In a live session as many participants are listed as there are seats. */
  lemma AsManyAsSeats(db: Db, g: GameId)
    requires SeatPart(db.sessions, db.seats, db.bank.reservations, db.nextId)
    requires g in db.sessions && Live(db.sessions[g].lifecycle)
    ensures |Participants(db, g)| == |SeatsOf(db.seats, g)|
  {
    ParticipantsIs(db, g);
    CountDistinct(Participants(db, g), SeatsOf(db.seats, g));
  }

  /* ---------- When stakes can be given back ---------- */

  /** The only obstacle to a release: the user's available column cannot take the amount. */
  predicate RoomFor(b: Bank, u: UserId, amount: int) {
    amount == 0 || Column(b, Available(u)) + amount <= MAX_ACCOUNT_COIN
  }

  predicate RowFits(b: Bank, r: ReservationId)
    requires r in b.reservations
  {
    RoomFor(b, b.reservations[r].user, b.reservations[r].amount)
  }

  ghost predicate OneEach(rows: Rows, listed: seq<ReservationId>)
    requires forall i :: 0 <= i < |listed| ==> listed[i] in rows
  {
    forall i, j :: 0 <= i < j < |listed| ==> rows[listed[i]].user != rows[listed[j]].user
  }

  lemma FreeSparesOthers(b: Bank, k: OpKey, r: ReservationId, v: UserId)
    requires Owned(b) && r in b.reservations && b.reservations[r].user != v && Free(b, k, r).Ok?
    ensures Column(Free(b, k, r).value, Available(v)) == Column(b, Available(v))
  {
    ShiftColumns(b, k, b.reservations[r].user, 0 - b.reservations[r].amount, v);
  }

  ghost predicate AllFit(b: Bank, rows: seq<ReservationId>)
    requires forall i :: 0 <= i < |rows| ==> rows[i] in b.reservations
  {
    forall i :: 0 <= i < |rows| ==> RowFits(b, rows[i])
  }

  /** Only users with a listed row see their available coins change. */
  ghost predicate Spares(b: Bank, c: Bank, rows: seq<ReservationId>)
    requires forall i :: 0 <= i < |rows| ==> rows[i] in b.reservations
  {
    forall v {:trigger Column(c, Available(v))} ::
      (forall i :: 0 <= i < |rows| ==> b.reservations[rows[i]].user != v) ==> Column(c, Available(v)) == Column(b, Available(v))
  }

  lemma {:induction false} FreeAllIff(b: Bank, k: OpKey, rows: seq<ReservationId>)
    requires Balanced(b) && Closable(b.reservations, rows) && OneEach(b.reservations, rows)
    ensures var o := CloseAll(b, k, rows, Released); (o.Ok? <==> AllFit(b, rows)) && (o.Ok? ==> Spares(b, o.value, rows))
    decreases |rows|
  {
    if rows != [] {
      var init := rows[..|rows| - 1];
      assert Closable(b.reservations, init) && OneEach(b.reservations, init);
      FreeAllIff(b, k, init);
      var o := CloseAll(b, k, init, Released);
      AllFitOneMore(b, rows);
      if o.Ok? {
        FreedBalanced(b, k, init);
        LastFits(b, o.value, k, rows);
      }
    }
  }

  lemma FreedBalanced(b: Bank, k: OpKey, rows: seq<ReservationId>)
    requires Balanced(b) && Closable(b.reservations, rows) && CloseAll(b, k, rows, Released).Ok?
    ensures Balanced(CloseAll(b, k, rows, Released).value)
    ensures ClosesExactly(b.reservations, CloseAll(b, k, rows, Released).value.reservations, rows, Released, k)
  {
    FreeAllKeeps(b, k, rows);
  }

  lemma AllFitOneMore(b: Bank, rows: seq<ReservationId>)
    requires rows != [] && forall i :: 0 <= i < |rows| ==> rows[i] in b.reservations
    ensures AllFit(b, rows) <==> AllFit(b, rows[..|rows| - 1]) && RowFits(b, rows[|rows| - 1])
  {
    var init := rows[..|rows| - 1];
    assert forall i :: 0 <= i < |init| ==> init[i] == rows[i];
    if AllFit(b, init) && RowFits(b, rows[|rows| - 1]) {
      forall i | 0 <= i < |rows| ensures RowFits(b, rows[i]) {
        if i < |init| { assert RowFits(b, init[i]); }
      }
    }
  }

  lemma LastFits(b: Bank, c: Bank, k: OpKey, rows: seq<ReservationId>)
    requires rows != [] && Closable(b.reservations, rows) && OneEach(b.reservations, rows) && Balanced(c)
    requires ClosesExactly(b.reservations, c.reservations, rows[..|rows| - 1], Released, k)
    requires Spares(b, c, rows[..|rows| - 1])
    ensures var o := Free(c, k, rows[|rows| - 1]);
      (o.Ok? <==> RowFits(b, rows[|rows| - 1])) && (o.Ok? ==> Spares(b, o.value, rows))
  {
    var init, last := rows[..|rows| - 1], rows[|rows| - 1];
    LastUntouched(b.reservations, c.reservations, rows, Released, k);
    BalancedIsBooks(c, k);
    FreeKeeps(c, k, 0, last);
    assert forall i :: 0 <= i < |init| ==> init[i] == rows[i] && b.reservations[init[i]].user != b.reservations[last].user;
    assert Column(c, Available(b.reservations[last].user)) == Column(b, Available(b.reservations[last].user));
    if Free(c, k, last).Ok? {
      forall v | forall i :: 0 <= i < |rows| ==> b.reservations[rows[i]].user != v
        ensures Column(Free(c, k, last).value, Available(v)) == Column(b, Available(v))
      {
        assert b.reservations[rows[|rows| - 1]].user != v;
        FreeSparesOthers(c, k, last, v);
        assert Column(c, Available(v)) == Column(b, Available(v));
      }
    }
  }

  /** Everyone seated in the session can take their entry back. */
  ghost predicate AllCanTakeBack(db: Db, g: GameId)
    requires g in db.sessions
  {
    forall r :: SeatedIn(db.seats, g, r) ==> RoomFor(db.bank, db.seats[r].user, db.sessions[g].entry)
  }

  /** One seated stake of a live session, on both sides. */
  lemma StakeOfSeat(games: Games, seats: Seats, rows: Rows, n: nat, g: GameId, r: ReservationId)
    requires SeatPart(games, seats, rows, n) && g in games && Live(games[g].lifecycle)
    ensures SeatedIn(seats, g, r) <==> StillReserved(rows, g, r)
    ensures SeatedIn(seats, g, r) ==> rows[r].user == seats[r].user && rows[r].amount == games[g].entry && r < n
  {
    OpenSeats(games, seats, rows, n);
    SeatedIffReserved(games, seats, rows, n, g, r);
    if SeatedIn(seats, g, r) {
      assert SeatOk(games, rows, n, seats[r], r);
      assert RowOk(games, rows[r]);
    }
  }

  lemma UsersApart(games: Games, seats: Seats, rows: Rows, n: nat, g: GameId, listed: seq<ReservationId>)
    requires SeatPart(games, seats, rows, n) && g in games && Live(games[g].lifecycle)
    requires Closable(rows, listed) && forall r :: r in listed <==> StillReserved(rows, g, r)
    ensures OneEach(rows, listed)
  {
    forall i, j | 0 <= i < j < |listed| ensures rows[listed[i]].user != rows[listed[j]].user {
      assert listed[i] in listed && listed[j] in listed;
      StakeOfSeat(games, seats, rows, n, g, listed[j]);
      if rows[listed[i]].user == rows[listed[j]].user {
        TheSeat(games, seats, rows, n, g, listed[i], listed[j]);
      }
    }
  }

  lemma ReleaseIff(db: Db, k: OpKey, g: GameId, listed: seq<ReservationId>)
    requires BankPart(db.bank) && SeatPart(db.sessions, db.seats, db.bank.reservations, db.nextId)
    requires g in db.sessions && Live(db.sessions[g].lifecycle)
    requires Closable(db.bank.reservations, listed)
    requires forall r :: r in listed <==> StillReserved(db.bank.reservations, g, r)
    ensures CloseAll(db.bank, k, listed, Released).Ok? <==> AllCanTakeBack(db, g)
  {
    UsersApart(db.sessions, db.seats, db.bank.reservations, db.nextId, g, listed);
    OpenBank(db.bank);
    FreeAllIff(db.bank, k, listed);
    forall i | 0 <= i < |listed|
      ensures SeatedIn(db.seats, g, listed[i])
      ensures RowFits(db.bank, listed[i]) <==> RoomFor(db.bank, db.seats[listed[i]].user, db.sessions[g].entry)
    {
      assert listed[i] in listed;
      StakeOfSeat(db.sessions, db.seats, db.bank.reservations, db.nextId, g, listed[i]);
    }
    forall r | SeatedIn(db.seats, g, r) ensures exists i :: 0 <= i < |listed| && listed[i] == r {
      StakeOfSeat(db.sessions, db.seats, db.bank.reservations, db.nextId, g, r);
      assert r in listed;
    }
  }

  /** Everybody who has a reservation has an account. */
  lemma AccountsArePresent(db: Db, rows: seq<ReservationId>)
    requires BankPart(db.bank) && forall i :: 0 <= i < |rows| ==> rows[i] in db.bank.reservations
    ensures AccountsPresent(db, rows)
  {
    OpenBank(db.bank);
  }

  /* ---------- What an ending leaves behind ---------- */

  /** Every stake still reserved in the session is closed by `k`, and no other row changes. */
  ghost predicate ClosesGame(before: Rows, after: Rows, g: GameId, status: Status, k: OpKey) {
    && before.Keys == after.Keys
    && forall r :: r in before ==>
         if before[r].game == g && before[r].status == Reserved
         then after[r] == before[r].(status := status, terminal := Some(k))
         else after[r] == before[r]
  }

  lemma ClosesTheGame(before: Rows, after: Rows, g: GameId, status: Status, k: OpKey, listed: seq<ReservationId>)
    requires ClosesExactly(before, after, listed, status, k)
    requires forall r :: r in listed <==> StillReserved(before, g, r)
    ensures ClosesGame(before, after, g, status, k)
  {
    forall r | r in before
      ensures if before[r].game == g && before[r].status == Reserved
              then after[r] == before[r].(status := status, terminal := Some(k)) else after[r] == before[r]
    {
      assert r in listed <==> StillReserved(before, g, r);
    }
  }

  /** Unused tickets of the session, or of the one reservation, stop being valid. */
  ghost predicate StopsTickets(before: Tickets, after: Tickets, stale: Ticket -> bool, now: int) {
    && before.Keys == after.Keys
    && forall t :: t in before ==>
         if stale(before[t]) && before[t].consumedBy.None?
         then after[t] == before[t].(expiresAt := if before[t].createdAt + 1 > now then before[t].createdAt + 1 else now)
         else after[t] == before[t]
  }

  lemma ExpireStops(tickets: Tickets, stale: Ticket -> bool, now: int)
    ensures StopsTickets(tickets, ExpireTickets(tickets, stale, now), stale, now)
  {
  }

  /** The rows added to the history: one for each seat of the session, and no more. */
  ghost predicate AddsScores(before: seq<HistoryRow>, after: seq<HistoryRow>, seats: Seats, g: GameId, score: Seat -> HistoryRow) {
    && |after| == |before| + |SeatsOf(seats, g)| && before <= after
    && forall r :: SeatedIn(seats, g, r) ==> score(seats[r]) in after[|before|..]
  }

  lemma ScoresAdded(
    before: seq<HistoryRow>, added: seq<HistoryRow>, seats: Seats, g: GameId, score: Seat -> HistoryRow, listed: seq<ReservationId>)
    requires Distinct(listed) && forall r :: r in listed <==> SeatedIn(seats, g, r)
    requires |added| == |listed| && forall i :: 0 <= i < |listed| ==> listed[i] in seats && added[i] == score(seats[listed[i]])
    ensures AddsScores(before, before + added, seats, g, score)
  {
    CountDistinct(listed, SeatsOf(seats, g));
    assert (before + added)[|before|..] == added;
    forall r | SeatedIn(seats, g, r) ensures score(seats[r]) in added {
      var i :| 0 <= i < |listed| && listed[i] == r;
      assert added[i] == score(seats[r]);
    }
  }

  function CancelScore(): Seat -> HistoryRow {
    (seat: Seat) => HistoryRow(seat.game, seat.user, seat.player, ScoreCancelled, 0)
  }

  function AbortScore(): Seat -> HistoryRow {
    (seat: Seat) => HistoryRow(seat.game, seat.user, seat.player, ScoreAborted, 0)
  }

  /** The operation row that every committed ending writes. */
  function CommittedRow(db: Db, request: Request, now: int): Operation {
    Operation(db.nextId, request, CommittedOp, Some(Committed(db.nextId)), now)
  }

  /* ---------- Cancelling ---------- */

  /** All that a cancellation changes. */
  ghost predicate CancelsGame(db: Db, after: Db, g: GameId, k: OpKey, request: Request, now: int)
    requires g in db.sessions
  {
    && ClosesGame(db.bank.reservations, after.bank.reservations, g, Released, k)
    && (forall v :: Wealth(after.bank, v) == Wealth(db.bank, v))
    && StopsTickets(db.tickets, after.tickets, OfGame(g), now)
    && AddsScores(db.history, after.history, db.seats, g, CancelScore())
    && (forall r :: r in after.seats <==> r in db.seats && db.seats[r].game != g)
    && (forall r :: r in after.seats ==> after.seats[r] == db.seats[r])
    && after == db.(
         bank := after.bank, tickets := after.tickets, history := after.history, seats := after.seats,
         sessions := db.sessions[g := db.sessions[g].(lifecycle := Cancelled)],
         ops := db.ops[k := CommittedRow(db, request, now)], nextId := db.nextId + 1)
  }

  lemma CancelScores(db: Db, g: GameId)
    requires SeatPart(db.sessions, db.seats, db.bank.reservations, db.nextId) && RecordPart(db)
    requires g in db.sessions && db.sessions[g].lifecycle == Open
    ensures AddsScores(db.history, CancelledRows(db.history, db.seats, Seated(db, g)), db.seats, g, CancelScore())
  {
    var rows := Seated(db, g);
    OpenRecords(db);
    SeatedIs(db, g);
    var added := CancelledRowsAdd(db.sessions, db.history, db.seats, rows, g);
    ScoresAdded(db.history, added, db.seats, g, CancelScore(), rows);
  }

  lemma ReleasedGame(b: Bank, k: OpKey, g: GameId, listed: seq<ReservationId>, bank: Bank)
    requires BankPart(b) && Closable(b.reservations, listed)
    requires forall r :: r in listed <==> StillReserved(b.reservations, g, r)
    requires CloseAll(b, k, listed, Released) == Ok(bank)
    ensures ClosesGame(b.reservations, bank.reservations, g, Released, k)
    ensures forall v :: Wealth(bank, v) == Wealth(b, v)
  {
    OpenBank(b);
    FreeAllKeeps(b, k, listed);
    ClosesTheGame(b.reservations, bank.reservations, g, Released, k, listed);
  }

  lemma DisbandExactly(cfg: Config, db: Db, k: OpKey, request: Request, g: GameId, now: int)
    requires Sound(cfg, db) && g in db.sessions && db.sessions[g].lifecycle == Open
    ensures var o := Disband(db, k, request, g, now);
      && (o.Ok? <==> AllCanTakeBack(db, g))
      && (o.Ok? ==> CancelsGame(db, o.value, g, k, request, now))
  {
    var rows := ReservedIn(db, g);
    ReservedInIs(db, g);
    ReleaseIff(db, k, g, rows);
    DisbandIs(db, k, request, g, now);
    var o := CloseAll(db.bank, k, rows, Released);
    if o.Ok? {
      ReleasedGame(db.bank, k, g, rows, o.value);
      ExpireStops(db.tickets, OfGame(g), now);
      CancelScores(db, g);
    }
  }

  lemma DisbandIs(db: Db, k: OpKey, request: Request, g: GameId, now: int)
    requires g in db.sessions
    ensures var o, f := Disband(db, k, request, g, now), CloseAll(db.bank, k, ReservedIn(db, g), Released);
      && (o.Ok? <==> f.Ok?)
      && (o.Ok? ==> o.value == db.(
           bank := f.value, tickets := ExpireTickets(db.tickets, OfGame(g), now),
           history := CancelledRows(db.history, db.seats, Seated(db, g)), seats := WithoutGame(db.seats, g),
           sessions := db.sessions[g := db.sessions[g].(lifecycle := Cancelled)],
           ops := db.ops[k := CommittedRow(db, request, now)], nextId := db.nextId + 1))
  {
  }

  /** Who may cancel: the creator of an open session, from the API only before the room is live, from the room only on seat 0. */
  ghost predicate CanCancel(db: Db, u: UserId, g: GameId, expected: Option<Binding>) {
    && g in db.sessions && db.sessions[g].creator == u && db.sessions[g].lifecycle == Open
    && (match expected
        case None => g !in db.materialized
        case Some(b) =>
          && db.sessions[g].room == b.room
          && b.reservation in db.seats && db.seats[b.reservation] == Seat(g, b.player, u, 0))
    && AllCanTakeBack(db, g)
  }

  /** Everything a successful cancellation says, as one claim. */
  ghost predicate CancelDone(db: Db, o: Sessions.Outcome, u: UserId, g: GameId, key: string, request: Request, now: int) {
    && g in db.sessions && o.reply == Ok(Committed(db.nextId))
    && CancelsGame(db, o.db, g, OpKey(u, CancelSession, key), request, now)
  }

  /** The case analysis of a cancellation. */
  lemma CancelCases(db: Db, u: UserId, g: GameId, key: string, request: Request, now: int, expected: Option<Binding>)
    requires g in db.sessions && db.sessions[g].lifecycle == Open && OpKey(u, CancelSession, key) !in db.ops
    requires AccountsPresent(db, ReservedIn(db, g))
    requires Disband(db, OpKey(u, CancelSession, key), request, g, now).Ok? <==> AllCanTakeBack(db, g)
    ensures var o, d := Cancel(db, u, g, key, request, now, expected), Disband(db, OpKey(u, CancelSession, key), request, g, now);
      && (o.reply.Ok? <==> CanCancel(db, u, g, expected))
      && (o.reply.Ok? ==> d.Ok? && o == Outcome(d.value, Ok(Committed(db.nextId))))
      && (o.reply.Err? ==> o.db == db)
  {
  }

  lemma CancelAnswers(cfg: Config, db: Db, u: UserId, g: GameId, key: string, request: Request, now: int, expected: Option<Binding>)
    requires Sound(cfg, db) && OpKey(u, CancelSession, key) !in db.ops
    ensures var o := Cancel(db, u, g, key, request, now, expected);
      && (o.reply.Ok? <==> CanCancel(db, u, g, expected))
      && (o.reply.Ok? ==> CancelDone(db, o, u, g, key, request, now))
      && (o.reply.Err? ==> o.db == db)
  {
    if g in db.sessions {
      ReservedInIs(db, g);
      AccountsArePresent(db, ReservedIn(db, g));
      if db.sessions[g].lifecycle == Open {
        DisbandExactly(cfg, db, OpKey(u, CancelSession, key), request, g, now);
        CancelCases(db, u, g, key, request, now, expected);
      }
    }
  }

  /** A cancellation under a new key succeeds exactly when `CanCancel` holds, and then changes exactly this. */
  lemma CancelExactly(cfg: Config, calls: seq<Call>, u: UserId, g: GameId, key: string, request: Request, now: int, expected: Option<Binding>)
    requires ValidConfig(cfg) && OpKey(u, CancelSession, key) !in Reached(cfg, calls).ops
    ensures var db := Reached(cfg, calls);
      var o := Cancel(db, u, g, key, request, now, expected);
      && (o.reply.Ok? <==> CanCancel(db, u, g, expected))
      && (o.reply.Ok? ==> CancelDone(db, o, u, g, key, request, now))
      && (o.reply.Err? ==> o.db == db)
  {
    ReachedSound(cfg, calls);
    CancelAnswers(cfg, Reached(cfg, calls), u, g, key, request, now, expected);
  }

  lemma WaitingExpiryAnswers(cfg: Config, db: Db, g: GameId, before: int, key: string, now: int)
    requires Sound(cfg, db) && (g in db.sessions ==> OpKey(db.sessions[g].creator, CancelSession, key) !in db.ops)
    ensures var o := CancelExpired(db, g, before, key, now);
      if g in db.sessions && db.sessions[g].createdAt <= before && db.sessions[g].lifecycle == Open then
        if AllCanTakeBack(db, g) then
          && o.reply == Ok(Done(true))
          && CancelsGame(db, o.db, g, OpKey(db.sessions[g].creator, CancelSession, key), ForWaitingExpiry(g), now)
        else o.reply.Err? && o.db == db
      else o == Outcome(db, Ok(Done(false)))
  {
    if g in db.sessions {
      ReservedInIs(db, g);
      AccountsArePresent(db, ReservedIn(db, g));
      if db.sessions[g].lifecycle == Open {
        DisbandExactly(cfg, db, OpKey(db.sessions[g].creator, CancelSession, key), ForWaitingExpiry(g), g, now);
      }
    }
  }

  /** A session that has waited since before the limit is cancelled exactly when it is still open; every other one is left alone. */
  lemma WaitingExpiryExactly(cfg: Config, calls: seq<Call>, g: GameId, before: int, key: string, now: int)
    requires ValidConfig(cfg)
    requires var db := Reached(cfg, calls); g in db.sessions ==> OpKey(db.sessions[g].creator, CancelSession, key) !in db.ops
    ensures var db := Reached(cfg, calls);
      var o := CancelExpired(db, g, before, key, now);
      if g in db.sessions && db.sessions[g].createdAt <= before && db.sessions[g].lifecycle == Open then
        if AllCanTakeBack(db, g) then
          && o.reply == Ok(Done(true))
          && CancelsGame(db, o.db, g, OpKey(db.sessions[g].creator, CancelSession, key), ForWaitingExpiry(g), now)
        else o.reply.Err? && o.db == db
      else o == Outcome(db, Ok(Done(false)))
  {
    ReachedSound(cfg, calls);
    WaitingExpiryAnswers(cfg, Reached(cfg, calls), g, before, key, now);
  }

  /* ---------- Leaving ---------- */

  /** Who may leave: a seated user other than the creator of an open session, who can take the entry back. */
  ghost predicate CanLeave(db: Db, u: UserId, g: GameId, expected: Option<Binding>, r: ReservationId) {
    && g in db.sessions && db.sessions[g].lifecycle == Open && db.sessions[g].creator != u
    && SeatedIn(db.seats, g, r) && db.seats[r].user == u
    && (match expected
        case None => g !in db.materialized
        case Some(b) => db.sessions[g].room == b.room && b.reservation == r && db.seats[r].player == b.player)
    && RoomFor(db.bank, u, db.sessions[g].entry)
  }

  /** All that leaving changes. */
  ghost predicate LeavesGame(db: Db, after: Db, r: ReservationId, k: OpKey, request: Request, now: int)
    requires r in db.bank.reservations
  {
    && Frees(db.bank, after.bank, r, k)
    && StopsTickets(db.tickets, after.tickets, OfReservation(r), now)
    && after == db.(
         bank := after.bank, tickets := after.tickets, seats := db.seats - {r},
         ops := db.ops[k := CommittedRow(db, request, now)], nextId := db.nextId + 1)
  }

  /** One stake is closed by `k`, and nobody's total changes. */
  ghost predicate Frees(b: Bank, after: Bank, r: ReservationId, k: OpKey)
    requires r in b.reservations
  {
    && after.reservations == b.reservations[r := b.reservations[r].(status := Released, terminal := Some(k))]
    && forall v :: Wealth(after, v) == Wealth(b, v)
  }

  ghost predicate LeaveDone(db: Db, o: Sessions.Outcome, u: UserId, r: ReservationId, key: string, request: Request, now: int) {
    && r in db.bank.reservations && o.reply == Ok(Committed(db.nextId))
    && LeavesGame(db, o.db, r, OpKey(u, ReleaseJoinIntent, key), request, now)
  }

  lemma FreeExactly(b: Bank, k: OpKey, r: ReservationId)
    requires BankPart(b) && r in b.reservations && b.reservations[r].status == Reserved
    ensures Free(b, k, r).Ok? <==> RowFits(b, r)
    ensures Free(b, k, r).Ok? ==> Frees(b, Free(b, k, r).value, r, k)
  {
    OpenBank(b);
    BalancedIsBooks(b, k);
    FreeKeeps(b, k, 0, r);
  }

  lemma WithdrawIs(db: Db, k: OpKey, request: Request, r: ReservationId, now: int)
    requires r in db.bank.reservations
    ensures var o, f := Withdraw(db, k, request, r, now), Free(db.bank, k, r);
      && (o.Ok? <==> f.Ok?)
      && (o.Ok? ==> o.value == db.(
           bank := f.value, tickets := ExpireTickets(db.tickets, OfReservation(r), now), seats := db.seats - {r},
           ops := db.ops[k := CommittedRow(db, request, now)], nextId := db.nextId + 1))
  {
  }

  lemma WithdrawExactly(db: Db, k: OpKey, request: Request, r: ReservationId, now: int)
    requires BankPart(db.bank) && r in db.bank.reservations && db.bank.reservations[r].status == Reserved
    ensures var o := Withdraw(db, k, request, r, now);
      && (o.Ok? <==> RowFits(db.bank, r))
      && (o.Ok? ==> LeavesGame(db, o.value, r, k, request, now))
  {
    FreeExactly(db.bank, k, r);
    WithdrawIs(db, k, request, r, now);
    ExpireStops(db.tickets, OfReservation(r), now);
  }

  /** The one reservation that leaving would release is the user's seat. */
  lemma ReservedByUserIs(games: Games, seats: Seats, rows: Rows, n: nat, g: GameId, u: UserId)
    requires SeatPart(games, seats, rows, n) && g in games && Live(games[g].lifecycle)
    ensures var found := First(n, ReservedByUser(rows, g, u));
      && (found.Some? ==>
           && SeatedIn(seats, g, found.value) && seats[found.value].user == u
           && found.value in rows && rows[found.value].status == Reserved && rows[found.value].user == u
           && rows[found.value].amount == games[g].entry)
      && (forall r :: SeatedIn(seats, g, r) && seats[r].user == u ==> found == Some(r))
  {
    var found := First(n, ReservedByUser(rows, g, u));
    if found.Some? {
      assert ReservedByUser(rows, g, u)(found.value);
      StakeOfSeat(games, seats, rows, n, g, found.value);
    }
    forall r | SeatedIn(seats, g, r) && seats[r].user == u ensures found == Some(r) {
      StakeOfSeat(games, seats, rows, n, g, r);
      FirstExists(n, ReservedByUser(rows, g, u), r);
      TheSeat(games, seats, rows, n, g, found.value, r);
    }
  }

  lemma UserHasAccount(b: Bank, r: ReservationId)
    requires BankPart(b) && r in b.reservations
    ensures b.reservations[r].user in b.accounts
  {
    OpenBank(b);
  }

  lemma LeaveAnswers(cfg: Config, db: Db, u: UserId, g: GameId, key: string, request: Request, now: int, expected: Option<Binding>)
    requires Sound(cfg, db) && OpKey(u, ReleaseJoinIntent, key) !in db.ops
    ensures var o := Leave(db, u, g, key, request, now, expected);
      && (o.reply.Ok? <==> exists r :: CanLeave(db, u, g, expected, r))
      && (o.reply.Err? ==> o.db == db)
      && (forall r :: CanLeave(db, u, g, expected, r) ==> LeaveDone(db, o, u, r, key, request, now))
  {
    if g in db.sessions && db.sessions[g].lifecycle == Open {
      ReservedByUserIs(db.sessions, db.seats, db.bank.reservations, db.nextId, g, u);
      var found := First(db.nextId, ReservedByUser(db.bank.reservations, g, u));
      if found.Some? {
        UserHasAccount(db.bank, found.value);
        WithdrawExactly(db, OpKey(u, ReleaseJoinIntent, key), request, found.value, now);
        LeaveSettled(db, u, g, key, request, now, expected, found.value);
      }
    }
  }

  /** The case analysis of leaving, once the reservation is known. */
  lemma LeaveSettled(db: Db, u: UserId, g: GameId, key: string, request: Request, now: int, expected: Option<Binding>, r: ReservationId)
    requires OpKey(u, ReleaseJoinIntent, key) !in db.ops && u in db.bank.accounts
    requires g in db.sessions && db.sessions[g].lifecycle == Open
    requires First(db.nextId, ReservedByUser(db.bank.reservations, g, u)) == Some(r)
    requires SeatedIn(db.seats, g, r) && db.seats[r].user == u && r in db.bank.reservations
    requires db.bank.reservations[r].user == u && db.bank.reservations[r].amount == db.sessions[g].entry
    requires Withdraw(db, OpKey(u, ReleaseJoinIntent, key), request, r, now).Ok? <==> RowFits(db.bank, r)
    ensures var o, w := Leave(db, u, g, key, request, now, expected), Withdraw(db, OpKey(u, ReleaseJoinIntent, key), request, r, now);
      && (o.reply.Ok? <==> CanLeave(db, u, g, expected, r))
      && (CanLeave(db, u, g, expected, r) ==> w.Ok? && o == Outcome(w.value, Ok(Committed(db.nextId))))
      && (o.reply.Err? ==> o.db == db)
  {
  }

  /** Leaving under a new key succeeds exactly when `CanLeave` holds of a seat, and then changes exactly this. */
  lemma LeaveExactly(cfg: Config, calls: seq<Call>, u: UserId, g: GameId, key: string, request: Request, now: int, expected: Option<Binding>)
    requires ValidConfig(cfg) && OpKey(u, ReleaseJoinIntent, key) !in Reached(cfg, calls).ops
    ensures var db := Reached(cfg, calls);
      var o := Leave(db, u, g, key, request, now, expected);
      && (o.reply.Ok? <==> exists r :: CanLeave(db, u, g, expected, r))
      && (o.reply.Err? ==> o.db == db)
      && (forall r :: CanLeave(db, u, g, expected, r) ==> LeaveDone(db, o, u, r, key, request, now))
  {
    ReachedSound(cfg, calls);
    LeaveAnswers(cfg, Reached(cfg, calls), u, g, key, request, now, expected);
  }

  /* ---------- Finalizing ---------- */

  /** A finalization is carried out for the user whose ticket carries the binding, or refused if there is none. */
  lemma FinalizeExactly(cfg: Config, calls: seq<Call>, g: GameId, b: Binding, action: Action, key: string, now: int)
    requires ValidConfig(cfg)
    ensures var db := Reached(cfg, calls);
      var o, request := Finalize(db, g, b, action, key, now), ForFinalization(g, b, action);
      && (forall id :: id in db.tickets && Carries(db.tickets[id], g, b) ==>
            o == if action == LeaveRoom then Leave(db, db.tickets[id].user, g, key, request, now, Some(b))
                 else Cancel(db, db.tickets[id].user, g, key, request, now, Some(b)))
      && ((forall id :: id in db.tickets ==> !Carries(db.tickets[id], g, b)) ==> o == Outcome(db, Err(SessionForbidden)))
  {
    ReachedSound(cfg, calls);
    var db := Reached(cfg, calls);
    OpenDesk(db);
    forall id | id in db.tickets && Carries(db.tickets[id], g, b) ensures ActorOf(db, g, b) == Some(db.tickets[id].user) {
      assert Bound(db.tickets, g, b)(id);
      ActorIsOwner(db, g, b, id);
    }
    if forall id :: id in db.tickets ==> !Carries(db.tickets[id], g, b) {
      NobodyCarries(db, g, b);
    }
  }

  predicate Carries(t: Ticket, g: GameId, b: Binding) {
    t.game == g && t.room == b.room && t.player == b.player && t.reservation == b.reservation
  }

  lemma NobodyCarries(db: Db, g: GameId, b: Binding)
    requires forall id :: id in db.tickets ==> !Carries(db.tickets[id], g, b)
    ensures ActorOf(db, g, b).None?
  {
    assert forall t: nat :: !Bound(db.tickets, g, b)(t);
  }

  /* ---------- Aborting ---------- */

  /** All that an abort changes. */
  ghost predicate AbortsGame(db: Db, after: Db, g: GameId, k: OpKey, request: Request, now: int)
    requires g in db.sessions
  {
    && ClosesGame(db.bank.reservations, after.bank.reservations, g, Released, k)
    && (forall v :: Wealth(after.bank, v) == Wealth(db.bank, v))
    && AddsScores(db.history, after.history, db.seats, g, AbortScore())
    && after == db.(
         bank := after.bank, history := after.history,
         sessions := db.sessions[g := db.sessions[g].(lifecycle := Settled)],
         settlements := db.settlements + [Settlement(g, Aborted, k, None, None)],
         ops := db.ops[k := CommittedRow(db, request, now)], nextId := db.nextId + 1)
  }

  lemma GiveBackIs(db: Db, k: OpKey, request: Request, g: GameId, now: int)
    requires g in db.sessions
    ensures var o, f := GiveBack(db, k, request, g, now), CloseAll(db.bank, k, Participants(db, g), Released);
      && (o.Ok? <==> f.Ok?)
      && (o.Ok? ==> o.value == db.(
           bank := f.value, history := db.history + ScoreRows(db, Participants(db, g), None, 0),
           sessions := db.sessions[g := db.sessions[g].(lifecycle := Settled)],
           settlements := db.settlements + [Settlement(g, Aborted, k, None, None)],
           ops := db.ops[k := CommittedRow(db, request, now)], nextId := db.nextId + 1))
  {
  }

  lemma AbortScores(db: Db, g: GameId)
    requires SeatPart(db.sessions, db.seats, db.bank.reservations, db.nextId)
    requires g in db.sessions && Live(db.sessions[g].lifecycle)
    ensures AddsScores(db.history, db.history + ScoreRows(db, Participants(db, g), None, 0), db.seats, g, AbortScore())
  {
    var rows, score := Participants(db, g), AbortScore();
    var added := ScoreRows(db, rows, None, 0);
    ParticipantsIs(db, g);
    ScoreRowsAt(db, rows, None, 0);
    forall i | 0 <= i < |rows| ensures added[i] == score(db.seats[rows[i]]) {
      assert rows[i] in rows;
      StakeOfSeat(db.sessions, db.seats, db.bank.reservations, db.nextId, g, rows[i]);
    }
    ScoresAdded(db.history, added, db.seats, g, score, rows);
  }

  lemma GiveBackExactly(cfg: Config, db: Db, k: OpKey, request: Request, g: GameId, now: int)
    requires Sound(cfg, db) && g in db.sessions && Live(db.sessions[g].lifecycle)
    ensures var o := GiveBack(db, k, request, g, now);
      && (o.Ok? <==> AllCanTakeBack(db, g))
      && (o.Ok? ==> AbortsGame(db, o.value, g, k, request, now))
  {
    var rows := Participants(db, g);
    ParticipantsIs(db, g);
    ReleaseIff(db, k, g, rows);
    GiveBackIs(db, k, request, g, now);
    var o := CloseAll(db.bank, k, rows, Released);
    if o.Ok? {
      ReleasedGame(db.bank, k, g, rows, o.value);
      AbortScores(db, g);
    }
  }

  /** Which sessions can be aborted: those under way whose players can all take their entry back. */
  ghost predicate CanAbort(db: Db, g: GameId) {
    && g in db.sessions && (db.sessions[g].lifecycle == Active || db.sessions[g].lifecycle == RecoveryRequired)
    && AllCanTakeBack(db, g)
  }

  ghost predicate AbortDone(db: Db, o: Sessions.Outcome, g: GameId, reason: string, key: string, now: int) {
    && g in db.sessions && o.reply == Ok(Committed(db.nextId))
    && AbortsGame(db, o.db, g, OpKey(db.sessions[g].creator, AbortSession, key), ForAbort(g, reason), now)
  }

  /** A live session has not been settled. */
  lemma NotYetSettled(db: Db, g: GameId)
    requires RecordPart(db) && g in db.sessions && Live(db.sessions[g].lifecycle)
    ensures !HasSettlement(db, g)
  {
    OpenRecords(db);
  }

  lemma AbortCases(db: Db, g: GameId, reason: string, key: string, now: int)
    requires g in db.sessions && OpKey(db.sessions[g].creator, AbortSession, key) !in db.ops
    requires AccountsPresent(db, Participants(db, g)) && (Live(db.sessions[g].lifecycle) ==> !HasSettlement(db, g))
    requires Live(db.sessions[g].lifecycle) ==>
      (GiveBack(db, OpKey(db.sessions[g].creator, AbortSession, key), ForAbort(g, reason), g, now).Ok? <==> AllCanTakeBack(db, g))
    ensures var o, d := Abort(db, g, reason, key, now),
        GiveBack(db, OpKey(db.sessions[g].creator, AbortSession, key), ForAbort(g, reason), g, now);
      && (o.reply.Ok? <==> CanAbort(db, g))
      && (o.reply.Ok? ==> d.Ok? && o == Outcome(d.value, Ok(Committed(db.nextId))))
      && (o.reply.Err? ==> o.db == db)
  {
  }

  lemma AbortAnswers(cfg: Config, db: Db, g: GameId, reason: string, key: string, now: int)
    requires Sound(cfg, db) && (g in db.sessions ==> OpKey(db.sessions[g].creator, AbortSession, key) !in db.ops)
    ensures var o := Abort(db, g, reason, key, now);
      && (o.reply.Ok? <==> CanAbort(db, g))
      && (o.reply.Ok? ==> AbortDone(db, o, g, reason, key, now))
      && (o.reply.Err? ==> o.db == db)
  {
    AccountsArePresent(db, Participants(db, g));
    if g in db.sessions {
      if Live(db.sessions[g].lifecycle) {
        NotYetSettled(db, g);
        GiveBackExactly(cfg, db, OpKey(db.sessions[g].creator, AbortSession, key), ForAbort(g, reason), g, now);
      }
      AbortCases(db, g, reason, key, now);
    }
  }

  /** An abort under a new key succeeds exactly when `CanAbort` holds, and then changes exactly this. */
  lemma AbortExactly(cfg: Config, calls: seq<Call>, g: GameId, reason: string, key: string, now: int)
    requires ValidConfig(cfg)
    requires var db := Reached(cfg, calls); g in db.sessions ==> OpKey(db.sessions[g].creator, AbortSession, key) !in db.ops
    ensures var db := Reached(cfg, calls);
      var o := Abort(db, g, reason, key, now);
      && (o.reply.Ok? <==> CanAbort(db, g))
      && (o.reply.Ok? ==> AbortDone(db, o, g, reason, key, now))
      && (o.reply.Err? ==> o.db == db)
  {
    ReachedSound(cfg, calls);
    AbortAnswers(cfg, Reached(cfg, calls), g, reason, key, now);
  }

  /* ---------- Settling ---------- */

  function Prize(db: Db, g: GameId): int
    requires g in db.sessions
  {
    |SeatsOf(db.seats, g)| * db.sessions[g].entry
  }

  /** The winner's balance and the winner's total won can both take the prize. */
  predicate PrizeFits(db: Db, g: GameId, u: UserId)
    requires g in db.sessions
  {
    && Column(db.bank, Available(u)) + Prize(db, g) <= MAX_ACCOUNT_COIN
    && Get(db.coinsWon, u) + Prize(db, g) <= MAX_ACCOUNT_COIN
  }

  /**
   * Which sessions can be settled: those under way whose room has proved that very version and checksum,
   * at or past the version the session started with, for the player on seat `r`, whom the prize fits.
   */
  ghost predicate CanSettle(db: Db, g: GameId, room: RoomId, version: nat, checksum: string, r: ReservationId) {
    && g in db.sessions && db.sessions[g].room == room && version >= db.sessions[g].version
    && (db.sessions[g].lifecycle == Active || db.sessions[g].lifecycle == RecoveryRequired)
    && SeatedIn(db.seats, g, r)
    && g in db.proofs && db.proofs[g] == TerminalProof(room, version, checksum, db.seats[r].player)
    && PrizeFits(db, g, db.seats[r].user)
  }

  function SettledScore(winner: UserId, prize: int, entry: int): Seat -> HistoryRow {
    (seat: Seat) =>
      if seat.user == winner then HistoryRow(seat.game, seat.user, seat.player, Won, prize - entry)
      else HistoryRow(seat.game, seat.user, seat.player, Lost, 0 - entry)
  }

  /** The leaderboard: the winner's total grows by the prize, every player has a row, nobody else is touched. */
  ghost predicate Ranks(before: map<UserId, int>, after: map<UserId, int>, seats: Seats, g: GameId, winner: UserId, prize: int) {
    && (forall u :: Get(after, u) == Get(before, u) + if u == winner then prize else 0)
    && (forall u :: u in after <==> u in before || exists r :: SeatedIn(seats, g, r) && seats[r].user == u)
  }

  /** Every player pays one entry, and the winner gets them all. */
  ghost predicate PaysPrize(db: Db, after: Bank, g: GameId, winner: UserId)
    requires g in db.sessions
  {
    && (forall r :: SeatedIn(db.seats, g, r) ==>
          Wealth(after, db.seats[r].user) == Wealth(db.bank, db.seats[r].user) - db.sessions[g].entry
            + if db.seats[r].user == winner then Prize(db, g) else 0)
    && (forall u :: (forall r :: SeatedIn(db.seats, g, r) ==> db.seats[r].user != u) ==> Wealth(after, u) == Wealth(db.bank, u))
  }

  /** All that a settlement changes. */
  ghost predicate SettlesGame(db: Db, after: Db, g: GameId, k: OpKey, request: Request, version: nat, winner: UserId, now: int)
    requires g in db.sessions
  {
    && ClosesGame(db.bank.reservations, after.bank.reservations, g, Captured, k)
    && PaysPrize(db, after.bank, g, winner)
    && AddsScores(db.history, after.history, db.seats, g, SettledScore(winner, Prize(db, g), db.sessions[g].entry))
    && Ranks(db.coinsWon, after.coinsWon, db.seats, g, winner, Prize(db, g))
    && after == db.(
         bank := after.bank, history := after.history, coinsWon := after.coinsWon,
         sessions := db.sessions[g := db.sessions[g].(lifecycle := Settled, version := version)],
         settlements := db.settlements + [Settlement(g, Completed, k, Some(version), Some(winner))],
         ops := db.ops[k := CommittedRow(db, request, now)], nextId := db.nextId + 1)
  }

  /** The totals after one stake each: only a listed winner's grows. */
  lemma {:induction false} RankedIs(db: Db, listed: seq<ReservationId>, winner: UserId, prize: int, u: UserId)
    requires (forall i :: 0 <= i < |listed| ==> listed[i] in db.bank.reservations) && OneEach(db.bank.reservations, listed)
    ensures var after := Ranked(db, listed, winner, prize);
      && Get(after, u) == Get(db.coinsWon, u) + (if u == winner && Plays(db, listed, u) then prize else 0)
      && (u in after <==> u in db.coinsWon || Plays(db, listed, u))
    decreases |listed|
  {
    if listed != [] {
      var init, last := listed[..|listed| - 1], listed[|listed| - 1];
      RankedIs(db, init, winner, prize, u);
      PlaysSnoc(db, listed, u);
    }
  }

  lemma RanksGame(db: Db, g: GameId, r: ReservationId, prize: int)
    requires SeatPart(db.sessions, db.seats, db.bank.reservations, db.nextId)
    requires g in db.sessions && Live(db.sessions[g].lifecycle) && SeatedIn(db.seats, g, r)
    ensures Ranks(db.coinsWon, Ranked(db, Participants(db, g), db.seats[r].user, prize), db.seats, g, db.seats[r].user, prize)
  {
    var rows, winner := Participants(db, g), db.seats[r].user;
    ParticipantsIs(db, g);
    SeatUsers(db, g);
    forall u ensures Plays(db, rows, u) <==> exists s :: SeatedIn(db.seats, g, s) && db.seats[s].user == u {
      if Plays(db, rows, u) {
        var i :| 0 <= i < |rows| && db.bank.reservations[rows[i]].user == u;
        assert rows[i] in rows && SeatedIn(db.seats, g, rows[i]);
      }
      if s :| SeatedIn(db.seats, g, s) && db.seats[s].user == u {
        assert s in rows;
        var i :| 0 <= i < |rows| && rows[i] == s;
        assert db.bank.reservations[rows[i]].user == u;
      }
    }
    forall u
      ensures Get(Ranked(db, rows, winner, prize), u) == Get(db.coinsWon, u) + if u == winner then prize else 0
      ensures u in Ranked(db, rows, winner, prize) <==>
        u in db.coinsWon || exists s :: SeatedIn(db.seats, g, s) && db.seats[s].user == u
    {
      RankedIs(db, rows, winner, prize, u);
    }
  }

  lemma {:induction false} WinnerRowFinds(db: Db, rows: seq<ReservationId>, winner: PlayerId, i: nat)
    requires (forall j :: 0 <= j < |rows| ==> rows[j] in db.seats) && i < |rows| && db.seats[rows[i]].player == winner
    ensures WinnerRow(db, rows, winner).Some?
    decreases |rows|
  {
    if i < |rows| - 1 {
      WinnerRowFinds(db, rows[..|rows| - 1], winner, i);
    }
  }

  /** The row that wins is the one seat of the proved player. */
  lemma WinnerIsTheSeat(db: Db, g: GameId, winner: PlayerId)
    requires SeatPart(db.sessions, db.seats, db.bank.reservations, db.nextId)
    requires g in db.sessions && Live(db.sessions[g].lifecycle)
    ensures var found := WinnerRow(db, Participants(db, g), winner);
      && (found.Some? ==> SeatedIn(db.seats, g, found.value) && db.seats[found.value].player == winner)
      && (forall r :: SeatedIn(db.seats, g, r) && db.seats[r].player == winner ==> found == Some(r))
  {
    var rows := Participants(db, g);
    ParticipantsIs(db, g);
    WinnerRowIsListed(db, rows, winner);
    var found := WinnerRow(db, rows, winner);
    forall r | SeatedIn(db.seats, g, r) && db.seats[r].player == winner ensures found == Some(r) {
      assert r in rows;
      var i :| 0 <= i < |rows| && rows[i] == r;
      WinnerRowFinds(db, rows, winner, i);
      PlayersApart(db.sessions, db.seats, db.bank.reservations, db.nextId, g, r, found.value);
    }
  }

  lemma PlayersApart(games: Games, seats: Seats, rows: Rows, n: nat, g: GameId, r: ReservationId, s: ReservationId)
    requires SeatPart(games, seats, rows, n) && SeatedIn(seats, g, r) && SeatedIn(seats, g, s)
    requires seats[r].player == seats[s].player
    ensures r == s
  {
    OpenSeats(games, seats, rows, n);
    assert r == s || Apart(seats[r], seats[s]);
  }

  /** A session under way has two players or more, and the stakes are that many entries. */
  lemma StakesAddUp(db: Db, g: GameId)
    requires SeatPart(db.sessions, db.seats, db.bank.reservations, db.nextId)
    requires g in db.sessions && (db.sessions[g].lifecycle == Active || db.sessions[g].lifecycle == RecoveryRequired)
    ensures |Participants(db, g)| >= 2 && Amounts(db.bank.reservations, Participants(db, g)) == Prize(db, g)
  {
    var rows := Participants(db, g);
    AsManyAsSeats(db, g);
    ParticipantsIs(db, g);
    AmountsUniform(db.bank.reservations, rows, db.sessions[g].entry);
    StartedFacts(db.sessions, db.seats, db.bank.reservations, db.nextId, g);
    var rival :| SeatedIn(db.seats, g, rival) && db.seats[rival].user != db.sessions[g].creator;
    var creator := CreatorsSeat(db.sessions, db.seats, db.bank.reservations, db.nextId, g);
    assert rival in rows && creator in rows && rival != creator;
  }

  /** What the payout check comes to for a seated winner: a solvent balance makes the prize itself fit. */
  lemma PayoutFitsIff(db: Db, g: GameId, r: ReservationId)
    requires BankPart(db.bank) && r in db.bank.reservations && g in db.sessions
    ensures db.bank.reservations[r].user in db.bank.accounts
    ensures PayoutFits(db, db.bank.reservations[r].user, Prize(db, g)) <==> PrizeFits(db, g, db.bank.reservations[r].user)
  {
    UserHasAccount(db.bank, r);
    OpenBank(db.bank);
    SolventColumns(db.bank);
  }

  lemma PaysEveryone(db: Db, after: Bank, g: GameId, winner: UserId)
    requires SeatPart(db.sessions, db.seats, db.bank.reservations, db.nextId)
    requires g in db.sessions && Live(db.sessions[g].lifecycle)
    requires Amounts(db.bank.reservations, Participants(db, g)) == Prize(db, g)
    requires forall v {:trigger Wealth(after, v)} ::
      Wealth(after, v) == Wealth(db.bank, v) - StakeOf(db.bank.reservations, Participants(db, g), v)
        + if v == winner then Amounts(db.bank.reservations, Participants(db, g)) else 0
    requires exists r :: SeatedIn(db.seats, g, r) && db.seats[r].user == winner
    ensures PaysPrize(db, after, g, winner)
  {
    var rows, stakes := Participants(db, g), db.bank.reservations;
    ParticipantsIs(db, g);
    SeatUsers(db, g);
    forall r | SeatedIn(db.seats, g, r)
      ensures Wealth(after, db.seats[r].user) == Wealth(db.bank, db.seats[r].user) - db.sessions[g].entry
        + if db.seats[r].user == winner then Prize(db, g) else 0
    {
      assert r in rows;
      var i :| 0 <= i < |rows| && rows[i] == r;
      StakeOfOwner(stakes, rows, stakes[rows[i]].user);
    }
    forall u | forall r :: SeatedIn(db.seats, g, r) ==> db.seats[r].user != u ensures Wealth(after, u) == Wealth(db.bank, u) {
      forall i | 0 <= i < |rows| ensures stakes[rows[i]].user != u {
        assert rows[i] in rows && SeatedIn(db.seats, g, rows[i]);
      }
      StakeOfOwner(stakes, rows, u);
      var w :| SeatedIn(db.seats, g, w) && db.seats[w].user == winner;
    }
  }

  lemma SettledScores(db: Db, g: GameId, winner: UserId, prize: int)
    requires SeatPart(db.sessions, db.seats, db.bank.reservations, db.nextId)
    requires g in db.sessions && Live(db.sessions[g].lifecycle)
    ensures AddsScores(db.history, db.history + ScoreRows(db, Participants(db, g), Some(winner), prize), db.seats, g,
                       SettledScore(winner, prize, db.sessions[g].entry))
  {
    var rows, score := Participants(db, g), SettledScore(winner, prize, db.sessions[g].entry);
    var added := ScoreRows(db, rows, Some(winner), prize);
    ParticipantsIs(db, g);
    ScoreRowsAt(db, rows, Some(winner), prize);
    forall i | 0 <= i < |rows| ensures added[i] == score(db.seats[rows[i]]) {
      assert rows[i] in rows;
      StakeOfSeat(db.sessions, db.seats, db.bank.reservations, db.nextId, g, rows[i]);
      SettledRowIs(db, g, rows[i], winner, prize);
    }
    ScoresAdded(db.history, added, db.seats, g, score, rows);
  }

  lemma SettledRowIs(db: Db, g: GameId, r: ReservationId, winner: UserId, prize: int)
    requires g in db.sessions && SeatedIn(db.seats, g, r) && r in db.bank.reservations && db.bank.reservations[r].game == g
    requires db.bank.reservations[r].user == db.seats[r].user && db.bank.reservations[r].amount == db.sessions[g].entry
    ensures ScoreRow(db, r, Some(winner), prize) == SettledScore(winner, prize, db.sessions[g].entry)(db.seats[r])
  {
  }

  lemma PayOutWhole(db: Db, k: OpKey, request: Request, g: GameId, version: nat, winner: UserId, now: int)
    requires g in db.sessions && winner in db.bank.accounts
    requires var o := CloseAll(db.bank, k, Participants(db, g), Captured); o.Ok? && winner in o.value.accounts
    ensures var rows := Participants(db, g);
      var prize := Amounts(db.bank.reservations, rows);
      PayOut(db, k, request, g, version, winner, now) == Ok(db.(
        bank := Enter(CloseAll(db.bank, k, rows, Captured).value, k, Available(winner), prize),
        history := db.history + ScoreRows(db, rows, Some(winner), prize),
        coinsWon := Ranked(db, rows, winner, prize),
        sessions := db.sessions[g := db.sessions[g].(lifecycle := Settled, version := version)],
        settlements := db.settlements + [Settlement(g, Completed, k, Some(version), Some(winner))],
        ops := db.ops[k := CommittedRow(db, request, now)], nextId := db.nextId + 1))
  {
  }

  lemma PayOutExactly(db: Db, k: OpKey, request: Request, g: GameId, version: nat, r: ReservationId, now: int)
    requires BankPart(db.bank) && SeatPart(db.sessions, db.seats, db.bank.reservations, db.nextId)
    requires g in db.sessions && (db.sessions[g].lifecycle == Active || db.sessions[g].lifecycle == RecoveryRequired)
    requires SeatedIn(db.seats, g, r) && db.seats[r].user in db.bank.accounts
    ensures var o := PayOut(db, k, request, g, version, db.seats[r].user, now);
      o.Ok? && SettlesGame(db, o.value, g, k, request, version, db.seats[r].user, now)
  {
    var rows, winner := Participants(db, g), db.seats[r].user;
    ParticipantsIs(db, g);
    StakesAddUp(db, g);
    TakenAllParts(db.bank, k, rows, winner);
    PayOutWhole(db, k, request, g, version, winner, now);
    var paid := Enter(CloseAll(db.bank, k, rows, Captured).value, k, Available(winner), Prize(db, g));
    ClosesTheGame(db.bank.reservations, paid.reservations, g, Captured, k, rows);
    PaysEveryone(db, paid, g, winner);
    SettledScores(db, g, winner, Prize(db, g));
    RanksGame(db, g, r, Prize(db, g));
  }

  ghost predicate SettleDone(
    db: Db, o: Sessions.Outcome, g: GameId, room: RoomId, version: nat, checksum: string, key: string, r: ReservationId, now: int)
  {
    && g in db.sessions && r in db.seats && o.reply == Ok(Committed(db.nextId))
    && SettlesGame(db, o.db, g, OpKey(db.sessions[g].creator, SettleSession, key), ForSettlement(g, room, version, checksum),
                   version, db.seats[r].user, now)
  }

  /** The case analysis of a settlement, once the winner's seat is known. */
  lemma SettleCases(db: Db, g: GameId, room: RoomId, version: nat, checksum: string, key: string, now: int)
    requires g in db.sessions && OpKey(db.sessions[g].creator, SettleSession, key) !in db.ops
    requires AccountsPresent(db, Participants(db, g))
    requires Live(db.sessions[g].lifecycle) ==> !HasSettlement(db, g)
    requires SettlesFrom(db.sessions[g].lifecycle) ==> |Participants(db, g)| >= 2 && Live(db.sessions[g].lifecycle)
    ensures var o := Settle(db, g, room, version, checksum, key, now);
      var rows := Participants(db, g);
      if SettlesFrom(db.sessions[g].lifecycle) && db.sessions[g].room == room && ProofHolds(db, g, room, version, checksum) then
        var found := WinnerRow(db, rows, db.proofs[g].winner);
        if found.Some? && found.value in db.bank.reservations
           && PayoutFits(db, db.bank.reservations[found.value].user, Amounts(db.bank.reservations, rows)) then
          var paid := PayOut(db, OpKey(db.sessions[g].creator, SettleSession, key), ForSettlement(g, room, version, checksum),
                             g, version, db.bank.reservations[found.value].user, now);
          paid.Ok? ==> o == Outcome(paid.value, Ok(Committed(db.nextId)))
        else o.reply.Err? && o.db == db
      else o.reply.Err? && o.db == db
  {
  }

  lemma SettleAnswers(cfg: Config, db: Db, g: GameId, room: RoomId, version: nat, checksum: string, key: string, now: int)
    requires Sound(cfg, db) && (g in db.sessions ==> OpKey(db.sessions[g].creator, SettleSession, key) !in db.ops)
    ensures var o := Settle(db, g, room, version, checksum, key, now);
      && (o.reply.Ok? <==> exists r :: CanSettle(db, g, room, version, checksum, r))
      && (forall r :: CanSettle(db, g, room, version, checksum, r) ==> SettleDone(db, o, g, room, version, checksum, key, r, now))
      && (o.reply.Err? ==> o.db == db)
  {
    AccountsArePresent(db, Participants(db, g));
    if g in db.sessions {
      StartedFacts(db.sessions, db.seats, db.bank.reservations, db.nextId, g);
      if Live(db.sessions[g].lifecycle) {
        NotYetSettled(db, g);
      }
      if SettlesFrom(db.sessions[g].lifecycle) {
        StakesAddUp(db, g);
      }
      SettleCases(db, g, room, version, checksum, key, now);
      if SettlesFrom(db.sessions[g].lifecycle) && db.sessions[g].room == room && ProofHolds(db, g, room, version, checksum) {
        ProvedAnswers(db, g, room, version, checksum, key, now);
      }
    }
  }

  /** With the proof in place, what decides is the winner's seat and whether the prize fits. */
  lemma ProvedAnswers(db: Db, g: GameId, room: RoomId, version: nat, checksum: string, key: string, now: int)
    requires BankPart(db.bank) && SeatPart(db.sessions, db.seats, db.bank.reservations, db.nextId) && g in db.sessions
    requires db.sessions[g].lifecycle == Active || db.sessions[g].lifecycle == RecoveryRequired
    requires db.sessions[g].room == room && ProofHolds(db, g, room, version, checksum)
    ensures var found := WinnerRow(db, Participants(db, g), db.proofs[g].winner);
      && (forall r: ReservationId :: CanSettle(db, g, room, version, checksum, r) ==> found == Some(r))
      && (found.Some? ==>
            && SeatedIn(db.seats, g, found.value) && found.value in db.bank.reservations
            && db.bank.reservations[found.value].user == db.seats[found.value].user
            && db.seats[found.value].user in db.bank.accounts
            && (CanSettle(db, g, room, version, checksum, found.value) <==>
                 PayoutFits(db, db.seats[found.value].user, Amounts(db.bank.reservations, Participants(db, g))))
            && var paid := PayOut(db, OpKey(db.sessions[g].creator, SettleSession, key), ForSettlement(g, room, version, checksum),
                             g, version, db.seats[found.value].user, now);
            && paid.Ok? && SettlesGame(db, paid.value, g, OpKey(db.sessions[g].creator, SettleSession, key),
                                       ForSettlement(g, room, version, checksum), version, db.seats[found.value].user, now))
  {
    WinnerIsTheSeat(db, g, db.proofs[g].winner);
    var found := WinnerRow(db, Participants(db, g), db.proofs[g].winner);
    if found.Some? {
      StakeOfSeat(db.sessions, db.seats, db.bank.reservations, db.nextId, g, found.value);
      PayoutFitsIff(db, g, found.value);
      StakesAddUp(db, g);
      PayOutExactly(db, OpKey(db.sessions[g].creator, SettleSession, key), ForSettlement(g, room, version, checksum),
                    g, version, found.value, now);
    }
  }

  /** A settlement under a new key succeeds exactly when `CanSettle` holds of a seat, and then changes exactly this. */
  lemma SettleSucceedsIff(cfg: Config, calls: seq<Call>, g: GameId, room: RoomId, version: nat, checksum: string, key: string, now: int)
    requires ValidConfig(cfg)
    requires var db := Reached(cfg, calls); g in db.sessions ==> OpKey(db.sessions[g].creator, SettleSession, key) !in db.ops
    ensures var db := Reached(cfg, calls);
      var o := Settle(db, g, room, version, checksum, key, now);
      && (o.reply.Ok? <==> exists r :: CanSettle(db, g, room, version, checksum, r))
      && (forall r :: CanSettle(db, g, room, version, checksum, r) ==> SettleDone(db, o, g, room, version, checksum, key, r, now))
      && (o.reply.Err? ==> o.db == db)
  {
    ReachedSound(cfg, calls);
    SettleAnswers(cfg, Reached(cfg, calls), g, room, version, checksum, key, now);
  }

  /** Some seat carries the winner that the room proved for this version and checksum. */
  ghost predicate Proved(db: Db, g: GameId, room: RoomId, version: nat, checksum: string)
    requires g in db.sessions
  {
    && g in db.proofs && db.proofs[g].room == room && db.proofs[g].version == version >= db.sessions[g].version
    && db.proofs[g].checksum == checksum
    && exists r :: SeatedIn(db.seats, g, r) && db.seats[r].player == db.proofs[g].winner
  }

  /** Why a settlement is refused, in the order the reasons are looked for. */
  ghost function Refusal(db: Db, g: GameId, room: RoomId, version: nat, checksum: string): ApiError {
    if g !in db.sessions then SessionNotFound
    else if db.sessions[g].lifecycle == Settled then SettlementAlreadyCommitted
    else if db.sessions[g].room != room then TerminalProofInvalid
    else if db.sessions[g].lifecycle != Active && db.sessions[g].lifecycle != RecoveryRequired then SessionNotOpen
    else if !Proved(db, g, room, version, checksum) then TerminalProofInvalid
    else AccountCoinOverflow
  }

  lemma SettledIffRecorded(db: Db, g: GameId)
    requires RecordPart(db) && g in db.sessions
    ensures HasSettlement(db, g) <==> db.sessions[g].lifecycle == Settled
  {
    OpenRecords(db);
    assert db.sessions[g].lifecycle == Settled ==> Records.Settles(db.settlements, g);
  }

  lemma RefusalCases(db: Db, g: GameId, room: RoomId, version: nat, checksum: string, key: string, now: int)
    requires g in db.sessions && OpKey(db.sessions[g].creator, SettleSession, key) !in db.ops
    requires AccountsPresent(db, Participants(db, g))
    requires HasSettlement(db, g) <==> db.sessions[g].lifecycle == Settled
    requires SettlesFrom(db.sessions[g].lifecycle) <==> db.sessions[g].lifecycle == Active || db.sessions[g].lifecycle == RecoveryRequired
    requires SettlesFrom(db.sessions[g].lifecycle) ==> |Participants(db, g)| >= 2
    requires SettlesFrom(db.sessions[g].lifecycle) && ProofHolds(db, g, room, version, checksum) ==>
      var found := WinnerRow(db, Participants(db, g), db.proofs[g].winner);
      && (found.Some? <==> Proved(db, g, room, version, checksum))
      && (found.Some? ==>
            && found.value in db.bank.reservations
            && (db.bank.reservations[found.value].user in db.bank.accounts ==>
                  PayOut(db, OpKey(db.sessions[g].creator, SettleSession, key), ForSettlement(g, room, version, checksum), g, version,
                         db.bank.reservations[found.value].user, now).Ok?))
    ensures var o := Settle(db, g, room, version, checksum, key, now);
      o.reply.Err? ==> o.reply.error == Refusal(db, g, room, version, checksum)
  {
  }

  lemma RefusalAnswers(cfg: Config, db: Db, g: GameId, room: RoomId, version: nat, checksum: string, key: string, now: int)
    requires Sound(cfg, db) && g in db.sessions && OpKey(db.sessions[g].creator, SettleSession, key) !in db.ops
    ensures var o := Settle(db, g, room, version, checksum, key, now);
      o.reply.Err? ==> o.reply.error == Refusal(db, g, room, version, checksum)
  {
    AccountsArePresent(db, Participants(db, g));
    SettledIffRecorded(db, g);
    StartedFacts(db.sessions, db.seats, db.bank.reservations, db.nextId, g);
    if db.sessions[g].lifecycle == Active || db.sessions[g].lifecycle == RecoveryRequired {
      StakesAddUp(db, g);
      if ProofHolds(db, g, room, version, checksum) {
        FoundIffProved(db, g, room, version, checksum, key, now);
      }
    }
    RefusalCases(db, g, room, version, checksum, key, now);
  }

  lemma FoundIffProved(db: Db, g: GameId, room: RoomId, version: nat, checksum: string, key: string, now: int)
    requires BankPart(db.bank) && SeatPart(db.sessions, db.seats, db.bank.reservations, db.nextId) && g in db.sessions
    requires db.sessions[g].lifecycle == Active || db.sessions[g].lifecycle == RecoveryRequired
    requires ProofHolds(db, g, room, version, checksum)
    ensures var found := WinnerRow(db, Participants(db, g), db.proofs[g].winner);
      && (found.Some? <==> Proved(db, g, room, version, checksum))
      && (found.Some? ==>
            && found.value in db.bank.reservations && db.bank.reservations[found.value].user in db.bank.accounts
            && PayOut(db, OpKey(db.sessions[g].creator, SettleSession, key), ForSettlement(g, room, version, checksum), g, version,
                      db.bank.reservations[found.value].user, now).Ok?)
  {
    WinnerIsTheSeat(db, g, db.proofs[g].winner);
    var found := WinnerRow(db, Participants(db, g), db.proofs[g].winner);
    if found.Some? {
      StakeOfSeat(db.sessions, db.seats, db.bank.reservations, db.nextId, g, found.value);
      UserHasAccount(db.bank, found.value);
      PayOutExactly(db, OpKey(db.sessions[g].creator, SettleSession, key), ForSettlement(g, room, version, checksum),
                    g, version, found.value, now);
    }
  }

  /**
   * Which error a refused settlement carries. The reconciler marks a session for recovery on the two
   * that no retry can cure: a proof that does not hold, and a prize that does not fit.
   */
  lemma SettleRefusedBecause(cfg: Config, calls: seq<Call>, g: GameId, room: RoomId, version: nat, checksum: string, key: string, now: int)
    requires ValidConfig(cfg)
    requires var db := Reached(cfg, calls); g in db.sessions ==> OpKey(db.sessions[g].creator, SettleSession, key) !in db.ops
    ensures var db := Reached(cfg, calls);
      var o := Settle(db, g, room, version, checksum, key, now);
      o.reply.Err? ==> o.reply.error == Refusal(db, g, room, version, checksum)
  {
    ReachedSound(cfg, calls);
    if g in Reached(cfg, calls).sessions {
      RefusalAnswers(cfg, Reached(cfg, calls), g, room, version, checksum, key, now);
    } else {
      AccountsArePresent(Reached(cfg, calls), Participants(Reached(cfg, calls), g));
    }
  }
}
