/**
 * Settlements and the history read model: one settlement for each settled session and none elsewhere,
 * one history row for each user of an ended session, and deltas that sum to zero in every session.
 */
module Records {
  import opened Outcomes
  import opened CoinBank
  import opened Sessions
  import opened Seating
  import opened Growth

  function DeltaSum(history: seq<HistoryRow>, g: GameId): int {
    if history == [] then 0
    else
      var h := history[|history| - 1];
      DeltaSum(history[..|history| - 1], g) + if h.game == g then h.delta else 0
  }

  function Wins(history: seq<HistoryRow>, g: GameId): nat {
    if history == [] then 0
    else
      var h := history[|history| - 1];
      Wins(history[..|history| - 1], g) + if h.game == g && h.score == Won then 1 else 0
  }

  ghost predicate HistoryEnded(games: Games, history: seq<HistoryRow>) {
    forall i :: 0 <= i < |history| ==> history[i].game in games && Ended(games[history[i].game].lifecycle)
  }

  ghost predicate HistoryApart(history: seq<HistoryRow>) {
    forall i, j :: 0 <= i < j < |history| && history[i].game == history[j].game ==> history[i].user != history[j].user
  }

  ghost predicate SettledOnce(games: Games, settlements: seq<Settlement>) {
    && (forall i :: 0 <= i < |settlements| ==> settlements[i].game in games && games[settlements[i].game].lifecycle == Settled)
    && (forall i, j :: 0 <= i < j < |settlements| ==> settlements[i].game != settlements[j].game)
    && (forall g :: g in games && games[g].lifecycle == Settled ==> Settles(settlements, g))
  }

  ghost predicate Settles(settlements: seq<Settlement>, g: GameId) {
    exists i :: 0 <= i < |settlements| && settlements[i].game == g
  }

  function WinsOf(kind: Ending): nat {
    if kind == Completed then 1 else 0
  }

  ghost predicate ZeroSum(history: seq<HistoryRow>) {
    forall g :: DeltaSum(history, g) == 0
  }

  ghost predicate WinsMatch(settlements: seq<Settlement>, history: seq<HistoryRow>) {
    && (forall i :: 0 <= i < |settlements| ==> Wins(history, settlements[i].game) == WinsOf(settlements[i].kind))
    && (forall g :: !Settles(settlements, g) ==> Wins(history, g) == 0)
  }

  /** A settlement belongs to a committed operation of the creator. */
  predicate Authorized(games: Games, ops: Ops, s: Settlement) {
    && s.game in games && s.op in ops && ops[s.op].status == CommittedOp
    && s.op.actor == games[s.game].creator
    && s.op.scope == (if s.kind == Completed then SettleSession else AbortSession)
    && (s.kind == Completed <==> s.winner.Some?)
  }

  /** The settlement's operation is the one that closed this reservation. */
  predicate ClosedBy(row: Reservation, s: Settlement) {
    row.terminal == Some(s.op) && row.status == if s.kind == Completed then Captured else Released
  }

  ghost predicate ScoredIn(history: seq<HistoryRow>, seat: Seat) {
    exists i :: 0 <= i < |history| && history[i].game == seat.game && history[i].user == seat.user && history[i].player == seat.player
  }

  ghost predicate SeatSettled(rows: Rows, history: seq<HistoryRow>, s: Settlement, r: ReservationId, seat: Seat) {
    r in rows && ClosedBy(rows[r], s) && ScoredIn(history, seat)
  }

  ghost predicate Executed(seats: Seats, rows: Rows, history: seq<HistoryRow>, s: Settlement) {
    forall r :: SeatedIn(seats, s.game, r) ==> SeatSettled(rows, history, s, r, seats[r])
  }

  ghost predicate AllExecuted(db: Db) {
    forall i :: 0 <= i < |db.settlements| ==>
      && Authorized(db.sessions, db.ops, db.settlements[i])
      && Executed(db.seats, db.bank.reservations, db.history, db.settlements[i])
  }

  ghost predicate Tallied(games: Games, settlements: seq<Settlement>, history: seq<HistoryRow>) {
    && HistoryEnded(games, history) && HistoryApart(history) && ZeroSum(history)
    && SettledOnce(games, settlements) && WinsMatch(settlements, history)
  }

  ghost predicate Recorded(db: Db) {
    Tallied(db.sessions, db.settlements, db.history) && AllExecuted(db)
  }

  /* ---------- Sums over appended rows ---------- */

  lemma {:induction false} TallyConcat(a: seq<HistoryRow>, b: seq<HistoryRow>, g: GameId)
    ensures DeltaSum(a + b, g) == DeltaSum(a, g) + DeltaSum(b, g)
    ensures Wins(a + b, g) == Wins(a, g) + Wins(b, g)
    decreases |b|
  {
    if b == [] {
      assert a + b == a;
    } else {
      assert (a + b)[..|a + b| - 1] == a + b[..|b| - 1];
      TallyConcat(a, b[..|b| - 1], g);
    }
  }

  lemma {:induction false} TallyElsewhere(history: seq<HistoryRow>, g: GameId)
    requires forall i :: 0 <= i < |history| ==> history[i].game != g
    ensures DeltaSum(history, g) == 0 && Wins(history, g) == 0
    decreases |history|
  {
    if history != [] {
      TallyElsewhere(history[..|history| - 1], g);
    }
  }

  ghost predicate Listed(db: Db, rows: seq<ReservationId>, g: GameId) {
    && (forall i :: 0 <= i < |rows| ==>
         rows[i] in db.seats && rows[i] in db.bank.reservations && db.bank.reservations[rows[i]].game == g)
    && (forall i, j :: 0 <= i < j < |rows| ==> db.bank.reservations[rows[i]].user != db.bank.reservations[rows[j]].user)
  }

  ghost predicate Plays(db: Db, rows: seq<ReservationId>, u: UserId)
    requires forall i :: 0 <= i < |rows| ==> rows[i] in db.bank.reservations
  {
    exists i :: 0 <= i < |rows| && db.bank.reservations[rows[i]].user == u
  }

  lemma {:induction false} ScoreRowsAt(db: Db, rows: seq<ReservationId>, winner: Option<UserId>, prize: int)
    requires forall i :: 0 <= i < |rows| ==> rows[i] in db.seats && rows[i] in db.bank.reservations
    ensures |ScoreRows(db, rows, winner, prize)| == |rows|
    ensures forall i :: 0 <= i < |rows| ==> ScoreRows(db, rows, winner, prize)[i] == ScoreRow(db, rows[i], winner, prize)
    decreases |rows|
  {
    if rows != [] {
      ScoreRowsAt(db, rows[..|rows| - 1], winner, prize);
    }
  }

  /** One winner among users with one stake each: the deltas add up to the prize less all stakes. */
  lemma {:induction false} ScoreTally(db: Db, rows: seq<ReservationId>, g: GameId, winner: UserId, prize: int)
    requires Listed(db, rows, g)
    ensures var scores := ScoreRows(db, rows, Some(winner), prize);
      && DeltaSum(scores, g) == (if Plays(db, rows, winner) then prize else 0) - Amounts(db.bank.reservations, rows)
      && Wins(scores, g) == (if Plays(db, rows, winner) then 1 else 0)
    decreases |rows|
  {
    if rows != [] {
      var init, last := rows[..|rows| - 1], rows[|rows| - 1];
      ScoreTally(db, init, g, winner, prize);
      var scores := ScoreRows(db, rows, Some(winner), prize);
      assert scores[..|scores| - 1] == ScoreRows(db, init, Some(winner), prize);
      assert scores[|scores| - 1] == ScoreRow(db, last, Some(winner), prize);
      PlaysSnoc(db, rows, winner);
    }
  }

  lemma PlaysSnoc(db: Db, rows: seq<ReservationId>, u: UserId)
    requires rows != [] && forall i :: 0 <= i < |rows| ==> rows[i] in db.bank.reservations
    requires forall i, j :: 0 <= i < j < |rows| ==> db.bank.reservations[rows[i]].user != db.bank.reservations[rows[j]].user
    ensures Plays(db, rows, u) <==> Plays(db, rows[..|rows| - 1], u) || db.bank.reservations[rows[|rows| - 1]].user == u
    ensures db.bank.reservations[rows[|rows| - 1]].user == u ==> !Plays(db, rows[..|rows| - 1], u)
  {
    var init := rows[..|rows| - 1];
    if Plays(db, rows, u) {
      var i :| 0 <= i < |rows| && db.bank.reservations[rows[i]].user == u;
      assert i < |init| ==> init[i] == rows[i];
    }
    if Plays(db, init, u) {
      var i :| 0 <= i < |init| && db.bank.reservations[init[i]].user == u;
      assert rows[i] == init[i];
    }
  }

  lemma {:induction false} AbortTally(db: Db, rows: seq<ReservationId>, g: GameId)
    requires Listed(db, rows, g)
    ensures DeltaSum(ScoreRows(db, rows, None, 0), g) == 0 && Wins(ScoreRows(db, rows, None, 0), g) == 0
    decreases |rows|
  {
    if rows != [] {
      var init := rows[..|rows| - 1];
      AbortTally(db, init, g);
      var scores := ScoreRows(db, rows, None, 0);
      assert scores[..|scores| - 1] == ScoreRows(db, init, None, 0);
    }
  }

  /* ---------- Ending a session ---------- */

  /** Sessions that end, or start, leave the rest of the record alone. */
  lemma TalliedFrame(games: Games, after: Games, settlements: seq<Settlement>, history: seq<HistoryRow>)
    requires Tallied(games, settlements, history) && GamesGrow(games, after)
    requires forall g :: g in after && after[g].lifecycle == Settled ==> g in games && games[g].lifecycle == Settled
    ensures Tallied(after, settlements, history)
  {
    forall i | 0 <= i < |history| ensures history[i].game in after && Ended(after[history[i].game].lifecycle) {
      assert GameGrows(games[history[i].game], after[history[i].game]);
    }
    forall i | 0 <= i < |settlements|
      ensures settlements[i].game in after && after[settlements[i].game].lifecycle == Settled
    {
      assert GameGrows(games[settlements[i].game], after[settlements[i].game]);
    }
  }

  /** Rows of one session, one for each user, added when the session has none. */
  ghost predicate FreshRows(added: seq<HistoryRow>, g: GameId) {
    && (forall i :: 0 <= i < |added| ==> added[i].game == g)
    && (forall i, j :: 0 <= i < j < |added| ==> added[i].user != added[j].user)
  }

  lemma AppendApart(games: Games, history: seq<HistoryRow>, added: seq<HistoryRow>, g: GameId)
    requires HistoryApart(history) && HistoryEnded(games, history) && FreshRows(added, g)
    requires g in games && !Ended(games[g].lifecycle)
    ensures HistoryApart(history + added)
  {
    var all := history + added;
    forall i, j | 0 <= i < j < |all| && all[i].game == all[j].game ensures all[i].user != all[j].user {
      assert i < |history| ==> all[i] == history[i];
      assert i >= |history| ==> all[i] == added[i - |history|];
      assert j >= |history| ==> all[j] == added[j - |history|];
    }
  }

  lemma AppendEnded(games: Games, after: Games, history: seq<HistoryRow>, added: seq<HistoryRow>, g: GameId)
    requires HistoryEnded(games, history) && GamesGrow(games, after) && FreshRows(added, g)
    requires g in after && Ended(after[g].lifecycle)
    ensures HistoryEnded(after, history + added)
  {
    forall i | 0 <= i < |history + added|
      ensures (history + added)[i].game in after && Ended(after[(history + added)[i].game].lifecycle)
    {
      if i < |history| {
        assert GameGrows(games[history[i].game], after[history[i].game]);
      } else {
        assert (history + added)[i] == added[i - |history|];
      }
    }
  }

  lemma AppendZeroSum(history: seq<HistoryRow>, added: seq<HistoryRow>, g: GameId)
    requires ZeroSum(history) && FreshRows(added, g) && DeltaSum(added, g) == 0
    ensures ZeroSum(history + added)
  {
    forall h ensures DeltaSum(history + added, h) == 0 {
      TallyConcat(history, added, h);
      if h != g {
        TallyElsewhere(added, h);
      }
    }
  }

  /** The record after a settlement of a session that had none. */
  lemma SettleTallied(games: Games, settlements: seq<Settlement>, history: seq<HistoryRow>,
      after: Games, s: Settlement, added: seq<HistoryRow>)
    requires Tallied(games, settlements, history) && s.game in games && !Ended(games[s.game].lifecycle)
    requires s.game in after && after == games[s.game := after[s.game]] && after[s.game].lifecycle == Settled
    requires GamesGrow(games, after) && FreshRows(added, s.game)
    requires DeltaSum(added, s.game) == 0 && Wins(added, s.game) == WinsOf(s.kind)
    ensures Tallied(after, settlements + [s], history + added)
  {
    AppendApart(games, history, added, s.game);
    AppendEnded(games, after, history, added, s.game);
    AppendZeroSum(history, added, s.game);
    SettleOnce(games, settlements, after, s);
    SettleWins(games, settlements, history, s, added);
  }

  lemma SettleOnce(games: Games, settlements: seq<Settlement>, after: Games, s: Settlement)
    requires SettledOnce(games, settlements) && s.game in games && !Ended(games[s.game].lifecycle)
    requires s.game in after && after == games[s.game := after[s.game]] && after[s.game].lifecycle == Settled
    ensures SettledOnce(after, settlements + [s])
  {
    var all := settlements + [s];
    forall g | g in after && after[g].lifecycle == Settled ensures Settles(all, g) {
      SettlesMore(settlements, s, g);
    }
  }

  lemma SettlesMore(settlements: seq<Settlement>, s: Settlement, g: GameId)
    ensures Settles(settlements + [s], g) <==> Settles(settlements, g) || s.game == g
  {
    var all := settlements + [s];
    assert all[|settlements|] == s;
    if Settles(settlements, g) {
      var i :| 0 <= i < |settlements| && settlements[i].game == g;
      assert all[i].game == g;
    }
  }

  lemma SettleWins(games: Games, settlements: seq<Settlement>, history: seq<HistoryRow>, s: Settlement, added: seq<HistoryRow>)
    requires SettledOnce(games, settlements) && WinsMatch(settlements, history)
    requires s.game in games && !Ended(games[s.game].lifecycle) && FreshRows(added, s.game)
    requires Wins(added, s.game) == WinsOf(s.kind)
    ensures WinsMatch(settlements + [s], history + added)
  {
    var all := settlements + [s];
    forall g ensures Wins(history + added, g) == Wins(history, g) + if g == s.game then WinsOf(s.kind) else 0 {
      TallyConcat(history, added, g);
      if g != s.game {
        TallyElsewhere(added, g);
      }
    }
    assert !Settles(settlements, s.game);
    forall i | 0 <= i < |all| ensures Wins(history + added, all[i].game) == WinsOf(all[i].kind) {
    }
    forall g | !Settles(all, g) ensures Wins(history + added, g) == 0 {
      SettlesMore(settlements, s, g);
    }
  }

  /** The record after a cancellation. */
  lemma CancelTallied(games: Games, settlements: seq<Settlement>, history: seq<HistoryRow>,
      after: Games, g: GameId, added: seq<HistoryRow>)
    requires Tallied(games, settlements, history) && g in games && !Ended(games[g].lifecycle)
    requires g in after && after == games[g := after[g]] && after[g].lifecycle == Cancelled
    requires GamesGrow(games, after) && FreshRows(added, g)
    requires DeltaSum(added, g) == 0 && Wins(added, g) == 0
    ensures Tallied(after, settlements, history + added)
  {
    TalliedFrame(games, after, settlements, history);
    AppendApart(games, history, added, g);
    AppendEnded(games, after, history, added, g);
    AppendZeroSum(history, added, g);
    forall h ensures Wins(history + added, h) == Wins(history, h) {
      TallyConcat(history, added, h);
      if h != g {
        TallyElsewhere(added, h);
      }
    }
  }

  /** What a cancellation adds: one zero row for each seat of the session. */
  lemma {:induction false} CancelledRowsAdd(games: Games, history: seq<HistoryRow>, seats: Seats, rows: seq<ReservationId>, g: GameId)
    returns (added: seq<HistoryRow>)
    requires HistoryEnded(games, history) && g in games && !Ended(games[g].lifecycle)
    requires SeatsApart(seats) && Distinct(rows)
    requires forall i :: 0 <= i < |rows| ==> rows[i] in seats && SeatedIn(seats, g, rows[i])
    ensures CancelledRows(history, seats, rows) == history + added && |added| == |rows|
    ensures forall i :: 0 <= i < |rows| ==>
      added[i] == HistoryRow(g, seats[rows[i]].user, seats[rows[i]].player, ScoreCancelled, 0)
    ensures DeltaSum(added, g) == 0 && Wins(added, g) == 0
    decreases |rows|
  {
    if rows == [] {
      added := [];
      assert history + added == history;
    } else {
      var init, last := rows[..|rows| - 1], rows[|rows| - 1];
      var earlier := CancelledRowsAdd(games, history, seats, init, g);
      var row := HistoryRow(g, seats[last].user, seats[last].player, ScoreCancelled, 0);
      var before := history + earlier;
      forall i | 0 <= i < |before| ensures !(before[i].game == g && before[i].user == row.user) {
        if i >= |history| {
          assert before[i] == earlier[i - |history|];
          assert Apart(seats[init[i - |history|]], seats[last]);
        }
      }
      added := earlier + [row];
      assert history + added == before + [row];
      assert added[..|added| - 1] == earlier;
    }
  }

  /* ---------- Settlements already made ---------- */

  /** A settled session's seats, reservations and scores never change again. */
  lemma ExecutedStays(db: Db, after: Db, s: Settlement)
    requires Grows(db, after) && s.game in db.sessions && db.sessions[s.game].lifecycle == Settled
    requires Placed(db.sessions, db.seats, db.bank.reservations, db.nextId)
    requires forall r :: SeatedIn(after.seats, s.game, r) ==> r in db.seats && after.seats[r] == db.seats[r]
    requires Executed(db.seats, db.bank.reservations, db.history, s)
    ensures Executed(after.seats, after.bank.reservations, after.history, s)
  {
    forall r | SeatedIn(after.seats, s.game, r)
      ensures SeatSettled(after.bank.reservations, after.history, s, r, after.seats[r])
    {
      assert SeatedIn(db.seats, s.game, r);
      assert SeatSettled(db.bank.reservations, db.history, s, r, db.seats[r]);
      assert RowGrows(db.bank.reservations[r], after.bank.reservations[r]);
      var i :| 0 <= i < |db.history| && db.history[i].game == db.seats[r].game
        && db.history[i].user == db.seats[r].user && db.history[i].player == db.seats[r].player;
      assert after.history[..|db.history|][i] == after.history[i];
    }
  }

  lemma AuthorizedStays(db: Db, after: Db, s: Settlement)
    requires Grows(db, after) && Authorized(db.sessions, db.ops, s)
    ensures Authorized(after.sessions, after.ops, s)
  {
    assert GameGrows(db.sessions[s.game], after.sessions[s.game]);
  }

  /** A seat seen later in a settled session was there before. */
  lemma SettledSeatIsOld(db: Db, after: Db, g: GameId, r: ReservationId)
    requires Grows(db, after) && g in db.sessions && db.sessions[g].lifecycle == Settled
    requires SeatsOk(after.sessions, after.seats, after.bank.reservations, after.nextId)
    requires SeatedIn(after.seats, g, r)
    ensures r in db.seats && after.seats[r] == db.seats[r]
  {
    assert SeatOk(after.sessions, after.bank.reservations, after.nextId, after.seats[r], r);
  }

  /** Everything recorded stays recorded when no settlement is added. */
  lemma AllExecutedStays(db: Db, after: Db, count: nat)
    requires Recorded(db) && Grows(db, after) && Placed(db.sessions, db.seats, db.bank.reservations, db.nextId)
    requires SeatsOk(after.sessions, after.seats, after.bank.reservations, after.nextId)
    requires count == |db.settlements|
    ensures forall i :: 0 <= i < count ==>
      && after.settlements[i] == db.settlements[i]
      && Authorized(after.sessions, after.ops, after.settlements[i])
      && Executed(after.seats, after.bank.reservations, after.history, after.settlements[i])
  {
    forall i | 0 <= i < count
      ensures after.settlements[i] == db.settlements[i]
      ensures Authorized(after.sessions, after.ops, after.settlements[i])
      ensures Executed(after.seats, after.bank.reservations, after.history, after.settlements[i])
    {
      var s := db.settlements[i];
      assert after.settlements[..|db.settlements|][i] == after.settlements[i];
      AuthorizedStays(db, after, s);
      forall r | SeatedIn(after.seats, s.game, r) ensures r in db.seats && after.seats[r] == db.seats[r] {
        SettledSeatIsOld(db, after, s.game, r);
      }
      ExecutedStays(db, after, s);
    }
  }

  /** Steps that end no session. */
  lemma RecordedFrame(db: Db, after: Db)
    requires Recorded(db) && Grows(db, after) && Placed(db.sessions, db.seats, db.bank.reservations, db.nextId)
    requires SeatsOk(after.sessions, after.seats, after.bank.reservations, after.nextId)
    requires after.history == db.history && after.settlements == db.settlements
    requires forall g :: g in after.sessions && after.sessions[g].lifecycle == Settled ==>
      g in db.sessions && db.sessions[g].lifecycle == Settled
    ensures Recorded(after)
  {
    TalliedFrame(db.sessions, after.sessions, db.settlements, db.history);
    AllExecutedStays(db, after, |db.settlements|);
  }
}
