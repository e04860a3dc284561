/**
 * The coin services as they run: row by row inside a transaction, rolled back as a whole when anything
 * fails. Each method is proved to be the step that Sessions defines.
 */
module CoinApi {
  import opened Outcomes
  import opened CoinBank
  import opened Sessions

  /* ---------- The steps, written out ---------- */

  /** The row a committed operation leaves. */
  function Finished(db: Db, request: Request, now: int): Operation {
    Operation(db.nextId, request, CommittedOp, Some(Committed(db.nextId)), now)
  }

  lemma DisbandIs(db: Db, k: OpKey, request: Request, g: GameId, now: int, bank: Bank)
    requires g in db.sessions && CloseAll(db.bank, k, ReservedIn(db, g), Released) == Ok(bank)
    ensures Disband(db, k, request, g, now) == Ok(db.(
      sessions := db.sessions[g := db.sessions[g].(lifecycle := Cancelled)],
      bank := bank,
      history := CancelledRows(db.history, db.seats, Seated(db, g)),
      seats := WithoutGame(db.seats, g),
      tickets := ExpireTickets(db.tickets, OfGame(g), now),
      ops := db.ops[k := Finished(db, request, now)],
      nextId := db.nextId + 1))
  {
  }

  lemma GiveBackIs(db: Db, k: OpKey, request: Request, g: GameId, now: int, bank: Bank)
    requires g in db.sessions && CloseAll(db.bank, k, Participants(db, g), Released) == Ok(bank)
    ensures GiveBack(db, k, request, g, now) == Ok(db.(
      sessions := db.sessions[g := db.sessions[g].(lifecycle := Settled)],
      bank := bank,
      settlements := db.settlements + [Settlement(g, Aborted, k, None, None)],
      history := db.history + ScoreRows(db, Participants(db, g), None, 0),
      ops := db.ops[k := Finished(db, request, now)],
      nextId := db.nextId + 1))
  {
  }

  /* ---------- The loops, one row at a time ---------- */

  lemma CloseAllNext(b: Bank, k: OpKey, rows: seq<ReservationId>, status: Status, i: nat)
    requires status != Reserved && i < |rows| && forall j :: 0 <= j < |rows| ==> rows[j] in b.reservations
    ensures CloseAll(b, k, rows[..i + 1], status) ==
      match CloseAll(b, k, rows[..i], status)
      case Err(e) => Err(e)
      case Ok(c) => if status == Released then Free(c, k, rows[i]) else Take(c, k, rows[i])
  {
    assert rows[..i + 1][..i] == rows[..i];
  }

  /** Once a row fails the whole list fails, with that failure. */
  lemma {:induction false} CloseAllFails(b: Bank, k: OpKey, rows: seq<ReservationId>, status: Status, i: nat)
    requires status != Reserved && i <= |rows| && forall j :: 0 <= j < |rows| ==> rows[j] in b.reservations
    requires CloseAll(b, k, rows[..i], status).Err?
    ensures CloseAll(b, k, rows, status) == CloseAll(b, k, rows[..i], status)
    decreases |rows| - i
  {
    if i == |rows| {
      assert rows[..i] == rows;
    } else {
      CloseAllNext(b, k, rows, status, i);
      CloseAllFails(b, k, rows, status, i + 1);
    }
  }

  predicate SameRow(row: Reservation, was: Reservation) {
    row.game == was.game && row.user == was.user && row.amount == was.amount
  }

  /** Closing rows changes neither whose they are, nor which session's, nor how much. */
  lemma {:induction false} CloseAllTerms(b: Bank, k: OpKey, rows: seq<ReservationId>, status: Status)
    requires status != Reserved && forall j :: 0 <= j < |rows| ==> rows[j] in b.reservations
    ensures var o := CloseAll(b, k, rows, status);
      o.Ok? ==> forall r :: r in b.reservations ==> r in o.value.reservations && SameRow(o.value.reservations[r], b.reservations[r])
    decreases |rows|
  {
    if rows != [] {
      CloseAllTerms(b, k, rows[..|rows| - 1], status);
    }
  }

  lemma ScoreRowsNext(db: Db, rows: seq<ReservationId>, winner: Option<UserId>, prize: int, i: nat)
    requires i < |rows| && forall j :: 0 <= j < |rows| ==> rows[j] in db.seats && rows[j] in db.bank.reservations
    ensures ScoreRows(db, rows[..i + 1], winner, prize) == ScoreRows(db, rows[..i], winner, prize) + [ScoreRow(db, rows[i], winner, prize)]
  {
    assert rows[..i + 1][..i] == rows[..i];
  }

  /** The tables once the listed participants have their history rows and leaderboard totals. */
  function Written(before: Db, start: Db, rows: seq<ReservationId>, winner: Option<UserId>, prize: int): Db
    requires forall j :: 0 <= j < |rows| ==> rows[j] in start.seats && rows[j] in start.bank.reservations
  {
    before.(
      history := before.history + ScoreRows(start, rows, winner, prize),
      coinsWon := if winner.Some? then Ranked(start, rows, winner.value, prize) else before.coinsWon)
  }

  lemma WrittenNext(before: Db, start: Db, rows: seq<ReservationId>, winner: Option<UserId>, prize: int, i: nat)
    requires i < |rows| && forall j :: 0 <= j < |rows| ==> rows[j] in start.seats && rows[j] in start.bank.reservations
    ensures var done, u := Written(before, start, rows[..i], winner, prize), start.bank.reservations[rows[i]].user;
      Written(before, start, rows[..i + 1], winner, prize) == done.(
        history := done.history + [ScoreRow(start, rows[i], winner, prize)],
        coinsWon :=
          if winner.None? then done.coinsWon
          else done.coinsWon[u := Get(done.coinsWon, u) + if u == winner.value then prize else 0])
  {
    ScoreRowsNext(start, rows, winner, prize, i);
    if winner.Some? {
      RankedNext(start, rows, winner.value, prize, i);
    }
  }

  lemma RankedNext(db: Db, rows: seq<ReservationId>, winner: UserId, prize: int, i: nat)
    requires i < |rows| && forall j :: 0 <= j < |rows| ==> rows[j] in db.bank.reservations
    ensures var before, u := Ranked(db, rows[..i], winner, prize), db.bank.reservations[rows[i]].user;
      Ranked(db, rows[..i + 1], winner, prize) == before[u := Get(before, u) + if u == winner then prize else 0]
  {
    assert rows[..i + 1][..i] == rows[..i];
  }

  class CoinStore {
    const cfg: Config
    var accounts: map<UserId, Account>
    var ledger: seq<Entry>
    var reservations: map<ReservationId, Reservation>
    var ops: map<OpKey, Operation>
    var sessions: map<GameId, Session>
    var seats: map<ReservationId, Seat>
    var tickets: map<TicketId, Ticket>
    var settlements: seq<Settlement>
    var history: seq<HistoryRow>
    var coinsWon: map<UserId, int>
    var materialized: set<GameId>
    var proofs: map<GameId, TerminalProof>
    var nextId: nat

    constructor (cfg: Config)
      ensures this.cfg == cfg && Contents() == EMPTY
    {
      this.cfg := cfg;
      accounts, ledger, reservations, ops := map[], [], map[], map[];
      sessions, seats, tickets, settlements := map[], map[], map[], [];
      history, coinsWon, materialized, proofs, nextId := [], map[], {}, map[], 0;
    }

    function Money(): Bank
      reads this
    {
      Bank(accounts, ledger, reservations)
    }

    function Contents(): Db
      reads this
    {
      Db(Money(), ops, sessions, seats, tickets, settlements, history, coinsWon, materialized, proofs, nextId)
    }

    /** The transaction failed: every table is as it was. */
    method Rollback(before: Db)
      modifies this
      ensures Contents() == before
    {
      RestoreMoney(before);
      RestoreAdmissions(before);
      RestoreRecords(before);
    }

    method RestoreMoney(before: Db)
      modifies this
      ensures Contents() == old(Contents()).(bank := before.bank, ops := before.ops, nextId := before.nextId)
    {
      accounts, ledger, reservations := before.bank.accounts, before.bank.ledger, before.bank.reservations;
      ops, nextId := before.ops, before.nextId;
    }

    method RestoreAdmissions(before: Db)
      modifies this
      ensures Contents() == old(Contents()).(sessions := before.sessions, seats := before.seats, tickets := before.tickets)
    {
      sessions, seats, tickets := before.sessions, before.seats, before.tickets;
    }

    method RestoreRecords(before: Db)
      modifies this
      ensures Contents() == old(Contents()).(
        settlements := before.settlements, history := before.history, coinsWon := before.coinsWon,
        materialized := before.materialized, proofs := before.proofs)
    {
      settlements, history, coinsWon := before.settlements, before.history, before.coinsWon;
      materialized, proofs := before.materialized, before.proofs;
    }

    method InsertOperation(k: OpKey, request: Request, now: int) returns (id: OperationId)
      modifies this
      ensures id == old(nextId)
      ensures Contents() == old(Contents()).(
        ops := old(ops)[k := Operation(id, request, PendingOp, None, now)], nextId := id + 1)
    {
      id := nextId;
      nextId := nextId + 1;
      ops := ops[k := Operation(id, request, PendingOp, None, now)];
    }

    method InsertNoOp(k: OpKey, request: Request, response: Response, now: int)
      modifies this
      ensures Contents() == Record(old(Contents()), k, request, NoOp, response, now)
    {
      ops, nextId := ops[k := Operation(nextId, request, NoOp, Some(response), now)], nextId + 1;
    }

    /** The pending row of this transaction, over the rows that were there before it, becomes final. */
    method CommitOperation(ghost base: map<OpKey, Operation>, k: OpKey, response: Response, now: int)
      requires k in ops && ops == base[k := ops[k]]
      modifies this
      ensures Contents() == old(Contents()).(
        ops := base[k := old(ops)[k].(status := CommittedOp, response := Some(response), at := now)])
    {
      ops := ops[k := ops[k].(status := CommittedOp, response := Some(response), at := now)];
      assert ops == base[k := ops[k]];
    }

    /** The session row of this transaction, over the rows that were there before it. */
    method UpdateSession(ghost base: map<GameId, Session>, g: GameId, s: Session)
      requires g in sessions && sessions == base[g := sessions[g]]
      modifies this
      ensures Contents() == old(Contents()).(sessions := base[g := s])
    {
      sessions := sessions[g := s];
      assert sessions == base[g := s];
    }

    method InsertSettlement(s: Settlement)
      modifies this
      ensures Contents() == old(Contents()).(settlements := old(settlements) + [s])
    {
      settlements := settlements + [s];
    }

    /* ---------- Movements of coins ---------- */

    method InsertEntry(k: OpKey, account: LedgerAccount, amount: int)
      modifies this
      ensures Contents() == old(Contents()).(bank := old(Money()).(ledger := old(ledger) + [Entry(k, account, amount)]))
    {
      ledger := ledger + [Entry(k, account, amount)];
    }

    /** A grant: one account row, two ledger rows, and the rescue stamp. */
    method ApplyGrant(u: UserId, k: OpKey, amount: nat, now: int, rescue: bool) returns (failed: Option<Failure>)
      requires u in accounts && amount > 0
      modifies this
      ensures match Grant(old(Money()), k, u, amount, now, rescue)
        case Ok(bank) => failed.None? && Contents() == old(Contents()).(bank := bank)
        case Err(f) => failed == Some(f) && Contents() == old(Contents())
    {
      var a := accounts[u];
      if a.available + amount > MAX_ACCOUNT_COIN {
        return Some(Overflow);
      }
      accounts := accounts[u := a.(
        available := a.available + amount,
        lastRescue := if rescue then Some(Later(a.lastRescue, now)) else a.lastRescue)];
      InsertEntry(k, Available(u), amount);
      InsertEntry(k, Issuance, 0 - amount);
      return None;
    }

    method ReleaseReservation(k: OpKey, r: ReservationId) returns (failed: Option<Failure>)
      requires r in reservations
      modifies this
      ensures match Free(old(Money()), k, r)
        case Ok(bank) => failed.None? && Contents() == old(Contents()).(bank := bank)
        case Err(f) => failed == Some(f)
    {
      var row := reservations[r];
      if row.amount > 0 {
        if row.user !in accounts || accounts[row.user].reserved < row.amount {
          return Some(Unbacked);
        }
        var a := accounts[row.user];
        if a.available + row.amount > MAX_ACCOUNT_COIN {
          return Some(Overflow);
        }
        accounts := accounts[row.user := a.(available := a.available + row.amount, reserved := a.reserved - row.amount)];
        InsertEntry(k, Available(row.user), row.amount);
        InsertEntry(k, ReservedFor(row.user), 0 - row.amount);
      }
      reservations := reservations[r := row.(status := Released, terminal := Some(k))];
      return None;
    }

    method CaptureReservation(k: OpKey, r: ReservationId) returns (failed: Option<Failure>)
      requires r in reservations
      modifies this
      ensures match Take(old(Money()), k, r)
        case Ok(bank) => failed.None? && Contents() == old(Contents()).(bank := bank)
        case Err(f) => failed == Some(f)
    {
      var row := reservations[r];
      if row.amount > 0 {
        if row.user !in accounts || accounts[row.user].reserved < row.amount {
          return Some(Unbacked);
        }
        var a := accounts[row.user];
        accounts := accounts[row.user := a.(reserved := a.reserved - row.amount)];
        InsertEntry(k, ReservedFor(row.user), 0 - row.amount);
      }
      reservations := reservations[r := row.(status := Captured, terminal := Some(k))];
      return None;
    }

    /** Nothing is written when there is nothing to pay. */
    method CreditWinner(k: OpKey, u: UserId, amount: nat)
      requires u in accounts
      modifies this
      ensures Contents() == old(Contents()).(bank := Enter(old(Money()), k, Available(u), amount))
    {
      if amount > 0 {
        accounts := accounts[u := accounts[u].(available := accounts[u].available + amount)];
        InsertEntry(k, Available(u), amount);
      }
    }

    /** Reserve the entry: the account moves before the reservation row exists. */
    method ReserveCoins(k: OpKey, u: UserId, r: ReservationId, g: GameId, amount: nat) returns (failed: Option<Failure>)
      requires u in accounts
      modifies this
      ensures match Hold(old(Money()), k, u, r, g, amount)
        case Ok(bank) => failed.None? && Contents() == old(Contents()).(bank := bank)
        case Err(f) => failed == Some(f)
    {
      if amount > 0 {
        var a := accounts[u];
        if a.available < amount {
          return Some(Insufficient);
        }
        if a.reserved + amount > MAX_ACCOUNT_COIN {
          return Some(Overflow);
        }
        accounts := accounts[u := a.(available := a.available - amount, reserved := a.reserved + amount)];
        InsertEntry(k, Available(u), 0 - amount);
        InsertEntry(k, ReservedFor(u), amount);
      }
      reservations := reservations[r := Reservation(u, g, amount, Reserved, None)];
      return None;
    }

    /** The loop of cancel, of the waiting reconciler and of abort. */
    method ReleaseAll(k: OpKey, rows: seq<ReservationId>) returns (failed: Option<Failure>)
      requires forall i :: 0 <= i < |rows| ==> rows[i] in reservations
      modifies this
      ensures match CloseAll(old(Money()), k, rows, Released)
        case Ok(bank) => failed.None? && Contents() == old(Contents()).(bank := bank)
        case Err(f) => failed == Some(f)
    {
      ghost var start := Contents();
      var i := 0;
      while i < |rows|
        invariant 0 <= i <= |rows|
        invariant CloseAll(start.bank, k, rows[..i], Released) == Ok(Money())
        invariant Contents() == start.(bank := Money())
      {
        CloseAllNext(start.bank, k, rows, Released, i);
        failed := ReleaseReservation(k, rows[i]);
        if failed.Some? {
          CloseAllFails(start.bank, k, rows, Released, i + 1);
          return;
        }
        i := i + 1;
      }
      assert rows[..i] == rows;
      return None;
    }

    method CaptureAll(k: OpKey, rows: seq<ReservationId>) returns (failed: Option<Failure>)
      requires forall i :: 0 <= i < |rows| ==> rows[i] in reservations
      modifies this
      ensures match CloseAll(old(Money()), k, rows, Captured)
        case Ok(bank) => failed.None? && Contents() == old(Contents()).(bank := bank)
        case Err(f) => failed == Some(f)
    {
      ghost var start := Contents();
      var i := 0;
      while i < |rows|
        invariant 0 <= i <= |rows|
        invariant CloseAll(start.bank, k, rows[..i], Captured) == Ok(Money())
        invariant Contents() == start.(bank := Money())
      {
        CloseAllNext(start.bank, k, rows, Captured, i);
        failed := CaptureReservation(k, rows[i]);
        if failed.Some? {
          CloseAllFails(start.bank, k, rows, Captured, i + 1);
          return;
        }
        i := i + 1;
      }
      assert rows[..i] == rows;
      return None;
    }

    /** One history row for each participant and, for a completed session, one leaderboard upsert. */
    method WriteHistory(ghost start: Db, rows: seq<ReservationId>, winner: Option<UserId>, prize: int)
      requires forall i :: 0 <= i < |rows| ==> rows[i] in seats && rows[i] in reservations && rows[i] in start.bank.reservations
      requires start.seats == seats && start.coinsWon == coinsWon
      requires forall i :: 0 <= i < |rows| ==> SameRow(reservations[rows[i]], start.bank.reservations[rows[i]])
      modifies this
      ensures Contents() == old(Contents()).(
        history := old(history) + ScoreRows(start, rows, winner, prize),
        coinsWon := if winner.Some? then Ranked(start, rows, winner.value, prize) else old(coinsWon))
    {
      ghost var before := Contents();
      var i := 0;
      while i < |rows|
        invariant 0 <= i <= |rows|
        invariant Contents() == Written(before, start, rows[..i], winner, prize)
      {
        WrittenNext(before, start, rows, winner, prize, i);
        WriteScore(start, rows[i], winner, prize);
        i := i + 1;
      }
      assert rows[..i] == rows;
    }

    method WriteScore(ghost start: Db, r: ReservationId, winner: Option<UserId>, prize: int)
      requires r in seats && r in reservations && r in start.bank.reservations && start.seats == seats
      requires SameRow(reservations[r], start.bank.reservations[r])
      modifies this
      ensures var u := old(reservations)[r].user;
        Contents() == old(Contents()).(
          history := old(history) + [ScoreRow(start, r, winner, prize)],
          coinsWon :=
            if winner.None? then old(coinsWon)
            else old(coinsWon)[u := Get(old(coinsWon), u) + if u == winner.value then prize else 0])
    {
      var row, player := reservations[r], seats[r].player;
      var won := winner == Some(row.user);
      var delta := if winner.None? then 0 else (if won then prize else 0) - row.amount;
      var score := if winner.None? then ScoreAborted else if won then Won else Lost;
      history := history + [HistoryRow(row.game, row.user, player, score, delta)];
      if winner.Some? {
        coinsWon := coinsWon[row.user := Get(coinsWon, row.user) + if won then prize else 0];
      }
    }

    /** The prize: the stakes added up. */
    method TotalStakes(rows: seq<ReservationId>) returns (total: int)
      requires forall i :: 0 <= i < |rows| ==> rows[i] in reservations
      ensures total == Amounts(reservations, rows)
    {
      total := 0;
      var i := 0;
      while i < |rows|
        invariant 0 <= i <= |rows|
        invariant total == Amounts(reservations, rows[..i])
      {
        assert rows[..i + 1][..i] == rows[..i];
        total := total + reservations[rows[i]].amount;
        i := i + 1;
      }
      assert rows[..i] == rows;
    }

    /* ---------- Grants ---------- */

    method ProvisionAccount(u: UserId, now: int) returns (reply: Result<Response, ApiError>)
      requires cfg.initialGrant > 0
      modifies this
      ensures Outcome(Contents(), reply) == ProvisionUser(cfg, old(Contents()), u, now)
    {
      var before := Contents();
      OpenAccount(u);
      if OpKey(u, InitialGrant, INITIAL_GRANT_KEY) !in ops {
        var failed := GrantInitial(u, now);
        if failed.Some? {
          Rollback(before);
          return Failed(before, failed.value).reply;
        }
      }
      return Ok(AccountView(Money(), u));
    }

    method OpenAccount(u: UserId)
      modifies this
      ensures Contents() == old(Contents()).(bank := Opened(old(Money()), u))
    {
      if u !in accounts {
        accounts := accounts[u := NEW_ACCOUNT];
      }
    }

    method GrantInitial(u: UserId, now: int) returns (failed: Option<Failure>)
      requires cfg.initialGrant > 0 && u in accounts
      modifies this
      ensures var k := OpKey(u, InitialGrant, INITIAL_GRANT_KEY);
        match Grant(old(Money()), k, u, cfg.initialGrant, now, false)
        case Ok(bank) => failed.None? && Contents() == RecordCommitted(old(Contents()).(bank := bank), k, ForInitialGrant, now)
        case Err(f) => failed == Some(f)
    {
      ghost var before := Contents();
      var k := OpKey(u, InitialGrant, INITIAL_GRANT_KEY);
      var id := InsertOperation(k, ForInitialGrant, now);
      failed := ApplyGrant(u, k, cfg.initialGrant, now, false);
      if failed.None? {
        CommitOperation(before.ops, k, Committed(id), now);
      }
    }

    method RescueUser(u: UserId, key: string, now: int) returns (reply: Result<Response, ApiError>)
      modifies this
      ensures Outcome(Contents(), reply) == Rescue(cfg, old(Contents()), u, key, now)
    {
      var before := Contents();
      var k := OpKey(u, RescueGrant, key);
      if u !in accounts {
        return Err(AccountNotFound);
      }
      if k in ops {
        if ops[k].request != ForRescue {
          return Err(IdempotencyConflict);
        }
        if ops[k].status == PendingOp || ops[k].response.None? {
          return Err(Incomplete);
        }
        return Ok(ops[k].response.value);
      }
      var a := accounts[u];
      var total := a.available + a.reserved;
      var windowOpen := a.lastRescue.None? || a.lastRescue.value <= now - cfg.rescueWindow;
      if total >= cfg.rescueBalance || !windowOpen {
        var response := Rescued(a.available, a.reserved, None);
        InsertNoOp(k, ForRescue, response, now);
        return Ok(response);
      }
      reply := GrantRescue(k, u, now);
    }

    method GrantRescue(k: OpKey, u: UserId, now: int) returns (reply: Result<Response, ApiError>)
      requires u in accounts && Wealth(Money(), u) < cfg.rescueBalance
      modifies this
      ensures Outcome(Contents(), reply) == RescueGranted(cfg, old(Contents()), k, u, now)
    {
      var before := Contents();
      var id := InsertOperation(k, ForRescue, now);
      var failed := ApplyGrant(u, k, cfg.rescueBalance - (accounts[u].available + accounts[u].reserved), now, true);
      if failed.Some? {
        Rollback(before);
        return Failed(before, failed.value).reply;
      }
      var response := Rescued(Column(Money(), Available(u)), Column(Money(), ReservedFor(u)), Some(id));
      CommitOperation(before.ops, k, response, now);
      return Ok(response);
    }

    /* ---------- Leaving and cancelling ---------- */

    method WithdrawReservation(k: OpKey, request: Request, r: ReservationId, now: int) returns (failed: Option<Failure>)
      requires r in reservations
      modifies this
      ensures match Withdraw(old(Contents()), k, request, r, now)
        case Ok(after) => failed.None? && Contents() == after
        case Err(f) => failed == Some(f)
    {
      ghost var before := Contents();
      var id := InsertOperation(k, request, now);
      failed := ReleaseReservation(k, r);
      if failed.Some? {
        return;
      }
      GiveUpSeat(r, now);
      CommitOperation(before.ops, k, Committed(id), now);
    }

    method GiveUpSeat(r: ReservationId, now: int)
      modifies this
      ensures Contents() == old(Contents()).(
        seats := old(seats) - {r}, tickets := ExpireTickets(old(tickets), OfReservation(r), now))
    {
      seats := seats - {r};
      tickets := ExpireTickets(tickets, OfReservation(r), now);
    }

    method LeaveSession(u: UserId, g: GameId, key: string, request: Request, now: int, expected: Option<Binding>)
        returns (reply: Result<Response, ApiError>)
      modifies this
      ensures Outcome(Contents(), reply) == Leave(old(Contents()), u, g, key, request, now, expected)
    {
      var before := Contents();
      var k := OpKey(u, ReleaseJoinIntent, key);
      if u !in accounts {
        return Err(AccountNotFound);
      }
      if g !in sessions {
        return Err(SessionNotFound);
      }
      if k in ops {
        return Replayed(ops[k], request, CommittedOp);
      }
      if expected.None? && g in materialized {
        return Err(SessionNotOpen);
      }
      if sessions[g].lifecycle != Open {
        return Err(SessionNotOpen);
      }
      if sessions[g].creator == u {
        return Err(CreatorCannotLeave);
      }
      if expected.Some? && (sessions[g].room != expected.value.room || !SeatMatches(before, g, u, expected.value)) {
        return Err(SessionForbidden);
      }
      var r := First(nextId, ReservedByUser(reservations, g, u));
      if r.None? {
        return Err(ReservationNotFound);
      }
      if expected.Some? && r.value != expected.value.reservation {
        return Err(SessionForbidden);
      }
      reply := CompleteWithdrawal(k, request, r.value, now);
    }

    method CompleteWithdrawal(k: OpKey, request: Request, r: ReservationId, now: int) returns (reply: Result<Response, ApiError>)
      requires r in reservations
      modifies this
      ensures Outcome(Contents(), reply) ==
        match Withdraw(old(Contents()), k, request, r, now)
        case Err(f) => Failed(old(Contents()), f)
        case Ok(after) => Answer(after, Committed(old(nextId)))
    {
      var before := Contents();
      var failed := WithdrawReservation(k, request, r, now);
      if failed.Some? {
        Rollback(before);
        return Failed(before, failed.value).reply;
      }
      return Ok(Committed(before.nextId));
    }

    method DisbandSession(k: OpKey, request: Request, g: GameId, now: int) returns (failed: Option<Failure>)
      requires g in sessions
      modifies this
      ensures match Disband(old(Contents()), k, request, g, now)
        case Ok(after) => failed.None? && Contents() == after
        case Err(f) => failed == Some(f)
    {
      ghost var before := Contents();
      var rows, seated := ReservedIn(Contents(), g), Seated(Contents(), g);
      assert sessions == before.sessions[g := sessions[g]];
      var id := InsertOperation(k, request, now);
      UpdateSession(before.sessions, g, sessions[g].(lifecycle := Cancelling));
      failed := ReleaseAll(k, rows);
      if failed.Some? {
        return;
      }
      DisbandIs(before, k, request, g, now, Money());
      CompleteDisband(before, k, request, g, seated, id, now);
    }

    method CompleteDisband(ghost before: Db, k: OpKey, ghost request: Request, g: GameId, seated: seq<ReservationId>, id: OperationId, now: int)
      requires g in before.sessions && id == before.nextId && seated == Seated(before, g)
      requires Contents() == before.(
        bank := Money(), nextId := id + 1,
        sessions := before.sessions[g := before.sessions[g].(lifecycle := Cancelling)],
        ops := before.ops[k := Operation(id, request, PendingOp, None, now)])
      modifies this
      ensures Contents() == before.(
        sessions := before.sessions[g := before.sessions[g].(lifecycle := Cancelled)],
        bank := old(Money()),
        history := CancelledRows(before.history, before.seats, seated),
        seats := WithoutGame(before.seats, g),
        tickets := ExpireTickets(before.tickets, OfGame(g), now),
        ops := before.ops[k := Finished(before, request, now)],
        nextId := id + 1)
    {
      CloseAdmission(g, seated, now);
      UpdateSession(before.sessions, g, sessions[g].(lifecycle := Cancelled));
      CommitOperation(before.ops, k, Committed(id), now);
    }

    method CloseAdmission(g: GameId, seated: seq<ReservationId>, now: int)
      requires forall i :: 0 <= i < |seated| ==> seated[i] in seats
      modifies this
      ensures Contents() == old(Contents()).(
        history := CancelledRows(old(history), old(seats), seated),
        seats := WithoutGame(old(seats), g),
        tickets := ExpireTickets(old(tickets), OfGame(g), now))
    {
      history := CancelledRows(history, seats, seated);
      seats := WithoutGame(seats, g);
      tickets := ExpireTickets(tickets, OfGame(g), now);
    }

    method CancelSessionFor(u: UserId, g: GameId, key: string, request: Request, now: int, expected: Option<Binding>)
        returns (reply: Result<Response, ApiError>)
      modifies this
      ensures Outcome(Contents(), reply) == Cancel(old(Contents()), u, g, key, request, now, expected)
    {
      var before := Contents();
      var k := OpKey(u, CancelSession, key);
      if g !in sessions {
        return Err(SessionNotFound);
      }
      if sessions[g].creator != u {
        return Err(SessionForbidden);
      }
      if k in ops {
        return Replayed(ops[k], request, CommittedOp);
      }
      if !AccountsPresent(before, ReservedIn(before, g)) {
        return Err(Incomplete);
      }
      if sessions[g].lifecycle != Open || (expected.None? && g in materialized) {
        return Err(SessionNotOpen);
      }
      if expected.Some? && (
        || sessions[g].room != expected.value.room
        || !SeatMatches(before, g, u, expected.value)
        || seats[expected.value.reservation].index != 0)
      {
        return Err(SessionForbidden);
      }
      reply := CompleteCancellation(k, request, g, now);
    }

    method CompleteCancellation(k: OpKey, request: Request, g: GameId, now: int) returns (reply: Result<Response, ApiError>)
      requires g in sessions
      modifies this
      ensures Outcome(Contents(), reply) ==
        match Disband(old(Contents()), k, request, g, now)
        case Err(f) => Failed(old(Contents()), f)
        case Ok(after) => Answer(after, Committed(old(nextId)))
    {
      var before := Contents();
      var failed := DisbandSession(k, request, g, now);
      if failed.Some? {
        Rollback(before);
        return Failed(before, failed.value).reply;
      }
      return Ok(Committed(before.nextId));
    }

    method FinalizeRoomCommand(g: GameId, b: Binding, action: Action, key: string, now: int) returns (reply: Result<Response, ApiError>)
      modifies this
      ensures Outcome(Contents(), reply) == Finalize(old(Contents()), g, b, action, key, now)
    {
      var actor := ActorOf(Contents(), g, b);
      if actor.None? {
        return Err(SessionForbidden);
      }
      var request := ForFinalization(g, b, action);
      if action == LeaveRoom {
        reply := LeaveSession(actor.value, g, key, request, now, Some(b));
      } else {
        reply := CancelSessionFor(actor.value, g, key, request, now, Some(b));
      }
    }

    method CancelExpiredWaitingSession(g: GameId, expiresBefore: int, key: string, now: int) returns (reply: Result<Response, ApiError>)
      modifies this
      ensures Outcome(Contents(), reply) == CancelExpired(old(Contents()), g, expiresBefore, key, now)
    {
      var before := Contents();
      if g !in sessions || sessions[g].createdAt > expiresBefore {
        return Ok(Done(false));
      }
      var k := OpKey(sessions[g].creator, CancelSession, key);
      if k in ops {
        var stored := Replayed(ops[k], ForWaitingExpiry(g), CommittedOp);
        return if stored.Err? then stored else Ok(Done(false));
      }
      if !AccountsPresent(before, ReservedIn(before, g)) {
        return Err(Incomplete);
      }
      if sessions[g].lifecycle != Open {
        return Ok(Done(false));
      }
      var failed := DisbandSession(k, ForWaitingExpiry(g), g, now);
      if failed.Some? {
        Rollback(before);
        return Failed(before, failed.value).reply;
      }
      return Ok(Done(true));
    }

    /* ---------- Settlement ---------- */

    method PayOutSession(k: OpKey, request: Request, g: GameId, version: nat, winner: UserId, now: int) returns (failed: Option<Failure>)
      requires g in sessions && winner in accounts
      modifies this
      ensures match PayOut(old(Contents()), k, request, g, version, winner, now)
        case Ok(after) => failed.None? && Contents() == after
        case Err(f) => failed == Some(f)
    {
      ghost var before := Contents();
      assert sessions == before.sessions[g := sessions[g]];
      var rows := Participants(Contents(), g);
      var total := TotalStakes(rows);
      var id := InsertOperation(k, request, now);
      failed := CaptureAll(k, rows);
      if failed.Some? {
        return;
      }
      if winner !in accounts {
        return Some(Unbacked);
      }
      CloseAllTerms(before.bank, k, rows, Captured);
      CreditWinner(k, winner, total);
      InsertSettlement(Settlement(g, Completed, k, Some(version), Some(winner)));
      WriteHistory(before, rows, Some(winner), total);
      UpdateSession(before.sessions, g, sessions[g].(lifecycle := Settling, version := version));
      UpdateSession(before.sessions, g, sessions[g].(lifecycle := Settled));
      CommitOperation(before.ops, k, Committed(id), now);
    }

    method SettleSessionAt(g: GameId, room: RoomId, version: nat, checksum: string, key: string, now: int)
        returns (reply: Result<Response, ApiError>)
      modifies this
      ensures Outcome(Contents(), reply) == Settle(old(Contents()), g, room, version, checksum, key, now)
    {
      var before := Contents();
      var rows := Participants(before, g);
      if !AccountsPresent(before, rows) {
        return Err(Incomplete);
      }
      if g !in sessions {
        return Err(SessionNotFound);
      }
      var s, request := sessions[g], ForSettlement(g, room, version, checksum);
      var k := OpKey(s.creator, SettleSession, key);
      if k in ops {
        return Replayed(ops[k], request, CommittedOp);
      }
      if HasSettlement(before, g) {
        return Err(SettlementAlreadyCommitted);
      }
      if s.room != room {
        return Err(TerminalProofInvalid);
      }
      if !SettlesFrom(s.lifecycle) {
        return Err(SessionNotOpen);
      }
      if !ProofHolds(before, g, room, version, checksum) || |rows| < 2 {
        return Err(TerminalProofInvalid);
      }
      var r := WinnerRow(before, rows, proofs[g].winner);
      if r.None? {
        return Err(TerminalProofInvalid);
      }
      var total := TotalStakes(rows);
      if r.value !in reservations || !PayoutFits(before, reservations[r.value].user, total) {
        return Err(AccountCoinOverflow);
      }
      var failed := PayOutSession(k, request, g, version, reservations[r.value].user, now);
      if failed.Some? {
        Rollback(before);
        return Failed(before, failed.value).reply;
      }
      return Ok(Committed(before.nextId));
    }

    method GiveBackStakes(k: OpKey, request: Request, g: GameId, now: int) returns (failed: Option<Failure>)
      requires g in sessions
      modifies this
      ensures match GiveBack(old(Contents()), k, request, g, now)
        case Ok(after) => failed.None? && Contents() == after
        case Err(f) => failed == Some(f)
    {
      ghost var before := Contents();
      assert sessions == before.sessions[g := sessions[g]];
      var rows := Participants(Contents(), g);
      var id := InsertOperation(k, request, now);
      failed := ReleaseAll(k, rows);
      if failed.Some? {
        return;
      }
      CloseAllTerms(before.bank, k, rows, Released);
      GiveBackIs(before, k, request, g, now, Money());
      CompleteAbort(before, k, request, g, rows, id, now);
    }

    method CompleteAbort(ghost before: Db, k: OpKey, ghost request: Request, g: GameId, rows: seq<ReservationId>, id: OperationId, now: int)
      requires g in before.sessions && id == before.nextId && rows == Participants(before, g)
      requires Contents() == before.(
        bank := Money(), nextId := id + 1, ops := before.ops[k := Operation(id, request, PendingOp, None, now)])
      requires forall i :: 0 <= i < |rows| ==> rows[i] in reservations && SameRow(reservations[rows[i]], before.bank.reservations[rows[i]])
      modifies this
      ensures Contents() == before.(
        sessions := before.sessions[g := before.sessions[g].(lifecycle := Settled)],
        bank := old(Money()),
        settlements := before.settlements + [Settlement(g, Aborted, k, None, None)],
        history := before.history + ScoreRows(before, rows, None, 0),
        ops := before.ops[k := Finished(before, request, now)],
        nextId := id + 1)
    {
      assert sessions == before.sessions[g := sessions[g]];
      InsertSettlement(Settlement(g, Aborted, k, None, None));
      WriteHistory(before, rows, None, 0);
      CloseSession(before, k, g, id, now);
    }

    /** Settling, then settled, then the operation is final. */
    method CloseSession(ghost before: Db, k: OpKey, g: GameId, id: OperationId, now: int)
      requires g in sessions && sessions == before.sessions[g := sessions[g]]
      requires k in ops && ops == before.ops[k := ops[k]]
      modifies this
      ensures Contents() == old(Contents()).(
        sessions := before.sessions[g := old(sessions)[g].(lifecycle := Settled)],
        ops := before.ops[k := old(ops)[k].(status := CommittedOp, response := Some(Committed(id)), at := now)])
    {
      var s := sessions[g];
      UpdateSession(before.sessions, g, s.(lifecycle := Settling));
      UpdateSession(before.sessions, g, s.(lifecycle := Settled));
      CommitOperation(before.ops, k, Committed(id), now);
    }

    method AbortSessionFor(g: GameId, reason: string, key: string, now: int) returns (reply: Result<Response, ApiError>)
      modifies this
      ensures Outcome(Contents(), reply) == Abort(old(Contents()), g, reason, key, now)
    {
      var before := Contents();
      if !AccountsPresent(before, Participants(before, g)) {
        return Err(Incomplete);
      }
      if g !in sessions {
        return Err(SessionNotFound);
      }
      var s, request := sessions[g], ForAbort(g, reason);
      var k := OpKey(s.creator, AbortSession, key);
      if k in ops {
        return Replayed(ops[k], request, CommittedOp);
      }
      if HasSettlement(before, g) {
        return Err(SettlementAlreadyCommitted);
      }
      if s.lifecycle != Active && s.lifecycle != RecoveryRequired {
        return Err(SessionNotOpen);
      }
      var failed := GiveBackStakes(k, request, g, now);
      if failed.Some? {
        Rollback(before);
        return Failed(before, failed.value).reply;
      }
      return Ok(Committed(before.nextId));
    }

    /* ---------- Admission ---------- */

    method InsertTicket(t: Ticket, id: TicketId)
      modifies this
      ensures Contents() == old(Contents()).(tickets := old(tickets)[id := t])
    {
      tickets := tickets[id := t];
    }

    method InsertSeat(r: ReservationId, seat: Seat)
      modifies this
      ensures Contents() == old(Contents()).(seats := old(seats)[r := seat])
    {
      seats := seats[r := seat];
    }

    method TakeIds(count: nat) returns (first: nat)
      modifies this
      ensures first == old(nextId) && Contents() == old(Contents()).(nextId := first + count)
    {
      first := nextId;
      nextId := nextId + count;
    }

    /** Reserve, seat, issue the ticket, record: the tail that create and join share. */
    method AdmitPlayer(k: OpKey, request: Request, a: Response, index: nat, amount: nat, now: int) returns (failed: Option<Failure>)
      requires a.Admission? && k.actor in accounts
      modifies this
      ensures match Admit(cfg, old(Contents()), k, request, a, index, amount, now)
        case Ok(after) => failed.None? && Contents() == after
        case Err(f) => failed == Some(f)
    {
      failed := ReserveCoins(k, k.actor, a.reservation, a.game, amount);
      if failed.Some? {
        return;
      }
      SeatPlayer(k, request, a, index, now);
    }

    method SeatAndTicket(u: UserId, a: Response, index: nat, now: int)
      requires a.Admission?
      modifies this
      ensures Contents() == old(Contents()).(
        seats := old(seats)[a.reservation := Seat(a.game, a.player, u, index)],
        tickets := old(tickets)[old(nextId) := NewTicket(cfg, a, old(nextId) + 1, u, now)],
        nextId := old(nextId) + 2)
    {
      InsertSeat(a.reservation, Seat(a.game, a.player, u, index));
      var first := TakeIds(2);
      InsertTicket(NewTicket(cfg, a, first + 1, u, now), first);
    }

    method SeatPlayer(k: OpKey, request: Request, a: Response, index: nat, now: int)
      requires a.Admission?
      modifies this
      ensures var seated := old(Contents()).(
          seats := old(seats)[a.reservation := Seat(a.game, a.player, k.actor, index)],
          tickets := old(tickets)[old(nextId) := NewTicket(cfg, a, old(nextId) + 1, k.actor, now)],
          nextId := old(nextId) + 2);
        Contents() == Record(seated, k, request, CommittedOp, a, now)
    {
      ghost var before := Contents();
      SeatAndTicket(k.actor, a, index, now);
      var id := InsertOperation(k, request, now);
      CommitOperation(before.ops, k, a, now);
    }

    method CreateSessionFor(u: UserId, definitionId: string, definition: Option<Definition>, key: string, now: int)
        returns (reply: Result<Response, ApiError>)
      modifies this
      ensures Outcome(Contents(), reply) == Create(cfg, old(Contents()), u, definitionId, definition, key, now)
    {
      var before := Contents();
      var k, request := OpKey(u, CreateSession, key), ForDefinition(definitionId);
      if u !in accounts {
        return Err(AccountNotFound);
      }
      if k in ops {
        reply := ReplayStoredAdmission(Replayed(ops[k], request, CommittedOp), now);
        return;
      }
      if definition.None? {
        return Err(RequestInvalid);
      }
      var a := CreatedAdmission(before);
      OpenSession(u, definition.value, now);
      var failed := AdmitPlayer(k, request, a, 0, definition.value.entry, now);
      if failed.Some? {
        Rollback(before);
        return Failed(before, failed.value).reply;
      }
      return Ok(Ticketed(a, before.nextId + 5, now + cfg.ticketTtl));
    }

    method OpenSession(u: UserId, d: Definition, now: int)
      modifies this
      ensures Contents() == WithCreated(old(Contents()), u, d, now)
    {
      var n := TakeIds(4);
      sessions := sessions[n := Session(n + 1, u, Open, d.capacity, d.entry, 0, now, None)];
    }

    method JoinSessionFor(u: UserId, g: GameId, key: string, now: int) returns (reply: Result<Response, ApiError>)
      modifies this
      ensures Outcome(Contents(), reply) == Join(cfg, old(Contents()), u, g, key, now)
    {
      var k := OpKey(u, JoinIntent, key);
      if u !in accounts {
        return Err(AccountNotFound);
      }
      if g !in sessions {
        return Err(SessionNotFound);
      }
      if k in ops {
        reply := ReplayStoredAdmission(Replayed(ops[k], ForGame(g), CommittedOp), now);
        return;
      }
      if sessions[g].lifecycle != Open {
        return Err(NotAccepting(sessions[g].lifecycle));
      }
      if First(nextId, SeatOfUser(seats, g, u)).Some? {
        return Err(AlreadySeated);
      }
      var index := First(sessions[g].capacity, Vacant(seats, g));
      if index.None? {
        return Err(SessionFull);
      }
      reply := JoinSeatAt(k, g, index.value, now);
    }

    method JoinSeatAt(k: OpKey, g: GameId, index: nat, now: int) returns (reply: Result<Response, ApiError>)
      requires k.actor in accounts && g in sessions
      modifies this
      ensures Outcome(Contents(), reply) == JoinAt(cfg, old(Contents()), k, g, index, now)
    {
      var before := Contents();
      var s := sessions[g];
      var n := TakeIds(2);
      var a := Admission(g, s.room, n, n + 1);
      var failed := AdmitPlayer(k, ForGame(g), a, index, s.entry, now);
      if failed.Some? {
        Rollback(before);
        return Failed(before, failed.value).reply;
      }
      return Ok(Ticketed(a, n + 3, now + cfg.ticketTtl));
    }

    method ReplayStoredAdmission(stored: Result<Response, ApiError>, now: int) returns (reply: Result<Response, ApiError>)
      modifies this
      ensures Outcome(Contents(), reply) == ReplayAdmission(cfg, old(Contents()), stored, now)
    {
      if stored.Err? {
        return stored;
      }
      if !stored.value.Admission? {
        return Err(Incomplete);
      }
      reply := ReissueAdmission(stored.value, now);
    }

    method ReissueAdmission(a: Response, now: int) returns (reply: Result<Response, ApiError>)
      requires a.Admission?
      modifies this
      ensures Outcome(Contents(), reply) == Reissue(cfg, old(Contents()), a, now)
    {
      if a.game !in sessions {
        return Err(SessionNotFound);
      }
      if !TakesTickets(sessions[a.game].lifecycle) {
        return Err(NotAccepting(sessions[a.game].lifecycle));
      }
      if !StillReserved(reservations, a.game, a.reservation) {
        return Err(ReservationNotFound);
      }
      var latest := LatestUnused(tickets, a.reservation, nextId);
      if latest.Some? {
        var token := TakeIds(1);
        InsertTicket(tickets[latest.value].(token := token, expiresAt := now + cfg.ticketTtl), latest.value);
        return Ok(Ticketed(a, token, now + cfg.ticketTtl));
      }
      var first := TakeIds(2);
      InsertTicket(NewTicket(cfg, a, first + 1, reservations[a.reservation].user, now), first);
      return Ok(Ticketed(a, first + 1, now + cfg.ticketTtl));
    }

    method ReconnectSession(u: UserId, g: GameId, key: string, now: int) returns (reply: Result<Response, ApiError>)
      modifies this
      ensures Outcome(Contents(), reply) == Reconnect(cfg, old(Contents()), u, g, key, now)
    {
      var k := OpKey(u, ReconnectTicket, key);
      if u !in accounts {
        return Err(AccountNotFound);
      }
      if g !in sessions {
        return Err(SessionNotFound);
      }
      if !TakesTickets(sessions[g].lifecycle) {
        return Err(NotAccepting(sessions[g].lifecycle));
      }
      if k in ops {
        reply := ReplayStoredAdmission(Replayed(ops[k], ForGame(g), NoOp), now);
        return;
      }
      var r := First(nextId, SeatOfUser(seats, g, u));
      if r.None? || r.value !in seats || !StillReserved(reservations, g, r.value) {
        return Err(ReservationNotFound);
      }
      var a := Admission(g, sessions[g].room, r.value, seats[r.value].player);
      reply := ReissueAdmission(a, now);
      if reply.Ok? {
        InsertNoOp(k, ForGame(g), a, now);
      }
    }

    /* ---------- Tickets and start ---------- */

    method ConsumeTicketFor(token: Token, g: GameId, room: RoomId, instance: string, key: string, now: int)
        returns (reply: Result<Response, ApiError>)
      modifies this
      ensures Outcome(Contents(), reply) == Consume(old(Contents()), token, g, room, instance, key, now)
    {
      if g !in sessions {
        return Err(SessionNotFound);
      }
      var found := First(nextId, HasToken(tickets, token));
      if found.None? || found.value !in tickets {
        return Err(TicketInvalid);
      }
      var t, s := tickets[found.value], sessions[g];
      if t.game != g || t.room != room || s.room != room {
        return Err(TicketInvalid);
      }
      if !TakesTickets(s.lifecycle) {
        return Err(SessionNotOpen);
      }
      if !ReservedByUser(reservations, g, t.user)(t.reservation) {
        return Err(ReservationNotFound);
      }
      reply := HonourTicket(found.value, OpKey(t.user, ConsumeTicket, key), ForTicket(token, g, room, instance), instance, now);
    }

    method HonourTicket(id: TicketId, k: OpKey, request: Request, instance: string, now: int) returns (reply: Result<Response, ApiError>)
      requires id in tickets && tickets[id].game in sessions
      modifies this
      ensures Outcome(Contents(), reply) == Honour(old(Contents()), id, k, request, instance, now)
    {
      var t := tickets[id];
      if k in ops && Replayed(ops[k], request, NoOp).Err? {
        return Replayed(ops[k], request, NoOp);
      }
      if t.consumedBy.Some? {
        reply := ReuseTicket(id, k, request, instance, now);
        return;
      }
      if now >= t.expiresAt {
        return Err(TicketExpired);
      }
      if k in ops {
        return Err(Incomplete);
      }
      reply := PresentTicket(id, k, request, instance, now);
    }

    method ReuseTicket(id: TicketId, k: OpKey, request: Request, instance: string, now: int) returns (reply: Result<Response, ApiError>)
      requires id in tickets && tickets[id].consumedBy.Some?
      modifies this
      ensures Outcome(Contents(), reply) == Reuse(old(Contents()), id, k, request, instance, now)
    {
      var t := tickets[id];
      if t.consumedBy.value != instance {
        return Err(TicketReplayed);
      }
      var r := BoundSeat(Contents(), t);
      if r.None? || !SeatFits(Contents(), t, r.value) {
        return Err(TicketInvalid);
      }
      if k in ops {
        return Replayed(ops[k], request, NoOp);
      }
      var response := Admitted(t.user, AdmissionOf(t), seats[r.value].index, true);
      InsertNoOp(k, request, response, now);
      return Ok(response);
    }

    method PresentTicket(id: TicketId, k: OpKey, request: Request, instance: string, now: int) returns (reply: Result<Response, ApiError>)
      requires id in tickets && tickets[id].game in sessions
      modifies this
      ensures Outcome(Contents(), reply) == Present(old(Contents()), id, k, request, instance, now)
    {
      var t := tickets[id];
      var r := BoundSeat(Contents(), t);
      var index: nat;
      if r.Some? {
        if !SeatFits(Contents(), t, r.value) {
          return Err(TicketInvalid);
        }
        index := seats[r.value].index;
      } else {
        if sessions[t.game].lifecycle != Open {
          return Err(TicketInvalid);
        }
        var vacant := First(sessions[t.game].capacity, Vacant(seats, t.game));
        if vacant.None? {
          return Err(SessionFull);
        }
        index := vacant.value;
        InsertSeat(t.reservation, Seat(t.game, t.player, t.user, index));
      }
      InsertTicket(t.(consumedBy := Some(instance)), id);
      var response := Admitted(t.user, AdmissionOf(t), index, false);
      InsertNoOp(k, request, response, if now > t.createdAt then now else t.createdAt);
      return Ok(response);
    }

    method MarkSessionStarted(g: GameId, room: RoomId, version: int, key: string, now: int) returns (reply: Result<Response, ApiError>)
      modifies this
      ensures Outcome(Contents(), reply) == Start(old(Contents()), g, room, version, key, now)
    {
      ghost var before := Contents();
      if g !in sessions {
        return Err(SessionNotFound);
      }
      var s, request := sessions[g], ForStart(g, room, version);
      var k := OpKey(s.creator, MarkStarted, key);
      if k in ops {
        return Replayed(ops[k], request, NoOp);
      }
      if s.room != room {
        return Err(RequestInvalid);
      }
      if s.lifecycle != Open {
        return Err(SessionNotOpen);
      }
      if version <= 0 || s.version != 0 {
        return Err(RequestInvalid);
      }
      var players := Participants(Contents(), g);
      if |players| < 2 || exists i :: 0 <= i < |players| && !Consumed(tickets, players[i]) {
        return Err(SessionNotReady);
      }
      var response := Committed(nextId);
      assert sessions == before.sessions[g := sessions[g]];
      UpdateSession(before.sessions, g, s.(lifecycle := Active, version := version, startedAt := Some(now)));
      InsertNoOp(k, request, response, now);
      return Ok(response);
    }

    /* ---------- The reconciler's own writes ---------- */

    method ReleaseExpiredAdmission(r: ReservationId, expiredBefore: int, key: string, now: int) returns (reply: Result<Response, ApiError>)
      modifies this
      ensures Outcome(Contents(), reply) == ReleaseExpired(old(Contents()), r, expiredBefore, key, now)
    {
      var before := Contents();
      if r !in reservations {
        return Ok(Done(false));
      }
      var row := reservations[r];
      var k := OpKey(row.user, ReleaseJoinIntent, key);
      if row.user !in accounts {
        return Err(AccountNotFound);
      }
      if row.game !in sessions {
        return Err(SessionNotFound);
      }
      if sessions[row.game].lifecycle != Open {
        return Ok(Done(false));
      }
      if k in ops {
        var stored := Replayed(ops[k], ForTicketExpiry(r), CommittedOp);
        return if stored.Err? then stored else Ok(Done(false));
      }
      if row.status != Reserved || !HasExpiredTicket(tickets, r, expiredBefore) || r in seats {
        return Ok(Done(false));
      }
      var failed := WithdrawReservation(k, ForTicketExpiry(r), r, now);
      if failed.Some? {
        Rollback(before);
        return Failed(before, failed.value).reply;
      }
      return Ok(Done(true));
    }

    method MarkRecoveryRequired(g: GameId, inactiveBefore: int, evidence: bool) returns (reply: Result<Response, ApiError>)
      modifies this
      ensures Outcome(Contents(), reply) == MarkRecovery(old(Contents()), g, inactiveBefore, evidence)
    {
      if g !in sessions || !Underway(sessions[g].lifecycle) {
        return Ok(Done(false));
      }
      if sessions[g].startedAt.None? {
        return Err(Incomplete);
      }
      if sessions[g].startedAt.value > inactiveBefore || g in proofs || evidence {
        return Ok(Done(false));
      }
      sessions := sessions[g := sessions[g].(lifecycle := RecoveryRequired)];
      return Ok(Done(true));
    }

    method MarkProofRecoveryRequired(g: GameId) returns (reply: Result<Response, ApiError>)
      modifies this
      ensures Outcome(Contents(), reply) == MarkProofRecovery(old(Contents()), g)
    {
      if g !in sessions || !Underway(sessions[g].lifecycle) || g !in proofs || HasSettlement(Contents(), g) {
        return Ok(Done(false));
      }
      sessions := sessions[g := sessions[g].(lifecycle := RecoveryRequired)];
      return Ok(Done(true));
    }
  }
}
