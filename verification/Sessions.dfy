/**
 * Sessions, seats, tickets and idempotent operations of the coin API, and what each transaction does
 * to them (game-sessions.service.ts, internal-session.service.ts, internal-settlement.service.ts,
 * economy.service.ts, reconciliation.service.ts). A transaction is one step from tables to tables; one
 * that throws leaves them as they were. Generated identifiers and ticket values are drawn from
 * `nextId`, so they are fresh; a request hash is represented by the request it digests.
 */
module Sessions {
  import opened Outcomes
  import opened CoinBank

  type RoomId = nat
  type PlayerId = nat
  type TicketId = nat
  type Token = nat
  type OperationId = nat

  datatype Lifecycle = Open | Cancelling | Cancelled | Active | RecoveryRequired | Settling | Settled

  datatype Session = Session(
    room: RoomId, creator: UserId, lifecycle: Lifecycle, capacity: nat, entry: nat,
    version: nat, createdAt: int, startedAt: Option<int>)

  datatype Seat = Seat(game: GameId, player: PlayerId, user: UserId, index: nat)

  datatype Ticket = Ticket(
    token: Token, user: UserId, game: GameId, room: RoomId, reservation: ReservationId, player: PlayerId,
    createdAt: int, expiresAt: int, consumedBy: Option<string>)

  datatype Ending = Completed | Aborted

  datatype Settlement = Settlement(game: GameId, kind: Ending, op: OpKey, version: Option<nat>, winner: Option<UserId>)

  datatype Score = Won | Lost | ScoreCancelled | ScoreAborted

  datatype HistoryRow = HistoryRow(game: GameId, user: UserId, player: PlayerId, score: Score, delta: int)

  datatype TerminalProof = TerminalProof(room: RoomId, version: nat, checksum: string, winner: PlayerId)

  datatype Action = LeaveRoom | CancelRoom

  /** What an idempotency key was first used for. */
  datatype Request =
    | ForInitialGrant
    | ForRescue
    | ForDefinition(definition: string)
    | ForGame(game: GameId)
    | ForFinalization(game: GameId, binding: Binding, action: Action)
    | ForWaitingExpiry(game: GameId)
    | ForTicketExpiry(reservation: ReservationId)
    | ForTicket(token: Token, game: GameId, room: RoomId, instance: string)
    | ForStart(game: GameId, room: RoomId, started: int)
    | ForSettlement(game: GameId, room: RoomId, version: nat, checksum: string)
    | ForAbort(game: GameId, reason: string)

  datatype Binding = Binding(room: RoomId, player: PlayerId, reservation: ReservationId)

  datatype Response =
    | Provisioned(available: int, reserved: int)
    | Rescued(available: int, reserved: int, granted: Option<OperationId>)
    | Admission(game: GameId, room: RoomId, reservation: ReservationId, player: PlayerId)
    | Ticketed(admission: Response, token: Token, expiresAt: int)
    | Committed(operation: OperationId)
    | Admitted(user: UserId, admission: Response, index: nat, reused: bool)
    | Done(changed: bool)

  datatype OpStatus = PendingOp | CommittedOp | NoOp

  datatype Operation = Operation(id: OperationId, request: Request, status: OpStatus, response: Option<Response>, at: int)

  datatype Db = Db(
    bank: Bank,
    ops: map<OpKey, Operation>,
    sessions: map<GameId, Session>,
    seats: map<ReservationId, Seat>,
    tickets: map<TicketId, Ticket>,
    settlements: seq<Settlement>,
    history: seq<HistoryRow>,
    coinsWon: map<UserId, int>,
    materialized: set<GameId>,
    proofs: map<GameId, TerminalProof>,
    nextId: nat)

  const EMPTY := Db(Bank(map[], [], map[]), map[], map[], map[], map[], [], [], map[], {}, map[], 0)

  datatype ApiError =
    | RequestInvalid
    | IdempotencyConflict
    | AccountNotFound
    | SessionNotFound
    | SessionNotOpen
    | SessionCancelling
    | SessionForbidden
    | SessionNotReady
    | SessionFull
    | AlreadySeated
    | CreatorCannotLeave
    | ReservationNotFound
    | InsufficientCoins
    | TicketInvalid
    | TicketReplayed
    | TicketExpired
    | SettlementAlreadyCommitted
    | TerminalProofInvalid
    | AccountCoinOverflow
    | Incomplete
    | CoinFailure(failure: Failure)

  datatype Outcome = Outcome(db: Db, reply: Result<Response, ApiError>)

  datatype DefinitionRow = DefinitionRow(capacity: nat, entry: nat)

  /** A row of game_definitions, within that table's CHECK constraint. */
  type Definition = d: DefinitionRow | 2 <= d.capacity <= 4 witness DefinitionRow(2, 0)

  datatype Config = Config(initialGrant: nat, rescueBalance: nat, rescueWindow: nat, ticketTtl: int)

  ghost predicate ValidConfig(cfg: Config) {
    cfg.initialGrant >= cfg.rescueBalance > 0 && cfg.rescueWindow > 0
  }

  /* ---------- Queries ---------- */

  /** The least identifier below `n` that satisfies `p`. */
  function First(n: nat, p: nat -> bool): (i: Option<nat>)
    ensures i.Some? ==> i.value < n && p(i.value) && forall j :: 0 <= j < i.value ==> !p(j)
    ensures i.None? ==> forall j :: 0 <= j < n ==> !p(j)
  {
    if n == 0 then None
    else
      var earlier := First(n - 1, p);
      if earlier.Some? then earlier else if p(n - 1) then Some(n - 1) else None
  }

  /** `r` put among rows ordered by user. */
  function PlaceByUser(reservations: map<ReservationId, Reservation>, rows: seq<ReservationId>, r: ReservationId): seq<ReservationId>
    requires r in reservations && forall i :: 0 <= i < |rows| ==> rows[i] in reservations
  {
    if rows == [] || reservations[rows[|rows| - 1]].user <= reservations[r].user then rows + [r]
    else PlaceByUser(reservations, rows[..|rows| - 1], r) + [rows[|rows| - 1]]
  }

  lemma {:induction false} PlaceByUserElements(
    reservations: map<ReservationId, Reservation>, rows: seq<ReservationId>, r: ReservationId, s: ReservationId)
    requires r in reservations && forall i :: 0 <= i < |rows| ==> rows[i] in reservations
    ensures s in PlaceByUser(reservations, rows, r) <==> s == r || s in rows
    ensures |PlaceByUser(reservations, rows, r)| == |rows| + 1
    decreases |rows|
  {
    if rows == [] || reservations[rows[|rows| - 1]].user <= reservations[r].user {
    } else {
      var init, last := rows[..|rows| - 1], rows[|rows| - 1];
      assert rows == init + [last];
      PlaceByUserElements(reservations, init, r, s);
    }
  }

  /** The rows below `n` that satisfy `keep`, ordered by user. */
  function Select(reservations: map<ReservationId, Reservation>, keep: nat -> bool, n: nat): (rows: seq<ReservationId>)
    ensures forall r :: r in rows <==> r < n && r in reservations && keep(r)
    ensures forall i :: 0 <= i < |rows| ==> rows[i] in reservations
  {
    if n == 0 then []
    else
      var rest := Select(reservations, keep, n - 1);
      if n - 1 in reservations && keep(n - 1) then
        PlacedByUser(reservations, rest, n - 1);
        PlaceByUser(reservations, rest, n - 1)
      else rest
  }

  lemma PlacedByUser(reservations: map<ReservationId, Reservation>, rows: seq<ReservationId>, r: ReservationId)
    requires r in reservations && forall i :: 0 <= i < |rows| ==> rows[i] in reservations
    ensures forall s :: s in PlaceByUser(reservations, rows, r) <==> s == r || s in rows
    ensures forall i :: 0 <= i < |PlaceByUser(reservations, rows, r)| ==> PlaceByUser(reservations, rows, r)[i] in reservations
  {
    var placed := PlaceByUser(reservations, rows, r);
    forall s ensures s in placed <==> s == r || s in rows {
      PlaceByUserElements(reservations, rows, r, s);
    }
    forall i | 0 <= i < |placed| ensures placed[i] in reservations {
      assert placed[i] in placed;
    }
  }

  predicate StillReserved(reservations: map<ReservationId, Reservation>, g: GameId, r: ReservationId) {
    r in reservations && reservations[r].game == g && reservations[r].status == Reserved
  }

  predicate SeatedIn(seats: map<ReservationId, Seat>, g: GameId, r: ReservationId) {
    r in seats && seats[r].game == g
  }

  function IsReserved(reservations: map<ReservationId, Reservation>, g: GameId): nat -> bool {
    (r: nat) => StillReserved(reservations, g, r)
  }

  function IsSeated(seats: map<ReservationId, Seat>, g: GameId): nat -> bool {
    (r: nat) => SeatedIn(seats, g, r)
  }

  function IsParticipant(reservations: map<ReservationId, Reservation>, seats: map<ReservationId, Seat>, g: GameId): nat -> bool {
    (r: nat) => SeatedIn(seats, g, r) && StillReserved(reservations, g, r)
  }

  function ReservedIn(db: Db, g: GameId): seq<ReservationId> {
    Select(db.bank.reservations, IsReserved(db.bank.reservations, g), db.nextId)
  }

  function Participants(db: Db, g: GameId): (rows: seq<ReservationId>)
    ensures forall i :: 0 <= i < |rows| ==> rows[i] in db.seats && rows[i] in db.bank.reservations
  {
    Select(db.bank.reservations, IsParticipant(db.bank.reservations, db.seats, g), db.nextId)
  }

  function Seated(db: Db, g: GameId): (rows: seq<ReservationId>)
    ensures forall i :: 0 <= i < |rows| ==> rows[i] in db.seats
  {
    Select(db.bank.reservations, IsSeated(db.seats, g), db.nextId)
  }

  function SeatOfUser(seats: map<ReservationId, Seat>, g: GameId, u: UserId): nat -> bool {
    (r: nat) => SeatedIn(seats, g, r) && seats[r].user == u
  }

  function ReservedByUser(reservations: map<ReservationId, Reservation>, g: GameId, u: UserId): nat -> bool {
    (r: nat) => StillReserved(reservations, g, r) && reservations[r].user == u
  }

  function Vacant(seats: map<ReservationId, Seat>, g: GameId): nat -> bool {
    (i: nat) => forall r :: r in seats ==> !(seats[r].game == g && seats[r].index == i)
  }

  function HasToken(tickets: map<TicketId, Ticket>, token: Token): nat -> bool {
    (t: nat) => t in tickets && tickets[t].token == token
  }

  predicate Unused(tickets: map<TicketId, Ticket>, t: TicketId, r: ReservationId) {
    t in tickets && tickets[t].reservation == r && tickets[t].consumedBy.None?
  }

  /** The newest unconsumed ticket of a reservation. */
  function LatestUnused(tickets: map<TicketId, Ticket>, r: ReservationId, n: nat): (t: Option<TicketId>)
    ensures t.Some? ==> t.value < n && Unused(tickets, t.value, r)
    ensures t.None? ==> forall s :: 0 <= s < n ==> !Unused(tickets, s, r)
  {
    if n == 0 then None
    else
      var older := LatestUnused(tickets, r, n - 1);
      if !Unused(tickets, n - 1, r) then older
      else if older.Some? && tickets[older.value].createdAt > tickets[n - 1].createdAt then older
      else Some(n - 1)
  }

  predicate Consumed(tickets: map<TicketId, Ticket>, r: ReservationId) {
    exists t :: t in tickets && tickets[t].reservation == r && tickets[t].consumedBy.Some?
  }

  function Bound(tickets: map<TicketId, Ticket>, g: GameId, b: Binding): nat -> bool {
    (t: nat) => t in tickets && tickets[t].game == g && tickets[t].room == b.room
         && tickets[t].player == b.player && tickets[t].reservation == b.reservation
  }

  /** The one user behind a room's player, read off the tickets that carry the binding. */
  function ActorOf(db: Db, g: GameId, b: Binding): Option<UserId> {
    var t := First(db.nextId, Bound(db.tickets, g, b));
    if t.None? || t.value !in db.tickets then None
    else if exists s :: s in db.tickets && Bound(db.tickets, g, b)(s) && db.tickets[s].user != db.tickets[t.value].user then None
    else Some(db.tickets[t.value].user)
  }

  predicate SeatMatches(db: Db, g: GameId, u: UserId, b: Binding) {
    b.reservation in db.seats && db.seats[b.reservation] == Seat(g, b.player, u, db.seats[b.reservation].index)
  }

  predicate HasSettlement(db: Db, g: GameId) {
    exists i :: 0 <= i < |db.settlements| && db.settlements[i].game == g
  }

  predicate AccountsPresent(db: Db, rows: seq<ReservationId>)
    requires forall i :: 0 <= i < |rows| ==> rows[i] in db.bank.reservations
  {
    forall i :: 0 <= i < |rows| ==> db.bank.reservations[rows[i]].user in db.bank.accounts
  }

  /** A stored operation answers a repeated request, or refuses a different one. */
  function Replayed(row: Operation, request: Request, status: OpStatus): Result<Response, ApiError> {
    if row.request != request then Err(IdempotencyConflict)
    else if row.status != status || row.response.None? then Err(Incomplete)
    else Ok(row.response.value)
  }

  /* ---------- Small effects ---------- */

  function Refuse(db: Db, e: ApiError): Outcome {
    Outcome(db, Err(e))
  }

  function Answer(db: Db, r: Response): Outcome {
    Outcome(db, Ok(r))
  }

  function Failed(db: Db, f: Failure): Outcome {
    Refuse(db, if f == Insufficient then InsufficientCoins else CoinFailure(f))
  }

  /** The finished operation row, whose identifier is the next fresh one. */
  function Record(db: Db, k: OpKey, request: Request, status: OpStatus, response: Response, now: int): Db {
    db.(ops := db.ops[k := Operation(db.nextId, request, status, Some(response), now)], nextId := db.nextId + 1)
  }

  function RecordCommitted(db: Db, k: OpKey, request: Request, now: int): Db {
    Record(db, k, request, CommittedOp, Committed(db.nextId), now)
  }

  function WithSession(db: Db, g: GameId, s: Session): Db {
    db.(sessions := db.sessions[g := s])
  }

  function Expired(t: Ticket, now: int): Ticket {
    t.(expiresAt := if t.createdAt + 1 > now then t.createdAt + 1 else now)
  }

  function ExpireTickets(tickets: map<TicketId, Ticket>, stale: Ticket -> bool, now: int): map<TicketId, Ticket> {
    map t | t in tickets :: if stale(tickets[t]) && tickets[t].consumedBy.None? then Expired(tickets[t], now) else tickets[t]
  }

  function OfReservation(r: ReservationId): Ticket -> bool {
    (t: Ticket) => t.reservation == r
  }

  function OfGame(g: GameId): Ticket -> bool {
    (t: Ticket) => t.game == g
  }

  /* ---------- Grants ---------- */

  const INITIAL_GRANT_KEY := "initial-grant:v1"

  function AccountView(b: Bank, u: UserId): Response {
    Provisioned(Column(b, Available(u)), Column(b, ReservedFor(u)))
  }

  function Opened(b: Bank, u: UserId): Bank {
    if u in b.accounts then b else b.(accounts := b.accounts[u := NEW_ACCOUNT])
  }

  function ProvisionUser(cfg: Config, db: Db, u: UserId, now: int): Outcome {
    var k := OpKey(u, InitialGrant, INITIAL_GRANT_KEY);
    var ready := db.(bank := Opened(db.bank, u));
    if k in db.ops then Answer(ready, AccountView(ready.bank, u))
    else
      match Grant(ready.bank, k, u, cfg.initialGrant, now, false)
      case Err(f) => Failed(db, f)
      case Ok(bank) => Answer(RecordCommitted(db.(bank := bank), k, ForInitialGrant, now), AccountView(bank, u))
  }

  predicate WindowOpen(cfg: Config, a: Account, now: int) {
    a.lastRescue.None? || a.lastRescue.value <= now - cfg.rescueWindow
  }

  function Rescue(cfg: Config, db: Db, u: UserId, key: string, now: int): Outcome {
    var k := OpKey(u, RescueGrant, key);
    if u !in db.bank.accounts then Refuse(db, AccountNotFound)
    else if k in db.ops then
      if db.ops[k].request != ForRescue then Refuse(db, IdempotencyConflict)
      else if db.ops[k].status == PendingOp || db.ops[k].response.None? then Refuse(db, Incomplete)
      else Answer(db, db.ops[k].response.value)
    else
      var a := db.bank.accounts[u];
      if a.available + a.reserved >= cfg.rescueBalance || !WindowOpen(cfg, a, now) then
        var response := Rescued(a.available, a.reserved, None);
        Answer(Record(db, k, ForRescue, NoOp, response, now), response)
      else
        RescueGranted(cfg, db, k, u, now)
  }

  function RescueGranted(cfg: Config, db: Db, k: OpKey, u: UserId, now: int): Outcome
    requires u in db.bank.accounts && Wealth(db.bank, u) < cfg.rescueBalance
  {
    match Grant(db.bank, k, u, cfg.rescueBalance - Wealth(db.bank, u), now, true)
    case Err(f) => Failed(db, f)
    case Ok(bank) =>
      var response := Rescued(Column(bank, Available(u)), Column(bank, ReservedFor(u)), Some(db.nextId));
      Answer(Record(db.(bank := bank), k, ForRescue, CommittedOp, response, now), response)
  }

  /* ---------- Admission ---------- */

  function NewTicket(cfg: Config, a: Response, token: Token, u: UserId, now: int): Ticket
    requires a.Admission?
  {
    Ticket(token, u, a.game, a.room, a.reservation, a.player, now, now + cfg.ticketTtl, None)
  }

  /** Reserve the entry, take the seat, issue the first ticket and record the operation. */
  function Admit(cfg: Config, db: Db, k: OpKey, request: Request, a: Response, index: nat, amount: nat, now: int): Result<Db, Failure>
    requires a.Admission? && k.actor in db.bank.accounts
  {
    match Hold(db.bank, k, k.actor, a.reservation, a.game, amount)
    case Err(f) => Err(f)
    case Ok(bank) =>
      var seated := db.(
        bank := bank,
        seats := db.seats[a.reservation := Seat(a.game, a.player, k.actor, index)],
        tickets := db.tickets[db.nextId := NewTicket(cfg, a, db.nextId + 1, k.actor, now)],
        nextId := db.nextId + 2);
      Ok(Record(seated, k, request, CommittedOp, a, now))
  }

  function Create(cfg: Config, db: Db, u: UserId, definitionId: string, definition: Option<Definition>, key: string, now: int): Outcome {
    var k := OpKey(u, CreateSession, key);
    if u !in db.bank.accounts then Refuse(db, AccountNotFound)
    else if k in db.ops then ReplayAdmission(cfg, db, Replayed(db.ops[k], ForDefinition(definitionId), CommittedOp), now)
    else if definition.None? then Refuse(db, RequestInvalid)
    else
      var a := CreatedAdmission(db);
      match Admit(cfg, WithCreated(db, u, definition.value, now), k, ForDefinition(definitionId), a, 0, definition.value.entry, now)
      case Err(f) => Failed(db, f)
      case Ok(after) => Answer(after, Ticketed(a, db.nextId + 5, now + cfg.ticketTtl))
  }

  function CreatedAdmission(db: Db): Response {
    Admission(db.nextId, db.nextId + 1, db.nextId + 2, db.nextId + 3)
  }

  function WithCreated(db: Db, u: UserId, d: Definition, now: int): Db {
    WithSession(db, db.nextId, Session(db.nextId + 1, u, Open, d.capacity, d.entry, 0, now, None)).(nextId := db.nextId + 4)
  }

  function Join(cfg: Config, db: Db, u: UserId, g: GameId, key: string, now: int): Outcome {
    var k := OpKey(u, JoinIntent, key);
    if u !in db.bank.accounts then Refuse(db, AccountNotFound)
    else if g !in db.sessions then Refuse(db, SessionNotFound)
    else if k in db.ops then ReplayAdmission(cfg, db, Replayed(db.ops[k], ForGame(g), CommittedOp), now)
    else if db.sessions[g].lifecycle != Open then Refuse(db, NotAccepting(db.sessions[g].lifecycle))
    else if First(db.nextId, SeatOfUser(db.seats, g, u)).Some? then Refuse(db, AlreadySeated)
    else
      match First(db.sessions[g].capacity, Vacant(db.seats, g))
      case None => Refuse(db, SessionFull)
      case Some(index) => JoinAt(cfg, db, k, g, index, now)
  }

  function JoinAt(cfg: Config, db: Db, k: OpKey, g: GameId, index: nat, now: int): Outcome
    requires k.actor in db.bank.accounts && g in db.sessions
  {
    var a := Admission(g, db.sessions[g].room, db.nextId, db.nextId + 1);
    match Admit(cfg, db.(nextId := db.nextId + 2), k, ForGame(g), a, index, db.sessions[g].entry, now)
    case Err(f) => Failed(db, f)
    case Ok(after) => Answer(after, Ticketed(a, db.nextId + 3, now + cfg.ticketTtl))
  }

  function NotAccepting(l: Lifecycle): ApiError {
    if l == Cancelling then SessionCancelling else SessionNotOpen
  }

  predicate TakesTickets(l: Lifecycle) {
    l == Open || l == Active
  }

  function ReplayAdmission(cfg: Config, db: Db, stored: Result<Response, ApiError>, now: int): Outcome {
    match stored
    case Err(e) => Refuse(db, e)
    case Ok(a) => if a.Admission? then Reissue(cfg, db, a, now) else Refuse(db, Incomplete)
  }

  /** A fresh ticket for an admission: the unconsumed one gets a new value, else a new row is added. */
  function Reissue(cfg: Config, db: Db, a: Response, now: int): Outcome
    requires a.Admission?
  {
    if a.game !in db.sessions then Refuse(db, SessionNotFound)
    else if !TakesTickets(db.sessions[a.game].lifecycle) then Refuse(db, NotAccepting(db.sessions[a.game].lifecycle))
    else if !StillReserved(db.bank.reservations, a.game, a.reservation) then Refuse(db, ReservationNotFound)
    else
      match LatestUnused(db.tickets, a.reservation, db.nextId)
      case Some(t) => Answer(Rotate(cfg, db, t, now), Ticketed(a, db.nextId, now + cfg.ticketTtl))
      case None =>
        var u := db.bank.reservations[a.reservation].user;
        Answer(
          db.(tickets := db.tickets[db.nextId := NewTicket(cfg, a, db.nextId + 1, u, now)], nextId := db.nextId + 2),
          Ticketed(a, db.nextId + 1, now + cfg.ticketTtl))
  }

  function Rotate(cfg: Config, db: Db, t: TicketId, now: int): Db
    requires t in db.tickets
  {
    db.(tickets := db.tickets[t := db.tickets[t].(token := db.nextId, expiresAt := now + cfg.ticketTtl)], nextId := db.nextId + 1)
  }

  function Reconnect(cfg: Config, db: Db, u: UserId, g: GameId, key: string, now: int): Outcome {
    var k := OpKey(u, ReconnectTicket, key);
    if u !in db.bank.accounts then Refuse(db, AccountNotFound)
    else if g !in db.sessions then Refuse(db, SessionNotFound)
    else if !TakesTickets(db.sessions[g].lifecycle) then Refuse(db, NotAccepting(db.sessions[g].lifecycle))
    else if k in db.ops then ReplayAdmission(cfg, db, Replayed(db.ops[k], ForGame(g), NoOp), now)
    else
      match First(db.nextId, SeatOfUser(db.seats, g, u))
      case None => Refuse(db, ReservationNotFound)
      case Some(r) =>
        if r !in db.seats || !StillReserved(db.bank.reservations, g, r) then Refuse(db, ReservationNotFound)
        else
          var a := Admission(g, db.sessions[g].room, r, db.seats[r].player);
          var issued := Reissue(cfg, db, a, now);
          if issued.reply.Err? then issued
          else Outcome(Record(issued.db, k, ForGame(g), NoOp, a, now), issued.reply)
  }

  /* ---------- Leaving and cancelling ---------- */

  function Leave(db: Db, u: UserId, g: GameId, key: string, request: Request, now: int, expected: Option<Binding>): Outcome {
    var k := OpKey(u, ReleaseJoinIntent, key);
    if u !in db.bank.accounts then Refuse(db, AccountNotFound)
    else if g !in db.sessions then Refuse(db, SessionNotFound)
    else if k in db.ops then Outcome(db, Replayed(db.ops[k], request, CommittedOp))
    else if expected.None? && g in db.materialized then Refuse(db, SessionNotOpen)
    else if db.sessions[g].lifecycle != Open then Refuse(db, SessionNotOpen)
    else if db.sessions[g].creator == u then Refuse(db, CreatorCannotLeave)
    else if expected.Some? && (db.sessions[g].room != expected.value.room || !SeatMatches(db, g, u, expected.value)) then
      Refuse(db, SessionForbidden)
    else
      match First(db.nextId, ReservedByUser(db.bank.reservations, g, u))
      case None => Refuse(db, ReservationNotFound)
      case Some(r) =>
        if expected.Some? && r != expected.value.reservation then Refuse(db, SessionForbidden)
        else
          match Withdraw(db, k, request, r, now)
          case Err(f) => Failed(db, f)
          case Ok(after) => Answer(after, Committed(db.nextId))
  }

  /** Release one reservation, give up its seat and expire its unused ticket. */
  function Withdraw(db: Db, k: OpKey, request: Request, r: ReservationId, now: int): Result<Db, Failure>
    requires r in db.bank.reservations
  {
    match Free(db.bank, k, r)
    case Err(f) => Err(f)
    case Ok(bank) =>
      Ok(RecordCommitted(
        db.(bank := bank, seats := db.seats - {r}, tickets := ExpireTickets(db.tickets, OfReservation(r), now)),
        k, request, now))
  }

  function Cancel(db: Db, u: UserId, g: GameId, key: string, request: Request, now: int, expected: Option<Binding>): Outcome {
    var k := OpKey(u, CancelSession, key);
    if g !in db.sessions then Refuse(db, SessionNotFound)
    else if db.sessions[g].creator != u then Refuse(db, SessionForbidden)
    else if k in db.ops then Outcome(db, Replayed(db.ops[k], request, CommittedOp))
    else if !AccountsPresent(db, ReservedIn(db, g)) then Refuse(db, Incomplete)
    else if db.sessions[g].lifecycle != Open then Refuse(db, SessionNotOpen)
    else if expected.None? && g in db.materialized then Refuse(db, SessionNotOpen)
    else if expected.Some? && (
        || db.sessions[g].room != expected.value.room
        || !SeatMatches(db, g, u, expected.value)
        || db.seats[expected.value.reservation].index != 0) then
      Refuse(db, SessionForbidden)
    else
      match Disband(db, k, request, g, now)
      case Err(f) => Failed(db, f)
      case Ok(after) => Answer(after, Committed(db.nextId))
  }

  /** A cancelled score for every listed seat whose user has no row of this session yet. */
  function CancelledRows(history: seq<HistoryRow>, seats: map<ReservationId, Seat>, rows: seq<ReservationId>): seq<HistoryRow>
    requires forall i :: 0 <= i < |rows| ==> rows[i] in seats
  {
    if rows == [] then history
    else
      var before := CancelledRows(history, seats, rows[..|rows| - 1]);
      var seat := seats[rows[|rows| - 1]];
      if exists i :: 0 <= i < |before| && before[i].game == seat.game && before[i].user == seat.user then before
      else before + [HistoryRow(seat.game, seat.user, seat.player, ScoreCancelled, 0)]
  }

  function WithoutGame(seats: map<ReservationId, Seat>, g: GameId): map<ReservationId, Seat> {
    map r | r in seats && seats[r].game != g :: seats[r]
  }

  /** Release every reservation of the session, drop its seats and close it. */
  function Disband(db: Db, k: OpKey, request: Request, g: GameId, now: int): Result<Db, Failure>
    requires g in db.sessions
  {
    match CloseAll(db.bank, k, ReservedIn(db, g), Released)
    case Err(f) => Err(f)
    case Ok(bank) =>
      Ok(RecordCommitted(
        WithSession(db, g, db.sessions[g].(lifecycle := Cancelled)).(
          bank := bank,
          history := CancelledRows(db.history, db.seats, Seated(db, g)),
          seats := WithoutGame(db.seats, g),
          tickets := ExpireTickets(db.tickets, OfGame(g), now)),
        k, request, now))
  }

  /** A leave or cancel committed by the room, carried out here under the key the room chose. */
  function Finalize(db: Db, g: GameId, b: Binding, action: Action, key: string, now: int): Outcome {
    match ActorOf(db, g, b)
    case None => Refuse(db, SessionForbidden)
    case Some(u) =>
      if action == LeaveRoom then Leave(db, u, g, key, ForFinalization(g, b, action), now, Some(b))
      else Cancel(db, u, g, key, ForFinalization(g, b, action), now, Some(b))
  }

  /** The reconciler's cancellation of a session that waited too long; its key names the session. */
  function CancelExpired(db: Db, g: GameId, expiresBefore: int, key: string, now: int): Outcome {
    if g !in db.sessions || db.sessions[g].createdAt > expiresBefore then Answer(db, Done(false))
    else
      var k := OpKey(db.sessions[g].creator, CancelSession, key);
      if k in db.ops then
        match Replayed(db.ops[k], ForWaitingExpiry(g), CommittedOp)
        case Err(e) => Refuse(db, e)
        case Ok(_) => Answer(db, Done(false))
      else if !AccountsPresent(db, ReservedIn(db, g)) then Refuse(db, Incomplete)
      else if db.sessions[g].lifecycle != Open then Answer(db, Done(false))
      else
        match Disband(db, k, ForWaitingExpiry(g), g, now)
        case Err(f) => Failed(db, f)
        case Ok(after) => Answer(after, Done(true))
  }

  predicate HasExpiredTicket(tickets: map<TicketId, Ticket>, r: ReservationId, expiredBefore: int) {
    exists t :: t in tickets && tickets[t].reservation == r && tickets[t].consumedBy.None? && tickets[t].expiresAt <= expiredBefore
  }

  /** The reconciler's release of a reservation that holds no seat and whose ticket ran out. */
  function ReleaseExpired(db: Db, r: ReservationId, expiredBefore: int, key: string, now: int): Outcome {
    if r !in db.bank.reservations then Answer(db, Done(false))
    else
      var row := db.bank.reservations[r];
      var k := OpKey(row.user, ReleaseJoinIntent, key);
      if row.user !in db.bank.accounts then Refuse(db, AccountNotFound)
      else if row.game !in db.sessions then Refuse(db, SessionNotFound)
      else if db.sessions[row.game].lifecycle != Open then Answer(db, Done(false))
      else if k in db.ops then
        match Replayed(db.ops[k], ForTicketExpiry(r), CommittedOp)
        case Err(e) => Refuse(db, e)
        case Ok(_) => Answer(db, Done(false))
      else if row.status != Reserved || !HasExpiredTicket(db.tickets, r, expiredBefore) || r in db.seats then
        Answer(db, Done(false))
      else
        match Withdraw(db, k, ForTicketExpiry(r), r, now)
        case Err(f) => Failed(db, f)
        case Ok(after) => Answer(after, Done(true))
  }

  /* ---------- Tickets and start ---------- */

  function AdmissionOf(t: Ticket): Response {
    Admission(t.game, t.room, t.reservation, t.player)
  }

  function Consume(db: Db, token: Token, g: GameId, room: RoomId, instance: string, key: string, now: int): Outcome {
    var request := ForTicket(token, g, room, instance);
    var found := First(db.nextId, HasToken(db.tickets, token));
    if g !in db.sessions then Refuse(db, SessionNotFound)
    else if found.None? || found.value !in db.tickets then Refuse(db, TicketInvalid)
    else
      var id, s := found.value, db.sessions[g];
      var t := db.tickets[id];
      var k := OpKey(t.user, ConsumeTicket, key);
      if t.game != g || t.room != room || s.room != room then Refuse(db, TicketInvalid)
      else if !TakesTickets(s.lifecycle) then Refuse(db, SessionNotOpen)
      else if !ReservedByUser(db.bank.reservations, g, t.user)(t.reservation) then Refuse(db, ReservationNotFound)
      else Honour(db, id, k, request, instance, now)
  }

  /** A ticket whose binding and reservation hold. */
  function Honour(db: Db, id: TicketId, k: OpKey, request: Request, instance: string, now: int): Outcome
    requires id in db.tickets && db.tickets[id].game in db.sessions
  {
    var t := db.tickets[id];
    if k in db.ops && Replayed(db.ops[k], request, NoOp).Err? then Outcome(db, Replayed(db.ops[k], request, NoOp))
    else if t.consumedBy.Some? then Reuse(db, id, k, request, instance, now)
    else if now >= t.expiresAt then Refuse(db, TicketExpired)
    else if k in db.ops then Refuse(db, Incomplete)
    else Present(db, id, k, request, instance, now)
  }

  /** The seat that belongs to a ticket's user in its session. */
  function BoundSeat(db: Db, t: Ticket): Option<ReservationId> {
    First(db.nextId, SeatOfUser(db.seats, t.game, t.user))
  }

  predicate SeatFits(db: Db, t: Ticket, r: ReservationId) {
    r in db.seats && r == t.reservation && db.seats[r].player == t.player
  }

  /** A ticket already consumed: only by the same room instance, and only with its seat. */
  function Reuse(db: Db, id: TicketId, k: OpKey, request: Request, instance: string, now: int): Outcome
    requires id in db.tickets && db.tickets[id].consumedBy.Some?
  {
    var t := db.tickets[id];
    if t.consumedBy.value != instance then Refuse(db, TicketReplayed)
    else
      match BoundSeat(db, t)
      case None => Refuse(db, TicketInvalid)
      case Some(r) =>
        if !SeatFits(db, t, r) then Refuse(db, TicketInvalid)
        else if k in db.ops then Outcome(db, Replayed(db.ops[k], request, NoOp))
        else
          var response := Admitted(t.user, AdmissionOf(t), db.seats[r].index, true);
          Answer(Record(db, k, request, NoOp, response, now), response)
  }

  /** The first presentation of a ticket: bind it to the room instance, seating the user if need be. */
  function Present(db: Db, id: TicketId, k: OpKey, request: Request, instance: string, now: int): Outcome
    requires id in db.tickets && db.tickets[id].game in db.sessions
  {
    var t := db.tickets[id];
    match BoundSeat(db, t)
    case Some(r) =>
      if !SeatFits(db, t, r) then Refuse(db, TicketInvalid)
      else Bind(db, id, k, request, instance, db.seats[r].index, now)
    case None => PresentUnseated(db, id, k, request, instance, now)
  }

  /** A ticket whose user has no seat yet: the lowest free one of an open session. */
  function PresentUnseated(db: Db, id: TicketId, k: OpKey, request: Request, instance: string, now: int): Outcome
    requires id in db.tickets && db.tickets[id].game in db.sessions
  {
    var t := db.tickets[id];
    if db.sessions[t.game].lifecycle != Open then Refuse(db, TicketInvalid)
    else
      match First(db.sessions[t.game].capacity, Vacant(db.seats, t.game))
      case None => Refuse(db, SessionFull)
      case Some(index) =>
        Bind(db.(seats := db.seats[t.reservation := Seat(t.game, t.player, t.user, index)]), id, k, request, instance, index, now)
  }

  function Bind(db: Db, id: TicketId, k: OpKey, request: Request, instance: string, index: nat, now: int): Outcome
    requires id in db.tickets
  {
    var t := db.tickets[id];
    var response := Admitted(t.user, AdmissionOf(t), index, false);
    Answer(
      Record(db.(tickets := db.tickets[id := t.(consumedBy := Some(instance))]), k, request, NoOp, response,
        if now > t.createdAt then now else t.createdAt),
      response)
  }

  function Start(db: Db, g: GameId, room: RoomId, version: int, key: string, now: int): Outcome {
    if g !in db.sessions then Refuse(db, SessionNotFound)
    else
      var s, request := db.sessions[g], ForStart(g, room, version);
      var k := OpKey(s.creator, MarkStarted, key);
      var players := Participants(db, g);
      if k in db.ops then Outcome(db, Replayed(db.ops[k], request, NoOp))
      else if s.room != room then Refuse(db, RequestInvalid)
      else if s.lifecycle != Open then Refuse(db, SessionNotOpen)
      else if version <= 0 || s.version != 0 then Refuse(db, RequestInvalid)
      else if |players| < 2 || exists i :: 0 <= i < |players| && !Consumed(db.tickets, players[i]) then Refuse(db, SessionNotReady)
      else
        Answer(
          Record(WithSession(db, g, s.(lifecycle := Active, version := version, startedAt := Some(now))),
            k, request, NoOp, Committed(db.nextId), now),
          Committed(db.nextId))
  }

  /* ---------- Settlement ---------- */

  function WinnerRow(db: Db, rows: seq<ReservationId>, winner: PlayerId): Option<ReservationId>
    requires forall i :: 0 <= i < |rows| ==> rows[i] in db.seats
  {
    if rows == [] then None
    else
      var earlier := WinnerRow(db, rows[..|rows| - 1], winner);
      if earlier.Some? then earlier
      else if db.seats[rows[|rows| - 1]].player == winner then Some(rows[|rows| - 1])
      else None
  }

  function Get(m: map<UserId, int>, u: UserId): int {
    if u in m then m[u] else 0
  }

  predicate PayoutFits(db: Db, winner: UserId, prize: int) {
    && prize <= MAX_ACCOUNT_COIN
    && winner in db.bank.accounts
    && db.bank.accounts[winner].available + prize <= MAX_ACCOUNT_COIN
    && Get(db.coinsWon, winner) + prize <= MAX_ACCOUNT_COIN
  }

  /** The row a participant gets: the winner takes the prize, and everyone has paid their own entry. */
  function ScoreRow(db: Db, r: ReservationId, winner: Option<UserId>, prize: int): HistoryRow
    requires r in db.seats && r in db.bank.reservations
  {
    var row, player := db.bank.reservations[r], db.seats[r].player;
    if winner.None? then HistoryRow(row.game, row.user, player, ScoreAborted, 0)
    else if row.user == winner.value then HistoryRow(row.game, row.user, player, Won, prize - row.amount)
    else HistoryRow(row.game, row.user, player, Lost, 0 - row.amount)
  }

  function ScoreRows(db: Db, rows: seq<ReservationId>, winner: Option<UserId>, prize: int): seq<HistoryRow>
    requires forall i :: 0 <= i < |rows| ==> rows[i] in db.seats && rows[i] in db.bank.reservations
  {
    if rows == [] then []
    else ScoreRows(db, rows[..|rows| - 1], winner, prize) + [ScoreRow(db, rows[|rows| - 1], winner, prize)]
  }

  /** Leaderboard totals: everyone gets a row, the winner's grows by the prize. */
  function Ranked(db: Db, rows: seq<ReservationId>, winner: UserId, prize: int): map<UserId, int>
    requires forall i :: 0 <= i < |rows| ==> rows[i] in db.bank.reservations
  {
    if rows == [] then db.coinsWon
    else
      var before := Ranked(db, rows[..|rows| - 1], winner, prize);
      var u := db.bank.reservations[rows[|rows| - 1]].user;
      before[u := Get(before, u) + if u == winner then prize else 0]
  }

  predicate SettlesFrom(l: Lifecycle) {
    l == Active || l == Settling || l == RecoveryRequired
  }

  predicate ProofHolds(db: Db, g: GameId, room: RoomId, version: nat, checksum: string)
    requires g in db.sessions
  {
    && g in db.proofs
    && db.proofs[g].room == room
    && db.proofs[g].version == version >= db.sessions[g].version
    && db.proofs[g].checksum == checksum
  }

  function Settle(db: Db, g: GameId, room: RoomId, version: nat, checksum: string, key: string, now: int): Outcome {
    if !AccountsPresent(db, Participants(db, g)) then Refuse(db, Incomplete)
    else if g !in db.sessions then Refuse(db, SessionNotFound)
    else
      var s, request := db.sessions[g], ForSettlement(g, room, version, checksum);
      var k := OpKey(s.creator, SettleSession, key);
      var rows := Participants(db, g);
      if k in db.ops then Outcome(db, Replayed(db.ops[k], request, CommittedOp))
      else if HasSettlement(db, g) then Refuse(db, SettlementAlreadyCommitted)
      else if s.room != room then Refuse(db, TerminalProofInvalid)
      else if !SettlesFrom(s.lifecycle) then Refuse(db, SessionNotOpen)
      else if !ProofHolds(db, g, room, version, checksum) then Refuse(db, TerminalProofInvalid)
      else if |rows| < 2 then Refuse(db, TerminalProofInvalid)
      else
        match WinnerRow(db, rows, db.proofs[g].winner)
        case None => Refuse(db, TerminalProofInvalid)
        case Some(r) =>
          if r !in db.bank.reservations || !PayoutFits(db, db.bank.reservations[r].user, Amounts(db.bank.reservations, rows)) then
            Refuse(db, AccountCoinOverflow)
          else
            match PayOut(db, k, request, g, version, db.bank.reservations[r].user, now)
            case Err(f) => Failed(db, f)
            case Ok(after) => Answer(after, Committed(db.nextId))
  }

  /** Capture every stake, pay the sum to the winner, and close the session as completed. */
  function PayOut(db: Db, k: OpKey, request: Request, g: GameId, version: nat, winner: UserId, now: int): Result<Db, Failure>
    requires g in db.sessions && winner in db.bank.accounts
  {
    var rows := Participants(db, g);
    var prize := Amounts(db.bank.reservations, rows);
    match CloseAll(db.bank, k, rows, Captured)
    case Err(f) => Err(f)
    case Ok(bank) =>
      if winner !in bank.accounts then Err(Unbacked)
      else
        Ok(RecordCommitted(
          WithSession(db, g, db.sessions[g].(lifecycle := Settled, version := version)).(
            bank := Enter(bank, k, Available(winner), prize),
            settlements := db.settlements + [Settlement(g, Completed, k, Some(version), Some(winner))],
            history := db.history + ScoreRows(db, rows, Some(winner), prize),
            coinsWon := Ranked(db, rows, winner, prize)),
          k, request, now))
  }

  function Abort(db: Db, g: GameId, reason: string, key: string, now: int): Outcome {
    if !AccountsPresent(db, Participants(db, g)) then Refuse(db, Incomplete)
    else if g !in db.sessions then Refuse(db, SessionNotFound)
    else
      var s, request := db.sessions[g], ForAbort(g, reason);
      var k := OpKey(s.creator, AbortSession, key);
      if k in db.ops then Outcome(db, Replayed(db.ops[k], request, CommittedOp))
      else if HasSettlement(db, g) then Refuse(db, SettlementAlreadyCommitted)
      else if s.lifecycle != Active && s.lifecycle != RecoveryRequired then Refuse(db, SessionNotOpen)
      else
        match GiveBack(db, k, request, g, now)
        case Err(f) => Failed(db, f)
        case Ok(after) => Answer(after, Committed(db.nextId))
  }

  /** Release every stake and close the session as aborted. */
  function GiveBack(db: Db, k: OpKey, request: Request, g: GameId, now: int): Result<Db, Failure>
    requires g in db.sessions
  {
    var rows := Participants(db, g);
    match CloseAll(db.bank, k, rows, Released)
    case Err(f) => Err(f)
    case Ok(bank) =>
      Ok(RecordCommitted(
        WithSession(db, g, db.sessions[g].(lifecycle := Settled)).(
          bank := bank,
          settlements := db.settlements + [Settlement(g, Aborted, k, None, None)],
          history := db.history + ScoreRows(db, rows, None, 0)),
        k, request, now))
  }

  /* ---------- Recovery marks ---------- */

  predicate Underway(l: Lifecycle) {
    l == Active || l == Settling
  }

  /** `evidence`: the room's lease or checkpoint has moved since `inactiveBefore`. */
  function MarkRecovery(db: Db, g: GameId, inactiveBefore: int, evidence: bool): Outcome {
    if g !in db.sessions || !Underway(db.sessions[g].lifecycle) then Answer(db, Done(false))
    else if db.sessions[g].startedAt.None? then Refuse(db, Incomplete)
    else if db.sessions[g].startedAt.value > inactiveBefore || g in db.proofs || evidence then Answer(db, Done(false))
    else Answer(WithSession(db, g, db.sessions[g].(lifecycle := RecoveryRequired)), Done(true))
  }

  function MarkProofRecovery(db: Db, g: GameId): Outcome {
    if g !in db.sessions || !Underway(db.sessions[g].lifecycle) || g !in db.proofs || HasSettlement(db, g) then
      Answer(db, Done(false))
    else Answer(WithSession(db, g, db.sessions[g].(lifecycle := RecoveryRequired)), Done(true))
  }

  /* ---------- Runs ---------- */

  /** One transaction, or one write of the game server that this side reads. */
  datatype Call =
    | CallProvision(user: UserId, now: int)
    | CallRescue(user: UserId, key: string, now: int)
    | CallCreate(user: UserId, definitionId: string, definition: Option<Definition>, key: string, now: int)
    | CallJoin(user: UserId, game: GameId, key: string, now: int)
    | CallReconnect(user: UserId, game: GameId, key: string, now: int)
    | CallLeave(user: UserId, game: GameId, key: string, now: int)
    | CallCancel(user: UserId, game: GameId, key: string, now: int)
    | CallFinalize(game: GameId, binding: Binding, action: Action, key: string, now: int)
    | CallCancelExpired(game: GameId, before: int, key: string, now: int)
    | CallReleaseExpired(reservation: ReservationId, before: int, key: string, now: int)
    | CallConsume(token: Token, game: GameId, room: RoomId, instance: string, key: string, now: int)
    | CallStart(game: GameId, room: RoomId, started: int, key: string, now: int)
    | CallSettle(game: GameId, room: RoomId, version: nat, checksum: string, key: string, now: int)
    | CallAbort(game: GameId, reason: string, key: string, now: int)
    | CallMarkRecovery(game: GameId, before: int, evidence: bool)
    | CallMarkProofRecovery(game: GameId)
    | RoomMaterialized(game: GameId)
    | RoomProved(game: GameId, proof: TerminalProof)

  function Step(cfg: Config, db: Db, call: Call): Outcome {
    match call
    case CallProvision(u, now) => ProvisionUser(cfg, db, u, now)
    case CallRescue(u, key, now) => Rescue(cfg, db, u, key, now)
    case CallCreate(u, id, d, key, now) => Create(cfg, db, u, id, d, key, now)
    case CallJoin(u, g, key, now) => Join(cfg, db, u, g, key, now)
    case CallReconnect(u, g, key, now) => Reconnect(cfg, db, u, g, key, now)
    case CallLeave(u, g, key, now) => Leave(db, u, g, key, ForGame(g), now, None)
    case CallCancel(u, g, key, now) => Cancel(db, u, g, key, ForGame(g), now, None)
    case CallFinalize(g, b, action, key, now) => Finalize(db, g, b, action, key, now)
    case CallCancelExpired(g, before, key, now) => CancelExpired(db, g, before, key, now)
    case CallReleaseExpired(r, before, key, now) => ReleaseExpired(db, r, before, key, now)
    case CallConsume(token, g, room, instance, key, now) => Consume(db, token, g, room, instance, key, now)
    case CallStart(g, room, version, key, now) => Start(db, g, room, version, key, now)
    case CallSettle(g, room, version, checksum, key, now) => Settle(db, g, room, version, checksum, key, now)
    case CallAbort(g, reason, key, now) => Abort(db, g, reason, key, now)
    case CallMarkRecovery(g, before, evidence) => MarkRecovery(db, g, before, evidence)
    case CallMarkProofRecovery(g) => MarkProofRecovery(db, g)
    case RoomMaterialized(g) => Answer(db.(materialized := db.materialized + {g}), Done(true))
    case RoomProved(g, proof) =>
      if g in db.proofs then Answer(db, Done(false)) else Answer(db.(proofs := db.proofs[g := proof]), Done(true))
  }

  /** A finalization among the calls of a run is the finalization transaction. */
  lemma StepFinalizes(cfg: Config, db: Db, g: GameId, b: Binding, action: Action, key: string, now: int)
    ensures Step(cfg, db, CallFinalize(g, b, action, key, now)) == Finalize(db, g, b, action, key, now)
  {
  }

  /** An abort among the calls of a run is the abort transaction. */
  lemma StepAborts(cfg: Config, db: Db, g: GameId, reason: string, key: string, now: int)
    ensures Step(cfg, db, CallAbort(g, reason, key, now)) == Abort(db, g, reason, key, now)
  {
  }

  function Run(cfg: Config, db: Db, calls: seq<Call>): Db {
    if calls == [] then db else Step(cfg, Run(cfg, db, calls[..|calls| - 1]), calls[|calls| - 1]).db
  }
}
