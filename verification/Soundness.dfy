/**
 * Every transaction keeps the whole invariant and only grows what is durable.
 *
 * The invariant is large, and a proof about one table should not have to carry the facts about all the
 * others. So each of its parts is written `forall p :: Looks(p, x) ==> P(x)`, where `p` ranges over the
 * one-element type `Peek` and `Looks` is always true. That is the same proposition as `P(x)`: the
 * quantifier ranges over one value and its guard holds. But the verifier instantiates a quantifier only
 * when it sees the term named as its trigger, here `Looks(Peek, x)`, and no proof mentions that term
 * except the Open lemmas. A part therefore stays a closed name until Open turns it into `P(x)`, and Seal
 * turns `P(x)` back into the name. Seal concludes `true <==> ...` because a plain conclusion would be
 * replaced by its definition at the call, which would open the part again.
 */
module Soundness {
  import opened Outcomes
  import opened CoinBank
  import opened Sessions
  import opened Seating
  import opened Growth
  import opened Admissions
  import opened Records
  import opened Rescues

  datatype Peek = Peek

  predicate LooksBank(p: Peek, b: Bank) {
    true
  }

  ghost predicate BankPart(b: Bank) {
    forall p {:trigger LooksBank(p, b)} :: LooksBank(p, b) ==> Balanced(b)
  }

  predicate LooksSeat(p: Peek, games: Games, seats: Seats, rows: Rows, n: nat) {
    true
  }

  ghost predicate SeatPart(games: Games, seats: Seats, rows: Rows, n: nat) {
    forall p {:trigger LooksSeat(p, games, seats, rows, n)} :: LooksSeat(p, games, seats, rows, n) ==> Seating.Seating(games, seats, rows, n)
  }

  predicate LooksDesk(p: Peek, db: Db) {
    true
  }

  ghost predicate DeskPart(db: Db) {
    forall p {:trigger LooksDesk(p, db)} :: LooksDesk(p, db) ==> Desk(db)
  }

  predicate LooksRecord(p: Peek, db: Db) {
    true
  }

  ghost predicate RecordPart(db: Db) {
    forall p {:trigger LooksRecord(p, db)} :: LooksRecord(p, db) ==> Recorded(db)
  }

  predicate LooksRescue(p: Peek, cfg: Config, b: Bank, ops: Ops) {
    true
  }

  ghost predicate RescuePart(cfg: Config, b: Bank, ops: Ops) {
    forall p {:trigger LooksRescue(p, cfg, b, ops)} :: LooksRescue(p, cfg, b, ops) ==> RescuesOk(cfg, b, ops)
  }

  predicate LooksGrow(p: Peek, db: Db, after: Db) {
    true
  }

  ghost predicate GrowPart(db: Db, after: Db) {
    forall p {:trigger LooksGrow(p, db, after)} :: LooksGrow(p, db, after) ==> Grows(db, after)
  }

  ghost predicate Sound(cfg: Config, db: Db) {
    && BankPart(db.bank)
    && SeatPart(db.sessions, db.seats, db.bank.reservations, db.nextId)
    && DeskPart(db)
    && RecordPart(db)
    && RescuePart(cfg, db.bank, db.ops)
  }

  ghost predicate Advances(cfg: Config, db: Db, after: Db) {
    Sound(cfg, after) && GrowPart(db, after)
  }

  lemma OpenBank(b: Bank)
    requires BankPart(b)
    ensures Balanced(b)
  {
    assert LooksBank(Peek, b);
  }

  lemma SealBank(b: Bank)
    requires Balanced(b)
    ensures true <==> BankPart(b)
  {
  }

  lemma OpenSeats(games: Games, seats: Seats, rows: Rows, n: nat)
    requires SeatPart(games, seats, rows, n)
    ensures Seating.Seating(games, seats, rows, n)
  {
    assert LooksSeat(Peek, games, seats, rows, n);
  }

  lemma SealSeats(games: Games, seats: Seats, rows: Rows, n: nat)
    requires Seating.Seating(games, seats, rows, n)
    ensures true <==> SeatPart(games, seats, rows, n)
  {
  }

  lemma OpenDesk(db: Db)
    requires DeskPart(db)
    ensures Desk(db)
  {
    assert LooksDesk(Peek, db);
  }

  lemma SealDesk(db: Db)
    requires Desk(db)
    ensures true <==> DeskPart(db)
  {
  }

  lemma OpenRecords(db: Db)
    requires RecordPart(db)
    ensures Recorded(db)
  {
    assert LooksRecord(Peek, db);
  }

  lemma SealRecords(db: Db)
    requires Recorded(db)
    ensures true <==> RecordPart(db)
  {
  }

  lemma OpenRescues(cfg: Config, b: Bank, ops: Ops)
    requires RescuePart(cfg, b, ops)
    ensures RescuesOk(cfg, b, ops)
  {
    assert LooksRescue(Peek, cfg, b, ops);
  }

  lemma SealRescues(cfg: Config, b: Bank, ops: Ops)
    requires RescuesOk(cfg, b, ops)
    ensures true <==> RescuePart(cfg, b, ops)
  {
  }

  lemma OpenGrowth(db: Db, after: Db)
    requires GrowPart(db, after)
    ensures Grows(db, after)
  {
    assert LooksGrow(Peek, db, after);
  }

  lemma SealGrowth(db: Db, after: Db)
    requires Grows(db, after)
    ensures true <==> GrowPart(db, after)
  {
  }

  /* ---------- Putting the parts together ---------- */

  lemma Still(cfg: Config, db: Db)
    requires Sound(cfg, db)
    ensures Advances(cfg, db, db)
  {
    GrowsSelf(db);
    SealGrowth(db, db);
  }

  lemma EmptyIsSound(cfg: Config)
    ensures Sound(cfg, EMPTY)
  {
    SealBank(EMPTY.bank);
    SealSeats(EMPTY.sessions, EMPTY.seats, EMPTY.bank.reservations, EMPTY.nextId);
    SealDesk(EMPTY);
    SealRecords(EMPTY);
    SealRescues(cfg, EMPTY.bank, EMPTY.ops);
  }

  lemma AdvancesTrans(cfg: Config, a: Db, b: Db, c: Db)
    requires Advances(cfg, a, b) && Advances(cfg, b, c)
    ensures Advances(cfg, a, c)
  {
    OpenGrowth(a, b);
    OpenGrowth(b, c);
    GrowsTrans(a, b, c);
    SealGrowth(a, c);
  }

  ghost predicate NoneSettled(db: Db, after: Db) {
    && after.history == db.history && after.settlements == db.settlements
    && forall g :: g in after.sessions && after.sessions[g].lifecycle == Settled ==>
         g in db.sessions && db.sessions[g].lifecycle == Settled
  }

  lemma RecordsFollow(db: Db, after: Db)
    requires RecordPart(db) && GrowPart(db, after) && NoneSettled(db, after)
    requires SeatPart(db.sessions, db.seats, db.bank.reservations, db.nextId)
    requires SeatPart(after.sessions, after.seats, after.bank.reservations, after.nextId)
    ensures RecordPart(after)
  {
    OpenRecords(db);
    OpenGrowth(db, after);
    OpenSeats(db.sessions, db.seats, db.bank.reservations, db.nextId);
    OpenSeats(after.sessions, after.seats, after.bank.reservations, after.nextId);
    RecordedFrame(db, after);
    SealRecords(after);
  }

  lemma SeatsLater(db: Db, n: nat)
    requires SeatPart(db.sessions, db.seats, db.bank.reservations, db.nextId) && db.nextId <= n
    ensures SeatPart(db.sessions, db.seats, db.bank.reservations, n)
  {
    OpenSeats(db.sessions, db.seats, db.bank.reservations, db.nextId);
    LaterIds(db.sessions, db.seats, db.bank.reservations, db.nextId, n);
    SealSeats(db.sessions, db.seats, db.bank.reservations, n);
  }

  /** Recording an operation that grants nothing. */
  lemma RescuesFollow(cfg: Config, b: Bank, after: Bank, ops: Ops, k: OpKey, op: Operation)
    requires RescuePart(cfg, b, ops) && Moves(b, after, k)
    requires k.scope != InitialGrant && (Grants(k.scope) ==> after.ledger == b.ledger) && k !in ops
    ensures RescuePart(cfg, after, ops[k := op])
  {
    OpenRescues(cfg, b, ops);
    MovesKeepRescues(cfg, b, after, ops, ops[k := op], k);
    SealRescues(cfg, after, ops[k := op]);
  }

  lemma DeskRecords(db: Db, k: OpKey, request: Request, status: OpStatus, response: Response, now: int)
    requires DeskPart(db) && k !in db.ops
    requires OpShape(k, Operation(db.nextId, request, status, Some(response), now))
    requires response.Admission? ==>
      && AdmissionOk(db.sessions, db.bank.reservations, db.seats, db.nextId, k.actor, response)
      && PlayersMatch(db.tickets, response)
    ensures DeskPart(Record(db, k, request, status, response, now))
  {
    OpenDesk(db);
    RecordKeeps(db, k, request, status, response, now);
    SealDesk(Record(db, k, request, status, response, now));
  }

  lemma DeskFollows(db: Db, after: Db)
    requires DeskPart(db) && GrowPart(db, after) && after.ops == db.ops && after.tickets == db.tickets
    ensures DeskPart(after)
  {
    OpenDesk(db);
    OpenGrowth(db, after);
    DeskFrame(db, after);
    SealDesk(after);
  }

  lemma DeskExpires(db: Db, stale: Ticket -> bool, now: int)
    requires DeskPart(db)
    ensures DeskPart(db.(tickets := ExpireTickets(db.tickets, stale, now)))
  {
    OpenDesk(db);
    ExpireKeeps(db, stale, now);
    SealDesk(db.(tickets := ExpireTickets(db.tickets, stale, now)));
  }

  /* ---------- Growth of each kind of change ---------- */

  lemma GrowsRecord(db: Db, k: OpKey, request: Request, status: OpStatus, response: Response, now: int)
    requires k !in db.ops
    ensures GrowPart(db, Record(db, k, request, status, response, now))
  {
    SealGrowth(db, Record(db, k, request, status, response, now));
  }

  lemma GrowsThen(a: Db, b: Db, c: Db)
    requires GrowPart(a, b) && GrowPart(b, c)
    ensures GrowPart(a, c)
  {
    OpenGrowth(a, b);
    OpenGrowth(b, c);
    GrowsTrans(a, b, c);
    SealGrowth(a, c);
  }

  lemma GrowsBank(db: Db, bank: Bank, k: OpKey)
    requires Appends(db.bank, bank, k) && bank.reservations == db.bank.reservations
    requires db.bank.accounts.Keys <= bank.accounts.Keys
    ensures GrowPart(db, db.(bank := bank))
  {
    SealGrowth(db, db.(bank := bank));
  }

  lemma GrowsTickets(db: Db, after: Db)
    requires after == db.(tickets := after.tickets, nextId := after.nextId) && db.nextId <= after.nextId
    requires TicketsGrow(db.tickets, after.tickets, db.nextId)
    ensures GrowPart(db, after)
  {
    SealGrowth(db, after);
  }

  lemma GrowsExpire(db: Db, stale: Ticket -> bool, now: int)
    ensures GrowPart(db, db.(tickets := ExpireTickets(db.tickets, stale, now)))
  {
    GrowsTickets(db, db.(tickets := ExpireTickets(db.tickets, stale, now)));
  }

  lemma GrowsSession(db: Db, g: GameId, s: Session)
    requires g in db.sessions ==> GameGrows(db.sessions[g], s)
    ensures GrowPart(db, WithSession(db, g, s))
  {
    SealGrowth(db, WithSession(db, g, s));
  }

  lemma GrowsLater(db: Db, n: nat)
    requires db.nextId <= n
    ensures GrowPart(db, db.(nextId := n))
  {
    SealGrowth(db, db.(nextId := n));
  }

  /* ---------- Operation rows ---------- */

  lemma NoOpAdvances(cfg: Config, db: Db, k: OpKey, request: Request, response: Response, now: int)
    requires Sound(cfg, db) && k !in db.ops && k.scope != InitialGrant
    requires OpShape(k, Operation(db.nextId, request, NoOp, Some(response), now))
    requires response.Admission? ==>
      && AdmissionOk(db.sessions, db.bank.reservations, db.seats, db.nextId, k.actor, response)
      && PlayersMatch(db.tickets, response)
    ensures Advances(cfg, db, Record(db, k, request, NoOp, response, now))
  {
    var after := Record(db, k, request, NoOp, response, now);
    SeatsLater(db, after.nextId);
    DeskRecords(db, k, request, NoOp, response, now);
    RescuesFollow(cfg, db.bank, db.bank, db.ops, k, after.ops[k]);
    GrowsRecord(db, k, request, NoOp, response, now);
    RecordsFollow(db, after);
  }

  /* ---------- Grants ---------- */

  lemma OpenAccountAdvances(cfg: Config, db: Db, u: UserId)
    requires Sound(cfg, db)
    ensures Advances(cfg, db, db.(bank := Opened(db.bank, u)))
  {
    var after := db.(bank := Opened(db.bank, u));
    if u !in db.bank.accounts {
      var k := OpKey(u, InitialGrant, INITIAL_GRANT_KEY);
      OpenBank(db.bank);
      OpenKeeps(db.bank, u);
      SealBank(after.bank);
      GrowsBank(db, after.bank, k);
      DeskFollows(db, after);
      OpenRescues(cfg, db.bank, db.ops);
      MovesKeepRescues(cfg, db.bank, after.bank, db.ops, db.ops, k);
      SealRescues(cfg, after.bank, db.ops);
      RecordsFollow(db, after);
    } else {
      Still(cfg, db);
    }
  }

  /** A recorded grant. */
  lemma GrantedAdvances(cfg: Config, db: Db, bank: Bank, k: OpKey, request: Request, response: Response, now: int)
    requires Sound(cfg, db) && k !in db.ops && Grants(k.scope)
    requires BankPart(bank) && bank.reservations == db.bank.reservations
    requires Appends(db.bank, bank, k) && bank.accounts.Keys == db.bank.accounts.Keys
    requires OpShape(k, Operation(db.nextId, request, CommittedOp, Some(response), now))
    requires RescuePart(cfg, bank, db.ops[k := Operation(db.nextId, request, CommittedOp, Some(response), now)])
    ensures Advances(cfg, db, Record(db.(bank := bank), k, request, CommittedOp, response, now))
  {
    var mid := db.(bank := bank);
    var after := Record(mid, k, request, CommittedOp, response, now);
    GrowsBank(db, bank, k);
    DeskFollows(db, mid);
    DeskRecords(mid, k, request, CommittedOp, response, now);
    GrowsRecord(mid, k, request, CommittedOp, response, now);
    GrowsThen(db, mid, after);
    SeatsLater(db, after.nextId);
    RecordsFollow(db, after);
  }

  lemma ProvisionAdvances(cfg: Config, db: Db, u: UserId, now: int)
    requires Sound(cfg, db) && ValidConfig(cfg)
    ensures Advances(cfg, db, ProvisionUser(cfg, db, u, now).db)
  {
    var k := OpKey(u, InitialGrant, INITIAL_GRANT_KEY);
    var ready := db.(bank := Opened(db.bank, u));
    Still(cfg, db);
    OpenAccountAdvances(cfg, db, u);
    if k !in db.ops {
      var o := Grant(ready.bank, k, u, cfg.initialGrant, now, false);
      if o.Ok? {
        InitialGrantAdvances(cfg, ready, u, now);
        AdvancesTrans(cfg, db, ready, ProvisionUser(cfg, db, u, now).db);
      }
    }
  }

  lemma InitialGrantAdvances(cfg: Config, db: Db, u: UserId, now: int)
    requires Sound(cfg, db) && ValidConfig(cfg) && u in db.bank.accounts
    requires OpKey(u, InitialGrant, INITIAL_GRANT_KEY) !in db.ops
    ensures var k := OpKey(u, InitialGrant, INITIAL_GRANT_KEY);
      var o := Grant(db.bank, k, u, cfg.initialGrant, now, false);
      o.Ok? ==> Advances(cfg, db, RecordCommitted(db.(bank := o.value), k, ForInitialGrant, now))
  {
    var k := OpKey(u, InitialGrant, INITIAL_GRANT_KEY);
    var o := Grant(db.bank, k, u, cfg.initialGrant, now, false);
    if o.Ok? {
      var op := Operation(db.nextId, ForInitialGrant, CommittedOp, Some(Committed(db.nextId)), now);
      OpenBank(db.bank);
      GrantKeeps(db.bank, k, u, cfg.initialGrant, now, false);
      SealBank(o.value);
      OpenRescues(cfg, db.bank, db.ops);
      InitialGrantKeeps(cfg, db.bank, db.ops, k, op, u, now);
      SealRescues(cfg, o.value, db.ops[k := op]);
      GrantedAdvances(cfg, db, o.value, k, ForInitialGrant, Committed(db.nextId), now);
    }
  }

  lemma RescueAdvances(cfg: Config, db: Db, u: UserId, key: string, now: int)
    requires Sound(cfg, db) && ValidConfig(cfg)
    ensures Advances(cfg, db, Rescue(cfg, db, u, key, now).db)
  {
    var k := OpKey(u, RescueGrant, key);
    Still(cfg, db);
    if u in db.bank.accounts && k !in db.ops {
      var a := db.bank.accounts[u];
      if a.available + a.reserved >= cfg.rescueBalance || !WindowOpen(cfg, a, now) {
        NoOpAdvances(cfg, db, k, ForRescue, Rescued(a.available, a.reserved, None), now);
      } else {
        RescueGrantedAdvances(cfg, db, k, u, now);
      }
    }
  }

  lemma RescueGrantedAdvances(cfg: Config, db: Db, k: OpKey, u: UserId, now: int)
    requires Sound(cfg, db) && u in db.bank.accounts && Wealth(db.bank, u) < cfg.rescueBalance
    requires k.scope == RescueGrant && k !in db.ops && WindowOpen(cfg, db.bank.accounts[u], now)
    ensures Advances(cfg, db, RescueGranted(cfg, db, k, u, now).db)
  {
    Still(cfg, db);
    var amount := cfg.rescueBalance - Wealth(db.bank, u);
    var o := Grant(db.bank, k, u, amount, now, true);
    if o.Ok? {
      var response := Rescued(Column(o.value, Available(u)), Column(o.value, ReservedFor(u)), Some(db.nextId));
      var op := Operation(db.nextId, ForRescue, CommittedOp, Some(response), now);
      RescueGrantParts(cfg, db.bank, db.ops, k, op, u, now);
      GrantedAdvances(cfg, db, o.value, k, ForRescue, response, now);
    }
  }

  lemma RescueGrantParts(cfg: Config, b: Bank, ops: Ops, k: OpKey, op: Operation, u: UserId, now: int)
    requires BankPart(b) && RescuePart(cfg, b, ops) && u in b.accounts && Wealth(b, u) < cfg.rescueBalance
    requires k.scope == RescueGrant && k !in ops && WindowOpen(cfg, b.accounts[u], now) && op.at == now
    ensures var o := Grant(b, k, u, cfg.rescueBalance - Wealth(b, u), now, true);
      o.Ok? ==>
        && BankPart(o.value) && RescuePart(cfg, o.value, ops[k := op])
        && o.value.reservations == b.reservations && o.value.accounts.Keys == b.accounts.Keys
        && Appends(b, o.value, k)
  {
    var amount := cfg.rescueBalance - Wealth(b, u);
    var o := Grant(b, k, u, amount, now, true);
    if o.Ok? {
      OpenBank(b);
      GrantKeeps(b, k, u, amount, now, true);
      SealBank(o.value);
      SolventColumns(b);
      assert Column(b, Available(u)) >= 0;
      OpenRescues(cfg, b, ops);
      RescueGrantKeeps(cfg, b, ops, k, op, u, amount, now);
      SealRescues(cfg, o.value, ops[k := op]);
    }
  }

  /* ---------- Admission ---------- */

  /** What an admission starts from: a fresh reservation and player in an open session. */
  ghost predicate Admits(db: Db, k: OpKey, a: Response) {
    && a.Admission? && k.actor in db.bank.accounts
    && a.reservation < db.nextId && a.reservation !in db.bank.reservations && a.reservation !in db.seats
    && a.player < db.nextId
    && a.game in db.sessions && db.sessions[a.game].room == a.room && db.sessions[a.game].lifecycle == Open
    && (k.scope == CreateSession || k.scope == JoinIntent) && k !in db.ops
  }

  function SeatNew(db: Db, k: OpKey, a: Response, index: nat, bank: Bank): Db
    requires a.Admission?
  {
    db.(bank := bank, seats := db.seats[a.reservation := Seat(a.game, a.player, k.actor, index)])
  }

  function AdmittedRow(k: OpKey, a: Response, amount: nat): Reservation
    requires a.Admission?
  {
    Reservation(k.actor, a.game, amount, Reserved, None)
  }

  lemma SeatNewGrows(db: Db, k: OpKey, a: Response, index: nat, amount: nat, bank: Bank)
    requires Admits(db, k, a) && Moves(db.bank, bank, k)
    requires bank.reservations == db.bank.reservations[a.reservation := AdmittedRow(k, a, amount)]
    ensures GrowPart(db, SeatNew(db, k, a, index, bank))
  {
    SealGrowth(db, SeatNew(db, k, a, index, bank));
  }

  lemma NewTicketDesk(cfg: Config, db: Db, k: OpKey, a: Response, index: nat, amount: nat, bank: Bank, now: int)
    requires DeskPart(db) && Admits(db, k, a) && Moves(db.bank, bank, k)
    requires bank.reservations == db.bank.reservations[a.reservation := AdmittedRow(k, a, amount)]
    ensures var t := NewTicket(cfg, a, db.nextId + 1, k.actor, now);
      var ticketed := SeatNew(db, k, a, index, bank).(tickets := db.tickets[db.nextId := t], nextId := db.nextId + 2);
      DeskPart(ticketed) && PlayersMatch(ticketed.tickets, a) && db.nextId !in db.tickets
  {
    var seated := SeatNew(db, k, a, index, bank);
    SeatNewGrows(db, k, a, index, amount, bank);
    DeskFollows(db, seated);
    OpenDesk(db);
    OpenDesk(seated);
    FreshReservation(db, a.reservation, a.player, a);
    var t := NewTicket(cfg, a, db.nextId + 1, k.actor, now);
    AddKeeps(seated, db.nextId, t, db.nextId + 2);
    SealDesk(seated.(tickets := db.tickets[db.nextId := t], nextId := db.nextId + 2));
  }

  ghost predicate AdmitLeaves(db: Db, after: Db, k: OpKey, a: Response, index: nat, amount: nat)
    requires a.Admission?
  {
    && after.bank.reservations == db.bank.reservations[a.reservation := AdmittedRow(k, a, amount)]
    && after.seats == db.seats[a.reservation := Seat(a.game, a.player, k.actor, index)]
    && after.sessions == db.sessions && after.nextId == db.nextId + 3
    && after.history == db.history && after.settlements == db.settlements
  }

  ghost predicate AdmitKeeps(cfg: Config, db: Db, after: Db) {
    BankPart(after.bank) && DeskPart(after) && RescuePart(cfg, after.bank, after.ops) && GrowPart(db, after)
  }

  /** Everything an admission does except placing the seat among the others. */
  lemma AdmitParts(cfg: Config, db: Db, k: OpKey, request: Request, a: Response, index: nat, amount: nat, now: int, after: Db)
    requires BankPart(db.bank) && DeskPart(db) && Admits(db, k, a)
    requires RescuePart(cfg, db.bank, db.ops)
    requires Admit(cfg, db, k, request, a, index, amount, now) == Ok(after)
    ensures AdmitKeeps(cfg, db, after) && AdmitLeaves(db, after, k, a, index, amount)
  {
    var bank := Hold(db.bank, k, k.actor, a.reservation, a.game, amount).value;
    HeldParts(db.bank, k, a, amount, bank);
    AdmittedParts(cfg, db, k, request, a, index, amount, bank, now);
  }

  lemma HeldParts(b: Bank, k: OpKey, a: Response, amount: nat, bank: Bank)
    requires BankPart(b) && a.Admission? && k.actor in b.accounts && a.reservation !in b.reservations
    requires Hold(b, k, k.actor, a.reservation, a.game, amount) == Ok(bank)
    ensures BankPart(bank) && Moves(b, bank, k)
    ensures bank.reservations == b.reservations[a.reservation := AdmittedRow(k, a, amount)]
  {
    OpenBank(b);
    HoldKeeps(b, k, k.actor, a.reservation, a.game, amount);
    SealBank(bank);
  }

  lemma AdmittedParts(cfg: Config, db: Db, k: OpKey, request: Request, a: Response, index: nat, amount: nat, bank: Bank, now: int)
    requires DeskPart(db) && Admits(db, k, a) && Moves(db.bank, bank, k) && RescuePart(cfg, db.bank, db.ops)
    requires bank.reservations == db.bank.reservations[a.reservation := AdmittedRow(k, a, amount)]
    ensures var t := NewTicket(cfg, a, db.nextId + 1, k.actor, now);
      var ticketed := SeatNew(db, k, a, index, bank).(tickets := db.tickets[db.nextId := t], nextId := db.nextId + 2);
      var after := Record(ticketed, k, request, CommittedOp, a, now);
      DeskPart(after) && RescuePart(cfg, after.bank, after.ops) && GrowPart(db, after)
  {
    var seated := SeatNew(db, k, a, index, bank);
    var t := NewTicket(cfg, a, db.nextId + 1, k.actor, now);
    var ticketed := seated.(tickets := db.tickets[db.nextId := t], nextId := db.nextId + 2);
    var after := Record(ticketed, k, request, CommittedOp, a, now);
    NewTicketDesk(cfg, db, k, a, index, amount, bank, now);
    DeskRecords(ticketed, k, request, CommittedOp, a, now);
    RescuesFollow(cfg, db.bank, bank, db.ops, k, after.ops[k]);
    SeatNewGrows(db, k, a, index, amount, bank);
    GrowsTickets(seated, ticketed);
    GrowsRecord(ticketed, k, request, CommittedOp, a, now);
    GrowsThen(db, seated, ticketed);
    GrowsThen(db, ticketed, after);
  }

  /** The first vacant index, for a user who has no seat. */
  lemma VacantIsAdmissible(db: Db, u: UserId, g: GameId)
    requires SeatPart(db.sessions, db.seats, db.bank.reservations, db.nextId)
    requires g in db.sessions && db.sessions[g].lifecycle == Open
    requires First(db.nextId, SeatOfUser(db.seats, g, u)).None?
    ensures var index := First(db.sessions[g].capacity, Vacant(db.seats, g));
      index.Some? ==> Admissible(db.sessions, db.seats, db.nextId + 5, Seat(g, db.nextId + 1, u, index.value))
  {
    var index := First(db.sessions[g].capacity, Vacant(db.seats, g));
    if index.Some? {
      var seat := Seat(g, db.nextId + 1, u, index.value);
      OpenSeats(db.sessions, db.seats, db.bank.reservations, db.nextId);
      forall r | r in db.seats ensures Apart(db.seats[r], seat) {
        assert SeatOk(db.sessions, db.bank.reservations, db.nextId, db.seats[r], r);
        assert RowOk(db.sessions, db.bank.reservations[r]) && r < db.nextId;
        assert !SeatOfUser(db.seats, g, u)(r);
      }
    }
  }

  lemma FreshId(games: Games, seats: Seats, rows: Rows, n: nat, m: nat)
    requires SeatPart(games, seats, rows, n) && n <= m
    ensures m !in rows && m !in seats && m !in games
  {
    OpenSeats(games, seats, rows, n);
    assert m in seats ==> SeatOk(games, rows, n, seats[m], m);
  }

  lemma JoinSeats(games: Games, seats: Seats, rows: Rows, n: nat, m: nat, seat: Seat)
    requires SeatPart(games, seats, rows, n)
    requires n < m && Admissible(games, seats, m, seat)
    ensures SeatPart(games, seats[n := seat], rows[n := NewRow(games, seat)], m)
  {
    OpenSeats(games, seats, rows, n);
    JoinKeeps(games, seats, rows, n, m, n, seat);
    SealSeats(games, seats[n := seat], rows[n := NewRow(games, seat)], m);
  }

  /** Seats and reservations agree once the user has been seated at `index`. */
  ghost predicate JoinFits(db: Db, g: GameId, u: UserId, index: nat)
    requires g in db.sessions
  {
    var n, seat := db.nextId, Seat(g, db.nextId + 1, u, index);
    SeatPart(db.sessions, db.seats[n := seat], db.bank.reservations[n := NewRow(db.sessions, seat)], n + 5)
  }

  lemma VacantSeatFits(db: Db, u: UserId, g: GameId)
    requires SeatPart(db.sessions, db.seats, db.bank.reservations, db.nextId)
    requires g in db.sessions && db.sessions[g].lifecycle == Open
    requires First(db.nextId, SeatOfUser(db.seats, g, u)).None?
    ensures var index := First(db.sessions[g].capacity, Vacant(db.seats, g)); index.Some? ==> JoinFits(db, g, u, index.value)
  {
    var index := First(db.sessions[g].capacity, Vacant(db.seats, g));
    if index.Some? {
      VacantIsAdmissible(db, u, g);
      JoinSeats(db.sessions, db.seats, db.bank.reservations, db.nextId, db.nextId + 5, Seat(g, db.nextId + 1, u, index.value));
    }
  }

  lemma JoinedAdvances(cfg: Config, db: Db, k: OpKey, g: GameId, index: nat, now: int, after: Db)
    requires Sound(cfg, db) && k.actor in db.bank.accounts && k.scope == JoinIntent && k !in db.ops
    requires g in db.sessions && db.sessions[g].lifecycle == Open && JoinFits(db, g, k.actor, index)
    requires Admit(cfg, db.(nextId := db.nextId + 2), k, ForGame(g), Admission(g, db.sessions[g].room, db.nextId, db.nextId + 1),
        index, db.sessions[g].entry, now) == Ok(after)
    ensures Advances(cfg, db, after)
  {
    var n := db.nextId;
    var mid := db.(nextId := n + 2);
    FreshId(db.sessions, db.seats, db.bank.reservations, n, n);
    GrowsLater(db, n + 2);
    DeskFollows(db, mid);
    AdmitParts(cfg, mid, k, ForGame(g), Admission(g, db.sessions[g].room, n, n + 1), index, db.sessions[g].entry, now, after);
    AdmissionAdvances(cfg, db, mid, after);
  }

  lemma AdmissionAdvances(cfg: Config, db: Db, mid: Db, after: Db)
    requires Sound(cfg, db) && GrowPart(db, mid) && AdmitKeeps(cfg, mid, after) && NoneSettled(db, after)
    requires SeatPart(after.sessions, after.seats, after.bank.reservations, after.nextId)
    ensures Advances(cfg, db, after)
  {
    GrowsThen(db, mid, after);
    RecordsFollow(db, after);
  }

  lemma JoinAdvances(cfg: Config, db: Db, u: UserId, g: GameId, key: string, now: int)
    requires Sound(cfg, db)
    ensures Advances(cfg, db, Join(cfg, db, u, g, key, now).db)
  {
    var k := OpKey(u, JoinIntent, key);
    Still(cfg, db);
    if u in db.bank.accounts && g in db.sessions {
      if k in db.ops {
        ReplayAdvances(cfg, db, k, ForGame(g), CommittedOp, now);
      } else if db.sessions[g].lifecycle == Open {
        FirstJoinAdvances(cfg, db, u, g, key, now);
      }
    }
  }

  lemma FirstJoinAdvances(cfg: Config, db: Db, u: UserId, g: GameId, key: string, now: int)
    requires Sound(cfg, db) && u in db.bank.accounts && g in db.sessions && db.sessions[g].lifecycle == Open
    requires OpKey(u, JoinIntent, key) !in db.ops
    ensures Advances(cfg, db, Join(cfg, db, u, g, key, now).db)
  {
    Still(cfg, db);
    if First(db.nextId, SeatOfUser(db.seats, g, u)).None? {
      var index := First(db.sessions[g].capacity, Vacant(db.seats, g));
      if index.Some? {
        VacantSeatFits(db, u, g);
        JoinAtAdvances(cfg, db, OpKey(u, JoinIntent, key), g, index.value, now);
      }
    }
  }

  lemma JoinAtAdvances(cfg: Config, db: Db, k: OpKey, g: GameId, index: nat, now: int)
    requires Sound(cfg, db) && k.actor in db.bank.accounts && k.scope == JoinIntent && k !in db.ops
    requires g in db.sessions && db.sessions[g].lifecycle == Open && JoinFits(db, g, k.actor, index)
    ensures Advances(cfg, db, JoinAt(cfg, db, k, g, index, now).db)
  {
    Still(cfg, db);
    JoinAtIs(cfg, db, k, g, index, now);
    var after := JoinAt(cfg, db, k, g, index, now).db;
    if after != db {
      JoinedAdvances(cfg, db, k, g, index, now, after);
    }
  }

  lemma JoinAtIs(cfg: Config, db: Db, k: OpKey, g: GameId, index: nat, now: int)
    requires k.actor in db.bank.accounts && g in db.sessions
    ensures var after := JoinAt(cfg, db, k, g, index, now).db;
      || after == db
      || Admit(cfg, db.(nextId := db.nextId + 2), k, ForGame(g), Admission(g, db.sessions[g].room, db.nextId, db.nextId + 1),
           index, db.sessions[g].entry, now) == Ok(after)
  {
  }

  lemma CreateSeats(games: Games, seats: Seats, rows: Rows, n: nat, m: nat, s: Session, r: ReservationId, seat: Seat)
    requires SeatPart(games, seats, rows, n)
    requires n < m && s.room < m && s.lifecycle == Open && s.version == 0 && 2 <= s.capacity <= 4
    requires n <= r < m && seat == Seat(n, seat.player, s.creator, 0) && seat.player < m
    ensures SeatPart(games[n := s], seats[r := seat], rows[r := NewRow(games[n := s], seat)], m)
  {
    OpenSeats(games, seats, rows, n);
    CreateKeeps(games, seats, rows, n, m, n, s, r, seat);
    SealSeats(games[n := s], seats[r := seat], rows[r := NewRow(games[n := s], seat)], m);
  }

  lemma CreatedParts(cfg: Config, db: Db, k: OpKey, definitionId: string, d: Definition, now: int, after: Db)
    requires Sound(cfg, db) && k.actor in db.bank.accounts && k.scope == CreateSession && k !in db.ops
    requires Admit(cfg, WithCreated(db, k.actor, d, now), k, ForDefinition(definitionId), CreatedAdmission(db), 0, d.entry, now) == Ok(after)
    ensures var mid := WithCreated(db, k.actor, d, now);
      GrowPart(db, mid) && AdmitKeeps(cfg, mid, after) && AdmitLeaves(mid, after, k, CreatedAdmission(db), 0, d.entry)
  {
    var n, mid := db.nextId, WithCreated(db, k.actor, d, now);
    FreshId(db.sessions, db.seats, db.bank.reservations, n, n);
    FreshId(db.sessions, db.seats, db.bank.reservations, n, n + 2);
    GrowsCreated(db, k.actor, d, now);
    DeskFollows(db, mid);
    AdmitParts(cfg, mid, k, ForDefinition(definitionId), CreatedAdmission(db), 0, d.entry, now, after);
  }

  lemma CreatedAdvances(cfg: Config, db: Db, k: OpKey, d: Definition, now: int, after: Db)
    requires Sound(cfg, db)
    requires var mid := WithCreated(db, k.actor, d, now);
      GrowPart(db, mid) && AdmitKeeps(cfg, mid, after) && AdmitLeaves(mid, after, k, CreatedAdmission(db), 0, d.entry)
    ensures Advances(cfg, db, after)
  {
    var n, mid := db.nextId, WithCreated(db, k.actor, d, now);
    CreateSeats(db.sessions, db.seats, db.bank.reservations, n, n + 7, mid.sessions[n], n + 2, Seat(n, n + 3, k.actor, 0));
    FreshId(db.sessions, db.seats, db.bank.reservations, n, n);
    AdmissionAdvances(cfg, db, mid, after);
  }

  lemma GrowsCreated(db: Db, u: UserId, d: Definition, now: int)
    requires db.nextId !in db.sessions
    ensures GrowPart(db, WithCreated(db, u, d, now))
  {
    SealGrowth(db, WithCreated(db, u, d, now));
  }

  lemma CreateAdvances(cfg: Config, db: Db, u: UserId, definitionId: string, definition: Option<Definition>, key: string, now: int)
    requires Sound(cfg, db)
    ensures Advances(cfg, db, Create(cfg, db, u, definitionId, definition, key, now).db)
  {
    var k := OpKey(u, CreateSession, key);
    Still(cfg, db);
    if u in db.bank.accounts {
      if k in db.ops {
        ReplayAdvances(cfg, db, k, ForDefinition(definitionId), CommittedOp, now);
      } else if definition.Some? {
        var o := Admit(cfg, WithCreated(db, u, definition.value, now), k, ForDefinition(definitionId),
          CreatedAdmission(db), 0, definition.value.entry, now);
        if o.Ok? {
          CreatedParts(cfg, db, k, definitionId, definition.value, now, o.value);
          CreatedAdvances(cfg, db, k, definition.value, now, o.value);
        }
      }
    }
  }

  /* ---------- Tickets ---------- */

  lemma TicketsAdvance(cfg: Config, db: Db, after: Db)
    requires Sound(cfg, db) && DeskPart(after) && TicketsGrow(db.tickets, after.tickets, db.nextId)
    requires after == db.(tickets := after.tickets, nextId := after.nextId) && db.nextId <= after.nextId
    ensures Advances(cfg, db, after)
  {
    SeatsLater(db, after.nextId);
    GrowsTickets(db, after);
    RecordsFollow(db, after);
  }

  lemma RotateAdvances(cfg: Config, db: Db, t: TicketId, now: int)
    requires Sound(cfg, db) && t in db.tickets && db.tickets[t].consumedBy.None?
    ensures Advances(cfg, db, Rotate(cfg, db, t, now))
  {
    OpenDesk(db);
    ReplaceKeeps(db, t, db.tickets[t].(token := db.nextId, expiresAt := now + cfg.ticketTtl), db.nextId + 1);
    SealDesk(Rotate(cfg, db, t, now));
    TicketsAdvance(cfg, db, Rotate(cfg, db, t, now));
  }

  /** The admission of a seated player: the seat says who it is for. */
  ghost predicate Bindable(db: Db, a: Response) {
    && a.Admission? && a.game in db.sessions && db.sessions[a.game].room == a.room
    && StillReserved(db.bank.reservations, a.game, a.reservation)
    && a.reservation in db.seats && db.seats[a.reservation].player == a.player && a.player < db.nextId
  }

  lemma AddTicketDesk(cfg: Config, db: Db, a: Response, now: int)
    requires Desk(db) && Bindable(db, a)
    requires forall s :: 0 <= s < db.nextId ==> !Unused(db.tickets, s, a.reservation)
    ensures var t := NewTicket(cfg, a, db.nextId + 1, db.bank.reservations[a.reservation].user, now);
      Desk(db.(tickets := db.tickets[db.nextId := t], nextId := db.nextId + 2)) && db.nextId !in db.tickets
  {
    var t := NewTicket(cfg, a, db.nextId + 1, db.bank.reservations[a.reservation].user, now);
    SeatNamesPlayer(db, a.reservation);
    forall id | id in db.tickets && db.tickets[id].reservation == a.reservation ensures db.tickets[id].consumedBy.Some? {
      assert !Unused(db.tickets, id, a.reservation);
    }
    AddKeeps(db, db.nextId, t, db.nextId + 2);
  }

  lemma AddTicketAdvances(cfg: Config, db: Db, a: Response, now: int)
    requires Sound(cfg, db) && Bindable(db, a)
    requires forall s :: 0 <= s < db.nextId ==> !Unused(db.tickets, s, a.reservation)
    ensures var t := NewTicket(cfg, a, db.nextId + 1, db.bank.reservations[a.reservation].user, now);
      Advances(cfg, db, db.(tickets := db.tickets[db.nextId := t], nextId := db.nextId + 2))
  {
    var t := NewTicket(cfg, a, db.nextId + 1, db.bank.reservations[a.reservation].user, now);
    var after := db.(tickets := db.tickets[db.nextId := t], nextId := db.nextId + 2);
    OpenDesk(db);
    AddTicketDesk(cfg, db, a, now);
    SealDesk(after);
    TicketsAdvance(cfg, db, after);
  }

  predicate Renewable(db: Db, a: Response)
    requires a.Admission?
  {
    && a.game in db.sessions && TakesTickets(db.sessions[a.game].lifecycle)
    && StillReserved(db.bank.reservations, a.game, a.reservation)
  }

  lemma ReissueAdvances(cfg: Config, db: Db, a: Response, now: int)
    requires Sound(cfg, db) && a.Admission?
    requires Renewable(db, a) ==> Bindable(db, a)
    ensures Advances(cfg, db, Reissue(cfg, db, a, now).db)
  {
    Still(cfg, db);
    if Renewable(db, a) {
      var t := LatestUnused(db.tickets, a.reservation, db.nextId);
      if t.Some? {
        RotateAdvances(cfg, db, t.value, now);
      } else {
        AddTicketAdvances(cfg, db, a, now);
      }
    }
  }

  /** A stored admission that is still reserved in a live session names the seated player. */
  lemma StoredIsBindable(db: Db, k: OpKey)
    requires SeatPart(db.sessions, db.seats, db.bank.reservations, db.nextId) && DeskPart(db)
    requires k in db.ops && db.ops[k].response.Some? && db.ops[k].response.value.Admission?
    ensures var a := db.ops[k].response.value; Renewable(db, a) ==> Bindable(db, a)
  {
    var a := db.ops[k].response.value;
    OpenDesk(db);
    assert OpOk(db.sessions, db.bank.reservations, db.seats, db.nextId, db.tickets, k, db.ops[k]);
    if Renewable(db, a) {
      OpenSeats(db.sessions, db.seats, db.bank.reservations, db.nextId);
      SeatedIffReserved(db.sessions, db.seats, db.bank.reservations, db.nextId, a.game, a.reservation);
    }
  }

  lemma ReplayAdvances(cfg: Config, db: Db, k: OpKey, request: Request, status: OpStatus, now: int)
    requires Sound(cfg, db) && k in db.ops
    ensures Advances(cfg, db, ReplayAdmission(cfg, db, Replayed(db.ops[k], request, status), now).db)
  {
    Still(cfg, db);
    var stored := Replayed(db.ops[k], request, status);
    if stored.Ok? && stored.value.Admission? {
      StoredIsBindable(db, k);
      ReissueAdvances(cfg, db, stored.value, now);
    }
  }

  lemma ReconnectAdvances(cfg: Config, db: Db, u: UserId, g: GameId, key: string, now: int)
    requires Sound(cfg, db)
    ensures Advances(cfg, db, Reconnect(cfg, db, u, g, key, now).db)
  {
    var k := OpKey(u, ReconnectTicket, key);
    Still(cfg, db);
    if u in db.bank.accounts && g in db.sessions && TakesTickets(db.sessions[g].lifecycle) {
      if k in db.ops {
        ReplayAdvances(cfg, db, k, ForGame(g), NoOp, now);
      } else {
        var r := First(db.nextId, SeatOfUser(db.seats, g, u));
        if r.Some? && StillReserved(db.bank.reservations, g, r.value) {
          ReconnectedAdvances(cfg, db, k, g, r.value, now);
        }
      }
    }
  }

  lemma SeatBindable(db: Db, g: GameId, r: ReservationId)
    requires SeatPart(db.sessions, db.seats, db.bank.reservations, db.nextId) && DeskPart(db)
    requires g in db.sessions && SeatedIn(db.seats, g, r) && StillReserved(db.bank.reservations, g, r)
    ensures Bindable(db, Admission(g, db.sessions[g].room, r, db.seats[r].player))
    ensures AdmissionOk(db.sessions, db.bank.reservations, db.seats, db.nextId, db.seats[r].user,
      Admission(g, db.sessions[g].room, r, db.seats[r].player))
    ensures PlayersMatch(db.tickets, Admission(g, db.sessions[g].room, r, db.seats[r].player))
  {
    OpenSeats(db.sessions, db.seats, db.bank.reservations, db.nextId);
    assert SeatOk(db.sessions, db.bank.reservations, db.nextId, db.seats[r], r);
    OpenDesk(db);
    SeatNamesPlayer(db, r);
  }

  lemma ReconnectedAdvances(cfg: Config, db: Db, k: OpKey, g: GameId, r: ReservationId, now: int)
    requires Sound(cfg, db) && g in db.sessions && TakesTickets(db.sessions[g].lifecycle)
    requires k.scope == ReconnectTicket && k !in db.ops
    requires SeatedIn(db.seats, g, r) && db.seats[r].user == k.actor && StillReserved(db.bank.reservations, g, r)
    ensures var a := Admission(g, db.sessions[g].room, r, db.seats[r].player);
      var issued := Reissue(cfg, db, a, now);
      issued.reply.Ok? ==> Advances(cfg, db, Record(issued.db, k, ForGame(g), NoOp, a, now))
  {
    var a := Admission(g, db.sessions[g].room, r, db.seats[r].player);
    var mid := Reissue(cfg, db, a, now).db;
    SeatBindable(db, g, r);
    ReissueAdvances(cfg, db, a, now);
    SeatBindable(mid, g, r);
    NoOpAdvances(cfg, mid, k, ForGame(g), a, now);
    AdvancesTrans(cfg, db, mid, Record(mid, k, ForGame(g), NoOp, a, now));
  }

  /* ---------- Leaving ---------- */

  lemma FreedParts(b: Bank, k: OpKey, r: ReservationId, bank: Bank)
    requires BankPart(b) && r in b.reservations && b.reservations[r].status == Reserved
    requires Free(b, k, r) == Ok(bank)
    ensures BankPart(bank) && Moves(b, bank, k)
    ensures bank.reservations == b.reservations[r := Closed(b.reservations[r], Released, k)]
  {
    OpenBank(b);
    BalancedIsBooks(b, k);
    FreeKeeps(b, k, 0, r);
    BalancedIsBooks(bank, k);
    SealBank(bank);
  }

  lemma LeaveSeats(games: Games, seats: Seats, rows: Rows, n: nat, m: nat, r: ReservationId, k: OpKey)
    requires SeatPart(games, seats, rows, n) && n <= m && r in rows && rows[r].game in games
    requires games[rows[r].game].lifecycle == Open && games[rows[r].game].creator != rows[r].user
    ensures SeatPart(games, seats - {r}, rows[r := Closed(rows[r], Released, k)], m)
  {
    OpenSeats(games, seats, rows, n);
    LeaveKeeps(games, seats, rows, n, m, r, k);
    SealSeats(games, seats - {r}, rows[r := Closed(rows[r], Released, k)], m);
  }

  lemma SeatOfRow(games: Games, seats: Seats, rows: Rows, n: nat, r: ReservationId)
    requires SeatPart(games, seats, rows, n) && r in seats
    ensures r in rows && seats[r].game == rows[r].game && seats[r].user == rows[r].user
  {
    OpenSeats(games, seats, rows, n);
    assert SeatOk(games, rows, n, seats[r], r);
  }

  lemma GrowsLeave(db: Db, k: OpKey, r: ReservationId, bank: Bank)
    requires r in db.bank.reservations && db.bank.reservations[r].status == Reserved
    requires r in db.seats ==> db.seats[r].game in db.sessions && db.sessions[db.seats[r].game].lifecycle == Open
    requires Moves(db.bank, bank, k)
    requires bank.reservations == db.bank.reservations[r := Closed(db.bank.reservations[r], Released, k)]
    ensures GrowPart(db, db.(bank := bank, seats := db.seats - {r}))
  {
    SealGrowth(db, db.(bank := bank, seats := db.seats - {r}));
  }

  lemma WithdrawAdvances(cfg: Config, db: Db, k: OpKey, request: Request, r: ReservationId, now: int, after: Db)
    requires Sound(cfg, db) && k !in db.ops && k.scope == ReleaseJoinIntent
    requires r in db.bank.reservations && db.bank.reservations[r].status == Reserved
    requires db.bank.reservations[r].game in db.sessions
    requires var s := db.sessions[db.bank.reservations[r].game]; s.lifecycle == Open && s.creator != db.bank.reservations[r].user
    requires Withdraw(db, k, request, r, now) == Ok(after)
    ensures Advances(cfg, db, after)
  {
    var bank := Free(db.bank, k, r).value;
    FreedParts(db.bank, k, r, bank);
    var freed := db.(bank := bank, seats := db.seats - {r});
    if r in db.seats {
      SeatOfRow(db.sessions, db.seats, db.bank.reservations, db.nextId, r);
    }
    GrowsLeave(db, k, r, bank);
    DeskFollows(db, freed);
    RecordedWithdrawal(cfg, db, freed, k, request, OfReservation(r), now, after);
    LeaveSeats(db.sessions, db.seats, db.bank.reservations, db.nextId, after.nextId, r, k);
    RecordsFollow(db, after);
  }

  /** Tickets expired and the operation committed on top of a change that grants nothing. */
  lemma RecordedWithdrawal(cfg: Config, db: Db, mid: Db, k: OpKey, request: Request, stale: Ticket -> bool, now: int, after: Db)
    requires DeskPart(mid) && GrowPart(db, mid) && RescuePart(cfg, db.bank, db.ops) && Moves(db.bank, mid.bank, k)
    requires mid.ops == db.ops && mid.tickets == db.tickets && mid.nextId == db.nextId && k !in db.ops
    requires k.scope == ReleaseJoinIntent || k.scope == CancelSession
    requires after == RecordCommitted(mid.(tickets := ExpireTickets(mid.tickets, stale, now)), k, request, now)
    ensures DeskPart(after) && GrowPart(db, after) && RescuePart(cfg, after.bank, after.ops)
  {
    var expired := mid.(tickets := ExpireTickets(mid.tickets, stale, now));
    DeskExpires(mid, stale, now);
    DeskRecords(expired, k, request, CommittedOp, Committed(expired.nextId), now);
    GrowsExpire(mid, stale, now);
    GrowsRecord(expired, k, request, CommittedOp, Committed(expired.nextId), now);
    GrowsThen(db, mid, expired);
    GrowsThen(db, expired, after);
    RescuesFollow(cfg, db.bank, mid.bank, db.ops, k, after.ops[k]);
  }

  lemma LeaveAdvances(cfg: Config, db: Db, u: UserId, g: GameId, key: string, request: Request, now: int, expected: Option<Binding>)
    requires Sound(cfg, db)
    ensures Advances(cfg, db, Leave(db, u, g, key, request, now, expected).db)
  {
    var k := OpKey(u, ReleaseJoinIntent, key);
    Still(cfg, db);
    if g in db.sessions && k !in db.ops && db.sessions[g].lifecycle == Open && db.sessions[g].creator != u {
      var r := First(db.nextId, ReservedByUser(db.bank.reservations, g, u));
      if r.Some? {
        var o := Withdraw(db, k, request, r.value, now);
        if o.Ok? {
          WithdrawAdvances(cfg, db, k, request, r.value, now, o.value);
        }
      }
    }
  }

  /** A reserved reservation of an open session always has its seat, so there is nothing to release. */
  lemma ReleaseExpiredDoesNothing(db: Db, r: ReservationId, expiredBefore: int, key: string, now: int)
    requires SeatPart(db.sessions, db.seats, db.bank.reservations, db.nextId)
    ensures ReleaseExpired(db, r, expiredBefore, key, now).db == db
    ensures ReleaseExpired(db, r, expiredBefore, key, now).reply != Ok(Done(true))
  {
    if r in db.bank.reservations && db.bank.reservations[r].game in db.sessions
      && db.sessions[db.bank.reservations[r].game].lifecycle == Open
    {
      OpenSeats(db.sessions, db.seats, db.bank.reservations, db.nextId);
      assert Agrees(db.sessions, db.bank.reservations[r], r in db.seats);
    }
  }

  /* ---------- Cancelling ---------- */

  lemma FreedAllParts(b: Bank, k: OpKey, rows: seq<ReservationId>, bank: Bank)
    requires BankPart(b) && Closable(b.reservations, rows)
    requires CloseAll(b, k, rows, Released) == Ok(bank)
    ensures BankPart(bank) && Moves(b, bank, k) && ClosesExactly(b.reservations, bank.reservations, rows, Released, k)
  {
    OpenBank(b);
    FreeAllKeeps(b, k, rows);
    SealBank(bank);
  }

  lemma ReservedInIs(db: Db, g: GameId)
    requires SeatPart(db.sessions, db.seats, db.bank.reservations, db.nextId)
    ensures Closable(db.bank.reservations, ReservedIn(db, g))
    ensures forall r :: r in ReservedIn(db, g) <==> StillReserved(db.bank.reservations, g, r)
  {
    OpenSeats(db.sessions, db.seats, db.bank.reservations, db.nextId);
    ReservedInExactly(db, g);
  }

  lemma CancelSeats(games: Games, seats: Seats, rows: Rows, n: nat, m: nat, g: GameId, after: Rows)
    requires SeatPart(games, seats, rows, n) && n <= m && g in games && games[g].lifecycle == Open && Ends(rows, after, g)
    ensures SeatPart(games[g := games[g].(lifecycle := Cancelled)], WithoutGame(seats, g), after, m)
  {
    OpenSeats(games, seats, rows, n);
    CancelKeeps(games, seats, rows, n, m, g, games[g].(lifecycle := Cancelled), after);
    SealSeats(games[g := games[g].(lifecycle := Cancelled)], WithoutGame(seats, g), after, m);
  }

  lemma EndsGrow(rows: Rows, after: Rows, g: GameId)
    requires Ends(rows, after, g)
    ensures RowsGrow(rows, after)
  {
    forall r | r in rows ensures r in after && RowGrows(rows[r], after[r]) {
      assert EndsRow(rows[r], after[r], g);
    }
  }

  function Closing(db: Db, g: GameId, bank: Bank, history: seq<HistoryRow>): Db
    requires g in db.sessions
  {
    WithSession(db, g, db.sessions[g].(lifecycle := Cancelled)).(bank := bank, history := history, seats := WithoutGame(db.seats, g))
  }

  lemma GrowsCancel(db: Db, k: OpKey, g: GameId, bank: Bank, added: seq<HistoryRow>)
    requires g in db.sessions && db.sessions[g].lifecycle == Open && db.sessions[g].version >= 0
    requires Moves(db.bank, bank, k) && RowsGrow(db.bank.reservations, bank.reservations)
    requires bank.reservations.Keys == db.bank.reservations.Keys
    ensures GrowPart(db, Closing(db, g, bank, db.history + added))
  {
    SealGrowth(db, Closing(db, g, bank, db.history + added));
  }

  lemma SeatedIs(db: Db, g: GameId)
    requires SeatPart(db.sessions, db.seats, db.bank.reservations, db.nextId)
    ensures Distinct(Seated(db, g)) && SeatsApart(db.seats)
    ensures forall i :: 0 <= i < |Seated(db, g)| ==> SeatedIn(db.seats, g, Seated(db, g)[i])
    ensures forall r :: SeatedIn(db.seats, g, r) ==> r in Seated(db, g)
  {
    OpenSeats(db.sessions, db.seats, db.bank.reservations, db.nextId);
    SelectOrdered(db.bank.reservations, IsSeated(db.seats, g), db.nextId);
    forall i | 0 <= i < |Seated(db, g)| ensures SeatedIn(db.seats, g, Seated(db, g)[i]) {
      assert Seated(db, g)[i] in Seated(db, g);
    }
    forall r | SeatedIn(db.seats, g, r) ensures r in Seated(db, g) {
      assert SeatOk(db.sessions, db.bank.reservations, db.nextId, db.seats[r], r);
      assert RowOk(db.sessions, db.bank.reservations[r]);
    }
  }

  /** The history a cancellation adds. */
  lemma CancelHistory(db: Db, g: GameId) returns (added: seq<HistoryRow>)
    requires SeatPart(db.sessions, db.seats, db.bank.reservations, db.nextId) && RecordPart(db)
    requires g in db.sessions && db.sessions[g].lifecycle == Open
    ensures CancelledRows(db.history, db.seats, Seated(db, g)) == db.history + added
    ensures FreshRows(added, g) && DeltaSum(added, g) == 0 && Wins(added, g) == 0
  {
    var rows := Seated(db, g);
    OpenRecords(db);
    SeatedIs(db, g);
    added := CancelledRowsAdd(db.sessions, db.history, db.seats, rows, g);
    forall i, j | 0 <= i < j < |added| ensures added[i].user != added[j].user {
      assert Apart(db.seats[rows[i]], db.seats[rows[j]]);
    }
  }

  lemma CancelRecords(db: Db, after: Db, g: GameId, added: seq<HistoryRow>)
    requires RecordPart(db) && GrowPart(db, after)
    requires SeatPart(db.sessions, db.seats, db.bank.reservations, db.nextId)
    requires SeatPart(after.sessions, after.seats, after.bank.reservations, after.nextId)
    requires g in db.sessions && db.sessions[g].lifecycle == Open
    requires after.sessions == db.sessions[g := db.sessions[g].(lifecycle := Cancelled)]
    requires after.history == db.history + added && after.settlements == db.settlements
    requires FreshRows(added, g) && DeltaSum(added, g) == 0 && Wins(added, g) == 0
    ensures RecordPart(after)
  {
    OpenRecords(db);
    OpenGrowth(db, after);
    CancelTallied(db.sessions, db.settlements, db.history, after.sessions, g, added);
    OpenSeats(db.sessions, db.seats, db.bank.reservations, db.nextId);
    OpenSeats(after.sessions, after.seats, after.bank.reservations, after.nextId);
    AllExecutedStays(db, after, |db.settlements|);
    SealRecords(after);
  }

  lemma DisbandAdvances(cfg: Config, db: Db, k: OpKey, request: Request, g: GameId, now: int, after: Db)
    requires Sound(cfg, db) && k !in db.ops && k.scope == CancelSession
    requires g in db.sessions && db.sessions[g].lifecycle == Open
    requires Disband(db, k, request, g, now) == Ok(after)
    ensures Advances(cfg, db, after)
  {
    var rows := ReservedIn(db, g);
    var bank := CloseAll(db.bank, k, rows, Released).value;
    ReservedInIs(db, g);
    FreedAllParts(db.bank, k, rows, bank);
    ClosingEnds(db.bank.reservations, bank.reservations, rows, Released, k, g);
    EndsGrow(db.bank.reservations, bank.reservations, g);
    var added := CancelHistory(db, g);
    var mid := Closing(db, g, bank, db.history + added);
    GrowsCancel(db, k, g, bank, added);
    DeskFollows(db, mid);
    RecordedWithdrawal(cfg, db, mid, k, request, OfGame(g), now, after);
    CancelSeats(db.sessions, db.seats, db.bank.reservations, db.nextId, after.nextId, g, bank.reservations);
    CancelRecords(db, after, g, added);
  }

  lemma CancelAdvances(cfg: Config, db: Db, u: UserId, g: GameId, key: string, request: Request, now: int, expected: Option<Binding>)
    requires Sound(cfg, db)
    ensures Advances(cfg, db, Cancel(db, u, g, key, request, now, expected).db)
  {
    Still(cfg, db);
    CancelIs(db, u, g, key, request, now, expected);
    var after := Cancel(db, u, g, key, request, now, expected).db;
    if after != db {
      DisbandAdvances(cfg, db, OpKey(u, CancelSession, key), request, g, now, after);
    }
  }

  /** A cancellation changes the tables only by disbanding an open session under a new key. */
  lemma CancelIs(db: Db, u: UserId, g: GameId, key: string, request: Request, now: int, expected: Option<Binding>)
    ensures var after, k := Cancel(db, u, g, key, request, now, expected).db, OpKey(u, CancelSession, key);
      || after == db
      || (g in db.sessions && db.sessions[g].lifecycle == Open && k !in db.ops && Disband(db, k, request, g, now) == Ok(after))
  {
  }

  lemma CancelExpiredAdvances(cfg: Config, db: Db, g: GameId, expiresBefore: int, key: string, now: int)
    requires Sound(cfg, db)
    ensures Advances(cfg, db, CancelExpired(db, g, expiresBefore, key, now).db)
  {
    Still(cfg, db);
    if g in db.sessions && db.sessions[g].lifecycle == Open {
      var k := OpKey(db.sessions[g].creator, CancelSession, key);
      if k !in db.ops {
        var o := Disband(db, k, ForWaitingExpiry(g), g, now);
        if o.Ok? {
          DisbandAdvances(cfg, db, k, ForWaitingExpiry(g), g, now, o.value);
        }
      }
    }
  }

  lemma FinalizeAdvances(cfg: Config, db: Db, g: GameId, b: Binding, action: Action, key: string, now: int)
    requires Sound(cfg, db)
    ensures Advances(cfg, db, Finalize(db, g, b, action, key, now).db)
  {
    Still(cfg, db);
    var u := ActorOf(db, g, b);
    if u.Some? {
      if action == LeaveRoom {
        LeaveAdvances(cfg, db, u.value, g, key, ForFinalization(g, b, action), now, Some(b));
      } else {
        CancelAdvances(cfg, db, u.value, g, key, ForFinalization(g, b, action), now, Some(b));
      }
    }
  }

  /* ---------- Consuming a ticket ---------- */

  /** Where a reserved ticket leads: its user's only seat in the session is the one it names. */
  lemma BoundSeatFits(db: Db, id: TicketId)
    requires SeatPart(db.sessions, db.seats, db.bank.reservations, db.nextId) && DeskPart(db)
    requires id in db.tickets && db.tickets[id].game in db.sessions && TakesTickets(db.sessions[db.tickets[id].game].lifecycle)
    requires StillReserved(db.bank.reservations, db.tickets[id].game, db.tickets[id].reservation)
    ensures BoundSeat(db, db.tickets[id]) == Some(db.tickets[id].reservation)
    ensures SeatFits(db, db.tickets[id], db.tickets[id].reservation)
  {
    var t := db.tickets[id];
    TicketSeat(db, id);
    var found := BoundSeat(db, t);
    assert SeatOfUser(db.seats, t.game, t.user)(t.reservation);
    assert found.Some?;
    TheSeat(db.sessions, db.seats, db.bank.reservations, db.nextId, t.game, t.reservation, found.value);
  }

  lemma TicketSeat(db: Db, id: TicketId)
    requires SeatPart(db.sessions, db.seats, db.bank.reservations, db.nextId) && DeskPart(db)
    requires id in db.tickets && db.tickets[id].game in db.sessions && TakesTickets(db.sessions[db.tickets[id].game].lifecycle)
    requires StillReserved(db.bank.reservations, db.tickets[id].game, db.tickets[id].reservation)
    ensures var t := db.tickets[id];
      && SeatedIn(db.seats, t.game, t.reservation) && t.reservation < db.nextId
      && db.bank.reservations[t.reservation].user == t.user
      && db.seats[t.reservation].user == t.user && db.seats[t.reservation].player == t.player
  {
    var t := db.tickets[id];
    OpenDesk(db);
    assert TicketOk(db.sessions, db.bank.reservations, db.seats, db.nextId, t);
    ReservedIsSeated(db.sessions, db.seats, db.bank.reservations, db.nextId, t.game, t.reservation);
  }

  lemma ReservedIsSeated(games: Games, seats: Seats, rows: Rows, n: nat, g: GameId, r: ReservationId)
    requires SeatPart(games, seats, rows, n) && g in games && Live(games[g].lifecycle) && StillReserved(rows, g, r)
    ensures SeatedIn(seats, g, r) && r < n && seats[r].user == rows[r].user
  {
    OpenSeats(games, seats, rows, n);
    SeatedIffReserved(games, seats, rows, n, g, r);
    assert SeatOk(games, rows, n, seats[r], r);
    assert RowOk(games, rows[r]);
  }

  lemma TheSeat(games: Games, seats: Seats, rows: Rows, n: nat, g: GameId, r: ReservationId, s: ReservationId)
    requires SeatPart(games, seats, rows, n) && g in games && Live(games[g].lifecycle)
    requires StillReserved(rows, g, r) && SeatedIn(seats, g, s) && seats[s].user == rows[r].user
    ensures r == s
  {
    OpenSeats(games, seats, rows, n);
    SeatIsTheReservation(games, seats, rows, n, g, r, s);
  }

  lemma BoundDesk(db: Db, id: TicketId, instance: string)
    requires DeskPart(db) && id in db.tickets && db.tickets[id].consumedBy.None?
    ensures DeskPart(db.(tickets := db.tickets[id := db.tickets[id].(consumedBy := Some(instance))]))
  {
    OpenDesk(db);
    ReplaceKeeps(db, id, db.tickets[id].(consumedBy := Some(instance)), db.nextId);
    SealDesk(db.(tickets := db.tickets[id := db.tickets[id].(consumedBy := Some(instance))]));
  }

  lemma BindAdvances(cfg: Config, db: Db, id: TicketId, k: OpKey, request: Request, instance: string, index: nat, now: int)
    requires Sound(cfg, db) && id in db.tickets && db.tickets[id].consumedBy.None?
    requires k !in db.ops && k.scope == ConsumeTicket
    ensures Advances(cfg, db, Bind(db, id, k, request, instance, index, now).db)
  {
    var t := db.tickets[id];
    var bound := db.(tickets := db.tickets[id := t.(consumedBy := Some(instance))]);
    BoundDesk(db, id, instance);
    TicketsAdvance(cfg, db, bound);
    NoOpAdvances(cfg, bound, k, request, Admitted(t.user, AdmissionOf(t), index, false), if now > t.createdAt then now else t.createdAt);
    AdvancesTrans(cfg, db, bound, Bind(db, id, k, request, instance, index, now).db);
  }

  lemma ConsumeAdvances(cfg: Config, db: Db, token: Token, g: GameId, room: RoomId, instance: string, key: string, now: int)
    requires Sound(cfg, db)
    ensures Advances(cfg, db, Consume(db, token, g, room, instance, key, now).db)
  {
    Still(cfg, db);
    var id := ConsumeHonours(db, token, g, room, instance, key, now);
    if id.Some? {
      BoundSeatFits(db, id.value);
      HonourAdvances(cfg, db, id.value, OpKey(db.tickets[id.value].user, ConsumeTicket, key),
        ForTicket(token, g, room, instance), instance, now);
    }
  }

  /** Consuming either refuses at the door or honours a ticket whose reservation stands in a session that takes tickets. */
  lemma ConsumeHonours(db: Db, token: Token, g: GameId, room: RoomId, instance: string, key: string, now: int)
      returns (id: Option<TicketId>)
    ensures id.None? ==> Consume(db, token, g, room, instance, key, now).db == db
    ensures id.Some? ==>
      && id.value in db.tickets && g in db.sessions && TakesTickets(db.sessions[g].lifecycle)
      && db.tickets[id.value].game == g && StillReserved(db.bank.reservations, g, db.tickets[id.value].reservation)
      && Consume(db, token, g, room, instance, key, now)
         == Honour(db, id.value, OpKey(db.tickets[id.value].user, ConsumeTicket, key), ForTicket(token, g, room, instance), instance, now)
  {
    id := First(db.nextId, HasToken(db.tickets, token));
    if id.Some? {
      var t := db.tickets[id.value];
      if !(&& g in db.sessions && t.game == g && t.room == room && db.sessions[g].room == room
           && TakesTickets(db.sessions[g].lifecycle) && ReservedByUser(db.bank.reservations, g, t.user)(t.reservation))
      {
        id := None;
      }
    }
  }

  lemma HonourAdvances(cfg: Config, db: Db, id: TicketId, k: OpKey, request: Request, instance: string, now: int)
    requires Sound(cfg, db) && id in db.tickets && k.scope == ConsumeTicket && db.tickets[id].game in db.sessions
    requires BoundSeat(db, db.tickets[id]) == Some(db.tickets[id].reservation)
    requires SeatFits(db, db.tickets[id], db.tickets[id].reservation)
    ensures Advances(cfg, db, Honour(db, id, k, request, instance, now).db)
  {
    Still(cfg, db);
    PresentedAdvances(cfg, db, id, k, request, instance, now);
  }

  /** Both ways of using a ticket whose seat is in place. */
  lemma PresentedAdvances(cfg: Config, db: Db, id: TicketId, k: OpKey, request: Request, instance: string, now: int)
    requires Sound(cfg, db) && id in db.tickets && k.scope == ConsumeTicket && db.tickets[id].game in db.sessions
    requires BoundSeat(db, db.tickets[id]) == Some(db.tickets[id].reservation)
    requires SeatFits(db, db.tickets[id], db.tickets[id].reservation)
    ensures db.tickets[id].consumedBy.Some? ==> Advances(cfg, db, Reuse(db, id, k, request, instance, now).db)
    ensures db.tickets[id].consumedBy.None? && k !in db.ops ==> Advances(cfg, db, Present(db, id, k, request, instance, now).db)
  {
    Still(cfg, db);
    var t := db.tickets[id];
    if k !in db.ops {
      var index := db.seats[t.reservation].index;
      if t.consumedBy.Some? {
        NoOpAdvances(cfg, db, k, request, Admitted(t.user, AdmissionOf(t), index, true), now);
      } else {
        BindAdvances(cfg, db, id, k, request, instance, index, now);
      }
    }
  }

  /* ---------- Starting, and marking for recovery ---------- */

  lemma RelabelSeats(games: Games, seats: Seats, rows: Rows, n: nat, m: nat, g: GameId, s: Session)
    requires SeatPart(games, seats, rows, n) && n <= m && g in games && Live(games[g].lifecycle) && Live(s.lifecycle)
    requires SameTerms(s, games[g])
    requires Started(s.lifecycle) ==> RivalSeated(seats, g, s.creator) && s.startedAt.Some? && s.version > 0
    requires !Started(s.lifecycle) ==> s.version == 0
    ensures SeatPart(games[g := s], seats, rows, m)
  {
    OpenSeats(games, seats, rows, n);
    assert GameOk(games[g], seats, g);
    RelabelKeeps(games, seats, rows, n, m, g, s);
    SealSeats(games[g := s], seats, rows, m);
  }

  lemma RelabelAdvances(cfg: Config, db: Db, g: GameId, s: Session)
    requires Sound(cfg, db) && g in db.sessions && Live(db.sessions[g].lifecycle) && Live(s.lifecycle)
    requires GameGrows(db.sessions[g], s) && s.startedAt.Some? && s.version > 0
    requires Started(s.lifecycle) && RivalSeated(db.seats, g, s.creator)
    ensures Advances(cfg, db, WithSession(db, g, s))
  {
    var after := WithSession(db, g, s);
    GrowsSession(db, g, s);
    DeskFollows(db, after);
    RelabelSeats(db.sessions, db.seats, db.bank.reservations, db.nextId, db.nextId, g, s);
    RecordsFollow(db, after);
  }

  lemma StartedFacts(games: Games, seats: Seats, rows: Rows, n: nat, g: GameId)
    requires SeatPart(games, seats, rows, n) && g in games
    ensures Live(games[g].lifecycle) || Ended(games[g].lifecycle)
    ensures Started(games[g].lifecycle) ==>
      RivalSeated(seats, g, games[g].creator) && games[g].startedAt.Some? && games[g].version > 0
    ensures !Started(games[g].lifecycle) ==> games[g].version == 0
  {
    OpenSeats(games, seats, rows, n);
    assert GameOk(games[g], seats, g);
  }

  lemma MarkRecoveryAdvances(cfg: Config, db: Db, g: GameId, inactiveBefore: int, evidence: bool)
    requires Sound(cfg, db)
    ensures Advances(cfg, db, MarkRecovery(db, g, inactiveBefore, evidence).db)
  {
    Still(cfg, db);
    if g in db.sessions {
      RecoveryAdvances(cfg, db, g);
    }
  }

  lemma MarkProofRecoveryAdvances(cfg: Config, db: Db, g: GameId)
    requires Sound(cfg, db)
    ensures Advances(cfg, db, MarkProofRecovery(db, g).db)
  {
    Still(cfg, db);
    if g in db.sessions {
      RecoveryAdvances(cfg, db, g);
    }
  }

  lemma RecoveryAdvances(cfg: Config, db: Db, g: GameId)
    requires Sound(cfg, db) && g in db.sessions
    ensures Underway(db.sessions[g].lifecycle) ==>
      Advances(cfg, db, WithSession(db, g, db.sessions[g].(lifecycle := RecoveryRequired)))
  {
    StartedFacts(db.sessions, db.seats, db.bank.reservations, db.nextId, g);
    if db.sessions[g].lifecycle == Active {
      RelabelAdvances(cfg, db, g, db.sessions[g].(lifecycle := RecoveryRequired));
    }
  }

  /** Two seated participants cannot both be the creator. */
  lemma TwoMakeARival(db: Db, g: GameId, creator: UserId)
    requires SeatPart(db.sessions, db.seats, db.bank.reservations, db.nextId) && |Participants(db, g)| >= 2
    ensures RivalSeated(db.seats, g, creator)
  {
    var rows := Participants(db, g);
    OpenSeats(db.sessions, db.seats, db.bank.reservations, db.nextId);
    ParticipantsAre(db, g);
    assert rows[0] in rows && rows[1] in rows;
    assert SeatedIn(db.seats, g, rows[0]) && SeatedIn(db.seats, g, rows[1]) && rows[0] != rows[1];
    assert Apart(db.seats[rows[0]], db.seats[rows[1]]);
  }

  lemma StartAdvances(cfg: Config, db: Db, g: GameId, room: RoomId, version: int, key: string, now: int)
    requires Sound(cfg, db)
    ensures Advances(cfg, db, Start(db, g, room, version, key, now).db)
  {
    Still(cfg, db);
    if g in db.sessions && db.sessions[g].lifecycle == Open && version > 0 && |Participants(db, g)| >= 2 {
      var s := db.sessions[g].(lifecycle := Active, version := version, startedAt := Some(now));
      var k := OpKey(s.creator, MarkStarted, key);
      if k !in db.ops && db.sessions[g].version == 0 {
        TwoMakeARival(db, g, s.creator);
        RelabelAdvances(cfg, db, g, s);
        NoOpAdvances(cfg, WithSession(db, g, s), k, ForStart(g, room, version), Committed(db.nextId), now);
        AdvancesTrans(cfg, db, WithSession(db, g, s),
          Record(WithSession(db, g, s), k, ForStart(g, room, version), NoOp, Committed(db.nextId), now));
      }
    }
  }

  /* ---------- Settling ---------- */

  lemma ParticipantsIs(db: Db, g: GameId)
    requires SeatPart(db.sessions, db.seats, db.bank.reservations, db.nextId)
    requires g in db.sessions && Live(db.sessions[g].lifecycle)
    ensures Closable(db.bank.reservations, Participants(db, g)) && Listed(db, Participants(db, g), g)
    ensures forall r :: r in Participants(db, g) <==> StillReserved(db.bank.reservations, g, r)
    ensures forall r :: r in Participants(db, g) <==> SeatedIn(db.seats, g, r)
    ensures forall i :: 0 <= i < |Participants(db, g)| ==>
      db.bank.reservations[Participants(db, g)[i]].amount == db.sessions[g].entry
  {
    var rows := Participants(db, g);
    OpenSeats(db.sessions, db.seats, db.bank.reservations, db.nextId);
    ParticipantsAre(db, g);
    ParticipantsExactly(db, g);
    forall i | 0 <= i < |rows|
      ensures db.bank.reservations[rows[i]].game == g && db.bank.reservations[rows[i]].amount == db.sessions[g].entry
    {
      assert rows[i] in rows;
      assert RowOk(db.sessions, db.bank.reservations[rows[i]]);
    }
    forall i, j | 0 <= i < j < |rows| ensures db.bank.reservations[rows[i]].user != db.bank.reservations[rows[j]].user {
      assert rows[i] in rows && rows[j] in rows;
      assert SeatOk(db.sessions, db.bank.reservations, db.nextId, db.seats[rows[i]], rows[i]);
      assert SeatOk(db.sessions, db.bank.reservations, db.nextId, db.seats[rows[j]], rows[j]);
      assert Apart(db.seats[rows[i]], db.seats[rows[j]]);
    }
  }

  lemma TakenAllParts(b: Bank, k: OpKey, rows: seq<ReservationId>, winner: UserId)
    requires BankPart(b) && Closable(b.reservations, rows) && winner in b.accounts
    ensures var o := CloseAll(b, k, rows, Captured);
      && o.Ok? && winner in o.value.accounts
      && var paid := Enter(o.value, k, Available(winner), Amounts(b.reservations, rows));
      && BankPart(paid) && Moves(b, paid, k) && ClosesExactly(b.reservations, paid.reservations, rows, Captured, k)
      && forall v :: Wealth(paid, v) == Wealth(b, v) - StakeOf(b.reservations, rows, v)
           + if v == winner then Amounts(b.reservations, rows) else 0
  {
    OpenBank(b);
    TakeAllKeeps(b, k, rows);
    var taken := CloseAll(b, k, rows, Captured).value;
    var prize := Amounts(b.reservations, rows);
    PayKeeps(taken, k, 0 - prize, winner, prize);
    var paid := Enter(taken, k, Available(winner), prize);
    MovesTrans(b, taken, paid, k);
    BalancedIsBooks(paid, k);
    SealBank(paid);
  }

  lemma SettleSeats(games: Games, seats: Seats, rows: Rows, n: nat, m: nat, g: GameId, version: nat, after: Rows)
    requires SeatPart(games, seats, rows, n) && n <= m && g in games && Ends(rows, after, g) && version > 0
    requires games[g].lifecycle == Active || games[g].lifecycle == RecoveryRequired
    ensures SeatPart(games[g := games[g].(lifecycle := Settled, version := version)], seats, after, m)
  {
    OpenSeats(games, seats, rows, n);
    SettleKeeps(games, seats, rows, n, m, g, games[g].(lifecycle := Settled, version := version), after);
    SealSeats(games[g := games[g].(lifecycle := Settled, version := version)], seats, after, m);
  }

  /** The tables once session `g` has been closed out by settlement `s`. */
  function ClosedOut(db: Db, g: GameId, version: nat, bank: Bank, s: Settlement, added: seq<HistoryRow>, won: map<UserId, int>): Db
    requires g in db.sessions
  {
    WithSession(db, g, db.sessions[g].(lifecycle := Settled, version := version)).(
      bank := bank, settlements := db.settlements + [s], history := db.history + added, coinsWon := won)
  }

  lemma GrowsClosedOut(db: Db, k: OpKey, g: GameId, version: nat, bank: Bank, s: Settlement, added: seq<HistoryRow>, won: map<UserId, int>)
    requires g in db.sessions && !Ended(db.sessions[g].lifecycle) && db.sessions[g].version <= version
    requires Moves(db.bank, bank, k) && RowsGrow(db.bank.reservations, bank.reservations)
    requires bank.reservations.Keys == db.bank.reservations.Keys
    ensures GrowPart(db, ClosedOut(db, g, version, bank, s, added, won))
  {
    SealGrowth(db, ClosedOut(db, g, version, bank, s, added, won));
  }

  function ClosingStatus(kind: Ending): Status {
    if kind == Completed then Captured else Released
  }

  /** Each listed seat has its reservation closed by the settlement and its user scored. */
  lemma ExecutedNow(db: Db, after: Db, s: Settlement, rows: seq<ReservationId>, winner: Option<UserId>, prize: int)
    requires SeatPart(db.sessions, db.seats, db.bank.reservations, db.nextId)
    requires forall i :: 0 <= i < |rows| ==> rows[i] in db.seats && rows[i] in db.bank.reservations
    requires after.seats == db.seats && after.history == db.history + ScoreRows(db, rows, winner, prize)
    requires forall r :: r in rows <==> SeatedIn(db.seats, s.game, r)
    requires ClosesExactly(db.bank.reservations, after.bank.reservations, rows, ClosingStatus(s.kind), s.op)
    ensures Executed(after.seats, after.bank.reservations, after.history, s)
  {
    ScoreRowsAt(db, rows, winner, prize);
    forall r | SeatedIn(after.seats, s.game, r)
      ensures SeatSettled(after.bank.reservations, after.history, s, r, after.seats[r])
    {
      assert r in rows;
      SeatOfRow(db.sessions, db.seats, db.bank.reservations, db.nextId, r);
      var i :| 0 <= i < |rows| && rows[i] == r;
      assert after.history[|db.history| + i] == ScoreRow(db, r, winner, prize);
    }
  }

  lemma SettleRecords(db: Db, after: Db, g: GameId, s: Settlement, added: seq<HistoryRow>)
    requires RecordPart(db) && GrowPart(db, after)
    requires SeatPart(db.sessions, db.seats, db.bank.reservations, db.nextId)
    requires SeatPart(after.sessions, after.seats, after.bank.reservations, after.nextId)
    requires g in db.sessions && !Ended(db.sessions[g].lifecycle) && s.game == g
    requires g in after.sessions && after.sessions == db.sessions[g := after.sessions[g]] && after.sessions[g].lifecycle == Settled
    requires after.history == db.history + added && after.settlements == db.settlements + [s]
    requires FreshRows(added, g) && DeltaSum(added, g) == 0 && Wins(added, g) == WinsOf(s.kind)
    requires Authorized(after.sessions, after.ops, s) && Executed(after.seats, after.bank.reservations, after.history, s)
    ensures RecordPart(after)
  {
    SettleTallies(db, after, g, s, added);
    SettleExecutes(db, after, s);
    SealRecords(after);
  }

  lemma SettleTallies(db: Db, after: Db, g: GameId, s: Settlement, added: seq<HistoryRow>)
    requires RecordPart(db) && GrowPart(db, after)
    requires g in db.sessions && !Ended(db.sessions[g].lifecycle) && s.game == g
    requires g in after.sessions && after.sessions == db.sessions[g := after.sessions[g]] && after.sessions[g].lifecycle == Settled
    requires FreshRows(added, g) && DeltaSum(added, g) == 0 && Wins(added, g) == WinsOf(s.kind)
    ensures Tallied(after.sessions, db.settlements + [s], db.history + added)
  {
    OpenRecords(db);
    OpenGrowth(db, after);
    SettleTallied(db.sessions, db.settlements, db.history, after.sessions, s, added);
  }

  lemma SettleExecutes(db: Db, after: Db, s: Settlement)
    requires RecordPart(db) && GrowPart(db, after)
    requires SeatPart(db.sessions, db.seats, db.bank.reservations, db.nextId)
    requires SeatPart(after.sessions, after.seats, after.bank.reservations, after.nextId)
    requires after.settlements == db.settlements + [s]
    requires Authorized(after.sessions, after.ops, s) && Executed(after.seats, after.bank.reservations, after.history, s)
    ensures AllExecuted(after)
  {
    OpenRecords(db);
    OpenGrowth(db, after);
    OpenSeats(db.sessions, db.seats, db.bank.reservations, db.nextId);
    OpenSeats(after.sessions, after.seats, after.bank.reservations, after.nextId);
    AllExecutedStays(db, after, |db.settlements|);
  }

  lemma ScoresAreFresh(db: Db, rows: seq<ReservationId>, g: GameId, winner: Option<UserId>, prize: int)
    requires Listed(db, rows, g)
    ensures FreshRows(ScoreRows(db, rows, winner, prize), g)
  {
    ScoreRowsAt(db, rows, winner, prize);
  }

  /** Closing a session out, by payment or by refund. */
  lemma ClosedOutAdvances(cfg: Config, db: Db, k: OpKey, request: Request, g: GameId, version: nat, bank: Bank,
      s: Settlement, winner: Option<UserId>, prize: int, won: map<UserId, int>, now: int, after: Db)
    requires Sound(cfg, db) && k !in db.ops && g in db.sessions
    requires db.sessions[g].lifecycle == Active || db.sessions[g].lifecycle == RecoveryRequired
    requires k.actor == db.sessions[g].creator && db.sessions[g].version <= version
    requires s.game == g && s.op == k && k.scope == (if s.kind == Completed then SettleSession else AbortSession)
    requires s.kind == Completed <==> s.winner.Some?
    requires BankPart(bank) && Moves(db.bank, bank, k)
    requires ClosesExactly(db.bank.reservations, bank.reservations, Participants(db, g), ClosingStatus(s.kind), k)
    requires var added := ScoreRows(db, Participants(db, g), winner, prize);
      DeltaSum(added, g) == 0 && Wins(added, g) == WinsOf(s.kind)
    requires after == RecordCommitted(
      ClosedOut(db, g, version, bank, s, ScoreRows(db, Participants(db, g), winner, prize), won), k, request, now)
    ensures Advances(cfg, db, after)
  {
    var rows := Participants(db, g);
    var added := ScoreRows(db, rows, winner, prize);
    var mid := ClosedOut(db, g, version, bank, s, added, won);
    ClosedOutSeats(db, k, g, version, bank, ClosingStatus(s.kind), after.nextId);
    GrowsClosedOut(db, k, g, version, bank, s, added, won);
    ClosedOutRecorded(cfg, db, mid, k, request, now, after);
    ClosedOutScores(db, after, g, s, winner, prize);
    SettleRecords(db, after, g, s, added);
  }

  /** Seats and reservations agree after every participant's stake has been closed. */
  lemma ClosedOutSeats(db: Db, k: OpKey, g: GameId, version: nat, bank: Bank, status: Status, m: nat)
    requires SeatPart(db.sessions, db.seats, db.bank.reservations, db.nextId) && db.nextId <= m
    requires g in db.sessions && (db.sessions[g].lifecycle == Active || db.sessions[g].lifecycle == RecoveryRequired)
    requires db.sessions[g].version <= version && status != Reserved
    requires ClosesExactly(db.bank.reservations, bank.reservations, Participants(db, g), status, k)
    ensures RowsGrow(db.bank.reservations, bank.reservations)
    ensures SeatPart(db.sessions[g := db.sessions[g].(lifecycle := Settled, version := version)], db.seats, bank.reservations, m)
  {
    StartedFacts(db.sessions, db.seats, db.bank.reservations, db.nextId, g);
    ParticipantsIs(db, g);
    ClosingEnds(db.bank.reservations, bank.reservations, Participants(db, g), status, k, g);
    EndsGrow(db.bank.reservations, bank.reservations, g);
    SettleSeats(db.sessions, db.seats, db.bank.reservations, db.nextId, m, g, version, bank.reservations);
  }

  lemma ClosedOutScores(db: Db, after: Db, g: GameId, s: Settlement, winner: Option<UserId>, prize: int)
    requires SeatPart(db.sessions, db.seats, db.bank.reservations, db.nextId)
    requires g in db.sessions && Live(db.sessions[g].lifecycle) && s.game == g
    requires after.seats == db.seats && after.history == db.history + ScoreRows(db, Participants(db, g), winner, prize)
    requires ClosesExactly(db.bank.reservations, after.bank.reservations, Participants(db, g), ClosingStatus(s.kind), s.op)
    ensures FreshRows(ScoreRows(db, Participants(db, g), winner, prize), g)
    ensures Executed(after.seats, after.bank.reservations, after.history, s)
  {
    ParticipantsIs(db, g);
    ScoresAreFresh(db, Participants(db, g), g, winner, prize);
    ExecutedNow(db, after, s, Participants(db, g), winner, prize);
  }

  /** The operation committed on top of a closed-out session. */
  lemma ClosedOutRecorded(cfg: Config, db: Db, mid: Db, k: OpKey, request: Request, now: int, after: Db)
    requires DeskPart(db) && GrowPart(db, mid) && RescuePart(cfg, db.bank, db.ops) && Moves(db.bank, mid.bank, k)
    requires mid.ops == db.ops && mid.tickets == db.tickets && k !in db.ops
    requires k.scope == SettleSession || k.scope == AbortSession
    requires after == RecordCommitted(mid, k, request, now)
    ensures DeskPart(after) && GrowPart(db, after) && RescuePart(cfg, after.bank, after.ops)
  {
    DeskFollows(db, mid);
    DeskRecords(mid, k, request, CommittedOp, Committed(mid.nextId), now);
    GrowsRecord(mid, k, request, CommittedOp, Committed(mid.nextId), now);
    GrowsThen(db, mid, after);
    RescuesFollow(cfg, db.bank, mid.bank, db.ops, k, after.ops[k]);
  }

  lemma PayOutAdvances(cfg: Config, db: Db, k: OpKey, request: Request, g: GameId, version: nat, winner: UserId, now: int)
    requires Sound(cfg, db) && k !in db.ops && g in db.sessions && k == OpKey(db.sessions[g].creator, SettleSession, k.key)
    requires db.sessions[g].lifecycle == Active || db.sessions[g].lifecycle == RecoveryRequired
    requires db.sessions[g].version <= version && winner in db.bank.accounts && Plays(db, Participants(db, g), winner)
    ensures PayOut(db, k, request, g, version, winner, now).Ok?
    ensures Advances(cfg, db, PayOut(db, k, request, g, version, winner, now).value)
  {
    var rows := Participants(db, g);
    var prize := Amounts(db.bank.reservations, rows);
    ParticipantsIs(db, g);
    TakenAllParts(db.bank, k, rows, winner);
    var paid := Enter(CloseAll(db.bank, k, rows, Captured).value, k, Available(winner), prize);
    ScoreTally(db, rows, g, winner, prize);
    PayOutIs(db, k, request, g, version, winner, now);
    ClosedOutAdvances(cfg, db, k, request, g, version, paid, Settlement(g, Completed, k, Some(version), Some(winner)),
      Some(winner), prize, Ranked(db, rows, winner, prize), now, PayOut(db, k, request, g, version, winner, now).value);
  }

  lemma PayOutIs(db: Db, k: OpKey, request: Request, g: GameId, version: nat, winner: UserId, now: int)
    requires g in db.sessions && winner in db.bank.accounts
    requires var o := CloseAll(db.bank, k, Participants(db, g), Captured); o.Ok? && winner in o.value.accounts
    ensures var rows := Participants(db, g);
      var prize := Amounts(db.bank.reservations, rows);
      var paid := Enter(CloseAll(db.bank, k, rows, Captured).value, k, Available(winner), prize);
      PayOut(db, k, request, g, version, winner, now) == Ok(RecordCommitted(
        ClosedOut(db, g, version, paid, Settlement(g, Completed, k, Some(version), Some(winner)),
          ScoreRows(db, rows, Some(winner), prize), Ranked(db, rows, winner, prize)), k, request, now))
  {
  }

  lemma GiveBackAdvances(cfg: Config, db: Db, k: OpKey, request: Request, g: GameId, now: int, after: Db)
    requires Sound(cfg, db) && k !in db.ops && g in db.sessions && k == OpKey(db.sessions[g].creator, AbortSession, k.key)
    requires db.sessions[g].lifecycle == Active || db.sessions[g].lifecycle == RecoveryRequired
    requires GiveBack(db, k, request, g, now) == Ok(after)
    ensures Advances(cfg, db, after)
  {
    var rows := Participants(db, g);
    var bank := CloseAll(db.bank, k, rows, Released).value;
    ParticipantsIs(db, g);
    FreedAllParts(db.bank, k, rows, bank);
    AbortTally(db, rows, g);
    ClosedOutAdvances(cfg, db, k, request, g, db.sessions[g].version, bank, Settlement(g, Aborted, k, None, None),
      None, 0, db.coinsWon, now, after);
  }

  lemma {:induction false} WinnerRowIsListed(db: Db, rows: seq<ReservationId>, winner: PlayerId)
    requires forall i :: 0 <= i < |rows| ==> rows[i] in db.seats
    ensures var r := WinnerRow(db, rows, winner); r.Some? ==> r.value in rows && db.seats[r.value].player == winner
    decreases |rows|
  {
    if rows != [] {
      WinnerRowIsListed(db, rows[..|rows| - 1], winner);
    }
  }

  lemma SettleAdvances(cfg: Config, db: Db, g: GameId, room: RoomId, version: nat, checksum: string, key: string, now: int)
    requires Sound(cfg, db)
    ensures Advances(cfg, db, Settle(db, g, room, version, checksum, key, now).db)
  {
    Still(cfg, db);
    if g in db.sessions && SettlesFrom(db.sessions[g].lifecycle) && ProofHolds(db, g, room, version, checksum) {
      var k := OpKey(db.sessions[g].creator, SettleSession, key);
      var rows := Participants(db, g);
      var r := WinnerRow(db, rows, db.proofs[g].winner);
      WinnerRowIsListed(db, rows, db.proofs[g].winner);
      StartedFacts(db.sessions, db.seats, db.bank.reservations, db.nextId, g);
      if r.Some? && k !in db.ops {
        var winner := db.bank.reservations[r.value].user;
        if PayoutFits(db, winner, Amounts(db.bank.reservations, rows)) {
          PayOutAdvances(cfg, db, k, ForSettlement(g, room, version, checksum), g, version, winner, now);
        }
      }
    }
  }

  lemma AbortAdvances(cfg: Config, db: Db, g: GameId, reason: string, key: string, now: int)
    requires Sound(cfg, db)
    ensures Advances(cfg, db, Abort(db, g, reason, key, now).db)
  {
    Still(cfg, db);
    AbortIs(db, g, reason, key, now);
    var after := Abort(db, g, reason, key, now).db;
    if after != db {
      GiveBackAdvances(cfg, db, OpKey(db.sessions[g].creator, AbortSession, key), ForAbort(g, reason), g, now, after);
    }
  }

  /** An abort changes the tables only by giving back the stakes of a started session under a new key. */
  lemma AbortIs(db: Db, g: GameId, reason: string, key: string, now: int)
    ensures var after := Abort(db, g, reason, key, now).db;
      || after == db
      || (&& g in db.sessions && (db.sessions[g].lifecycle == Active || db.sessions[g].lifecycle == RecoveryRequired)
          && OpKey(db.sessions[g].creator, AbortSession, key) !in db.ops
          && GiveBack(db, OpKey(db.sessions[g].creator, AbortSession, key), ForAbort(g, reason), g, now) == Ok(after))
  {
  }

  /* ---------- Every step ---------- */

  /** What the game server writes, the invariant does not speak of. */
  lemma RoomWritesAdvance(cfg: Config, db: Db, after: Db)
    requires Sound(cfg, db) && db.materialized <= after.materialized
    requires after == db.(materialized := after.materialized, proofs := after.proofs)
    ensures Advances(cfg, db, after)
  {
    SealGrowth(db, after);
    DeskFollows(db, after);
    RecordsFollow(db, after);
  }

  lemma StepAdvances(cfg: Config, db: Db, call: Call)
    requires Sound(cfg, db) && ValidConfig(cfg)
    ensures Advances(cfg, db, Step(cfg, db, call).db)
  {
    if call.CallProvision? || call.CallRescue? || call.CallCreate? || call.CallJoin? || call.CallReconnect? {
      RequestAdvances(cfg, db, call);
    } else if call.CallLeave? || call.CallCancel? || call.CallFinalize? || call.CallCancelExpired? || call.CallReleaseExpired? {
      WithdrawalAdvances(cfg, db, call);
    } else if call.CallConsume? || call.CallStart? || call.CallSettle? || call.CallAbort? {
      RoomCallAdvances(cfg, db, call);
    } else {
      MarkAdvances(cfg, db, call);
    }
  }

  lemma RequestAdvances(cfg: Config, db: Db, call: Call)
    requires Sound(cfg, db) && ValidConfig(cfg)
    requires call.CallProvision? || call.CallRescue? || call.CallCreate? || call.CallJoin? || call.CallReconnect?
    ensures Advances(cfg, db, Step(cfg, db, call).db)
  {
    match call
    case CallProvision(u, now) => ProvisionAdvances(cfg, db, u, now);
    case CallRescue(u, key, now) => RescueAdvances(cfg, db, u, key, now);
    case CallCreate(u, id, d, key, now) => CreateAdvances(cfg, db, u, id, d, key, now);
    case CallJoin(u, g, key, now) => JoinAdvances(cfg, db, u, g, key, now);
    case CallReconnect(u, g, key, now) => ReconnectAdvances(cfg, db, u, g, key, now);
  }

  lemma WithdrawalAdvances(cfg: Config, db: Db, call: Call)
    requires Sound(cfg, db)
    requires call.CallLeave? || call.CallCancel? || call.CallFinalize? || call.CallCancelExpired? || call.CallReleaseExpired?
    ensures Advances(cfg, db, Step(cfg, db, call).db)
  {
    match call
    case CallLeave(u, g, key, now) => LeaveAdvances(cfg, db, u, g, key, ForGame(g), now, None);
    case CallCancel(u, g, key, now) => CancelAdvances(cfg, db, u, g, key, ForGame(g), now, None);
    case CallFinalize(g, b, action, key, now) => FinalizeAdvances(cfg, db, g, b, action, key, now);
    case CallCancelExpired(g, before, key, now) => CancelExpiredAdvances(cfg, db, g, before, key, now);
    case CallReleaseExpired(r, before, key, now) =>
      Still(cfg, db);
      ReleaseExpiredDoesNothing(db, r, before, key, now);
  }

  lemma RoomCallAdvances(cfg: Config, db: Db, call: Call)
    requires Sound(cfg, db)
    requires call.CallConsume? || call.CallStart? || call.CallSettle? || call.CallAbort?
    ensures Advances(cfg, db, Step(cfg, db, call).db)
  {
    if call.CallConsume? {
      ConsumeAdvances(cfg, db, call.token, call.game, call.room, call.instance, call.key, call.now);
    } else {
      GameCallAdvances(cfg, db, call);
    }
  }

  lemma GameCallAdvances(cfg: Config, db: Db, call: Call)
    requires Sound(cfg, db) && (call.CallStart? || call.CallSettle? || call.CallAbort?)
    ensures Advances(cfg, db, Step(cfg, db, call).db)
  {
    if call.CallSettle? {
      SettleAdvances(cfg, db, call.game, call.room, call.version, call.checksum, call.key, call.now);
    } else {
      StartOrAbortAdvances(cfg, db, call);
    }
  }

  lemma StartOrAbortAdvances(cfg: Config, db: Db, call: Call)
    requires Sound(cfg, db) && (call.CallStart? || call.CallAbort?)
    ensures Advances(cfg, db, Step(cfg, db, call).db)
  {
    match call
    case CallStart(g, room, version, key, now) => StartAdvances(cfg, db, g, room, version, key, now);
    case CallAbort(g, reason, key, now) => AbortAdvances(cfg, db, g, reason, key, now);
  }

  lemma MarkAdvances(cfg: Config, db: Db, call: Call)
    requires Sound(cfg, db)
    requires call.CallMarkRecovery? || call.CallMarkProofRecovery? || call.RoomMaterialized? || call.RoomProved?
    ensures Advances(cfg, db, Step(cfg, db, call).db)
  {
    match call
    case CallMarkRecovery(g, before, evidence) => MarkRecoveryAdvances(cfg, db, g, before, evidence);
    case CallMarkProofRecovery(g) => MarkProofRecoveryAdvances(cfg, db, g);
    case RoomMaterialized(_) => RoomWritesAdvance(cfg, db, Step(cfg, db, call).db);
    case RoomProved(_, _) => RoomWritesAdvance(cfg, db, Step(cfg, db, call).db);
  }
}
