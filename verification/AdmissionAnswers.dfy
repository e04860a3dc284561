/**
 * Exactly when a transaction that lets somebody in succeeds, in every reachable state and under a new
 * key, and everything it then changes: creating, joining, tickets, starting, grants, recovery marks.
 */
module AdmissionAnswers {
  import opened Outcomes
  import opened CoinBank
  import opened Sessions
  import opened Seating
  import opened Growth
  import opened Admissions
  import opened Soundness
  import opened SessionGuarantees
  import opened EndingAnswers

  /* ---------- Tying up an entry ---------- */

  /** The user has the coins, and the reserved column can take them. */
  predicate CanHold(b: Bank, u: UserId, amount: nat) {
    amount == 0 || (Column(b, Available(u)) >= amount && Column(b, ReservedFor(u)) + amount <= MAX_ACCOUNT_COIN)
  }

  /** The amount moves from available to reserved for this user alone, against one new reservation. */
  ghost predicate Holds(b: Bank, after: Bank, u: UserId, r: ReservationId, g: GameId, amount: nat) {
    && after.reservations == b.reservations[r := Reservation(u, g, amount, Reserved, None)]
    && (forall v :: Column(after, Available(v)) == Column(b, Available(v)) - if v == u then amount else 0)
    && (forall v :: Column(after, ReservedFor(v)) == Column(b, ReservedFor(v)) + if v == u then amount else 0)
  }

  lemma HoldExactly(b: Bank, k: OpKey, u: UserId, r: ReservationId, g: GameId, amount: nat)
    requires u in b.accounts
    ensures var o := Hold(b, k, u, r, g, amount);
      (o.Ok? <==> CanHold(b, u, amount)) && (o.Ok? ==> Holds(b, o.value, u, r, g, amount))
  {
    var o := Hold(b, k, u, r, g, amount);
    if o.Ok? {
      forall v
        ensures Column(o.value, Available(v)) == Column(b, Available(v)) - if v == u then amount else 0
        ensures Column(o.value, ReservedFor(v)) == Column(b, ReservedFor(v)) + if v == u then amount else 0
      {
        ShiftColumns(b, k, u, amount, v);
      }
    }
  }

  /* ---------- Joining ---------- */

  /** A user who is not seated yet may join an open session with a free seat if the entry can be tied up. */
  ghost predicate CanJoin(db: Db, u: UserId, g: GameId) {
    && u in db.bank.accounts && g in db.sessions && db.sessions[g].lifecycle == Open
    && (forall r :: SeatedIn(db.seats, g, r) ==> db.seats[r].user != u)
    && (exists i :: 0 <= i < db.sessions[g].capacity && !Occupied(db.seats, g, i))
    && CanHold(db.bank, u, db.sessions[g].entry)
  }

  /** All that joining changes; the new identifiers are drawn one after the other. */
  ghost predicate JoinsGame(cfg: Config, db: Db, o: Sessions.Outcome, u: UserId, g: GameId, index: nat, key: string, now: int) {
    && LowestFree(db, u, g, index)
    && var n, room := db.nextId, db.sessions[g].room;
    && var admission := Admission(g, room, n, n + 1);
    && o.reply == Ok(Ticketed(admission, n + 3, now + cfg.ticketTtl))
    && Holds(db.bank, o.db.bank, u, n, g, db.sessions[g].entry)
    && o.db == db.(
         bank := o.db.bank,
         seats := db.seats[n := Seat(g, n + 1, u, index)],
         tickets := db.tickets[n + 2 := Ticket(n + 3, u, g, room, n, n + 1, now, now + cfg.ticketTtl, None)],
         ops := db.ops[OpKey(u, JoinIntent, key) := Operation(n + 4, ForGame(g), CommittedOp, Some(admission), now)],
         nextId := n + 5)
  }

  /** What an admission writes: the hold, the seat, the first ticket, the operation. */
  lemma AdmitIs(cfg: Config, db: Db, k: OpKey, request: Request, a: Response, index: nat, amount: nat, now: int)
    requires a.Admission? && k.actor in db.bank.accounts
    ensures var held, n := Hold(db.bank, k, k.actor, a.reservation, a.game, amount), db.nextId;
      Admit(cfg, db, k, request, a, index, amount, now) ==
        if held.Err? then Err(held.error)
        else Ok(db.(
          bank := held.value,
          seats := db.seats[a.reservation := Seat(a.game, a.player, k.actor, index)],
          tickets := db.tickets[n :=
            Ticket(n + 1, k.actor, a.game, a.room, a.reservation, a.player, now, now + cfg.ticketTtl, None)],
          ops := db.ops[k := Operation(n + 2, request, CommittedOp, Some(a), now)],
          nextId := n + 3))
  {
  }

  lemma JoinAtIsExactly(cfg: Config, db: Db, k: OpKey, g: GameId, index: nat, now: int)
    requires k.actor in db.bank.accounts && g in db.sessions
    ensures var o, n, room := JoinAt(cfg, db, k, g, index, now), db.nextId, db.sessions[g].room;
      var held := Hold(db.bank, k, k.actor, n, g, db.sessions[g].entry);
      if held.Ok? then
        o == Outcome(
          db.(bank := held.value,
              seats := db.seats[n := Seat(g, n + 1, k.actor, index)],
              tickets := db.tickets[n + 2 := Ticket(n + 3, k.actor, g, room, n, n + 1, now, now + cfg.ticketTtl, None)],
              ops := db.ops[k := Operation(n + 4, ForGame(g), CommittedOp, Some(Admission(g, room, n, n + 1)), now)],
              nextId := n + 5),
          Ok(Ticketed(Admission(g, room, n, n + 1), n + 3, now + cfg.ticketTtl)))
      else o.reply.Err? && o.db == db
  {
    AdmitIs(cfg, db.(nextId := db.nextId + 2), k, ForGame(g), Admission(g, db.sessions[g].room, db.nextId, db.nextId + 1),
            index, db.sessions[g].entry, now);
  }

  /** The first seat that a join finds is there exactly when some seat is free. */
  lemma VacancyIs(db: Db, u: UserId, g: GameId)
    requires SeatPart(db.sessions, db.seats, db.bank.reservations, db.nextId) && g in db.sessions
    ensures First(db.nextId, SeatOfUser(db.seats, g, u)).None? <==> forall r :: SeatedIn(db.seats, g, r) ==> db.seats[r].user != u
    ensures First(db.sessions[g].capacity, Vacant(db.seats, g)).Some?
      <==> exists i :: 0 <= i < db.sessions[g].capacity && !Occupied(db.seats, g, i)
  {
    var seat := First(db.nextId, SeatOfUser(db.seats, g, u));
    if seat.Some? {
      assert SeatOfUser(db.seats, g, u)(seat.value);
    }
    forall r | SeatedIn(db.seats, g, r) && seat.None? ensures db.seats[r].user != u {
      SeatIdIsOld(db.sessions, db.seats, db.bank.reservations, db.nextId, r);
      assert !SeatOfUser(db.seats, g, u)(r);
    }
    var free := First(db.sessions[g].capacity, Vacant(db.seats, g));
    if free.Some? {
      assert Vacant(db.seats, g)(free.value);
      assert !Occupied(db.seats, g, free.value);
    }
    forall i | 0 <= i < db.sessions[g].capacity && !Occupied(db.seats, g, i) ensures free.Some? {
      assert Vacant(db.seats, g)(i);
    }
  }

  lemma JoinCases(cfg: Config, db: Db, u: UserId, g: GameId, key: string, now: int)
    requires OpKey(u, JoinIntent, key) !in db.ops
    ensures var o := Join(cfg, db, u, g, key, now);
      if u in db.bank.accounts && g in db.sessions && db.sessions[g].lifecycle == Open
         && First(db.nextId, SeatOfUser(db.seats, g, u)).None? && First(db.sessions[g].capacity, Vacant(db.seats, g)).Some?
      then o == JoinAt(cfg, db, OpKey(u, JoinIntent, key), g, First(db.sessions[g].capacity, Vacant(db.seats, g)).value, now)
      else o.reply.Err? && o.db == db
  {
  }

  lemma JoinAnswers(cfg: Config, db: Db, u: UserId, g: GameId, key: string, now: int)
    requires Sound(cfg, db) && OpKey(u, JoinIntent, key) !in db.ops
    ensures var o := Join(cfg, db, u, g, key, now);
      && (o.reply.Ok? <==> CanJoin(db, u, g))
      && (o.reply.Ok? ==> exists index :: JoinsGame(cfg, db, o, u, g, index, key, now))
      && (o.reply.Err? ==> o.db == db)
  {
    JoinCases(cfg, db, u, g, key, now);
    if g in db.sessions {
      VacancyIs(db, u, g);
      var seat, free := First(db.nextId, SeatOfUser(db.seats, g, u)), First(db.sessions[g].capacity, Vacant(db.seats, g));
      if u in db.bank.accounts && db.sessions[g].lifecycle == Open && seat.None? && free.Some? {
        LowestVacancy(db, u, g, free.value);
        JoinAtIsExactly(cfg, db, OpKey(u, JoinIntent, key), g, free.value, now);
        HoldExactly(db.bank, OpKey(u, JoinIntent, key), u, db.nextId, g, db.sessions[g].entry);
        assert Join(cfg, db, u, g, key, now).reply.Ok? ==> JoinsGame(cfg, db, Join(cfg, db, u, g, key, now), u, g, free.value, key, now);
      }
    }
  }

  /** A join under a new key succeeds exactly when `CanJoin` holds, and then changes exactly this. */
  lemma JoinExactly(cfg: Config, calls: seq<Call>, u: UserId, g: GameId, key: string, now: int)
    requires ValidConfig(cfg) && OpKey(u, JoinIntent, key) !in Reached(cfg, calls).ops
    ensures var db := Reached(cfg, calls);
      var o := Join(cfg, db, u, g, key, now);
      && (o.reply.Ok? <==> CanJoin(db, u, g))
      && (o.reply.Ok? ==> exists index :: JoinsGame(cfg, db, o, u, g, index, key, now))
      && (o.reply.Err? ==> o.db == db)
  {
    ReachedSound(cfg, calls);
    JoinAnswers(cfg, Reached(cfg, calls), u, g, key, now);
  }

  /* ---------- Creating ---------- */

  /** All that creating changes: an open session on the definition's terms, with its creator on seat 0. */
  ghost predicate CreatesGame(cfg: Config, db: Db, o: Sessions.Outcome, u: UserId, id: string, d: Definition, key: string, now: int) {
    var n := db.nextId;
    var admission := Admission(n, n + 1, n + 2, n + 3);
    && o.reply == Ok(Ticketed(admission, n + 5, now + cfg.ticketTtl))
    && Holds(db.bank, o.db.bank, u, n + 2, n, d.entry)
    && o.db == db.(
         bank := o.db.bank,
         sessions := db.sessions[n := Session(n + 1, u, Open, d.capacity, d.entry, 0, now, None)],
         seats := db.seats[n + 2 := Seat(n, n + 3, u, 0)],
         tickets := db.tickets[n + 4 := Ticket(n + 5, u, n, n + 1, n + 2, n + 3, now, now + cfg.ticketTtl, None)],
         ops := db.ops[OpKey(u, CreateSession, key) := Operation(n + 6, ForDefinition(id), CommittedOp, Some(admission), now)],
         nextId := n + 7)
  }

  lemma CreateRefused(cfg: Config, db: Db, u: UserId, id: string, d: Option<Definition>, key: string, now: int)
    requires OpKey(u, CreateSession, key) !in db.ops && !(u in db.bank.accounts && d.Some?)
    ensures Create(cfg, db, u, id, d, key, now).reply.Err? && Create(cfg, db, u, id, d, key, now).db == db
  {
  }

  lemma CreateIs(cfg: Config, db: Db, u: UserId, id: string, d: Definition, key: string, now: int)
    requires u in db.bank.accounts && OpKey(u, CreateSession, key) !in db.ops
    ensures var o, n := Create(cfg, db, u, id, Some(d), key, now), db.nextId;
      var held := Hold(db.bank, OpKey(u, CreateSession, key), u, n + 2, n, d.entry);
      if held.Ok? then
        o == Outcome(
          db.(bank := held.value,
              sessions := db.sessions[n := Session(n + 1, u, Open, d.capacity, d.entry, 0, now, None)],
              seats := db.seats[n + 2 := Seat(n, n + 3, u, 0)],
              tickets := db.tickets[n + 4 := Ticket(n + 5, u, n, n + 1, n + 2, n + 3, now, now + cfg.ticketTtl, None)],
              ops := db.ops[OpKey(u, CreateSession, key) :=
                Operation(n + 6, ForDefinition(id), CommittedOp, Some(Admission(n, n + 1, n + 2, n + 3)), now)],
              nextId := n + 7),
          Ok(Ticketed(Admission(n, n + 1, n + 2, n + 3), n + 5, now + cfg.ticketTtl)))
      else o.reply.Err? && o.db == db
  {
    CreateAdmits(cfg, db, u, id, d, key, now);
    AdmitIs(cfg, WithCreated(db, u, d, now), OpKey(u, CreateSession, key), ForDefinition(id), CreatedAdmission(db), 0, d.entry, now);
  }

  lemma CreateAdmits(cfg: Config, db: Db, u: UserId, id: string, d: Definition, key: string, now: int)
    requires u in db.bank.accounts && OpKey(u, CreateSession, key) !in db.ops
    ensures var o := Create(cfg, db, u, id, Some(d), key, now);
      var admitted := Admit(cfg, WithCreated(db, u, d, now), OpKey(u, CreateSession, key), ForDefinition(id), CreatedAdmission(db),
                            0, d.entry, now);
      && (admitted.Ok? ==> o == Outcome(admitted.value, Ok(Ticketed(CreatedAdmission(db), db.nextId + 5, now + cfg.ticketTtl))))
      && (admitted.Err? ==> o.reply.Err? && o.db == db)
  {
  }

  lemma CreateAnswers(cfg: Config, db: Db, u: UserId, id: string, d: Option<Definition>, key: string, now: int)
    requires OpKey(u, CreateSession, key) !in db.ops
    ensures var o := Create(cfg, db, u, id, d, key, now);
      && (o.reply.Ok? <==> u in db.bank.accounts && d.Some? && CanHold(db.bank, u, d.value.entry))
      && (o.reply.Ok? ==> CreatesGame(cfg, db, o, u, id, d.value, key, now))
      && (o.reply.Err? ==> o.db == db)
  {
    if u in db.bank.accounts && d.Some? {
      CreateIs(cfg, db, u, id, d.value, key, now);
      HoldExactly(db.bank, OpKey(u, CreateSession, key), u, db.nextId + 2, db.nextId, d.value.entry);
    } else {
      CreateRefused(cfg, db, u, id, d, key, now);
    }
  }

  /** A session is created exactly for a user with an account, on a known definition whose entry can be tied up. */
  lemma CreateExactly(cfg: Config, calls: seq<Call>, u: UserId, id: string, d: Option<Definition>, key: string, now: int)
    requires ValidConfig(cfg) && OpKey(u, CreateSession, key) !in Reached(cfg, calls).ops
    ensures var db := Reached(cfg, calls);
      var o := Create(cfg, db, u, id, d, key, now);
      && (o.reply.Ok? <==> u in db.bank.accounts && d.Some? && CanHold(db.bank, u, d.value.entry))
      && (o.reply.Ok? ==> CreatesGame(cfg, db, o, u, id, d.value, key, now))
      && (o.reply.Err? ==> o.db == db)
  {
    CreateAnswers(cfg, Reached(cfg, calls), u, id, d, key, now);
  }

  /* ---------- Tickets ---------- */

  /** The unconsumed ticket gets a new value and a new expiry. */
  ghost predicate Rotates(cfg: Config, db: Db, o: Sessions.Outcome, a: Response, id: TicketId, now: int)
    requires id in db.tickets
  {
    && o.reply == Ok(Ticketed(a, db.nextId, now + cfg.ticketTtl))
    && o.db == db.(
         tickets := db.tickets[id := db.tickets[id].(token := db.nextId, expiresAt := now + cfg.ticketTtl)],
         nextId := db.nextId + 1)
  }

  /** One ticket is added for the admission. */
  ghost predicate AddsTicket(cfg: Config, db: Db, o: Sessions.Outcome, a: Response, u: UserId, now: int)
    requires a.Admission?
  {
    && o.reply == Ok(Ticketed(a, db.nextId + 1, now + cfg.ticketTtl))
    && o.db == db.(
         tickets := db.tickets[db.nextId :=
           Ticket(db.nextId + 1, u, a.game, a.room, a.reservation, a.player, now, now + cfg.ticketTtl, None)],
         nextId := db.nextId + 2)
  }

  /** A ticket for an admission: the unconsumed one changed, or else a new one; nothing but the tickets moves. */
  ghost predicate Issues(cfg: Config, db: Db, o: Sessions.Outcome, a: Response, u: UserId, now: int)
    requires a.Admission?
  {
    && (forall id :: Unused(db.tickets, id, a.reservation) ==> Rotates(cfg, db, o, a, id, now))
    && ((forall id :: !Unused(db.tickets, id, a.reservation)) ==> AddsTicket(cfg, db, o, a, u, now))
  }

  /** Tickets are issued exactly for a reservation that stands in a session that takes tickets. */
  predicate CanIssue(db: Db, a: Response)
    requires a.Admission?
  {
    && a.game in db.sessions && (db.sessions[a.game].lifecycle == Open || db.sessions[a.game].lifecycle == Active)
    && a.reservation in db.bank.reservations
    && db.bank.reservations[a.reservation].game == a.game && db.bank.reservations[a.reservation].status == Reserved
  }

  lemma LatestIsTheUnused(db: Db, r: ReservationId)
    requires DeskPart(db)
    ensures var latest := LatestUnused(db.tickets, r, db.nextId);
      && (latest.Some? ==> Unused(db.tickets, latest.value, r))
      && (forall id: TicketId :: Unused(db.tickets, id, r) ==> latest == Some(id))
  {
    OpenDesk(db);
    forall id: TicketId | Unused(db.tickets, id, r) ensures LatestUnused(db.tickets, r, db.nextId) == Some(id) {
      OnlyUnused(db, r, id);
    }
  }

  lemma ReissueCases(cfg: Config, db: Db, a: Response, now: int)
    requires a.Admission?
    ensures var o, latest := Reissue(cfg, db, a, now), LatestUnused(db.tickets, a.reservation, db.nextId);
      if CanIssue(db, a) then
        if latest.Some? then Rotates(cfg, db, o, a, latest.value, now)
        else AddsTicket(cfg, db, o, a, db.bank.reservations[a.reservation].user, now)
      else o.reply.Err? && o.db == db
  {
  }

  lemma ReissueAnswers(cfg: Config, db: Db, a: Response, now: int)
    requires DeskPart(db) && a.Admission?
    ensures var o := Reissue(cfg, db, a, now);
      && (o.reply.Ok? <==> CanIssue(db, a))
      && (o.reply.Ok? ==> Issues(cfg, db, o, a, db.bank.reservations[a.reservation].user, now))
      && (o.reply.Err? ==> o.db == db)
  {
    ReissueCases(cfg, db, a, now);
    LatestIsTheUnused(db, a.reservation);
    var latest := LatestUnused(db.tickets, a.reservation, db.nextId);
    if latest.Some? {
      assert Unused(db.tickets, latest.value, a.reservation);
    }
  }

  /** A ticket is issued again exactly when `CanIssue` holds. */
  lemma ReissueExactly(cfg: Config, calls: seq<Call>, a: Response, now: int)
    requires ValidConfig(cfg) && a.Admission?
    ensures var db := Reached(cfg, calls);
      var o := Reissue(cfg, db, a, now);
      && (o.reply.Ok? <==> CanIssue(db, a))
      && (o.reply.Ok? ==> Issues(cfg, db, o, a, db.bank.reservations[a.reservation].user, now))
      && (o.reply.Err? ==> o.db == db)
  {
    ReachedSound(cfg, calls);
    ReissueAnswers(cfg, Reached(cfg, calls), a, now);
  }

  /** Whoever is seated in a session that takes tickets may reconnect. */
  ghost predicate CanReconnect(db: Db, u: UserId, g: GameId, r: ReservationId) {
    && g in db.sessions && (db.sessions[g].lifecycle == Open || db.sessions[g].lifecycle == Active)
    && SeatedIn(db.seats, g, r) && db.seats[r].user == u
  }

  /** A ticket for the seat's own admission, and the operation that remembers it. */
  ghost predicate ReconnectDone(cfg: Config, db: Db, o: Sessions.Outcome, u: UserId, g: GameId, r: ReservationId, key: string, now: int) {
    && g in db.sessions && r in db.seats
    && var a := Admission(g, db.sessions[g].room, r, db.seats[r].player);
    && var issued := Reissue(cfg, db, a, now);
    && Issues(cfg, db, issued, a, u, now) && o.reply == issued.reply
    && o.db == issued.db.(
         ops := db.ops[OpKey(u, ReconnectTicket, key) := Operation(issued.db.nextId, ForGame(g), NoOp, Some(a), now)],
         nextId := issued.db.nextId + 1)
  }

  lemma SeatOfUserIs(games: Games, seats: Seats, rows: Rows, n: nat, g: GameId, u: UserId)
    requires SeatPart(games, seats, rows, n)
    ensures var found := First(n, SeatOfUser(seats, g, u));
      && (found.Some? ==> SeatedIn(seats, g, found.value) && seats[found.value].user == u)
      && (forall r: ReservationId :: SeatedIn(seats, g, r) && seats[r].user == u ==> found == Some(r))
  {
    var found := First(n, SeatOfUser(seats, g, u));
    if found.Some? {
      assert SeatOfUser(seats, g, u)(found.value);
    }
    forall r: ReservationId | SeatedIn(seats, g, r) && seats[r].user == u ensures found == Some(r) {
      SeatIdIsOld(games, seats, rows, n, r);
      FirstExists(n, SeatOfUser(seats, g, u), r);
      OneSeatEach(games, seats, rows, n, g, r, found.value);
    }
  }

  lemma OneSeatEach(games: Games, seats: Seats, rows: Rows, n: nat, g: GameId, r: ReservationId, s: ReservationId)
    requires SeatPart(games, seats, rows, n) && SeatedIn(seats, g, r) && SeatedIn(seats, g, s)
    requires seats[r].user == seats[s].user
    ensures r == s
  {
    OpenSeats(games, seats, rows, n);
    assert r == s || Apart(seats[r], seats[s]);
  }

  lemma ReconnectCases(cfg: Config, db: Db, u: UserId, g: GameId, key: string, now: int)
    requires OpKey(u, ReconnectTicket, key) !in db.ops
    ensures var o, found := Reconnect(cfg, db, u, g, key, now), First(db.nextId, SeatOfUser(db.seats, g, u));
      if u in db.bank.accounts && g in db.sessions && TakesTickets(db.sessions[g].lifecycle)
         && found.Some? && found.value in db.seats && StillReserved(db.bank.reservations, g, found.value)
      then
        var a := Admission(g, db.sessions[g].room, found.value, db.seats[found.value].player);
        var issued := Reissue(cfg, db, a, now);
        o == if issued.reply.Err? then issued
             else Outcome(Record(issued.db, OpKey(u, ReconnectTicket, key), ForGame(g), NoOp, a, now), issued.reply)
      else o.reply.Err? && o.db == db
  {
  }

  lemma IssuesKeepOps(cfg: Config, db: Db, a: Response, now: int)
    requires a.Admission?
    ensures Reissue(cfg, db, a, now).db.ops == db.ops
  {
  }

  lemma SeatedReconnects(cfg: Config, db: Db, u: UserId, g: GameId, r: ReservationId, key: string, now: int)
    requires Sound(cfg, db) && OpKey(u, ReconnectTicket, key) !in db.ops && CanReconnect(db, u, g, r)
    ensures var o := Reconnect(cfg, db, u, g, key, now); o.reply.Ok? && ReconnectDone(cfg, db, o, u, g, r, key, now)
  {
    ReconnectCases(cfg, db, u, g, key, now);
    SeatOfUserIs(db.sessions, db.seats, db.bank.reservations, db.nextId, g, u);
    StakeOfSeat(db.sessions, db.seats, db.bank.reservations, db.nextId, g, r);
    UserHasAccount(db.bank, r);
    var a := Admission(g, db.sessions[g].room, r, db.seats[r].player);
    ReissueAnswers(cfg, db, a, now);
    IssuesKeepOps(cfg, db, a, now);
  }

  /** A reconnection under a new key succeeds exactly for a seated user of a session that takes tickets. */
  lemma ReconnectExactly(cfg: Config, calls: seq<Call>, u: UserId, g: GameId, key: string, now: int)
    requires ValidConfig(cfg) && OpKey(u, ReconnectTicket, key) !in Reached(cfg, calls).ops
    ensures var db := Reached(cfg, calls);
      var o := Reconnect(cfg, db, u, g, key, now);
      && (o.reply.Ok? <==> exists r :: CanReconnect(db, u, g, r))
      && (forall r :: CanReconnect(db, u, g, r) ==> ReconnectDone(cfg, db, o, u, g, r, key, now))
      && (o.reply.Err? ==> o.db == db)
  {
    ReachedSound(cfg, calls);
    var db := Reached(cfg, calls);
    ReconnectCases(cfg, db, u, g, key, now);
    SeatOfUserIs(db.sessions, db.seats, db.bank.reservations, db.nextId, g, u);
    forall r | CanReconnect(db, u, g, r)
      ensures Reconnect(cfg, db, u, g, key, now).reply.Ok? && ReconnectDone(cfg, db, Reconnect(cfg, db, u, g, key, now), u, g, r, key, now)
    {
      SeatedReconnects(cfg, db, u, g, r, key, now);
    }
    var found := First(db.nextId, SeatOfUser(db.seats, g, u));
    if found.Some? && g in db.sessions && TakesTickets(db.sessions[g].lifecycle) {
      assert CanReconnect(db, u, g, found.value);
    }
  }

  /* ---------- Presenting a ticket ---------- */

  /** The ticket names this session and room, the session takes tickets, and the reservation stands. */
  predicate Presentable(db: Db, id: TicketId, g: GameId, room: RoomId)
    requires id in db.tickets
  {
    var t := db.tickets[id];
    && g in db.sessions && t.game == g && t.room == room
    && (db.sessions[g].lifecycle == Open || db.sessions[g].lifecycle == Active)
    && t.reservation in db.bank.reservations && db.bank.reservations[t.reservation].status == Reserved
  }

  /** A first presentation must come before the expiry; any later one must come from the instance that consumed the ticket. */
  predicate StillGood(t: Ticket, instance: string, now: int) {
    if t.consumedBy.Some? then t.consumedBy.value == instance else now < t.expiresAt
  }

  /** The ticket is bound to the instance and the user is told the seat; nothing else changes. */
  ghost predicate AdmitsHolder(db: Db, o: Sessions.Outcome, id: TicketId, instance: string, key: string, now: int)
    requires id in db.tickets
  {
    var t := db.tickets[id];
    && t.reservation in db.seats
    && var response := Admitted(t.user, Admission(t.game, t.room, t.reservation, t.player), db.seats[t.reservation].index, t.consumedBy.Some?);
    && var at := if t.consumedBy.Some? || now > t.createdAt then now else t.createdAt;
    && o.reply == Ok(response)
    && o.db == db.(
         tickets := db.tickets[id := t.(consumedBy := Some(instance))],
         ops := db.ops[OpKey(t.user, ConsumeTicket, key) :=
           Operation(db.nextId, ForTicket(t.token, t.game, t.room, instance), NoOp, Some(response), at)],
         nextId := db.nextId + 1)
  }

  lemma TokenFindsTicket(db: Db, id: TicketId)
    requires DeskPart(db) && id in db.tickets
    ensures First(db.nextId, HasToken(db.tickets, db.tickets[id].token)) == Some(id)
    ensures var t := db.tickets[id];
      && t.reservation in db.bank.reservations && db.bank.reservations[t.reservation].user == t.user
      && db.bank.reservations[t.reservation].game == t.game && t.game in db.sessions && db.sessions[t.game].room == t.room
  {
    var token := db.tickets[id].token;
    OpenDesk(db);
    assert TicketOk(db.sessions, db.bank.reservations, db.seats, db.nextId, db.tickets[id]);
    FirstExists(db.nextId, HasToken(db.tickets, token), id);
    var found := First(db.nextId, HasToken(db.tickets, token)).value;
    assert HasToken(db.tickets, token)(found);
    assert found == id || TicketApart(db.tickets[found], db.tickets[id]);
  }

  lemma ConsumeCases(db: Db, id: TicketId, g: GameId, room: RoomId, instance: string, key: string, now: int)
    requires id in db.tickets && First(db.nextId, HasToken(db.tickets, db.tickets[id].token)) == Some(id)
    requires var t := db.tickets[id];
      && t.reservation in db.bank.reservations && db.bank.reservations[t.reservation].user == t.user
      && db.bank.reservations[t.reservation].game == t.game && t.game in db.sessions && db.sessions[t.game].room == t.room
    ensures var o, t := Consume(db, db.tickets[id].token, g, room, instance, key, now), db.tickets[id];
      if Presentable(db, id, g, room) then
        o == Honour(db, id, OpKey(t.user, ConsumeTicket, key), ForTicket(t.token, g, room, instance), instance, now)
      else o.reply.Err? && o.db == db
  {
  }

  lemma HonourCases(db: Db, id: TicketId, key: string, instance: string, now: int)
    requires id in db.tickets && db.tickets[id].game in db.sessions
    requires OpKey(db.tickets[id].user, ConsumeTicket, key) !in db.ops
    requires BoundSeat(db, db.tickets[id]) == Some(db.tickets[id].reservation) && SeatFits(db, db.tickets[id], db.tickets[id].reservation)
    ensures var t := db.tickets[id];
      var o := Honour(db, id, OpKey(t.user, ConsumeTicket, key), ForTicket(t.token, t.game, t.room, instance), instance, now);
      if StillGood(t, instance, now) then AdmitsHolder(db, o, id, instance, key, now)
      else o == Outcome(db, Err(if t.consumedBy.Some? then TicketReplayed else TicketExpired))
  {
    var t := db.tickets[id];
    if t.consumedBy == Some(instance) {
      assert db.tickets[id := t.(consumedBy := Some(instance))] == db.tickets;
    }
  }

  /**
   * A ticket under a new key is honoured exactly when it is presentable and still good; the answer
   * then names its user, its admission and its seat. An expired one and one consumed elsewhere are told so.
   */
  lemma ConsumeExactly(cfg: Config, calls: seq<Call>, id: TicketId, g: GameId, room: RoomId, instance: string, key: string, now: int)
    requires ValidConfig(cfg) && id in Reached(cfg, calls).tickets
    requires OpKey(Reached(cfg, calls).tickets[id].user, ConsumeTicket, key) !in Reached(cfg, calls).ops
    ensures var db := Reached(cfg, calls);
      var o := Consume(db, db.tickets[id].token, g, room, instance, key, now);
      if !Presentable(db, id, g, room) then o.reply.Err? && o.db == db
      else if StillGood(db.tickets[id], instance, now) then AdmitsHolder(db, o, id, instance, key, now)
      else o == Outcome(db, Err(if db.tickets[id].consumedBy.Some? then TicketReplayed else TicketExpired))
  {
    ReachedSound(cfg, calls);
    var db := Reached(cfg, calls);
    TokenFindsTicket(db, id);
    ConsumeCases(db, id, g, room, instance, key, now);
    if Presentable(db, id, g, room) {
      BoundSeatFits(db, id);
      HonourCases(db, id, key, instance, now);
    }
  }

  /* ---------- Starting ---------- */

  /** What the room must find to start: two players or more in an open session, each of whom has consumed a ticket. */
  ghost predicate CanStart(db: Db, g: GameId, room: RoomId, version: int) {
    && g in db.sessions && db.sessions[g].lifecycle == Open && db.sessions[g].room == room && version > 0
    && |SeatsOf(db.seats, g)| >= 2
    && forall r :: SeatedIn(db.seats, g, r) ==>
         exists t :: t in db.tickets && db.tickets[t].reservation == r && db.tickets[t].consumedBy.Some?
  }

  /** All that starting changes. */
  ghost predicate StartsGame(db: Db, o: Sessions.Outcome, g: GameId, room: RoomId, version: int, key: string, now: int) {
    && g in db.sessions && version > 0 && o.reply == Ok(Committed(db.nextId))
    && o.db == db.(
         sessions := db.sessions[g := db.sessions[g].(lifecycle := Active, version := version, startedAt := Some(now))],
         ops := db.ops[OpKey(db.sessions[g].creator, MarkStarted, key) :=
           Operation(db.nextId, ForStart(g, room, version), NoOp, Some(Committed(db.nextId)), now)],
         nextId := db.nextId + 1)
  }

  lemma EveryoneConsumed(db: Db, g: GameId)
    requires SeatPart(db.sessions, db.seats, db.bank.reservations, db.nextId)
    requires g in db.sessions && Live(db.sessions[g].lifecycle)
    ensures var players := Participants(db, g);
      (exists i :: 0 <= i < |players| && !Consumed(db.tickets, players[i]))
      <==> exists r :: SeatedIn(db.seats, g, r) && !Consumed(db.tickets, r)
  {
    var players := Participants(db, g);
    ParticipantsIs(db, g);
    if i :| 0 <= i < |players| && !Consumed(db.tickets, players[i]) {
      assert players[i] in players;
    }
    if r :| SeatedIn(db.seats, g, r) && !Consumed(db.tickets, r) {
      assert r in players;
      var i :| 0 <= i < |players| && players[i] == r;
      assert !Consumed(db.tickets, players[i]);
    }
  }

  lemma StartCases(db: Db, g: GameId, room: RoomId, version: int, key: string, now: int)
    requires g in db.sessions && OpKey(db.sessions[g].creator, MarkStarted, key) !in db.ops
    ensures var o, players := Start(db, g, room, version, key, now), Participants(db, g);
      if db.sessions[g].room == room && db.sessions[g].lifecycle == Open && version > 0 && db.sessions[g].version == 0
         && |players| >= 2 && !(exists i :: 0 <= i < |players| && !Consumed(db.tickets, players[i]))
      then StartsGame(db, o, g, room, version, key, now)
      else o.reply.Err? && o.db == db
  {
  }

  /** A start under a new key succeeds exactly when `CanStart` holds, and then changes exactly this. */
  lemma StartExactly(cfg: Config, calls: seq<Call>, g: GameId, room: RoomId, version: int, key: string, now: int)
    requires ValidConfig(cfg)
    requires var db := Reached(cfg, calls); g in db.sessions ==> OpKey(db.sessions[g].creator, MarkStarted, key) !in db.ops
    ensures var db := Reached(cfg, calls);
      var o := Start(db, g, room, version, key, now);
      && (o.reply.Ok? <==> CanStart(db, g, room, version))
      && (o.reply.Ok? ==> StartsGame(db, o, g, room, version, key, now))
      && (o.reply.Err? ==> o.db == db)
  {
    ReachedSound(cfg, calls);
    var db := Reached(cfg, calls);
    if g in db.sessions {
      StartCases(db, g, room, version, key, now);
      StartedFacts(db.sessions, db.seats, db.bank.reservations, db.nextId, g);
      if db.sessions[g].lifecycle == Open {
        AsManyAsSeats(db, g);
        EveryoneConsumed(db, g);
        assert forall r :: Consumed(db.tickets, r) <==>
          exists t :: t in db.tickets && db.tickets[t].reservation == r && db.tickets[t].consumedBy.Some?;
      }
    }
  }

  /* ---------- Grants ---------- */

  /** Coins issued to one user: that column alone grows. */
  ghost predicate Grants(b: Bank, after: Bank, u: UserId, amount: nat) {
    && after.reservations == b.reservations
    && (forall v :: Column(after, Available(v)) == Column(b, Available(v)) + if v == u then amount else 0)
    && (forall v :: Column(after, ReservedFor(v)) == Column(b, ReservedFor(v)))
    && (forall v :: v in after.accounts <==> v in b.accounts || v == u)
  }

  lemma GrantExactly(b: Bank, k: OpKey, u: UserId, amount: nat, now: int, rescue: bool)
    requires u in b.accounts
    ensures var o := Grant(b, k, u, amount, now, rescue);
      && (o.Ok? <==> Column(b, Available(u)) + amount <= MAX_ACCOUNT_COIN)
      && (o.Ok? ==> Grants(b, o.value, u, amount) && u in o.value.accounts)
      && (o.Ok? ==> forall v :: v in b.accounts ==>
            o.value.accounts[v].lastRescue ==
              if rescue && v == u then Some(if b.accounts[u].lastRescue.Some? && b.accounts[u].lastRescue.value > now
                                            then b.accounts[u].lastRescue.value else now)
              else b.accounts[v].lastRescue)
  {
  }

  /** The first provision of a user grants the initial coins, once; every other one only reports the balance. */
  ghost predicate ProvisionDone(cfg: Config, db: Db, o: Sessions.Outcome, u: UserId, now: int) {
    var k := OpKey(u, InitialGrant, "initial-grant:v1");
    && o.reply == Ok(Provisioned(Column(o.db.bank, Available(u)), Column(o.db.bank, ReservedFor(u))))
    && Grants(db.bank, o.db.bank, u, if k in db.ops then 0 else cfg.initialGrant)
    && (if k in db.ops then o.db == db.(bank := o.db.bank)
        else o.db == db.(bank := o.db.bank, ops := db.ops[k := CommittedRow(db, ForInitialGrant, now)], nextId := db.nextId + 1))
  }

  lemma OpenedColumns(b: Bank, u: UserId)
    ensures u in Opened(b, u).accounts && Opened(b, u).reservations == b.reservations
    ensures forall v :: v in Opened(b, u).accounts <==> v in b.accounts || v == u
    ensures forall v :: Column(Opened(b, u), Available(v)) == Column(b, Available(v)) && Column(Opened(b, u), ReservedFor(v)) == Column(b, ReservedFor(v))
  {
  }

  /** Provisioning succeeds exactly when the initial grant has been made or still fits. */
  lemma ProvisionExactly(cfg: Config, db: Db, u: UserId, now: int)
    ensures var o := ProvisionUser(cfg, db, u, now);
      && (o.reply.Ok? <==>
            OpKey(u, InitialGrant, "initial-grant:v1") in db.ops || Column(db.bank, Available(u)) + cfg.initialGrant <= MAX_ACCOUNT_COIN)
      && (o.reply.Ok? ==> ProvisionDone(cfg, db, o, u, now))
      && (o.reply.Err? ==> o.db == db)
  {
    if OpKey(u, InitialGrant, INITIAL_GRANT_KEY) in db.ops {
      ProvisionAgain(cfg, db, u, now);
    } else {
      FirstProvision(cfg, db, u, now);
    }
  }

  lemma ProvisionAgain(cfg: Config, db: Db, u: UserId, now: int)
    requires OpKey(u, InitialGrant, INITIAL_GRANT_KEY) in db.ops
    ensures var o := ProvisionUser(cfg, db, u, now); o.reply.Ok? && ProvisionDone(cfg, db, o, u, now)
  {
    OpenedColumns(db.bank, u);
  }

  lemma FirstProvision(cfg: Config, db: Db, u: UserId, now: int)
    requires OpKey(u, InitialGrant, INITIAL_GRANT_KEY) !in db.ops
    ensures var o := ProvisionUser(cfg, db, u, now);
      && (o.reply.Ok? <==> Column(db.bank, Available(u)) + cfg.initialGrant <= MAX_ACCOUNT_COIN)
      && (o.reply.Ok? ==> ProvisionDone(cfg, db, o, u, now))
      && (o.reply.Err? ==> o.db == db)
  {
    OpenedColumns(db.bank, u);
    GrantExactly(Opened(db.bank, u), OpKey(u, InitialGrant, INITIAL_GRANT_KEY), u, cfg.initialGrant, now, false);
  }

  /** A rescue is due when the user's coins are below the rescue balance and the last one is a window ago. */
  predicate RescueDue(cfg: Config, b: Bank, u: UserId, now: int)
    requires u in b.accounts
  {
    && b.accounts[u].available + b.accounts[u].reserved < cfg.rescueBalance
    && (b.accounts[u].lastRescue.Some? ==> b.accounts[u].lastRescue.value + cfg.rescueWindow <= now)
  }

  /** The missing coins are issued, the instant is kept, and the answer shows the new balance. */
  ghost predicate RescueDone(cfg: Config, db: Db, o: Sessions.Outcome, u: UserId, key: string, now: int)
    requires u in db.bank.accounts
  {
    var a := db.bank.accounts[u];
    if RescueDue(cfg, db.bank, u, now) then
      var response := Rescued(cfg.rescueBalance - a.reserved, a.reserved, Some(db.nextId));
      && o.reply == Ok(response)
      && Grants(db.bank, o.db.bank, u, cfg.rescueBalance - a.available - a.reserved)
      && u in o.db.bank.accounts && o.db.bank.accounts[u].lastRescue == Some(now)
      && o.db == db.(
           bank := o.db.bank, nextId := db.nextId + 1,
           ops := db.ops[OpKey(u, RescueGrant, key) := Operation(db.nextId, ForRescue, CommittedOp, Some(response), now)])
    else
      var response := Rescued(a.available, a.reserved, None);
      && o.reply == Ok(response)
      && o.db == db.(
           nextId := db.nextId + 1,
           ops := db.ops[OpKey(u, RescueGrant, key) := Operation(db.nextId, ForRescue, NoOp, Some(response), now)])
  }

  lemma RescueCases(cfg: Config, db: Db, u: UserId, key: string, now: int)
    requires u in db.bank.accounts && OpKey(u, RescueGrant, key) !in db.ops && RescueDue(cfg, db.bank, u, now) && cfg.rescueWindow > 0
    ensures var o, a, k := Rescue(cfg, db, u, key, now), db.bank.accounts[u], OpKey(u, RescueGrant, key);
      var granted := Grant(db.bank, k, u, cfg.rescueBalance - a.available - a.reserved, now, true);
      && (o.reply.Ok? <==> granted.Ok?)
      && (o.reply.Ok? ==>
            var response := Rescued(Column(granted.value, Available(u)), Column(granted.value, ReservedFor(u)), Some(db.nextId));
            o == Outcome(
              db.(bank := granted.value, nextId := db.nextId + 1,
                  ops := db.ops[k := Operation(db.nextId, ForRescue, CommittedOp, Some(response), now)]),
              Ok(response)))
      && (o.reply.Err? ==> o.db == db)
  {
  }

  /** A rescue under a new key succeeds exactly for a user with an account, unless the grant it is due would overflow. */
  lemma RescueExactly(cfg: Config, db: Db, u: UserId, key: string, now: int)
    requires cfg.rescueWindow > 0 && OpKey(u, RescueGrant, key) !in db.ops
    ensures var o := Rescue(cfg, db, u, key, now);
      && (o.reply.Ok? <==>
            && u in db.bank.accounts
            && (RescueDue(cfg, db.bank, u, now) ==> cfg.rescueBalance - db.bank.accounts[u].reserved <= MAX_ACCOUNT_COIN))
      && (o.reply.Ok? ==> RescueDone(cfg, db, o, u, key, now))
      && (o.reply.Err? ==> o.db == db)
  {
    if u in db.bank.accounts && RescueDue(cfg, db.bank, u, now) {
      var a := db.bank.accounts[u];
      RescueCases(cfg, db, u, key, now);
      GrantExactly(db.bank, OpKey(u, RescueGrant, key), u, cfg.rescueBalance - a.available - a.reserved, now, true);
      assert Column(db.bank, Available(u)) == a.available && Column(db.bank, ReservedFor(u)) == a.reserved;
    }
  }

  /* ---------- Recovery marks ---------- */

  /** A session under way is marked exactly when it began long enough ago, has no proof and its room shows no sign of life. */
  lemma MarkRecoveryExactly(cfg: Config, calls: seq<Call>, g: GameId, before: int, evidence: bool)
    requires ValidConfig(cfg)
    ensures var db := Reached(cfg, calls);
      var o := MarkRecovery(db, g, before, evidence);
      if g in db.sessions && db.sessions[g].lifecycle == Active && g !in db.proofs && !evidence
         && db.sessions[g].startedAt.Some? && db.sessions[g].startedAt.value <= before
      then o == Outcome(db.(sessions := db.sessions[g := db.sessions[g].(lifecycle := RecoveryRequired)]), Ok(Done(true)))
      else o == Outcome(db, Ok(Done(false)))
  {
    ReachedSound(cfg, calls);
    var db := Reached(cfg, calls);
    if g in db.sessions {
      StartedFacts(db.sessions, db.seats, db.bank.reservations, db.nextId, g);
    }
  }

  /** A session under way whose room has proved its end is marked when the settlement cannot be made from the proof. */
  lemma MarkProofRecoveryExactly(cfg: Config, calls: seq<Call>, g: GameId)
    requires ValidConfig(cfg)
    ensures var db := Reached(cfg, calls);
      var o := MarkProofRecovery(db, g);
      if g in db.sessions && db.sessions[g].lifecycle == Active && g in db.proofs
      then o == Outcome(db.(sessions := db.sessions[g := db.sessions[g].(lifecycle := RecoveryRequired)]), Ok(Done(true)))
      else o == Outcome(db, Ok(Done(false)))
  {
    ReachedSound(cfg, calls);
    var db := Reached(cfg, calls);
    if g in db.sessions {
      StartedFacts(db.sessions, db.seats, db.bank.reservations, db.nextId, g);
      if Live(db.sessions[g].lifecycle) {
        NotYetSettled(db, g);
      }
    }
  }
}
