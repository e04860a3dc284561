/**
 * Tickets and operation rows: every ticket carries the binding of its reservation, values are never
 * shared, at most one ticket of a reservation is unconsumed, and a stored admission names the very
 * player its tickets and seat name.
 */
module Admissions {
  import opened Outcomes
  import opened CoinBank
  import opened Sessions
  import opened Seating
  import opened Growth

  predicate TicketOk(games: Games, rows: Rows, seats: Seats, n: nat, t: Ticket) {
    && t.token < n && t.player < n
    && t.reservation in rows && t.user == rows[t.reservation].user && t.game == rows[t.reservation].game
    && t.game in games && t.room == games[t.game].room
    && (t.reservation in seats ==> seats[t.reservation].player == t.player)
  }

  ghost predicate TicketsOk(games: Games, rows: Rows, seats: Seats, n: nat, tickets: Tickets) {
    forall id :: id in tickets ==> id < n && TicketOk(games, rows, seats, n, tickets[id])
  }

  predicate TicketApart(a: Ticket, b: Ticket) {
    a.token != b.token
    && (a.reservation == b.reservation ==> a.player == b.player && (a.consumedBy.Some? || b.consumedBy.Some?))
  }

  ghost predicate TicketsApart(tickets: Tickets) {
    forall i, j {:trigger TicketApart(tickets[i], tickets[j])} :: i in tickets && j in tickets && i != j ==> TicketApart(tickets[i], tickets[j])
  }

  /** Every ticket of the admission's reservation is for the admission's player. */
  ghost predicate PlayersMatch(tickets: Tickets, a: Response)
    requires a.Admission?
  {
    forall id :: id in tickets && tickets[id].reservation == a.reservation ==> tickets[id].player == a.player
  }

  predicate AdmissionOk(games: Games, rows: Rows, seats: Seats, n: nat, actor: UserId, a: Response)
    requires a.Admission?
  {
    && a.player < n
    && a.reservation in rows && rows[a.reservation].user == actor && rows[a.reservation].game == a.game
    && a.game in games && games[a.game].room == a.room
    && (a.reservation in seats ==> seats[a.reservation].player == a.player)
  }

  /** The kind of answer each kind of operation stores, and how it ends. */
  predicate OpShape(k: OpKey, op: Operation) {
    && op.response.Some?
    && match k.scope
       case CreateSession | JoinIntent => op.status == CommittedOp && op.response.value.Admission?
       case ReconnectTicket => op.status == NoOp && op.response.value.Admission?
       case RescueGrant => op.status != PendingOp && op.request == ForRescue && op.response.value.Rescued?
       case ConsumeTicket => op.status == NoOp && op.response.value.Admitted?
       case MarkStarted => op.status == NoOp && op.response == Some(Committed(op.id))
       case InitialGrant =>
         op.status == CommittedOp && op.response == Some(Committed(op.id)) && k.key == INITIAL_GRANT_KEY
       case _ => op.status == CommittedOp && op.response == Some(Committed(op.id))
  }

  ghost predicate OpOk(games: Games, rows: Rows, seats: Seats, n: nat, tickets: Tickets, k: OpKey, op: Operation) {
    && op.id < n && OpShape(k, op)
    && (op.response.value.Admission? ==>
         && AdmissionOk(games, rows, seats, n, k.actor, op.response.value)
         && PlayersMatch(tickets, op.response.value))
  }

  ghost predicate OpsOk(games: Games, rows: Rows, seats: Seats, n: nat, tickets: Tickets, ops: Ops) {
    forall k :: k in ops ==> OpOk(games, rows, seats, n, tickets, k, ops[k])
  }

  ghost predicate Desk(db: Db) {
    && TicketsOk(db.sessions, db.bank.reservations, db.seats, db.nextId, db.tickets)
    && TicketsApart(db.tickets)
    && OpsOk(db.sessions, db.bank.reservations, db.seats, db.nextId, db.tickets, db.ops)
  }

  /* ---------- Changes to sessions, reservations and seats ---------- */

  /** Terms, owners and the seats of known reservations do not change under a ticket. */
  ghost predicate Keeps(db: Db, after: Db) {
    && GamesGrow(db.sessions, after.sessions)
    && RowsGrow(db.bank.reservations, after.bank.reservations)
    && SeatsGrow(db.sessions, db.bank.reservations, db.seats, after.seats)
    && db.nextId <= after.nextId
  }

  lemma TicketsFrame(db: Db, after: Db)
    requires Keeps(db, after) && after.tickets == db.tickets
    requires TicketsOk(db.sessions, db.bank.reservations, db.seats, db.nextId, db.tickets)
    ensures TicketsOk(after.sessions, after.bank.reservations, after.seats, after.nextId, after.tickets)
  {
    forall id | id in after.tickets
      ensures TicketOk(after.sessions, after.bank.reservations, after.seats, after.nextId, after.tickets[id])
    {
      var t := db.tickets[id];
      assert TicketOk(db.sessions, db.bank.reservations, db.seats, db.nextId, t);
      assert RowGrows(db.bank.reservations[t.reservation], after.bank.reservations[t.reservation]);
      assert GameGrows(db.sessions[t.game], after.sessions[t.game]);
    }
  }

  lemma AdmissionFrame(db: Db, after: Db, actor: UserId, a: Response)
    requires Keeps(db, after) && a.Admission?
    requires AdmissionOk(db.sessions, db.bank.reservations, db.seats, db.nextId, actor, a)
    ensures AdmissionOk(after.sessions, after.bank.reservations, after.seats, after.nextId, actor, a)
  {
    assert RowGrows(db.bank.reservations[a.reservation], after.bank.reservations[a.reservation]);
    assert GameGrows(db.sessions[a.game], after.sessions[a.game]);
  }

  lemma OpsFrame(db: Db, after: Db)
    requires Keeps(db, after) && after.ops == db.ops && after.tickets == db.tickets
    requires OpsOk(db.sessions, db.bank.reservations, db.seats, db.nextId, db.tickets, db.ops)
    ensures OpsOk(after.sessions, after.bank.reservations, after.seats, after.nextId, after.tickets, after.ops)
  {
    forall k | k in after.ops
      ensures OpOk(after.sessions, after.bank.reservations, after.seats, after.nextId, after.tickets, k, after.ops[k])
    {
      assert OpOk(db.sessions, db.bank.reservations, db.seats, db.nextId, db.tickets, k, db.ops[k]);
      if db.ops[k].response.value.Admission? {
        AdmissionFrame(db, after, k.actor, db.ops[k].response.value);
      }
    }
  }

  /** Sessions, reservations and seats may move on; the tickets and operations stand. */
  lemma DeskFrame(db: Db, after: Db)
    requires Desk(db) && Keeps(db, after) && after.ops == db.ops && after.tickets == db.tickets
    ensures Desk(after)
  {
    TicketsFrame(db, after);
    OpsFrame(db, after);
  }

  /* ---------- Changes to tickets ---------- */

  /** The same tickets for the same players. */
  ghost predicate SamePlayers(tickets: Tickets, after: Tickets) {
    forall id :: id in after ==>
      id in tickets && after[id].reservation == tickets[id].reservation && after[id].player == tickets[id].player
  }

  lemma OpsSamePlayers(db: Db, after: Db)
    requires OpsOk(db.sessions, db.bank.reservations, db.seats, db.nextId, db.tickets, db.ops)
    requires SamePlayers(db.tickets, after.tickets)
    requires after == db.(tickets := after.tickets, nextId := after.nextId) && db.nextId <= after.nextId
    ensures OpsOk(after.sessions, after.bank.reservations, after.seats, after.nextId, after.tickets, after.ops)
  {
    forall k | k in after.ops
      ensures OpOk(after.sessions, after.bank.reservations, after.seats, after.nextId, after.tickets, k, after.ops[k])
    {
      assert OpOk(db.sessions, db.bank.reservations, db.seats, db.nextId, db.tickets, k, db.ops[k]);
    }
  }

  lemma ExpireKeeps(db: Db, stale: Ticket -> bool, now: int)
    requires Desk(db)
    ensures Desk(db.(tickets := ExpireTickets(db.tickets, stale, now)))
  {
    var after := db.(tickets := ExpireTickets(db.tickets, stale, now));
    forall id | id in after.tickets
      ensures TicketOk(after.sessions, after.bank.reservations, after.seats, after.nextId, after.tickets[id])
    {
      assert TicketOk(db.sessions, db.bank.reservations, db.seats, db.nextId, db.tickets[id]);
    }
    forall i, j | i in after.tickets && j in after.tickets && i != j ensures TicketApart(after.tickets[i], after.tickets[j]) {
      assert TicketApart(db.tickets[i], db.tickets[j]);
    }
    OpsSamePlayers(db, after);
  }

  /** A ticket may get a fresh value, or a first consumer. */
  lemma ReplaceKeeps(db: Db, id: TicketId, t: Ticket, n: nat)
    requires Desk(db) && id in db.tickets && db.tickets[id].consumedBy.None? && db.nextId <= n
    requires t == db.tickets[id].(token := t.token, expiresAt := t.expiresAt, consumedBy := t.consumedBy)
    requires t.token == db.tickets[id].token || db.nextId <= t.token < n
    ensures Desk(db.(tickets := db.tickets[id := t], nextId := n))
  {
    var after := db.(tickets := db.tickets[id := t], nextId := n);
    forall i | i in after.tickets
      ensures TicketOk(after.sessions, after.bank.reservations, after.seats, after.nextId, after.tickets[i])
    {
      assert TicketOk(db.sessions, db.bank.reservations, db.seats, db.nextId, db.tickets[i]);
    }
    forall i, j | i in after.tickets && j in after.tickets && i != j ensures TicketApart(after.tickets[i], after.tickets[j]) {
      assert TicketApart(db.tickets[i], db.tickets[j]);
      assert TicketOk(db.sessions, db.bank.reservations, db.seats, db.nextId, db.tickets[i]);
      assert TicketOk(db.sessions, db.bank.reservations, db.seats, db.nextId, db.tickets[j]);
    }
    OpsSamePlayers(db, after);
  }

  ghost predicate NoUnused(tickets: Tickets, r: ReservationId) {
    forall id :: id in tickets && tickets[id].reservation == r ==> tickets[id].consumedBy.Some?
  }

  predicate Names(op: Operation, r: ReservationId) {
    op.response.Some? && op.response.value.Admission? && op.response.value.reservation == r
  }

  ghost predicate OpsName(ops: Ops, r: ReservationId, p: PlayerId) {
    forall k :: k in ops && Names(ops[k], r) ==> ops[k].response.value.player == p
  }

  /** A new ticket for a reservation whose earlier tickets are all consumed. */
  lemma AddKeeps(db: Db, id: TicketId, t: Ticket, n: nat)
    requires Desk(db) && db.nextId <= id < n && db.nextId <= t.token < n
    requires TicketOk(db.sessions, db.bank.reservations, db.seats, n, t)
    requires NoUnused(db.tickets, t.reservation) && OpsName(db.ops, t.reservation, t.player)
    requires PlayersMatch(db.tickets, AdmissionOf(t))
    ensures Desk(db.(tickets := db.tickets[id := t], nextId := n))
  {
    var after := db.(tickets := db.tickets[id := t], nextId := n);
    forall i | i in after.tickets
      ensures i < n && TicketOk(after.sessions, after.bank.reservations, after.seats, after.nextId, after.tickets[i])
    {
      assert i != id ==> TicketOk(db.sessions, db.bank.reservations, db.seats, db.nextId, db.tickets[i]);
    }
    forall i, j | i in after.tickets && j in after.tickets && i != j ensures TicketApart(after.tickets[i], after.tickets[j]) {
      assert i != id ==> TicketOk(db.sessions, db.bank.reservations, db.seats, db.nextId, db.tickets[i]);
      assert j != id ==> TicketOk(db.sessions, db.bank.reservations, db.seats, db.nextId, db.tickets[j]);
    }
    AddKeepsOps(db, id, t, n);
  }

  lemma AddKeepsOps(db: Db, id: TicketId, t: Ticket, n: nat)
    requires OpsOk(db.sessions, db.bank.reservations, db.seats, db.nextId, db.tickets, db.ops)
    requires db.nextId <= n && OpsName(db.ops, t.reservation, t.player)
    ensures OpsOk(db.sessions, db.bank.reservations, db.seats, n, db.tickets[id := t], db.ops)
  {
    forall k | k in db.ops
      ensures OpOk(db.sessions, db.bank.reservations, db.seats, n, db.tickets[id := t], k, db.ops[k])
    {
      assert OpOk(db.sessions, db.bank.reservations, db.seats, db.nextId, db.tickets, k, db.ops[k]);
    }
  }

  /* ---------- Changes to operations ---------- */

  lemma RecordKeeps(db: Db, k: OpKey, request: Request, status: OpStatus, response: Response, now: int)
    requires Desk(db) && k !in db.ops
    requires OpShape(k, Operation(db.nextId, request, status, Some(response), now))
    requires response.Admission? ==>
      && AdmissionOk(db.sessions, db.bank.reservations, db.seats, db.nextId, k.actor, response)
      && PlayersMatch(db.tickets, response)
    ensures Desk(Record(db, k, request, status, response, now))
  {
    var after := Record(db, k, request, status, response, now);
    TicketsFrame(db, after);
    forall j | j in after.ops
      ensures OpOk(after.sessions, after.bank.reservations, after.seats, after.nextId, after.tickets, j, after.ops[j])
    {
      assert j != k ==> OpOk(db.sessions, db.bank.reservations, db.seats, db.nextId, db.tickets, j, db.ops[j]);
    }
  }

  /** Nothing yet speaks of a reservation that does not exist. */
  lemma FreshReservation(db: Db, r: ReservationId, p: PlayerId, a: Response)
    requires Desk(db) && r !in db.bank.reservations && a.Admission? && a.reservation == r
    ensures NoUnused(db.tickets, r) && OpsName(db.ops, r, p) && PlayersMatch(db.tickets, a)
  {
    forall id | id in db.tickets ensures db.tickets[id].reservation != r {
      assert TicketOk(db.sessions, db.bank.reservations, db.seats, db.nextId, db.tickets[id]);
    }
    forall k | k in db.ops ensures !Names(db.ops[k], r)
    {
      assert OpOk(db.sessions, db.bank.reservations, db.seats, db.nextId, db.tickets, k, db.ops[k]);
    }
  }

  /** A seated reservation: its tickets and admissions all name the seat's player. */
  lemma SeatNamesPlayer(db: Db, r: ReservationId)
    requires Desk(db) && r in db.seats
    ensures OpsName(db.ops, r, db.seats[r].player)
    ensures forall id :: id in db.tickets && db.tickets[id].reservation == r ==> db.tickets[id].player == db.seats[r].player
  {
    forall id | id in db.tickets && db.tickets[id].reservation == r ensures db.tickets[id].player == db.seats[r].player {
      assert TicketOk(db.sessions, db.bank.reservations, db.seats, db.nextId, db.tickets[id]);
    }
    forall k | k in db.ops && Names(db.ops[k], r)
      ensures db.ops[k].response.value.player == db.seats[r].player
    {
      assert OpOk(db.sessions, db.bank.reservations, db.seats, db.nextId, db.tickets, k, db.ops[k]);
    }
  }
}
