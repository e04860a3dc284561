/** What no later transaction takes back: the two-state side of every step of Sessions. */
module Growth {
  import opened Outcomes
  import opened CoinBank
  import opened Sessions
  import opened Seating

  type Tickets = map<TicketId, Ticket>
  type Ops = map<OpKey, Operation>

  predicate GameGrows(s: Session, t: Session) {
    && SameTerms(s, t) && s.createdAt == t.createdAt && s.version <= t.version
    && (Ended(s.lifecycle) ==> t == s)
    && (Started(s.lifecycle) ==> Started(t.lifecycle))
    && (t.lifecycle == Open ==> s.lifecycle == Open)
  }

  ghost predicate GamesGrow(games: Games, after: Games) {
    forall g :: g in games ==> g in after && GameGrows(games[g], after[g])
  }

  predicate RowGrows(row: Reservation, after: Reservation) {
    && row.user == after.user && row.game == after.game && row.amount == after.amount
    && (row.status != Reserved ==> after == row)
  }

  ghost predicate RowsGrow(rows: Rows, after: Rows) {
    forall r :: r in rows ==> r in after && RowGrows(rows[r], after[r])
  }

  /** No reservation gets a seat back or another seat, and a started session keeps its seats. */
  ghost predicate SeatsGrow(games: Games, rows: Rows, seats: Seats, after: Seats) {
    && (forall r :: r in after && r in rows ==> r in seats && after[r] == seats[r])
    && (forall r :: r in seats && seats[r].game in games && Started(games[seats[r].game].lifecycle) ==>
         r in after && after[r] == seats[r])
  }

  /** Nobody is admitted to a session once it is no longer open. */
  ghost predicate AdmitsOnlyOpen(games: Games, rows: Rows, after: Rows) {
    forall r :: r in after && r !in rows && after[r].game in games ==> games[after[r].game].lifecycle == Open
  }

  predicate TicketGrows(t: Ticket, after: Ticket, n: nat) {
    && after == t.(token := after.token, expiresAt := after.expiresAt, consumedBy := after.consumedBy)
    && (t.consumedBy.Some? ==> after == t)
    && (after.token == t.token || after.token >= n)
  }

  ghost predicate TicketsGrow(tickets: Tickets, after: Tickets, n: nat) {
    && (forall t :: t in tickets ==> t in after && TicketGrows(tickets[t], after[t], n))
    && (forall t :: t in after && t !in tickets ==> after[t].token >= n)
  }

  ghost predicate OpsGrow(ops: Ops, after: Ops) {
    forall k :: k in ops ==> k in after && after[k] == ops[k]
  }

  ghost predicate Prefix<T(!new)>(s: seq<T>, t: seq<T>) {
    |s| <= |t| && t[..|s|] == s
  }

  ghost predicate Grows(db: Db, after: Db) {
    && GamesGrow(db.sessions, after.sessions)
    && RowsGrow(db.bank.reservations, after.bank.reservations)
    && SeatsGrow(db.sessions, db.bank.reservations, db.seats, after.seats)
    && AdmitsOnlyOpen(db.sessions, db.bank.reservations, after.bank.reservations)
    && TicketsGrow(db.tickets, after.tickets, db.nextId)
    && OpsGrow(db.ops, after.ops)
    && Prefix(db.bank.ledger, after.bank.ledger)
    && Prefix(db.history, after.history)
    && Prefix(db.settlements, after.settlements)
    && db.bank.accounts.Keys <= after.bank.accounts.Keys
    && db.materialized <= after.materialized
    && db.nextId <= after.nextId
  }

  lemma GrowsSelf(db: Db)
    ensures Grows(db, db)
  {
  }

  lemma PrefixTrans<T(!new)>(a: seq<T>, b: seq<T>, c: seq<T>)
    requires Prefix(a, b) && Prefix(b, c)
    ensures Prefix(a, c)
  {
    forall i | 0 <= i < |a| ensures c[i] == a[i] {
      assert c[..|b|][i] == b[i];
      assert b[..|a|][i] == a[i];
    }
  }

  lemma TicketsGrowTrans(a: Tickets, b: Tickets, c: Tickets, n: nat, m: nat)
    requires TicketsGrow(a, b, n) && TicketsGrow(b, c, m) && n <= m
    ensures TicketsGrow(a, c, n)
  {
    forall t | t in a ensures t in c && TicketGrows(a[t], c[t], n) {
      assert TicketGrows(a[t], b[t], n) && TicketGrows(b[t], c[t], m);
    }
    forall t | t in c && t !in a ensures c[t].token >= n {
      assert t in b ==> TicketGrows(b[t], c[t], m);
    }
  }

  lemma GamesGrowTrans(a: Games, b: Games, c: Games)
    requires GamesGrow(a, b) && GamesGrow(b, c)
    ensures GamesGrow(a, c)
  {
    forall g | g in a ensures g in c && GameGrows(a[g], c[g]) {
      assert GameGrows(a[g], b[g]) && GameGrows(b[g], c[g]);
    }
  }

  lemma RowsGrowTrans(a: Rows, b: Rows, c: Rows)
    requires RowsGrow(a, b) && RowsGrow(b, c)
    ensures RowsGrow(a, c)
  {
    forall r | r in a ensures r in c && RowGrows(a[r], c[r]) {
      assert RowGrows(a[r], b[r]) && RowGrows(b[r], c[r]);
    }
  }

  lemma SeatsGrowTrans(a: Db, b: Db, c: Db)
    requires Grows(a, b) && Grows(b, c)
    ensures SeatsGrow(a.sessions, a.bank.reservations, a.seats, c.seats)
  {
    forall r | r in c.seats && r in a.bank.reservations ensures r in a.seats && c.seats[r] == a.seats[r] {
      assert RowGrows(a.bank.reservations[r], b.bank.reservations[r]);
    }
    forall r | r in a.seats && a.seats[r].game in a.sessions && Started(a.sessions[a.seats[r].game].lifecycle)
      ensures r in c.seats && c.seats[r] == a.seats[r]
    {
      assert GameGrows(a.sessions[a.seats[r].game], b.sessions[a.seats[r].game]);
    }
  }

  lemma AdmitsOnlyOpenTrans(a: Db, b: Db, c: Db)
    requires Grows(a, b) && Grows(b, c)
    ensures AdmitsOnlyOpen(a.sessions, a.bank.reservations, c.bank.reservations)
  {
    forall r | r in c.bank.reservations && r !in a.bank.reservations && c.bank.reservations[r].game in a.sessions
      ensures a.sessions[c.bank.reservations[r].game].lifecycle == Open
    {
      var g := c.bank.reservations[r].game;
      assert GameGrows(a.sessions[g], b.sessions[g]);
      assert r in b.bank.reservations ==> RowGrows(b.bank.reservations[r], c.bank.reservations[r]);
    }
  }

  lemma GrowsTrans(a: Db, b: Db, c: Db)
    requires Grows(a, b) && Grows(b, c)
    ensures Grows(a, c)
  {
    GamesGrowTrans(a.sessions, b.sessions, c.sessions);
    RowsGrowTrans(a.bank.reservations, b.bank.reservations, c.bank.reservations);
    SeatsGrowTrans(a, b, c);
    AdmitsOnlyOpenTrans(a, b, c);
    TicketsGrowTrans(a.tickets, b.tickets, c.tickets, a.nextId, b.nextId);
    PrefixTrans(a.bank.ledger, b.bank.ledger, c.bank.ledger);
    PrefixTrans(a.history, b.history, c.history);
    PrefixTrans(a.settlements, b.settlements, c.settlements);
  }
}
