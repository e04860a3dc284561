/**
 * Sessions, seats and reservations agree: in a live session the reserved reservations are exactly the
 * seated ones, and an ended session holds nothing. Each effect of Sessions is shown to keep this.
 */
module Seating {
  import opened Outcomes
  import opened CoinBank
  import opened Sessions

  type Games = map<GameId, Session>
  type Seats = map<ReservationId, Seat>
  type Rows = map<ReservationId, Reservation>

  predicate Live(l: Lifecycle) {
    l == Open || l == Active || l == RecoveryRequired
  }

  predicate Started(l: Lifecycle) {
    l == Active || l == RecoveryRequired || l == Settled
  }

  predicate Ended(l: Lifecycle) {
    l == Cancelled || l == Settled
  }

  predicate RowOk(games: Games, row: Reservation) {
    && row.game in games
    && row.amount == games[row.game].entry
    && (row.status == Reserved <==> row.terminal.None?)
  }

  ghost predicate RowsOk(games: Games, rows: Rows, n: nat) {
    forall r :: r in rows ==> r < n && RowOk(games, rows[r])
  }

  predicate SeatOk(games: Games, rows: Rows, n: nat, seat: Seat, r: ReservationId) {
    && r in rows && seat.game == rows[r].game && seat.user == rows[r].user
    && seat.game in games && seat.index < games[seat.game].capacity
    && seat.player < n
  }

  ghost predicate SeatsOk(games: Games, seats: Seats, rows: Rows, n: nat) {
    forall r :: r in seats ==> SeatOk(games, rows, n, seats[r], r)
  }

  predicate Apart(a: Seat, b: Seat) {
    a.game == b.game ==> a.index != b.index && a.user != b.user && a.player != b.player
  }

  ghost predicate SeatsApart(seats: Seats) {
    forall r, s {:trigger Apart(seats[r], seats[s])} :: r in seats && s in seats && r != s ==> Apart(seats[r], seats[s])
  }

  predicate Agrees(games: Games, row: Reservation, seated: bool) {
    row.game in games ==>
      var l := games[row.game].lifecycle;
      && (Live(l) ==> (row.status == Reserved <==> seated))
      && (Ended(l) ==> row.status != Reserved)
      && (l == Cancelled ==> !seated)
  }

  ghost predicate AllAgree(games: Games, seats: Seats, rows: Rows) {
    forall r :: r in rows ==> Agrees(games, rows[r], r in seats)
  }

  ghost predicate CreatorSeated(seats: Seats, g: GameId, creator: UserId) {
    exists r :: SeatedIn(seats, g, r) && seats[r].user == creator && seats[r].index == 0
  }

  ghost predicate RivalSeated(seats: Seats, g: GameId, creator: UserId) {
    exists r :: SeatedIn(seats, g, r) && seats[r].user != creator
  }

  ghost predicate GameOk(s: Session, seats: Seats, g: GameId) {
    && (Live(s.lifecycle) || Ended(s.lifecycle))
    && 2 <= s.capacity <= 4
    && (s.lifecycle != Cancelled ==> CreatorSeated(seats, g, s.creator))
    && (Started(s.lifecycle) ==> RivalSeated(seats, g, s.creator) && s.startedAt.Some? && s.version > 0)
    && (!Started(s.lifecycle) ==> s.version == 0)
  }

  ghost predicate GamesOk(games: Games, seats: Seats, n: nat) {
    forall g :: g in games ==> g < n && games[g].room < n && GameOk(games[g], seats, g)
  }

  ghost predicate Placed(games: Games, seats: Seats, rows: Rows, n: nat) {
    RowsOk(games, rows, n) && SeatsOk(games, seats, rows, n) && SeatsApart(seats) && AllAgree(games, seats, rows)
  }

  ghost predicate Seating(games: Games, seats: Seats, rows: Rows, n: nat) {
    Placed(games, seats, rows, n) && GamesOk(games, seats, n)
  }

  /* ---------- What it gives ---------- */

  /** A user of a live session has at most one reserved reservation there, the seated one. */
  lemma SeatIsTheReservation(games: Games, seats: Seats, rows: Rows, n: nat, g: GameId, r: ReservationId, s: ReservationId)
    requires Placed(games, seats, rows, n)
    requires g in games && Live(games[g].lifecycle)
    requires StillReserved(rows, g, r) && SeatedIn(seats, g, s) && seats[s].user == rows[r].user
    ensures r == s
  {
    assert Agrees(games, rows[r], r in seats);
    assert r in seats && SeatOk(games, rows, n, seats[r], r);
    assert seats[r].user == seats[s].user && seats[r].game == seats[s].game;
    assert Apart(seats[r], seats[s]) || r == s;
  }

  /* ---------- Effects ---------- */

  lemma GameOkSameSeats(s: Session, seats: Seats, after: Seats, g: GameId)
    requires GameOk(s, seats, g)
    requires forall r :: SeatedIn(seats, g, r) ==> SeatedIn(after, g, r) && after[r] == seats[r]
    ensures GameOk(s, after, g)
  {
    if s.lifecycle != Cancelled {
      var r :| SeatedIn(seats, g, r) && seats[r].user == s.creator && seats[r].index == 0;
      assert SeatedIn(after, g, r);
    }
    if Started(s.lifecycle) {
      var r :| SeatedIn(seats, g, r) && seats[r].user != s.creator;
      assert SeatedIn(after, g, r);
    }
  }

  lemma LaterIds(games: Games, seats: Seats, rows: Rows, n: nat, m: nat)
    requires Seating(games, seats, rows, n) && n <= m
    ensures Seating(games, seats, rows, m)
  {
    PlacedLater(games, seats, rows, n, m);
  }

  lemma PlacedLater(games: Games, seats: Seats, rows: Rows, n: nat, m: nat)
    requires Placed(games, seats, rows, n) && n <= m
    ensures Placed(games, seats, rows, m)
  {
  }

  /** One session row replaced; `s` keeps the terms of the session. */
  predicate SameTerms(s: Session, t: Session) {
    s.room == t.room && s.entry == t.entry && s.capacity == t.capacity && s.creator == t.creator
  }

  lemma GamesReplace(games: Games, seats: Seats, n: nat, g: GameId, s: Session)
    requires GamesOk(games, seats, n) && g < n && s.room < n && GameOk(s, seats, g)
    ensures GamesOk(games[g := s], seats, n)
  {
  }

  /** A change of lifecycle between live states moves no seat. */
  lemma RelabelPlaced(games: Games, seats: Seats, rows: Rows, n: nat, g: GameId, s: Session)
    requires Placed(games, seats, rows, n) && g in games
    requires Live(games[g].lifecycle) && Live(s.lifecycle) && SameTerms(s, games[g])
    ensures Placed(games[g := s], seats, rows, n)
  {
    var with := games[g := s];
    forall r | r in rows ensures RowOk(with, rows[r]) && Agrees(with, rows[r], r in seats) {
      assert RowOk(games, rows[r]) && Agrees(games, rows[r], r in seats);
    }
    forall r | r in seats ensures SeatOk(with, rows, n, seats[r], r) {
      assert SeatOk(games, rows, n, seats[r], r);
    }
  }

  lemma RelabelKeeps(games: Games, seats: Seats, rows: Rows, n: nat, m: nat, g: GameId, s: Session)
    requires n <= m && Seating(games, seats, rows, n) && g in games
    requires Live(games[g].lifecycle) && Live(s.lifecycle) && SameTerms(s, games[g]) && GameOk(s, seats, g)
    ensures Seating(games[g := s], seats, rows, m)
  {
    LaterIds(games, seats, rows, n, m);
    RelabelKeepsNow(games, seats, rows, m, g, s);
  }

  lemma RelabelKeepsNow(games: Games, seats: Seats, rows: Rows, n: nat, g: GameId, s: Session)
    requires Seating(games, seats, rows, n) && g in games
    requires Live(games[g].lifecycle) && Live(s.lifecycle) && SameTerms(s, games[g]) && GameOk(s, seats, g)
    ensures Seating(games[g := s], seats, rows, n)
  {
    RelabelPlaced(games, seats, rows, n, g, s);
    GamesReplace(games, seats, n, g, s);
  }

  /** The session of a new seat is open, the seat is free and its user is not seated there. */
  ghost predicate Admissible(games: Games, seats: Seats, n: nat, seat: Seat) {
    && seat.game in games && games[seat.game].lifecycle == Open && seat.index < games[seat.game].capacity
    && (forall r {:trigger Apart(seats[r], seat)} :: r in seats ==> Apart(seats[r], seat))
    && seat.player < n
  }

  function NewRow(games: Games, seat: Seat): Reservation
    requires seat.game in games
  {
    Reservation(seat.user, seat.game, games[seat.game].entry, Reserved, None)
  }

  lemma AdmitPlaced(games: Games, seats: Seats, rows: Rows, n: nat, r: ReservationId, seat: Seat)
    requires Placed(games, seats, rows, n)
    requires r !in rows && r < n && Admissible(games, seats, n, seat)
    ensures Placed(games, seats[r := seat], rows[r := NewRow(games, seat)], n)
  {
    var after, seated := rows[r := NewRow(games, seat)], seats[r := seat];
    assert r !in seats;
    forall q | q in after ensures q < n && RowOk(games, after[q]) && Agrees(games, after[q], q in seated) {
      assert q != r ==> RowOk(games, rows[q]) && Agrees(games, rows[q], q in seats);
    }
    forall q | q in seated ensures SeatOk(games, after, n, seated[q], q) {
      assert q != r ==> SeatOk(games, rows, n, seats[q], q);
    }
    forall q, p | q in seated && p in seated && q != p ensures Apart(seated[q], seated[p]) {
      if q == r {
        assert Apart(seats[p], seat);
      } else if p == r {
        assert Apart(seats[q], seat);
      } else {
        assert Apart(seats[q], seats[p]);
      }
    }
  }

  lemma SeatAddedGames(games: Games, seats: Seats, n: nat, r: ReservationId, seat: Seat)
    requires GamesOk(games, seats, n) && r !in seats
    ensures GamesOk(games, seats[r := seat], n)
  {
    forall g | g in games ensures GameOk(games[g], seats[r := seat], g) {
      GameOkSameSeats(games[g], seats, seats[r := seat], g);
    }
  }

  lemma JoinKeeps(games: Games, seats: Seats, rows: Rows, n: nat, m: nat, r: ReservationId, seat: Seat)
    requires Seating(games, seats, rows, n)
    requires n <= r < m && Admissible(games, seats, m, seat)
    ensures Seating(games, seats[r := seat], rows[r := NewRow(games, seat)], m)
  {
    LaterIds(games, seats, rows, n, m);
    assert r !in rows;
    JoinKeepsNow(games, seats, rows, m, r, seat);
  }

  lemma JoinKeepsNow(games: Games, seats: Seats, rows: Rows, n: nat, r: ReservationId, seat: Seat)
    requires Seating(games, seats, rows, n)
    requires r !in rows && r < n && Admissible(games, seats, n, seat)
    ensures Seating(games, seats[r := seat], rows[r := NewRow(games, seat)], n)
  {
    AdmitPlaced(games, seats, rows, n, r, seat);
    assert r !in seats;
    SeatAddedGames(games, seats, n, r, seat);
  }

  lemma NewGamePlaced(games: Games, seats: Seats, rows: Rows, n: nat, g: GameId, s: Session)
    requires Placed(games, seats, rows, n) && g !in games
    ensures Placed(games[g := s], seats, rows, n)
  {
    var with := games[g := s];
    forall r | r in rows ensures RowOk(with, rows[r]) && Agrees(with, rows[r], r in seats) {
      assert RowOk(games, rows[r]) && Agrees(games, rows[r], r in seats);
    }
    forall r | r in seats ensures SeatOk(with, rows, n, seats[r], r) {
      assert SeatOk(games, rows, n, seats[r], r);
    }
  }

  lemma CreateKeeps(games: Games, seats: Seats, rows: Rows, n: nat, m: nat, g: GameId, s: Session, r: ReservationId, seat: Seat)
    requires Seating(games, seats, rows, n)
    requires n <= g < m && s.room < m && s.lifecycle == Open && s.version == 0 && 2 <= s.capacity <= 4
    requires n <= r < m && seat == Seat(g, seat.player, s.creator, 0) && seat.player < m
    ensures Seating(games[g := s], seats[r := seat], rows[r := NewRow(games[g := s], seat)], m)
  {
    LaterIds(games, seats, rows, n, m);
    assert r !in rows && g !in games;
    CreateKeepsNow(games, seats, rows, m, g, s, r, seat);
  }

  lemma CreateKeepsNow(games: Games, seats: Seats, rows: Rows, n: nat, g: GameId, s: Session, r: ReservationId, seat: Seat)
    requires Seating(games, seats, rows, n)
    requires g !in games && g < n && s.room < n && s.lifecycle == Open && s.version == 0 && 2 <= s.capacity <= 4
    requires r !in rows && r < n && seat == Seat(g, seat.player, s.creator, 0) && seat.player < n
    ensures Seating(games[g := s], seats[r := seat], rows[r := NewRow(games[g := s], seat)], n)
  {
    NewGamePlaced(games, seats, rows, n, g, s);
    assert forall q :: q in seats ==> SeatOk(games, rows, n, seats[q], q);
    AdmitPlaced(games[g := s], seats, rows, n, r, seat);
    assert r !in seats;
    SeatAddedGames(games, seats, n, r, seat);
    assert SeatedIn(seats[r := seat], g, r);
    GamesReplace(games, seats[r := seat], n, g, s);
  }

  /** A player other than the creator leaves an open session. */
  lemma LeavePlaced(games: Games, seats: Seats, rows: Rows, n: nat, r: ReservationId, k: OpKey)
    requires Placed(games, seats, rows, n)
    requires r in rows && rows[r].game in games && games[rows[r].game].lifecycle == Open
    ensures Placed(games, seats - {r}, rows[r := Closed(rows[r], Released, k)], n)
  {
    var after, closed := seats - {r}, rows[r := Closed(rows[r], Released, k)];
    forall q | q in closed ensures q < n && RowOk(games, closed[q]) && Agrees(games, closed[q], q in after) {
      assert RowOk(games, rows[q]) && Agrees(games, rows[q], q in seats);
    }
    forall q | q in after ensures SeatOk(games, closed, n, after[q], q) {
      assert SeatOk(games, rows, n, seats[q], q);
    }
  }

  lemma LeaveGames(games: Games, seats: Seats, n: nat, r: ReservationId)
    requires GamesOk(games, seats, n)
    requires r in seats ==>
      var g := seats[r].game; g in games && games[g].lifecycle == Open && games[g].creator != seats[r].user
    ensures GamesOk(games, seats - {r}, n)
  {
    forall g | g in games ensures GameOk(games[g], seats - {r}, g) {
      if SeatedIn(seats, g, r) {
        var c :| SeatedIn(seats, g, c) && seats[c].user == games[g].creator && seats[c].index == 0;
        assert SeatedIn(seats - {r}, g, c);
      } else {
        GameOkSameSeats(games[g], seats, seats - {r}, g);
      }
    }
  }

  lemma LeaveKeeps(games: Games, seats: Seats, rows: Rows, n: nat, m: nat, r: ReservationId, k: OpKey)
    requires n <= m && Seating(games, seats, rows, n)
    requires r in rows && games[rows[r].game].lifecycle == Open && games[rows[r].game].creator != rows[r].user
    ensures Seating(games, seats - {r}, rows[r := Closed(rows[r], Released, k)], m)
  {
    LaterIds(games, seats, rows, n, m);
    LeaveKeepsNow(games, seats, rows, m, r, k);
  }

  lemma LeaveKeepsNow(games: Games, seats: Seats, rows: Rows, n: nat, r: ReservationId, k: OpKey)
    requires Seating(games, seats, rows, n)
    requires r in rows && games[rows[r].game].lifecycle == Open && games[rows[r].game].creator != rows[r].user
    ensures Seating(games, seats - {r}, rows[r := Closed(rows[r], Released, k)], n)
  {
    LeavePlaced(games, seats, rows, n, r, k);
    assert r in seats ==> SeatOk(games, rows, n, seats[r], r);
    LeaveGames(games, seats, n, r);
  }

  /** Everything reserved in `g`, and nothing else, is closed. */
  ghost predicate Ends(rows: Rows, after: Rows, g: GameId) {
    && rows.Keys == after.Keys
    && forall r :: r in rows ==> EndsRow(rows[r], after[r], g)
  }

  predicate EndsRow(row: Reservation, after: Reservation, g: GameId) {
    if row.game == g && row.status == Reserved
    then after == row.(status := after.status, terminal := after.terminal) && after.status != Reserved && after.terminal.Some?
    else after == row
  }

  lemma EndPlaced(games: Games, seats: Seats, rows: Rows, n: nat, g: GameId, s: Session, after: Rows, left: Seats)
    requires Placed(games, seats, rows, n) && g in games && Ends(rows, after, g)
    requires Ended(s.lifecycle) && SameTerms(s, games[g])
    requires left == if s.lifecycle == Cancelled then WithoutGame(seats, g) else seats
    ensures Placed(games[g := s], left, after, n)
  {
    var with := games[g := s];
    forall r | r in after ensures RowOk(with, after[r]) && Agrees(with, after[r], r in left) {
      assert RowOk(games, rows[r]) && Agrees(games, rows[r], r in seats) && EndsRow(rows[r], after[r], g);
      assert r in seats ==> SeatOk(games, rows, n, seats[r], r);
    }
    forall r | r in left ensures SeatOk(with, after, n, left[r], r) {
      assert SeatOk(games, rows, n, seats[r], r) && EndsRow(rows[r], after[r], g);
    }
  }

  lemma SettleKeeps(games: Games, seats: Seats, rows: Rows, n: nat, m: nat, g: GameId, s: Session, after: Rows)
    requires n <= m && Seating(games, seats, rows, n) && g in games && Ends(rows, after, g)
    requires games[g].lifecycle == Active || games[g].lifecycle == RecoveryRequired
    requires s == games[g].(lifecycle := Settled, version := s.version) && s.version > 0
    ensures Seating(games[g := s], seats, after, m)
  {
    LaterIds(games, seats, rows, n, m);
    SettleKeepsNow(games, seats, rows, m, g, s, after);
  }

  lemma SettleKeepsNow(games: Games, seats: Seats, rows: Rows, n: nat, g: GameId, s: Session, after: Rows)
    requires Seating(games, seats, rows, n) && g in games && Ends(rows, after, g)
    requires games[g].lifecycle == Active || games[g].lifecycle == RecoveryRequired
    requires s == games[g].(lifecycle := Settled, version := s.version) && s.version > 0
    ensures Seating(games[g := s], seats, after, n)
  {
    EndPlaced(games, seats, rows, n, g, s, after, seats);
    assert GameOk(games[g], seats, g);
    GamesReplace(games, seats, n, g, s);
  }

  lemma CancelGames(games: Games, seats: Seats, n: nat, g: GameId, s: Session)
    requires GamesOk(games, seats, n) && g in games
    requires games[g].lifecycle == Open && s == games[g].(lifecycle := Cancelled)
    ensures GamesOk(games[g := s], WithoutGame(seats, g), n)
  {
    var with, left := games[g := s], WithoutGame(seats, g);
    forall h | h in with ensures GameOk(with[h], left, h) {
      if h != g {
        GameOkSameSeats(games[h], seats, left, h);
      }
    }
  }

  lemma CancelKeeps(games: Games, seats: Seats, rows: Rows, n: nat, m: nat, g: GameId, s: Session, after: Rows)
    requires n <= m && Seating(games, seats, rows, n) && g in games && Ends(rows, after, g)
    requires games[g].lifecycle == Open && s == games[g].(lifecycle := Cancelled)
    ensures Seating(games[g := s], WithoutGame(seats, g), after, m)
  {
    LaterIds(games, seats, rows, n, m);
    CancelKeepsNow(games, seats, rows, m, g, s, after);
  }

  lemma CancelKeepsNow(games: Games, seats: Seats, rows: Rows, n: nat, g: GameId, s: Session, after: Rows)
    requires Seating(games, seats, rows, n) && g in games && Ends(rows, after, g)
    requires games[g].lifecycle == Open && s == games[g].(lifecycle := Cancelled)
    ensures Seating(games[g := s], WithoutGame(seats, g), after, n)
  {
    EndPlaced(games, seats, rows, n, g, s, after, WithoutGame(seats, g));
    CancelGames(games, seats, n, g, s);
  }

  /* ---------- Query results ---------- */

  lemma {:induction false} PlaceDistinct(rows: Rows, s: seq<ReservationId>, r: ReservationId)
    requires r in rows && r !in s && Distinct(s) && forall i :: 0 <= i < |s| ==> s[i] in rows
    ensures Distinct(PlaceByUser(rows, s, r))
    decreases |s|
  {
    if s == [] || rows[s[|s| - 1]].user <= rows[r].user {
    } else {
      var init, last := s[..|s| - 1], s[|s| - 1];
      PlaceDistinct(rows, init, r);
      PlaceByUserElements(rows, init, r, last);
      assert last !in init;
      assert last !in PlaceByUser(rows, init, r);
    }
  }

  ghost predicate ByUser(rows: Rows, s: seq<ReservationId>)
    requires forall i :: 0 <= i < |s| ==> s[i] in rows
  {
    forall i, j :: 0 <= i < j < |s| ==> rows[s[i]].user <= rows[s[j]].user
  }

  lemma {:induction false} PlaceOrdered(rows: Rows, s: seq<ReservationId>, r: ReservationId)
    requires r in rows && (forall i :: 0 <= i < |s| ==> s[i] in rows) && ByUser(rows, s)
    ensures forall x :: x in PlaceByUser(rows, s, r) ==> x in rows && (x == r || x in s)
    ensures ByUser(rows, PlaceByUser(rows, s, r))
    decreases |s|
  {
    if s == [] || rows[s[|s| - 1]].user <= rows[r].user {
    } else {
      var init, last := s[..|s| - 1], s[|s| - 1];
      PlaceOrdered(rows, init, r);
      var placed := PlaceByUser(rows, init, r);
      forall i | 0 <= i < |placed| ensures rows[placed[i]].user <= rows[last].user {
        assert placed[i] in placed;
      }
      forall i | 0 <= i < |PlaceByUser(rows, s, r)| ensures PlaceByUser(rows, s, r)[i] in rows {
      }
    }
  }

  /** The selected rows are listed once each, in the order the accounts are locked in. */
  lemma {:induction false} SelectOrdered(rows: Rows, keep: nat -> bool, n: nat)
    ensures Distinct(Select(rows, keep, n)) && ByUser(rows, Select(rows, keep, n))
  {
    if n > 0 {
      SelectOrdered(rows, keep, n - 1);
      var rest := Select(rows, keep, n - 1);
      if n - 1 in rows && keep(n - 1) {
        assert n - 1 !in rest;
        PlacedWell(rows, rest, n - 1);
        assert Select(rows, keep, n) == PlaceByUser(rows, rest, n - 1);
      }
    }
  }

  lemma PlacedWell(rows: Rows, s: seq<ReservationId>, r: ReservationId)
    requires r in rows && r !in s && Distinct(s) && (forall i :: 0 <= i < |s| ==> s[i] in rows) && ByUser(rows, s)
    ensures var placed := PlaceByUser(rows, s, r);
      Distinct(placed) && (forall i :: 0 <= i < |placed| ==> placed[i] in rows) && ByUser(rows, placed)
  {
    PlaceDistinct(rows, s, r);
    PlaceOrdered(rows, s, r);
    PlacedByUser(rows, s, r);
  }

  lemma ReservedInExactly(db: Db, g: GameId)
    requires RowsOk(db.sessions, db.bank.reservations, db.nextId)
    ensures forall r :: r in ReservedIn(db, g) <==> StillReserved(db.bank.reservations, g, r)
    ensures Closable(db.bank.reservations, ReservedIn(db, g)) && ByUser(db.bank.reservations, ReservedIn(db, g))
  {
    SelectOrdered(db.bank.reservations, IsReserved(db.bank.reservations, g), db.nextId);
    forall i | 0 <= i < |ReservedIn(db, g)| ensures db.bank.reservations[ReservedIn(db, g)[i]].status == Reserved {
      assert ReservedIn(db, g)[i] in ReservedIn(db, g);
    }
  }

  lemma ParticipantsAre(db: Db, g: GameId)
    requires RowsOk(db.sessions, db.bank.reservations, db.nextId)
    ensures Closable(db.bank.reservations, Participants(db, g)) && ByUser(db.bank.reservations, Participants(db, g))
    ensures forall r :: r in Participants(db, g) <==> SeatedIn(db.seats, g, r) && StillReserved(db.bank.reservations, g, r)
  {
    SelectOrdered(db.bank.reservations, IsParticipant(db.bank.reservations, db.seats, g), db.nextId);
    forall i | 0 <= i < |Participants(db, g)| ensures db.bank.reservations[Participants(db, g)[i]].status == Reserved {
      assert Participants(db, g)[i] in Participants(db, g);
    }
  }

  /** In a live session the participants are all its reserved reservations, and all its seats. */
  lemma ParticipantsExactly(db: Db, g: GameId)
    requires Placed(db.sessions, db.seats, db.bank.reservations, db.nextId)
    requires g in db.sessions && Live(db.sessions[g].lifecycle)
    ensures forall r :: r in Participants(db, g) <==> StillReserved(db.bank.reservations, g, r)
    ensures forall r :: r in Participants(db, g) <==> SeatedIn(db.seats, g, r)
  {
    ParticipantsAre(db, g);
    forall r ensures StillReserved(db.bank.reservations, g, r) <==> SeatedIn(db.seats, g, r) {
      SeatedIffReserved(db.sessions, db.seats, db.bank.reservations, db.nextId, g, r);
    }
  }

  lemma SeatedIffReserved(games: Games, seats: Seats, rows: Rows, n: nat, g: GameId, r: ReservationId)
    requires Placed(games, seats, rows, n)
    requires g in games && Live(games[g].lifecycle)
    ensures StillReserved(rows, g, r) <==> SeatedIn(seats, g, r)
  {
    assert r in rows ==> Agrees(games, rows[r], r in seats);
    assert r in seats ==> SeatOk(games, rows, n, seats[r], r);
  }

  lemma ClosingEnds(rows: Rows, after: Rows, listed: seq<ReservationId>, status: Status, k: OpKey, g: GameId)
    requires ClosesExactly(rows, after, listed, status, k) && status != Reserved
    requires forall r :: r in listed <==> StillReserved(rows, g, r)
    ensures Ends(rows, after, g)
  {
    forall r | r in rows ensures EndsRow(rows[r], after[r], g) {
      assert r in listed <==> StillReserved(rows, g, r);
    }
  }
}
