/**
 * Account coins: balances, the double-entry ledger and reservations, with the primitive movements
 * every coin operation is made of (economy.service.ts, game-sessions.service.ts,
 * internal-settlement.service.ts). An operation is identified by its unique (actor, scope, key).
 */
module CoinBank {
  import opened Outcomes
  import opened Sums

  type UserId = nat
  type GameId = nat
  type ReservationId = nat

  /** The largest value of a numeric(78, 0) column. */
  const MAX_ACCOUNT_COIN := 999_999_999_999_999_999_999_999_999_999_999_999_999_999_999_999_999_999_999_999_999_999_999_999_999_999

  datatype Scope =
    | InitialGrant
    | RescueGrant
    | CreateSession
    | JoinIntent
    | ReleaseJoinIntent
    | CancelSession
    | SettleSession
    | AbortSession
    | ConsumeTicket
    | MarkStarted
    | ReconnectTicket

  datatype OpKey = OpKey(actor: UserId, scope: Scope, key: string)

  datatype LedgerAccount = Issuance | Available(user: UserId) | ReservedFor(user: UserId)

  datatype Entry = Entry(op: OpKey, account: LedgerAccount, amount: int)

  datatype Account = Account(available: int, reserved: int, lastRescue: Option<int>)

  datatype Status = Reserved | Captured | Released

  datatype Reservation = Reservation(user: UserId, game: GameId, amount: nat, status: Status, terminal: Option<OpKey>)

  datatype Bank = Bank(
    accounts: map<UserId, Account>,
    ledger: seq<Entry>,
    reservations: map<ReservationId, Reservation>)

  datatype Failure = Insufficient | Unbacked | Overflow

  const NEW_ACCOUNT := Account(0, 0, None)

  /* ---------- Movements ---------- */

  /** One ledger row and the balance column it belongs to; nothing at all for a zero amount. */
  function Enter(b: Bank, op: OpKey, account: LedgerAccount, amount: int): Bank
    requires amount != 0 && account != Issuance ==> account.user in b.accounts
  {
    if amount == 0 then b
    else
      var accounts :=
        match account
        case Issuance => b.accounts
        case Available(u) => b.accounts[u := b.accounts[u].(available := b.accounts[u].available + amount)]
        case ReservedFor(u) => b.accounts[u := b.accounts[u].(reserved := b.accounts[u].reserved + amount)];
      b.(accounts := accounts, ledger := b.ledger + [Entry(op, account, amount)])
  }

  /** Coins of one user from available to reserved (back, for a negative amount). */
  function Shift(b: Bank, op: OpKey, u: UserId, amount: int): Bank
    requires amount != 0 ==> u in b.accounts
  {
    Enter(Enter(b, op, Available(u), 0 - amount), op, ReservedFor(u), amount)
  }

  function Later(stored: Option<int>, now: int): int {
    if stored.Some? && stored.value > now then stored.value else now
  }

  function Stamp(b: Bank, u: UserId, now: int): Bank
    requires u in b.accounts
  {
    b.(accounts := b.accounts[u := b.accounts[u].(lastRescue := Some(Later(b.accounts[u].lastRescue, now)))])
  }

  function Grant(b: Bank, op: OpKey, u: UserId, amount: nat, now: int, rescue: bool): Result<Bank, Failure>
    requires u in b.accounts
  {
    if b.accounts[u].available + amount > MAX_ACCOUNT_COIN then Err(Overflow)
    else
      var granted := Enter(Enter(b, op, Available(u), amount), op, Issuance, 0 - amount);
      Ok(if rescue then Stamp(granted, u, now) else granted)
  }

  function Hold(b: Bank, op: OpKey, u: UserId, r: ReservationId, game: GameId, amount: nat): Result<Bank, Failure>
    requires u in b.accounts
  {
    if amount > 0 && b.accounts[u].available < amount then Err(Insufficient)
    else if amount > 0 && b.accounts[u].reserved + amount > MAX_ACCOUNT_COIN then Err(Overflow)
    else
      var held := Shift(b, op, u, amount);
      Ok(held.(reservations := held.reservations[r := Reservation(u, game, amount, Reserved, None)]))
  }

  function Close(b: Bank, op: OpKey, r: ReservationId, status: Status): Bank
    requires r in b.reservations
  {
    b.(reservations := b.reservations[r := b.reservations[r].(status := status, terminal := Some(op))])
  }

  predicate Covered(b: Bank, r: ReservationId)
    requires r in b.reservations
  {
    var row := b.reservations[r];
    row.amount == 0 || (row.user in b.accounts && b.accounts[row.user].reserved >= row.amount)
  }

  function Free(b: Bank, op: OpKey, r: ReservationId): Result<Bank, Failure>
    requires r in b.reservations
  {
    var row := b.reservations[r];
    if !Covered(b, r) then Err(Unbacked)
    else if row.amount > 0 && b.accounts[row.user].available + row.amount > MAX_ACCOUNT_COIN then Err(Overflow)
    else Ok(Close(Shift(b, op, row.user, 0 - row.amount), op, r, Released))
  }

  function Take(b: Bank, op: OpKey, r: ReservationId): Result<Bank, Failure>
    requires r in b.reservations
  {
    var row := b.reservations[r];
    if !Covered(b, r) then Err(Unbacked)
    else Ok(Close(Enter(b, op, ReservedFor(row.user), 0 - row.amount), op, r, Captured))
  }

  /** Releasing (or capturing) a list of rows one after the other; the first failure stops it. */
  function CloseAll(b: Bank, op: OpKey, rows: seq<ReservationId>, status: Status): Result<Bank, Failure>
    requires status != Reserved && forall i :: 0 <= i < |rows| ==> rows[i] in b.reservations
    ensures CloseAll(b, op, rows, status).Ok? ==> CloseAll(b, op, rows, status).value.reservations.Keys == b.reservations.Keys
  {
    if rows == [] then Ok(b)
    else
      match CloseAll(b, op, rows[..|rows| - 1], status)
      case Err(e) => Err(e)
      case Ok(c) => if status == Released then Free(c, op, rows[|rows| - 1]) else Take(c, op, rows[|rows| - 1])
  }

  /* ---------- What the books must say ---------- */

  function AccountSum(ledger: seq<Entry>, a: LedgerAccount): int {
    if ledger == [] then 0
    else
      var e := ledger[|ledger| - 1];
      AccountSum(ledger[..|ledger| - 1], a) + if e.account == a then e.amount else 0
  }

  function OpSum(ledger: seq<Entry>, op: OpKey): int {
    if ledger == [] then 0
    else
      var e := ledger[|ledger| - 1];
      OpSum(ledger[..|ledger| - 1], op) + if e.op == op then e.amount else 0
  }

  function Column(b: Bank, a: LedgerAccount): int
    requires a != Issuance
  {
    if a.user !in b.accounts then 0
    else if a.Available? then b.accounts[a.user].available
    else b.accounts[a.user].reserved
  }

  function Wealth(b: Bank, u: UserId): int {
    Column(b, Available(u)) + Column(b, ReservedFor(u))
  }

  function Holdings(): Account -> int {
    (a: Account) => a.available + a.reserved
  }

  ghost function Total(b: Bank): int {
    MapSum(b.accounts, Holdings())
  }

  function Issued(b: Bank): int {
    -AccountSum(b.ledger, Issuance)
  }

  function HeldBy(u: UserId): Reservation -> int {
    (r: Reservation) => if r.user == u && r.status == Reserved then r.amount else 0
  }

  ghost function Held(b: Bank, u: UserId): int {
    MapSum(b.reservations, HeldBy(u))
  }

  ghost predicate ColumnsMatch(b: Bank) {
    forall a: LedgerAccount {:trigger AccountSum(b.ledger, a)} :: a != Issuance ==> Column(b, a) == AccountSum(b.ledger, a)
  }

  ghost predicate OpsSumTo(b: Bank, k: OpKey, x: int) {
    forall j :: OpSum(b.ledger, j) == if j == k then x else 0
  }

  ghost predicate Ledgered(b: Bank, k: OpKey, x: int) {
    ColumnsMatch(b) && OpsSumTo(b, k, x) && Total(b) == Issued(b) + x
  }

  ghost predicate Solvent(b: Bank) {
    forall u :: u in b.accounts ==> b.accounts[u].available >= 0 && b.accounts[u].reserved >= 0
  }

  ghost predicate Owned(b: Bank) {
    forall r :: r in b.reservations ==> b.reservations[r].user in b.accounts
  }

  ghost predicate Backed(b: Bank) {
    forall u :: Column(b, ReservedFor(u)) == Held(b, u)
  }

  /** The books in the middle of operation `k`, which has so far moved `x` coins out of thin air. */
  ghost predicate Books(b: Bank, k: OpKey, x: int) {
    Ledgered(b, k, x) && Solvent(b) && Owned(b) && Backed(b)
  }

  /** The books between operations. */
  ghost predicate Balanced(b: Bank) {
    && ColumnsMatch(b)
    && (forall j :: OpSum(b.ledger, j) == 0)
    && Total(b) == Issued(b)
    && Solvent(b) && Owned(b) && Backed(b)
  }

  lemma BalancedIsBooks(b: Bank, k: OpKey)
    ensures Balanced(b) <==> Books(b, k, 0)
  {
  }

  /* ---------- One entry ---------- */

  lemma SumsSnoc(ledger: seq<Entry>, e: Entry, a: LedgerAccount, j: OpKey)
    ensures AccountSum(ledger + [e], a) == AccountSum(ledger, a) + if e.account == a then e.amount else 0
    ensures OpSum(ledger + [e], j) == OpSum(ledger, j) + if e.op == j then e.amount else 0
  {
    assert (ledger + [e])[..|ledger + [e]| - 1] == ledger;
  }

  /** An entry moves its own column and nobody else's. */
  lemma EnterColumns(b: Bank, op: OpKey, account: LedgerAccount, amount: int, a: LedgerAccount)
    requires account != Issuance ==> account.user in b.accounts
    requires a != Issuance
    ensures Column(Enter(b, op, account, amount), a) == Column(b, a) + if a == account then amount else 0
  {
  }

  lemma EnterTotal(b: Bank, op: OpKey, account: LedgerAccount, amount: int)
    requires account != Issuance ==> account.user in b.accounts
    ensures Total(Enter(b, op, account, amount)) == Total(b) + if account == Issuance then 0 else amount
  {
    var c := Enter(b, op, account, amount);
    if account != Issuance && amount != 0 {
      MapSumUpdate(b.accounts, Holdings(), account.user, c.accounts[account.user]);
    }
  }

  lemma EnterKeepsLedgered(b: Bank, k: OpKey, x: int, account: LedgerAccount, amount: int)
    requires Ledgered(b, k, x)
    requires account != Issuance ==> account.user in b.accounts
    ensures Ledgered(Enter(b, k, account, amount), k, x + amount)
  {
    if amount != 0 {
      var c := Enter(b, k, account, amount);
      var e := Entry(k, account, amount);
      forall a: LedgerAccount | a != Issuance ensures Column(c, a) == AccountSum(c.ledger, a) {
        EnterColumns(b, k, account, amount, a);
        SumsSnoc(b.ledger, e, a, k);
      }
      forall j ensures OpSum(c.ledger, j) == if j == k then x + amount else 0 {
        SumsSnoc(b.ledger, e, Issuance, j);
      }
      EnterTotal(b, k, account, amount);
      SumsSnoc(b.ledger, e, Issuance, k);
    }
  }

  /* ---------- Reservations ---------- */

  lemma HeldUpdate(b: Bank, r: ReservationId, row: Reservation, u: UserId)
    ensures Held(b.(reservations := b.reservations[r := row]), u)
         == Held(b, u) - (if r in b.reservations then HeldBy(u)(b.reservations[r]) else 0) + HeldBy(u)(row)
  {
    MapSumUpdate(b.reservations, HeldBy(u), r, row);
  }

  /** A reserved row is covered by its user's reserved column. */
  lemma BackedCovers(b: Bank, r: ReservationId)
    requires Backed(b) && Owned(b) && r in b.reservations && b.reservations[r].status == Reserved
    ensures Covered(b, r)
  {
    var row := b.reservations[r];
    MapSumAtLeast(b.reservations, HeldBy(row.user), r);
    assert Column(b, ReservedFor(row.user)) == Held(b, row.user);
  }

  /* ---------- Each movement keeps the books ---------- */

  /** Rows appended by operation `k` and nothing else. */
  ghost predicate Appends(before: Bank, after: Bank, k: OpKey) {
    && |before.ledger| <= |after.ledger|
    && after.ledger[..|before.ledger|] == before.ledger
    && (forall i :: |before.ledger| <= i < |after.ledger| ==> after.ledger[i].op == k && after.ledger[i].amount != 0)
  }

  ghost predicate SameRescues(before: Bank, after: Bank) {
    && before.accounts.Keys == after.accounts.Keys
    && forall u :: u in before.accounts ==> before.accounts[u].lastRescue == after.accounts[u].lastRescue
  }

  ghost predicate Moves(before: Bank, after: Bank, k: OpKey) {
    Appends(before, after, k) && SameRescues(before, after)
  }

  lemma MovesTrans(a: Bank, b: Bank, c: Bank, k: OpKey)
    requires Moves(a, b, k) && Moves(b, c, k)
    ensures Moves(a, c, k)
  {
    forall i | 0 <= i < |a.ledger| ensures c.ledger[i] == a.ledger[i] {
      assert c.ledger[..|b.ledger|][i] == b.ledger[i];
      assert b.ledger[..|a.ledger|][i] == a.ledger[i];
    }
    forall i | |a.ledger| <= i < |c.ledger| ensures c.ledger[i].op == k && c.ledger[i].amount != 0 {
      if i < |b.ledger| {
        assert c.ledger[..|b.ledger|][i] == b.ledger[i];
      }
    }
  }

  lemma EnterMoves(b: Bank, k: OpKey, account: LedgerAccount, amount: int)
    requires account != Issuance ==> account.user in b.accounts
    ensures Moves(b, Enter(b, k, account, amount), k)
  {
  }

  lemma ShiftColumns(b: Bank, k: OpKey, u: UserId, amount: int, v: UserId)
    requires u in b.accounts
    ensures var c := Shift(b, k, u, amount);
      && Column(c, Available(v)) == Column(b, Available(v)) - (if v == u then amount else 0)
      && Column(c, ReservedFor(v)) == Column(b, ReservedFor(v)) + (if v == u then amount else 0)
  {
    var c := Enter(b, k, Available(u), 0 - amount);
    EnterColumns(b, k, Available(u), 0 - amount, Available(v));
    EnterColumns(b, k, Available(u), 0 - amount, ReservedFor(v));
    EnterColumns(c, k, ReservedFor(u), amount, Available(v));
    EnterColumns(c, k, ReservedFor(u), amount, ReservedFor(v));
  }

  lemma ShiftMoves(b: Bank, k: OpKey, u: UserId, amount: int)
    requires u in b.accounts
    ensures Moves(b, Shift(b, k, u, amount), k)
  {
    var c := Enter(b, k, Available(u), 0 - amount);
    EnterMoves(b, k, Available(u), 0 - amount);
    EnterMoves(c, k, ReservedFor(u), amount);
    MovesTrans(b, c, Enter(c, k, ReservedFor(u), amount), k);
  }

  lemma ShiftLedgered(b: Bank, k: OpKey, x: int, u: UserId, amount: int)
    requires Ledgered(b, k, x) && u in b.accounts
    ensures Ledgered(Shift(b, k, u, amount), k, x)
  {
    EnterKeepsLedgered(b, k, x, Available(u), 0 - amount);
    EnterKeepsLedgered(Enter(b, k, Available(u), 0 - amount), k, x - amount, ReservedFor(u), amount);
  }

  lemma ShiftKeeps(b: Bank, k: OpKey, x: int, u: UserId, amount: int)
    requires Ledgered(b, k, x) && u in b.accounts
    ensures var c := Shift(b, k, u, amount);
      && Ledgered(c, k, x) && Moves(b, c, k) && c.reservations == b.reservations
      && (forall v :: Column(c, Available(v)) == Column(b, Available(v)) - if v == u then amount else 0)
      && (forall v :: Column(c, ReservedFor(v)) == Column(b, ReservedFor(v)) + if v == u then amount else 0)
  {
    ShiftLedgered(b, k, x, u, amount);
    ShiftMoves(b, k, u, amount);
    var c := Shift(b, k, u, amount);
    forall v
      ensures Column(c, Available(v)) == Column(b, Available(v)) - if v == u then amount else 0
      ensures Column(c, ReservedFor(v)) == Column(b, ReservedFor(v)) + if v == u then amount else 0
    {
      ShiftColumns(b, k, u, amount, v);
    }
  }

  /** Non-negative columns make an account solvent. */
  lemma SolventByColumns(b: Bank)
    requires forall u :: Column(b, Available(u)) >= 0 && Column(b, ReservedFor(u)) >= 0
    ensures Solvent(b)
  {
    forall u | u in b.accounts ensures b.accounts[u].available >= 0 && b.accounts[u].reserved >= 0 {
      assert Column(b, Available(u)) >= 0;
    }
  }

  lemma SolventColumns(b: Bank)
    requires Solvent(b)
    ensures forall u :: Column(b, Available(u)) >= 0 && Column(b, ReservedFor(u)) >= 0
  {
  }

  lemma HoldKeeps(b: Bank, k: OpKey, u: UserId, r: ReservationId, game: GameId, amount: nat)
    requires Balanced(b) && u in b.accounts && r !in b.reservations
    ensures var o := Hold(b, k, u, r, game, amount);
      o.Ok? ==>
        && Balanced(o.value) && Moves(b, o.value, k)
        && o.value.reservations == b.reservations[r := Reservation(u, game, amount, Reserved, None)]
        && (forall v :: Wealth(o.value, v) == Wealth(b, v))
  {
    if Hold(b, k, u, r, game, amount).Ok? {
      HoldBooks(b, k, u, r, game, amount);
      HoldWealth(b, k, u, r, game, amount);
      BalancedIsBooks(Hold(b, k, u, r, game, amount).value, k);
    }
  }

  lemma HoldBooks(b: Bank, k: OpKey, u: UserId, r: ReservationId, game: GameId, amount: nat)
    requires Balanced(b) && u in b.accounts && r !in b.reservations
    ensures var d, row := Shift(b, k, u, amount), Reservation(u, game, amount, Reserved, None);
      var e := d.(reservations := d.reservations[r := row]);
      Ledgered(e, k, 0) && Owned(e) && Backed(e) && Moves(b, e, k)
  {
    var d, row := Shift(b, k, u, amount), Reservation(u, game, amount, Reserved, None);
    var e := d.(reservations := d.reservations[r := row]);
    BalancedIsBooks(b, k);
    ShiftKeeps(b, k, 0, u, amount);
    LedgeredIgnoresReservations(d, e, k, 0);
    forall v ensures Column(e, ReservedFor(v)) == Held(e, v) {
      HeldUpdate(d, r, row, v);
      assert Column(b, ReservedFor(v)) == Held(b, v);
    }
  }

  lemma HoldWealth(b: Bank, k: OpKey, u: UserId, r: ReservationId, game: GameId, amount: nat)
    requires Solvent(b) && u in b.accounts && b.accounts[u].available >= amount
    ensures var d, row := Shift(b, k, u, amount), Reservation(u, game, amount, Reserved, None);
      var e := d.(reservations := d.reservations[r := row]);
      Solvent(e) && forall v :: Wealth(e, v) == Wealth(b, v)
  {
    var d, row := Shift(b, k, u, amount), Reservation(u, game, amount, Reserved, None);
    var e := d.(reservations := d.reservations[r := row]);
    SolventColumns(b);
    forall v ensures Column(e, Available(v)) >= 0 && Column(e, ReservedFor(v)) >= 0 && Wealth(e, v) == Wealth(b, v) {
      ShiftColumns(b, k, u, amount, v);
      assert Column(e, Available(v)) == Column(d, Available(v));
      assert Column(e, ReservedFor(v)) == Column(d, ReservedFor(v));
    }
    SolventByColumns(e);
  }

  lemma LedgeredIgnoresReservations(b: Bank, c: Bank, k: OpKey, x: int)
    requires Ledgered(b, k, x) && b.accounts == c.accounts && b.ledger == c.ledger
    ensures Ledgered(c, k, x)
  {
    forall a: LedgerAccount | a != Issuance ensures Column(c, a) == AccountSum(c.ledger, a) {
      assert Column(b, a) == AccountSum(b.ledger, a);
    }
  }

  function Closed(row: Reservation, status: Status, k: OpKey): Reservation {
    row.(status := status, terminal := Some(k))
  }

  /** Closing a reserved row whose coins have left the reserved column keeps the backing. */
  lemma CloseKeepsBacking(b: Bank, c: Bank, k: OpKey, r: ReservationId, status: Status)
    requires Backed(b) && r in b.reservations && b.reservations[r].status == Reserved && status != Reserved
    requires b.reservations == c.reservations
    requires forall v :: Column(c, ReservedFor(v)) == Column(b, ReservedFor(v)) - HeldBy(v)(b.reservations[r])
    ensures Backed(Close(c, k, r, status))
  {
    var d := Close(c, k, r, status);
    forall v ensures Column(d, ReservedFor(v)) == Held(d, v) {
      HeldUpdate(c, r, d.reservations[r], v);
      assert Column(b, ReservedFor(v)) == Held(b, v);
    }
  }

  lemma ReleaseLedgered(b: Bank, k: OpKey, x: int, r: ReservationId)
    requires Ledgered(b, k, x) && r in b.reservations && b.reservations[r].user in b.accounts
    ensures var row := b.reservations[r];
      Ledgered(Close(Shift(b, k, row.user, 0 - row.amount), k, r, Released), k, x)
  {
    var row := b.reservations[r];
    var d := Shift(b, k, row.user, 0 - row.amount);
    ShiftLedgered(b, k, x, row.user, 0 - row.amount);
    LedgeredIgnoresReservations(d, Close(d, k, r, Released), k, x);
  }

  lemma ReleaseBacks(b: Bank, k: OpKey, r: ReservationId)
    requires Backed(b) && Owned(b) && r in b.reservations && b.reservations[r].status == Reserved
    ensures var row := b.reservations[r];
      Backed(Close(Shift(b, k, row.user, 0 - row.amount), k, r, Released))
  {
    var row := b.reservations[r];
    var d := Shift(b, k, row.user, 0 - row.amount);
    forall v ensures Column(d, ReservedFor(v)) == Column(b, ReservedFor(v)) - HeldBy(v)(row) {
      ShiftColumns(b, k, row.user, 0 - row.amount, v);
    }
    CloseKeepsBacking(b, d, k, r, Released);
  }

  lemma ReleaseMoves(b: Bank, k: OpKey, r: ReservationId)
    requires Owned(b) && r in b.reservations
    ensures var row := b.reservations[r];
      var e := Close(Shift(b, k, row.user, 0 - row.amount), k, r, Released);
      Owned(e) && Moves(b, e, k)
  {
    ShiftMoves(b, k, b.reservations[r].user, 0 - b.reservations[r].amount);
  }

  lemma ReleaseBooks(b: Bank, k: OpKey, x: int, r: ReservationId)
    requires Books(b, k, x) && r in b.reservations && b.reservations[r].status == Reserved
    ensures var row := b.reservations[r];
      var e := Close(Shift(b, k, row.user, 0 - row.amount), k, r, Released);
      Ledgered(e, k, x) && Owned(e) && Backed(e) && Moves(b, e, k)
  {
    ReleaseLedgered(b, k, x, r);
    ReleaseBacks(b, k, r);
    ReleaseMoves(b, k, r);
  }

  lemma ReleaseWealth(b: Bank, k: OpKey, r: ReservationId)
    requires Solvent(b) && r in b.reservations && b.reservations[r].user in b.accounts && Covered(b, r)
    ensures var row := b.reservations[r];
      var e := Close(Shift(b, k, row.user, 0 - row.amount), k, r, Released);
      Solvent(e) && forall v :: Wealth(e, v) == Wealth(b, v)
  {
    var row := b.reservations[r];
    var d := Shift(b, k, row.user, 0 - row.amount);
    var e := Close(d, k, r, Released);
    SolventColumns(b);
    forall v ensures Column(e, Available(v)) >= 0 && Column(e, ReservedFor(v)) >= 0 && Wealth(e, v) == Wealth(b, v) {
      ShiftColumns(b, k, row.user, 0 - row.amount, v);
      assert Column(e, Available(v)) == Column(d, Available(v));
      assert Column(e, ReservedFor(v)) == Column(d, ReservedFor(v));
    }
    SolventByColumns(e);
  }

  /** Releasing a reserved row never finds its coins missing; it can only overflow the available column. */
  lemma FreeKeeps(b: Bank, k: OpKey, x: int, r: ReservationId)
    requires Books(b, k, x) && r in b.reservations && b.reservations[r].status == Reserved
    ensures var o, row := Free(b, k, r), b.reservations[r];
      && (o.Err? <==> row.amount > 0 && Column(b, Available(row.user)) + row.amount > MAX_ACCOUNT_COIN)
      && (o.Err? ==> o.error == Overflow)
      && (o.Ok? ==>
           && Books(o.value, k, x) && Moves(b, o.value, k)
           && o.value.reservations == b.reservations[r := Closed(row, Released, k)]
           && forall v :: Wealth(o.value, v) == Wealth(b, v))
  {
    BackedCovers(b, r);
    ReleaseBooks(b, k, x, r);
    ReleaseWealth(b, k, r);
  }

  lemma CaptureColumns(b: Bank, k: OpKey, r: ReservationId)
    requires r in b.reservations && b.reservations[r].user in b.accounts
    ensures var row := b.reservations[r];
      var c := Enter(b, k, ReservedFor(row.user), 0 - row.amount);
      && (forall v :: Column(c, Available(v)) == Column(b, Available(v)))
      && (forall v :: Column(c, ReservedFor(v)) == Column(b, ReservedFor(v)) - if v == row.user then row.amount else 0)
  {
    var row := b.reservations[r];
    var c := Enter(b, k, ReservedFor(row.user), 0 - row.amount);
    forall v
      ensures Column(c, Available(v)) == Column(b, Available(v))
      ensures Column(c, ReservedFor(v)) == Column(b, ReservedFor(v)) - if v == row.user then row.amount else 0
    {
      EnterColumns(b, k, ReservedFor(row.user), 0 - row.amount, Available(v));
      EnterColumns(b, k, ReservedFor(row.user), 0 - row.amount, ReservedFor(v));
    }
  }

  lemma CaptureLedgered(b: Bank, k: OpKey, x: int, r: ReservationId)
    requires Ledgered(b, k, x) && r in b.reservations && b.reservations[r].user in b.accounts
    ensures var row := b.reservations[r];
      Ledgered(Close(Enter(b, k, ReservedFor(row.user), 0 - row.amount), k, r, Captured), k, x - row.amount)
  {
    var row := b.reservations[r];
    var c := Enter(b, k, ReservedFor(row.user), 0 - row.amount);
    EnterKeepsLedgered(b, k, x, ReservedFor(row.user), 0 - row.amount);
    LedgeredIgnoresReservations(c, Close(c, k, r, Captured), k, x - row.amount);
  }

  lemma CaptureBacks(b: Bank, k: OpKey, r: ReservationId)
    requires Backed(b) && Owned(b) && r in b.reservations && b.reservations[r].status == Reserved
    ensures var row := b.reservations[r];
      Backed(Close(Enter(b, k, ReservedFor(row.user), 0 - row.amount), k, r, Captured))
  {
    var row := b.reservations[r];
    CaptureColumns(b, k, r);
    CloseKeepsBacking(b, Enter(b, k, ReservedFor(row.user), 0 - row.amount), k, r, Captured);
  }

  lemma CaptureMoves(b: Bank, k: OpKey, r: ReservationId)
    requires Owned(b) && r in b.reservations
    ensures var row := b.reservations[r];
      var d := Close(Enter(b, k, ReservedFor(row.user), 0 - row.amount), k, r, Captured);
      Owned(d) && Moves(b, d, k)
  {
    var row := b.reservations[r];
    EnterMoves(b, k, ReservedFor(row.user), 0 - row.amount);
  }

  lemma CaptureBooks(b: Bank, k: OpKey, x: int, r: ReservationId)
    requires Books(b, k, x) && r in b.reservations && b.reservations[r].status == Reserved
    ensures var row := b.reservations[r];
      var d := Close(Enter(b, k, ReservedFor(row.user), 0 - row.amount), k, r, Captured);
      Ledgered(d, k, x - row.amount) && Owned(d) && Backed(d) && Moves(b, d, k)
  {
    CaptureLedgered(b, k, x, r);
    CaptureBacks(b, k, r);
    CaptureMoves(b, k, r);
  }

  lemma CaptureWealth(b: Bank, k: OpKey, r: ReservationId)
    requires Solvent(b) && r in b.reservations && b.reservations[r].user in b.accounts && Covered(b, r)
    ensures var row := b.reservations[r];
      var d := Close(Enter(b, k, ReservedFor(row.user), 0 - row.amount), k, r, Captured);
      && Solvent(d)
      && forall v :: Wealth(d, v) == Wealth(b, v) - if v == row.user then row.amount else 0
  {
    var row := b.reservations[r];
    var c := Enter(b, k, ReservedFor(row.user), 0 - row.amount);
    var d := Close(c, k, r, Captured);
    CaptureColumns(b, k, r);
    SolventColumns(b);
    forall v
      ensures Column(d, Available(v)) >= 0 && Column(d, ReservedFor(v)) >= 0
      ensures Wealth(d, v) == Wealth(b, v) - if v == row.user then row.amount else 0
    {
      assert Column(d, Available(v)) == Column(c, Available(v));
      assert Column(d, ReservedFor(v)) == Column(c, ReservedFor(v));
    }
    SolventByColumns(d);
  }

  /** Capturing a reserved row never finds its coins missing. */
  lemma TakeKeeps(b: Bank, k: OpKey, x: int, r: ReservationId)
    requires Books(b, k, x) && r in b.reservations && b.reservations[r].status == Reserved
    ensures var o, row := Take(b, k, r), b.reservations[r];
      && o.Ok?
      && Books(o.value, k, x - row.amount) && Moves(b, o.value, k)
      && o.value.reservations == b.reservations[r := Closed(row, Captured, k)]
      && forall v :: Wealth(o.value, v) == Wealth(b, v) - if v == row.user then row.amount else 0
  {
    BackedCovers(b, r);
    TakeIs(b, k, r);
    CaptureBooks(b, k, x, r);
    CaptureWealth(b, k, r);
  }

  lemma TakeIs(b: Bank, k: OpKey, r: ReservationId)
    requires r in b.reservations && Covered(b, r)
    ensures var row := b.reservations[r];
      Take(b, k, r) == Ok(Close(Enter(b, k, ReservedFor(row.user), 0 - row.amount), k, r, Captured))
  {
  }

  lemma PayKeeps(b: Bank, k: OpKey, x: int, u: UserId, amount: nat)
    requires Books(b, k, x) && u in b.accounts
    ensures var c := Enter(b, k, Available(u), amount);
      && Books(c, k, x + amount) && Moves(b, c, k) && c.reservations == b.reservations
      && forall v :: Wealth(c, v) == Wealth(b, v) + if v == u then amount else 0
  {
    var c := Enter(b, k, Available(u), amount);
    EnterKeepsLedgered(b, k, x, Available(u), amount);
    EnterMoves(b, k, Available(u), amount);
    forall v ensures Column(c, ReservedFor(v)) == Held(c, v) {
      assert Column(b, ReservedFor(v)) == Held(b, v);
    }
  }

  /** A new account holds nothing, so opening it moves no coins. */
  lemma OpenKeeps(b: Bank, u: UserId)
    requires Balanced(b) && u !in b.accounts
    ensures Balanced(b.(accounts := b.accounts[u := NEW_ACCOUNT]))
  {
    var c := b.(accounts := b.accounts[u := NEW_ACCOUNT]);
    MapSumUpdate(b.accounts, Holdings(), u, NEW_ACCOUNT);
    forall a: LedgerAccount | a != Issuance ensures Column(c, a) == AccountSum(c.ledger, a) {
      assert Column(b, a) == AccountSum(b.ledger, a);
    }
    forall v ensures Column(c, ReservedFor(v)) == Held(c, v) {
      assert Column(b, ReservedFor(v)) == Held(b, v);
    }
  }

  lemma StampKeeps(b: Bank, u: UserId, now: int)
    requires Balanced(b) && u in b.accounts
    ensures Balanced(Stamp(b, u, now))
  {
    var c := Stamp(b, u, now);
    MapSumUpdate(b.accounts, Holdings(), u, c.accounts[u]);
    forall a: LedgerAccount | a != Issuance ensures Column(c, a) == AccountSum(c.ledger, a) {
      assert Column(b, a) == AccountSum(b.ledger, a);
    }
    forall v ensures Column(c, ReservedFor(v)) == Held(c, v) {
      assert Column(b, ReservedFor(v)) == Held(b, v);
    }
  }

  /** The two sides of a grant. */
  lemma IssueKeeps(b: Bank, k: OpKey, u: UserId, amount: nat)
    requires Balanced(b) && u in b.accounts
    ensures var d := Enter(Enter(b, k, Available(u), amount), k, Issuance, 0 - amount);
      && Balanced(d) && Moves(b, d, k) && d.reservations == b.reservations
      && Issued(d) == Issued(b) + amount
      && forall v :: Wealth(d, v) == Wealth(b, v) + if v == u then amount else 0
  {
    var c := Enter(b, k, Available(u), amount);
    BalancedIsBooks(b, k);
    PayKeeps(b, k, 0, u, amount);
    var d := Enter(c, k, Issuance, 0 - amount);
    EnterKeepsLedgered(c, k, amount, Issuance, 0 - amount);
    EnterMoves(c, k, Issuance, 0 - amount);
    MovesTrans(b, c, d, k);
    assert d.accounts == c.accounts && d.reservations == c.reservations;
    SameRowsKeepBacking(c, d);
    BalancedIsBooks(d, k);
    if amount != 0 {
      SumsSnoc(b.ledger, Entry(k, Available(u), amount), Issuance, k);
      SumsSnoc(c.ledger, Entry(k, Issuance, 0 - amount), Issuance, k);
    }
  }

  lemma SameRowsKeepBacking(b: Bank, c: Bank)
    requires Backed(b) && b.accounts == c.accounts && b.reservations == c.reservations
    ensures Backed(c)
  {
    forall v ensures Column(c, ReservedFor(v)) == Held(c, v) {
      assert Column(b, ReservedFor(v)) == Held(b, v);
    }
  }

  lemma GrantKeeps(b: Bank, k: OpKey, u: UserId, amount: nat, now: int, rescue: bool)
    requires Balanced(b) && u in b.accounts
    ensures var o := Grant(b, k, u, amount, now, rescue);
      o.Ok? ==>
        && Balanced(o.value) && o.value.reservations == b.reservations
        && Appends(b, o.value, k) && o.value.accounts.Keys == b.accounts.Keys
        && Issued(o.value) == Issued(b) + amount
        && forall v :: Wealth(o.value, v) == Wealth(b, v) + if v == u then amount else 0
  {
    if Grant(b, k, u, amount, now, rescue).Ok? {
      IssueKeeps(b, k, u, amount);
      StampKeeps(Enter(Enter(b, k, Available(u), amount), k, Issuance, 0 - amount), u, now);
    }
  }

  /* ---------- Lists of reservations ---------- */

  function Amounts(reservations: map<ReservationId, Reservation>, rows: seq<ReservationId>): (total: int)
    requires forall i :: 0 <= i < |rows| ==> rows[i] in reservations
    ensures total >= 0
  {
    if rows == [] then 0
    else Amounts(reservations, rows[..|rows| - 1]) + reservations[rows[|rows| - 1]].amount
  }

  /** What user `u` has at stake in the listed rows. */
  function StakeOf(reservations: map<ReservationId, Reservation>, rows: seq<ReservationId>, u: UserId): int
    requires forall i :: 0 <= i < |rows| ==> rows[i] in reservations
  {
    if rows == [] then 0
    else
      var row := reservations[rows[|rows| - 1]];
      StakeOf(reservations, rows[..|rows| - 1], u) + if row.user == u then row.amount else 0
  }

  ghost predicate Distinct<T(!new)>(s: seq<T>) {
    forall i, j :: 0 <= i < j < |s| ==> s[i] != s[j]
  }

  ghost predicate Closable(reservations: map<ReservationId, Reservation>, rows: seq<ReservationId>) {
    && Distinct(rows)
    && forall i :: 0 <= i < |rows| ==> rows[i] in reservations && reservations[rows[i]].status == Reserved
  }

  /** Exactly the listed rows have been closed by `k`. */
  ghost predicate ClosesExactly(
    before: map<ReservationId, Reservation>, after: map<ReservationId, Reservation>,
    rows: seq<ReservationId>, status: Status, k: OpKey)
  {
    && before.Keys == after.Keys
    && forall r :: r in before ==> after[r] == if r in rows then Closed(before[r], status, k) else before[r]
  }

  /** Releasing a list of reserved rows: the only possible failure is an overflow of the available column. */
  lemma {:induction false} FreeAllKeeps(b: Bank, k: OpKey, rows: seq<ReservationId>)
    requires Balanced(b) && Closable(b.reservations, rows)
    ensures var o := CloseAll(b, k, rows, Released);
      && (o.Err? ==> o.error == Overflow)
      && (o.Ok? ==>
           && Balanced(o.value) && Moves(b, o.value, k)
           && ClosesExactly(b.reservations, o.value.reservations, rows, Released, k)
           && forall v :: Wealth(o.value, v) == Wealth(b, v))
    decreases |rows|
  {
    if rows != [] {
      var init, last := rows[..|rows| - 1], rows[|rows| - 1];
      FreeAllKeeps(b, k, init);
      var o := CloseAll(b, k, init, Released);
      if o.Ok? {
        var c := o.value;
        assert last !in init;
        BalancedIsBooks(c, k);
        FreeKeeps(c, k, 0, last);
        if Free(c, k, last).Ok? {
          var d := Free(c, k, last).value;
          BalancedIsBooks(d, k);
          MovesTrans(b, c, d, k);
          ClosesOneMore(b.reservations, c.reservations, rows, Released, k);
        }
      }
    }
  }

  lemma LastUntouched(
    before: map<ReservationId, Reservation>, between: map<ReservationId, Reservation>,
    rows: seq<ReservationId>, status: Status, k: OpKey)
    requires rows != [] && Closable(before, rows)
    requires ClosesExactly(before, between, rows[..|rows| - 1], status, k)
    ensures rows[|rows| - 1] in between && between[rows[|rows| - 1]] == before[rows[|rows| - 1]]
  {
    assert rows[|rows| - 1] !in rows[..|rows| - 1];
  }

  lemma ClosesOneMore(
    before: map<ReservationId, Reservation>, between: map<ReservationId, Reservation>,
    rows: seq<ReservationId>, status: Status, k: OpKey)
    requires rows != [] && Closable(before, rows)
    requires ClosesExactly(before, between, rows[..|rows| - 1], status, k)
    ensures var last := rows[|rows| - 1];
      ClosesExactly(before, between[last := Closed(between[last], status, k)], rows, status, k)
  {
    var init, last := rows[..|rows| - 1], rows[|rows| - 1];
    assert rows == init + [last];
    assert last !in init;
  }

  /** Capturing a list of reserved rows always succeeds and leaves exactly their sum unassigned. */
  lemma {:induction false} TakeAllKeeps(b: Bank, k: OpKey, rows: seq<ReservationId>)
    requires Balanced(b) && Closable(b.reservations, rows)
    ensures var o := CloseAll(b, k, rows, Captured);
      && o.Ok?
      && Books(o.value, k, -Amounts(b.reservations, rows)) && Moves(b, o.value, k)
      && ClosesExactly(b.reservations, o.value.reservations, rows, Captured, k)
      && (forall v :: Wealth(o.value, v) == Wealth(b, v) - StakeOf(b.reservations, rows, v))
    decreases |rows|
  {
    if rows == [] {
      BalancedIsBooks(b, k);
    } else {
      var init, last := rows[..|rows| - 1], rows[|rows| - 1];
      TakeAllKeeps(b, k, init);
      TakeOneMore(b, CloseAll(b, k, init, Captured).value, k, rows);
    }
  }

  lemma TakeOneMore(b: Bank, c: Bank, k: OpKey, rows: seq<ReservationId>)
    requires Closable(b.reservations, rows) && rows != []
    requires var init := rows[..|rows| - 1];
      && Books(c, k, -Amounts(b.reservations, init)) && Moves(b, c, k)
      && ClosesExactly(b.reservations, c.reservations, init, Captured, k)
      && forall v :: Wealth(c, v) == Wealth(b, v) - StakeOf(b.reservations, init, v)
    ensures var o := Take(c, k, rows[|rows| - 1]);
      && o.Ok?
      && Books(o.value, k, -Amounts(b.reservations, rows)) && Moves(b, o.value, k)
      && ClosesExactly(b.reservations, o.value.reservations, rows, Captured, k)
      && (forall v :: Wealth(o.value, v) == Wealth(b, v) - StakeOf(b.reservations, rows, v))
  {
    LastUntouched(b.reservations, c.reservations, rows, Captured, k);
    ClosesOneMore(b.reservations, c.reservations, rows, Captured, k);
    TakeNext(b, c, k, -Amounts(b.reservations, rows[..|rows| - 1]), rows[|rows| - 1]);
    StakesOneMore(b, c, Take(c, k, rows[|rows| - 1]).value, rows);
  }

  lemma TakeNext(b: Bank, c: Bank, k: OpKey, x: int, r: ReservationId)
    requires Books(c, k, x) && Moves(b, c, k) && r in c.reservations && c.reservations[r].status == Reserved
    ensures var o, row := Take(c, k, r), c.reservations[r];
      && o.Ok?
      && Books(o.value, k, x - row.amount) && Moves(b, o.value, k)
      && o.value.reservations == c.reservations[r := Closed(row, Captured, k)]
      && forall v :: Wealth(o.value, v) == Wealth(c, v) - if v == row.user then row.amount else 0
  {
    TakeKeeps(c, k, x, r);
    MovesTrans(b, c, Take(c, k, r).value, k);
  }

  lemma StakesOneMore(b: Bank, c: Bank, d: Bank, rows: seq<ReservationId>)
    requires rows != [] && forall i :: 0 <= i < |rows| ==> rows[i] in b.reservations
    requires forall v :: Wealth(c, v) == Wealth(b, v) - StakeOf(b.reservations, rows[..|rows| - 1], v)
    requires var row := b.reservations[rows[|rows| - 1]];
      forall v :: Wealth(d, v) == Wealth(c, v) - if v == row.user then row.amount else 0
    ensures forall v :: Wealth(d, v) == Wealth(b, v) - StakeOf(b.reservations, rows, v)
  {
    forall v ensures Wealth(d, v) == Wealth(b, v) - StakeOf(b.reservations, rows, v) {
      assert Wealth(c, v) == Wealth(b, v) - StakeOf(b.reservations, rows[..|rows| - 1], v);
    }
  }

  /** With one stake per user, what a user has at stake is the amount of that user's row. */
  lemma {:induction false} StakeOfOwner(reservations: map<ReservationId, Reservation>, rows: seq<ReservationId>, u: UserId)
    requires forall i :: 0 <= i < |rows| ==> rows[i] in reservations
    requires forall i, j :: 0 <= i < j < |rows| ==> reservations[rows[i]].user != reservations[rows[j]].user
    ensures forall i :: 0 <= i < |rows| && reservations[rows[i]].user == u ==>
      StakeOf(reservations, rows, u) == reservations[rows[i]].amount
    ensures (forall i :: 0 <= i < |rows| ==> reservations[rows[i]].user != u) ==> StakeOf(reservations, rows, u) == 0
    decreases |rows|
  {
    if rows != [] {
      StakeOfOwner(reservations, rows[..|rows| - 1], u);
    }
  }

  lemma {:induction false} AmountsUniform(reservations: map<ReservationId, Reservation>, rows: seq<ReservationId>, entry: nat)
    requires forall i :: 0 <= i < |rows| ==> rows[i] in reservations && reservations[rows[i]].amount == entry
    ensures Amounts(reservations, rows) == |rows| * entry
    decreases |rows|
  {
    if rows != [] {
      AmountsUniform(reservations, rows[..|rows| - 1], entry);
    }
  }
}
