/**
 * The locks that the coin transactions take (game-sessions, internal-session, internal-settlement,
 * reconciliation, economy and identity services), and why no set of concurrent transactions can
 * deadlock. A transaction keeps every lock until it ends. Row ids are numbers in the database's order.
 *
 * Locks are of three kinds. Some are taken in one global order. The rows that UPDATE, DELETE and INSERT
 * lock on the way are taken in any order, but under a guard: the session row of their session or the
 * account row of their user is held first. The rest, a ticket presented to the wrong session and the
 * idempotency key of an operation whose actor's account is not locked, are the last lock their
 * transaction takes.
 *
 * The shared key lock that a foreign key takes on a parent row does conflict with FOR UPDATE on a session
 * or a reservation, but adds no waiting here: a transaction that inserts a child of either already holds
 * the session row. The game server's inserts may wait for a session row, but they hold only rows of the
 * realtime tables, which no transaction here ever locks.
 */
module LockOrder {
  import opened Outcomes

  type Id = nat

  /** The tables whose rows belong to one session. */
  datatype GameTable = Reservations | Seats | Intents | Tickets | Settlements | History

  /** The tables whose rows belong to one user; an operation is locked through its unique key. */
  datatype UserTable = Operations | LedgerAccounts | Leaderboard

  datatype Resource =
    | UserRow(user: Id)
    | Advisory(game: Id)
    | RecoveryAdvisory(game: Id)
    | AccountRow(user: Id)
    | IssuanceRow
    | SessionRow(game: Id)
    | GameRow(game: Id, gameTable: GameTable, id: Id)
    | UserDetail(user: Id, userTable: UserTable, id: Id)
    | LooseOperation(user: Id, id: Id)

  predicate Ordered(r: Resource) {
    !r.GameRow? && !r.UserDetail? && !r.LooseOperation?
  }

  predicate IsTicket(r: Resource) {
    r.GameRow? && r.gameTable == Tickets
  }

  predicate Guarded(r: Resource) {
    r.GameRow? || r.UserDetail?
  }

  /** What a transaction must hold before it touches a guarded row. */
  function Guard(r: Resource): Resource
    requires Guarded(r)
  {
    if r.GameRow? then SessionRow(r.game) else AccountRow(r.user)
  }

  function Rank(r: Resource): int
    requires Ordered(r)
  {
    match r
    case UserRow(_) => 0
    case Advisory(_) => 1
    case RecoveryAdvisory(_) => 2
    case AccountRow(_) => 3
    case IssuanceRow => 4
    case SessionRow(_) => 5
  }

  function Major(r: Resource): int
    requires Ordered(r)
  {
    match r
    case UserRow(u) => u
    case Advisory(g) => g
    case RecoveryAdvisory(g) => g
    case AccountRow(u) => u
    case IssuanceRow => 0
    case SessionRow(g) => g
  }

  /** The one global order: by kind of resource, then by id. */
  predicate Below(a: Resource, b: Resource)
    requires Ordered(a) && Ordered(b)
  {
    Rank(a) < Rank(b) || (Rank(a) == Rank(b) && Major(a) < Major(b))
  }

  /* ---------- What makes a script safe ---------- */

  /** The guard of the lock at `i` is among the locks before it. */
  predicate Covered(s: seq<Resource>, i: nat)
    requires i < |s|
  {
    Guarded(s[i]) && Guard(s[i]) in s[..i]
  }

  /** Ordered locks come in ascending order. */
  predicate Ascending(s: seq<Resource>) {
    forall i, j :: 0 <= i < j < |s| && Ordered(s[i]) && Ordered(s[j]) ==> Below(s[i], s[j])
  }

  /** A lock that is neither ordered nor under its guard is the last one; only a ticket may lack its guard. */
  predicate LooseLast(s: seq<Resource>) {
    forall i :: 0 <= i < |s| && !Ordered(s[i]) && !Covered(s, i) ==> i == |s| - 1 && (IsTicket(s[i]) || s[i].LooseOperation?)
  }

  /** Once a ticket is locked, only guarded rows and a loose operation follow. */
  predicate TicketsLate(s: seq<Resource>) {
    forall i, j :: 0 <= i < j < |s| && IsTicket(s[i]) ==> !Ordered(s[j]) && (IsTicket(s[j]) ==> Covered(s, j))
  }

  predicate Safe(s: seq<Resource>) {
    Ascending(s) && LooseLast(s) && TicketsLate(s)
  }

  /* ---------- The lock scripts ---------- */

  /** `[...new Set(userIds)].sort()`: each user once, in ascending order. */
  function SortedUsers(users: seq<Id>): (r: seq<Id>)
    ensures forall i, j :: 0 <= i < j < |r| ==> r[i] < r[j]
    ensures forall u :: u in r <==> u in users
  {
    if users == [] then []
    else
      assert users == [users[0]] + users[1..];
      InsertUser(users[0], SortedUsers(users[1..]))
  }

  function InsertUser(u: Id, s: seq<Id>): (r: seq<Id>)
    requires forall i, j :: 0 <= i < j < |s| ==> s[i] < s[j]
    ensures forall i, j :: 0 <= i < j < |r| ==> r[i] < r[j]
    ensures forall x :: x in r <==> x == u || x in s
  {
    if s == [] || u < s[0] then [u] + s
    else if u == s[0] then s
    else
      assert s == [s[0]] + s[1..];
      var rest := InsertUser(u, s[1..]);
      assert forall j :: 0 <= j < |rest| ==> rest[j] in rest && s[0] < rest[j];
      [s[0]] + rest
  }

  function AccountRows(users: seq<Id>): (r: seq<Resource>)
    ensures |r| == |users| && forall i :: 0 <= i < |r| ==> r[i] == AccountRow(users[i])
  {
    seq(|users|, i requires 0 <= i < |users| => AccountRow(users[i]))
  }

  /** A row that some statement of a transaction locks, in whatever order the statements come. */
  datatype Touch = OfGame(gameTable: GameTable, id: Id) | OfUser(user: Id, userTable: UserTable, id: Id)

  function Touched(g: Id, t: Touch): Resource {
    match t
    case OfGame(table, id) => GameRow(g, table, id)
    case OfUser(u, table, id) => UserDetail(u, table, id)
  }

  function Rows(g: Id, touches: seq<Touch>): (r: seq<Resource>)
    ensures |r| == |touches| && forall i :: 0 <= i < |r| ==> r[i] == Touched(g, touches[i])
  {
    seq(|touches|, i requires 0 <= i < |touches| => Touched(g, touches[i]))
  }

  /** A transaction and the rows its own queries decided on. */
  datatype Transaction =
    | Provision(user: Id, opening: seq<Touch>, touches: seq<Touch>)
    | Rescue(user: Id, touches: seq<Touch>)
    | CreateSession(user: Id, operation: Id, game: Id, touches: seq<Touch>)
    | ReplayCreate(user: Id, game: Id, touches: seq<Touch>)
    | Join(user: Id, game: Id, touches: seq<Touch>)
    | Reconnect(user: Id, game: Id, touches: seq<Touch>)
    | Leave(user: Id, game: Id, touches: seq<Touch>)
    | ReleaseAdmission(user: Id, game: Id, touches: seq<Touch>)
    | Cancel(game: Id, holders: seq<Id>, touches: seq<Touch>)
    | ConsumeTicket(game: Id, ticketGame: Id, ticket: Id, touches: seq<Touch>, actor: Id, operation: Id)
    | MarkStarted(game: Id, actor: Id, operation: Id)
    | Bootstrap(game: Id)
    | Settle(game: Id, holders: seq<Id>, touches: seq<Touch>)
    | Abort(game: Id, holders: seq<Id>, touches: seq<Touch>)
    | MarkRecovery(game: Id)

  /** The users whose account rows the transaction locks. */
  function Users(t: Transaction): seq<Id> {
    match t
    case Provision(u, _, _) => [u]
    case Rescue(u, _) => [u]
    case CreateSession(u, _, _, _) => [u]
    case ReplayCreate(u, _, _) => [u]
    case Join(u, _, _) => [u]
    case Reconnect(u, _, _) => [u]
    case Leave(u, _, _) => [u]
    case ReleaseAdmission(u, _, _) => [u]
    case Cancel(_, holders, _) => holders
    case Settle(_, holders, _) => holders
    case Abort(_, holders, _) => holders
    case _ => []
  }

  predicate HasTouches(t: Transaction) {
    !t.MarkStarted? && !t.Bootstrap? && !t.MarkRecovery?
  }

  /**
   * Rows of a user are only touched when that user's account is locked: the actor's, or for a cancel,
   * settle or abort those of the reservation holders, of whom the creator, its actor, is one. A
   * transaction without a session touches no rows of one.
   */
  predicate WellFormed(t: Transaction) {
    && (HasTouches(t) ==>
         forall i :: 0 <= i < |t.touches| ==>
           if t.touches[i].OfUser? then t.touches[i].user in Users(t) else !t.Provision? && !t.Rescue?)
    && (t.Provision? ==> forall i :: 0 <= i < |t.opening| ==> t.opening[i].OfUser? && t.opening[i].user == t.user)
  }

  /** The session transactions: advisory lock, accounts by ascending user, session row, then the rest. */
  function SessionScript(g: Id, users: seq<Id>, touches: seq<Touch>): seq<Resource> {
    [Advisory(g)] + AccountRows(SortedUsers(users)) + [SessionRow(g)] + Rows(g, touches)
  }

  /** The account, then the user's ledger accounts, then the issuance account. */
  function ProvisionHead(u: Id, opening: seq<Touch>): seq<Resource> {
    [UserRow(u), AccountRow(u)] + Rows(0, opening) + [IssuanceRow]
  }

  /** The locks of a transaction in the order its code takes them. */
  function Script(t: Transaction): seq<Resource> {
    match t
    case Provision(u, opening, touches) => ProvisionHead(u, opening) + Rows(0, touches)
    case Rescue(u, touches) => [AccountRow(u)] + Rows(0, touches)
    case CreateSession(u, op, g, touches) => [AccountRow(u), UserDetail(u, Operations, op), SessionRow(g)] + Rows(g, touches)
    case ReplayCreate(u, g, touches) => [AccountRow(u), SessionRow(g)] + Rows(g, touches)
    case Join(u, g, touches) => SessionScript(g, [u], touches)
    case Reconnect(u, g, touches) => SessionScript(g, [u], touches)
    case Leave(u, g, touches) => SessionScript(g, [u], touches)
    case ReleaseAdmission(u, g, touches) => SessionScript(g, [u], touches)
    case Cancel(g, holders, touches) => SessionScript(g, holders, touches)
    case ConsumeTicket(g, h, k, touches, u, op) =>
      [Advisory(g), SessionRow(g), GameRow(h, Tickets, k)]
      + (if h == g then Rows(g, touches) + [LooseOperation(u, op)] else [])
    case MarkStarted(g, u, op) => [Advisory(g), SessionRow(g), LooseOperation(u, op)]
    case Bootstrap(g) => [Advisory(g), SessionRow(g)]
    case Settle(g, holders, touches) => SessionScript(g, holders, touches)
    case Abort(g, holders, touches) => SessionScript(g, holders, touches)
    case MarkRecovery(g) => [RecoveryAdvisory(g), SessionRow(g)]
  }

  /** Ordered locks in ascending order, then rows whose guards are among them: a safe script. */
  lemma GuardedTail(head: seq<Resource>, tail: seq<Resource>)
    requires Ascending(head) && LooseLast(head + tail) && forall i :: 0 <= i < |head| ==> !IsTicket(head[i])
    requires forall i :: 0 <= i < |tail| ==> Guarded(tail[i]) && Guard(tail[i]) in head
    ensures Safe(head + tail)
  {
    var s := head + tail;
    forall i | 0 <= i < |s| && i >= |head| ensures !Ordered(s[i]) && Covered(s, i) {
      assert s[i] == tail[i - |head|];
      assert s[..|head|] == head;
      assert s[..i][..|head|] == head;
    }
  }

  lemma CoveredTail(head: seq<Resource>, tail: seq<Resource>)
    requires forall i :: 0 <= i < |head| ==> Ordered(head[i]) || Covered(head, i)
    requires forall i :: 0 <= i < |tail| ==> Guarded(tail[i]) && Guard(tail[i]) in head
    ensures LooseLast(head + tail)
    ensures forall i :: 0 <= i < |head + tail| ==> Ordered((head + tail)[i]) || Covered(head + tail, i)
  {
    var s := head + tail;
    forall i | 0 <= i < |s| ensures Ordered(s[i]) || Covered(s, i) {
      if i < |head| {
        assert s[..i] == head[..i];
      } else {
        assert s[i] == tail[i - |head|];
        assert s[..i][..|head|] == head;
      }
    }
  }

  /** A head of ordered or covered locks without tickets, followed by rows it guards. */
  lemma HeadAndTailSafe(head: seq<Resource>, tail: seq<Resource>)
    requires Ascending(head) && forall i :: 0 <= i < |head| ==> !IsTicket(head[i]) && (Ordered(head[i]) || Covered(head, i))
    requires forall i :: 0 <= i < |tail| ==> Guarded(tail[i]) && Guard(tail[i]) in head
    ensures Safe(head + tail)
  {
    CoveredTail(head, tail);
    GuardedTail(head, tail);
  }

  function SessionHead(g: Id, users: seq<Id>): seq<Resource> {
    [Advisory(g)] + AccountRows(SortedUsers(users)) + [SessionRow(g)]
  }

  lemma SessionHeadHolds(g: Id, users: seq<Id>)
    ensures var head := SessionHead(g, users);
      && Ascending(head) && (forall i :: 0 <= i < |head| ==> Ordered(head[i]))
      && SessionRow(g) in head && forall u :: u in users ==> AccountRow(u) in head
  {
    var head, sorted := SessionHead(g, users), SortedUsers(users);
    var accounts := AccountRows(sorted);
    assert head[|head| - 1] == SessionRow(g);
    forall i | 0 < i < |head| - 1 ensures head[i] == accounts[i - 1] {
    }
    forall u | u in users ensures AccountRow(u) in head {
      var i :| 0 <= i < |sorted| && sorted[i] == u;
      assert head[i + 1] == AccountRow(u);
    }
  }

  lemma RowsGuarded(head: seq<Resource>, g: Id, touches: seq<Touch>, users: seq<Id>)
    requires SessionRow(g) in head && forall u :: u in users ==> AccountRow(u) in head
    requires forall i :: 0 <= i < |touches| && touches[i].OfUser? ==> touches[i].user in users
    ensures forall i :: 0 <= i < |touches| ==> Guarded(Rows(g, touches)[i]) && Guard(Rows(g, touches)[i]) in head
  {
  }

  lemma SessionScriptSafe(g: Id, users: seq<Id>, touches: seq<Touch>)
    requires forall i :: 0 <= i < |touches| && touches[i].OfUser? ==> touches[i].user in users
    ensures Safe(SessionScript(g, users, touches))
  {
    SessionHeadHolds(g, users);
    RowsGuarded(SessionHead(g, users), g, touches, users);
    HeadAndTailSafe(SessionHead(g, users), Rows(g, touches));
  }

  /** Provisioning and rescue touch only rows of the user whose account they hold. */
  lemma UserScriptSafe(head: seq<Resource>, u: Id, touches: seq<Touch>)
    requires Ascending(head) && AccountRow(u) in head
    requires forall i :: 0 <= i < |head| ==> !IsTicket(head[i]) && (Ordered(head[i]) || Covered(head, i))
    requires forall i :: 0 <= i < |touches| ==> touches[i].OfUser? && touches[i].user == u
    ensures Safe(head + Rows(0, touches))
  {
    HeadAndTailSafe(head, Rows(0, touches));
  }

  lemma ProvisionHeadHolds(u: Id, opening: seq<Touch>)
    requires forall i :: 0 <= i < |opening| ==> opening[i].OfUser? && opening[i].user == u
    ensures var head := ProvisionHead(u, opening);
      && Ascending(head) && AccountRow(u) in head
      && forall i :: 0 <= i < |head| ==> !IsTicket(head[i]) && (Ordered(head[i]) || Covered(head, i))
  {
    var head, rows := ProvisionHead(u, opening), Rows(0, opening);
    assert head[1] == AccountRow(u);
    forall i | 2 <= i < |head| - 1 ensures head[i].UserDetail? && Covered(head, i) {
      assert head[i] == rows[i - 2];
      assert head[..i][1] == AccountRow(u);
    }
  }

  /** A session and an account in hand, with no advisory lock before them. */
  lemma CreateScriptSafe(head: seq<Resource>, u: Id, g: Id, touches: seq<Touch>)
    requires head == [AccountRow(u), SessionRow(g)] || exists op :: head == [AccountRow(u), UserDetail(u, Operations, op), SessionRow(g)]
    requires forall i :: 0 <= i < |touches| && touches[i].OfUser? ==> touches[i].user == u
    ensures Safe(head + Rows(g, touches))
  {
    assert head[0] == AccountRow(u) && head[|head| - 1] == SessionRow(g);
    forall i | 0 <= i < |head| ensures !IsTicket(head[i]) && (Ordered(head[i]) || Covered(head, i)) {
      assert i == 1 && |head| == 3 ==> head[..1] == [AccountRow(u)];
    }
    RowsGuarded(head, g, touches, [u]);
    HeadAndTailSafe(head, Rows(g, touches));
  }

  /** A ticket of the session itself is guarded; one of another session ends the transaction. */
  lemma ConsumeScriptSafe(g: Id, k: Id, touches: seq<Touch>, last: Resource)
    requires last.LooseOperation? && forall i :: 0 <= i < |touches| ==> touches[i].OfGame?
    ensures Safe([Advisory(g), SessionRow(g), GameRow(g, Tickets, k)] + Rows(g, touches) + [last])
  {
    var head, tail := [Advisory(g), SessionRow(g)], [GameRow(g, Tickets, k)] + Rows(g, touches);
    var s := [Advisory(g), SessionRow(g), GameRow(g, Tickets, k)] + Rows(g, touches) + [last];
    assert head[1] == SessionRow(g);
    forall i | 2 <= i < |s| - 1 ensures s[i].GameRow? && Covered(s, i) {
      assert s[i] == tail[i - 2];
      assert s[..i][1] == SessionRow(g);
    }
    assert s[|s| - 1] == last;
  }

  /** Every transaction's script is safe. */
  lemma ScriptsAreSafe(t: Transaction)
    requires WellFormed(t)
    ensures Safe(Script(t))
  {
    match t
    case Provision(u, opening, touches) =>
      ProvisionHeadHolds(u, opening);
      UserScriptSafe(ProvisionHead(u, opening), u, touches);
    case Rescue(u, touches) =>
      assert [AccountRow(u)][0] == AccountRow(u);
      UserScriptSafe([AccountRow(u)], u, touches);
    case CreateSession(u, op, g, touches) => CreateScriptSafe([AccountRow(u), UserDetail(u, Operations, op), SessionRow(g)], u, g, touches);
    case ReplayCreate(u, g, touches) => CreateScriptSafe([AccountRow(u), SessionRow(g)], u, g, touches);
    case ConsumeTicket(g, h, k, touches, u, op) =>
      if h == g {
        ConsumeScriptSafe(g, k, touches, LooseOperation(u, op));
        assert Script(t) == [Advisory(g), SessionRow(g), GameRow(g, Tickets, k)] + Rows(g, touches) + [LooseOperation(u, op)];
      } else {
        StrayTicketSafe(g, h, k);
        assert Script(t) == [Advisory(g), SessionRow(g), GameRow(h, Tickets, k)];
      }
    case MarkStarted(g, u, op) => StartScriptSafe(g, LooseOperation(u, op));
    case Bootstrap(g) => PairSafe(Advisory(g), SessionRow(g));
    case MarkRecovery(g) => PairSafe(RecoveryAdvisory(g), SessionRow(g));
    case _ => SessionScriptSafe(t.game, Users(t), t.touches);
  }

  lemma StrayTicketSafe(g: Id, h: Id, k: Id)
    ensures Safe([Advisory(g), SessionRow(g), GameRow(h, Tickets, k)])
  {
  }

  lemma StartScriptSafe(g: Id, last: Resource)
    requires last.LooseOperation?
    ensures Safe([Advisory(g), SessionRow(g), last])
  {
  }

  lemma PairSafe(a: Resource, b: Resource)
    requires Ordered(a) && Ordered(b) && Below(a, b)
    ensures Safe([a, b])
  {
  }

  /* ---------- What the scripts lock ---------- */

  /** The session a transaction is about. */
  function GameOf(t: Transaction): Option<Id> {
    if t.Provision? || t.Rescue? then None else Some(t.game)
  }

  /** Transactions on an existing session start with its advisory lock. */
  predicate Serialized(t: Transaction) {
    GameOf(t).Some? && !t.CreateSession? && !t.ReplayCreate? && !t.MarkRecovery?
  }

  /** The rows that the statements of a transaction get to lock: none after a ticket of another session. */
  function TouchesOf(t: Transaction): seq<Touch> {
    if !HasTouches(t) || (t.ConsumeTicket? && t.ticketGame != t.game) then [] else t.touches
  }

  /** What a transaction must hold in the end: its users' accounts, its session, and every row it touches. */
  predicate Complete(t: Transaction, s: seq<Resource>) {
    && (forall u :: u in Users(t) ==> AccountRow(u) in s)
    && (GameOf(t).Some? ==> SessionRow(GameOf(t).value) in s)
    && (Serialized(t) ==> s[..1] == [Advisory(GameOf(t).value)])
    && (forall i :: 0 <= i < |TouchesOf(t)| ==>
          Touched(if GameOf(t).Some? then GameOf(t).value else 0, TouchesOf(t)[i]) in s)
    && (t.ConsumeTicket? ==> GameRow(t.ticketGame, Tickets, t.ticket) in s)
  }

  lemma TailIsIn(head: seq<Resource>, g: Id, touches: seq<Touch>, tail: seq<Resource>)
    ensures var s := head + Rows(g, touches) + tail;
      && (forall r :: r in head ==> r in s)
      && (forall i :: 0 <= i < |touches| ==> Touched(g, touches[i]) in s)
  {
    var s := head + Rows(g, touches) + tail;
    forall i | 0 <= i < |touches| ensures Touched(g, touches[i]) in s {
      assert s[|head| + i] == Rows(g, touches)[i];
    }
    forall r | r in head ensures r in s {
      var i :| 0 <= i < |head| && head[i] == r;
      assert s[i] == r;
    }
  }

  lemma SessionScriptComplete(t: Transaction)
    requires Serialized(t) && !t.ConsumeTicket? && !t.MarkStarted? && !t.Bootstrap?
    ensures Complete(t, Script(t))
  {
    var head := SessionHead(t.game, Users(t));
    SessionHeadHolds(t.game, Users(t));
    TailIsIn(head, t.game, t.touches, []);
    assert Script(t) == head + Rows(t.game, t.touches) + [];
    assert Script(t)[..1] == [Advisory(t.game)];
  }

  lemma ConsumeScriptComplete(t: Transaction)
    requires t.ConsumeTicket?
    ensures Complete(t, Script(t))
  {
    var head := [Advisory(t.game), SessionRow(t.game), GameRow(t.ticketGame, Tickets, t.ticket)];
    assert head[1] == SessionRow(t.game) && head[2] == GameRow(t.ticketGame, Tickets, t.ticket);
    if t.ticketGame == t.game {
      TailIsIn(head, t.game, t.touches, [LooseOperation(t.actor, t.operation)]);
      assert Script(t) == head + Rows(t.game, t.touches) + [LooseOperation(t.actor, t.operation)];
    } else {
      assert Script(t) == head;
    }
    assert Script(t)[..1] == [Advisory(t.game)];
  }

  lemma CreateScriptComplete(t: Transaction)
    requires t.CreateSession? || t.ReplayCreate?
    ensures Complete(t, Script(t))
  {
    var head :=
      if t.CreateSession? then [AccountRow(t.user), UserDetail(t.user, Operations, t.operation), SessionRow(t.game)]
      else [AccountRow(t.user), SessionRow(t.game)];
    assert head[0] == AccountRow(t.user) && head[|head| - 1] == SessionRow(t.game);
    TailIsIn(head, t.game, t.touches, []);
    assert Script(t) == head + Rows(t.game, t.touches) + [];
  }

  lemma GrantScriptComplete(t: Transaction)
    requires t.Provision? || t.Rescue?
    ensures Complete(t, Script(t))
  {
    var head := if t.Provision? then ProvisionHead(t.user, t.opening) else [AccountRow(t.user)];
    assert head[if t.Provision? then 1 else 0] == AccountRow(t.user);
    TailIsIn(head, 0, t.touches, []);
    assert Script(t) == head + Rows(0, t.touches) + [];
  }

  /** Every transaction's script holds all that the transaction is about. */
  lemma ScriptsAreComplete(t: Transaction)
    ensures Complete(t, Script(t))
  {
    if t.Provision? || t.Rescue? {
      GrantScriptComplete(t);
    } else if t.CreateSession? || t.ReplayCreate? {
      CreateScriptComplete(t);
    } else if t.ConsumeTicket? {
      ConsumeScriptComplete(t);
    } else if t.MarkStarted? || t.Bootstrap? || t.MarkRecovery? {
      assert Script(t)[1] == SessionRow(t.game);
    } else {
      SessionScriptComplete(t);
    }
  }

  /* ---------- Concurrent transactions ---------- */

  /** A transaction in flight: it holds the first `taken` locks of its script. */
  datatype Flight = Flight(transaction: Transaction, taken: nat) {
    function Locks(): seq<Resource> {
      Script(transaction)
    }
    predicate Holds(r: Resource) {
      taken <= |Locks()| && r in Locks()[..taken]
    }
    predicate Wanting() {
      taken < |Locks()|
    }
    function Wants(): Resource
      requires Wanting()
    {
      Locks()[taken]
    }
  }

  type Flights = map<Id, Flight>

  datatype Move =
    | Begin(id: Id, transaction: Transaction)
    | Take(id: Id)
    | End(id: Id)

  /** The lock that transaction `t` needs next is held by another one. */
  predicate WaitsFor(s: Flights, t: Id, u: Id) {
    t in s && u in s && t != u && s[t].Wanting() && s[u].Holds(s[t].Wants())
  }

  predicate Blocked(s: Flights, t: Id) {
    exists u :: u in s && WaitsFor(s, t, u)
  }

  /** A lock is granted when nobody else holds it; commit and rollback drop every lock at once. */
  function Apply(s: Flights, m: Move): Flights {
    match m
    case Begin(id, t) => if id !in s && WellFormed(t) then s[id := Flight(t, 0)] else s
    case Take(id) =>
      if id in s && s[id].Wanting() && !Blocked(s, id)
      then s[id := s[id].(taken := s[id].taken + 1)] else s
    case End(id) => s - {id}
  }

  function Reach(moves: seq<Move>): Flights {
    if moves == [] then map[] else Apply(Reach(moves[..|moves| - 1]), moves[|moves| - 1])
  }

  ghost predicate Sound(s: Flights) {
    && (forall t :: t in s ==> WellFormed(s[t].transaction) && s[t].taken <= |s[t].Locks()|)
    && (forall t, u, r :: t in s && u in s && s[t].Holds(r) && s[u].Holds(r) ==> t == u)
  }

  lemma OneMore(locks: seq<Resource>, n: nat, r: Resource)
    requires n < |locks|
    ensures r in locks[..n + 1] <==> r in locks[..n] || r == locks[n]
  {
    assert locks[..n + 1] == locks[..n] + [locks[n]];
  }

  lemma ApplySound(s: Flights, m: Move)
    requires Sound(s)
    ensures Sound(Apply(s, m))
  {
    var s' := Apply(s, m);
    if m.Take? && s' != s {
      var id := m.id;
      forall r ensures s'[id].Holds(r) <==> s[id].Holds(r) || r == s[id].Wants() {
        OneMore(s[id].Locks(), s[id].taken, r);
      }
      forall u | u in s && u != id ensures !s[u].Holds(s[id].Wants()) {
        assert !WaitsFor(s, id, u);
      }
    }
  }

  lemma {:induction false} ReachSound(moves: seq<Move>)
    ensures Sound(Reach(moves))
  {
    if moves != [] {
      ReachSound(moves[..|moves| - 1]);
      ApplySound(Reach(moves[..|moves| - 1]), moves[|moves| - 1]);
    }
  }

  /**
   * Two transactions on one session, or on one user's account, are never both past their locks: what one
   * of them reads and writes there, the other sees before it or after it.
   */
  lemma OneAtATime(moves: seq<Move>, t: Id, u: Id)
    requires t in Reach(moves) && u in Reach(moves) && t != u
    requires !Reach(moves)[t].Wanting() && !Reach(moves)[u].Wanting()
    ensures var a, b := Reach(moves)[t].transaction, Reach(moves)[u].transaction;
      && (GameOf(a).Some? ==> GameOf(a) != GameOf(b))
      && (forall x :: x in Users(a) ==> x !in Users(b))
  {
    var s := Reach(moves);
    ReachSound(moves);
    HoldsItAll(s[t]);
    HoldsItAll(s[u]);
    forall x | x in Users(s[t].transaction) ensures x !in Users(s[u].transaction) {
      assert s[t].Holds(AccountRow(x));
    }
  }

  lemma HoldsItAll(f: Flight)
    requires f.taken == |f.Locks()|
    ensures GameOf(f.transaction).Some? ==> f.Holds(SessionRow(GameOf(f.transaction).value))
    ensures forall x :: x in Users(f.transaction) ==> f.Holds(AccountRow(x))
  {
    ScriptsAreComplete(f.transaction);
    assert f.Locks()[..f.taken] == f.Locks();
  }

  /* ---------- Waiting only goes up ---------- */

  /** How far along a waiting transaction is: in the ordered locks, at a loose lock, or among guarded rows. */
  function Level(f: Flight): int
    requires f.Wanting()
  {
    var r := f.Wants();
    if Ordered(r) then Rank(r)
    else if Covered(f.Locks(), f.taken) then 8
    else if r.LooseOperation? then 7
    else 6
  }

  predicate Climbs(a: Flight, b: Flight)
    requires a.Wanting() && b.Wanting()
  {
    || Level(a) < Level(b)
    || (Level(a) == Level(b) && Ordered(a.Wants()) && Ordered(b.Wants()) && Below(a.Wants(), b.Wants()))
  }

  /** Where in its script a transaction took a lock it holds. */
  lemma TakenAt(f: Flight, r: Resource) returns (i: nat)
    requires f.Holds(r)
    ensures i < f.taken <= |f.Locks()| && f.Locks()[i] == r
  {
    i :| 0 <= i < f.taken && f.Locks()[..f.taken][i] == r;
  }

  /** A guarded row is never waited for by somebody who holds its guard, unless its holder is done locking. */
  lemma GuardsExclude(s: Flights, t: Id, u: Id)
    requires Sound(s) && WaitsFor(s, t, u) && s[u].Wanting() && Safe(s[u].Locks())
    ensures !Covered(s[t].Locks(), s[t].taken)
  {
    var r := s[t].Wants();
    var i := TakenAt(s[u], r);
    if Covered(s[t].Locks(), s[t].taken) {
      assert Covered(s[u].Locks(), i);
      assert s[u].Locks()[..i] <= s[u].Locks()[..s[u].taken];
      assert s[t].Holds(Guard(r)) && s[u].Holds(Guard(r));
    }
  }

  /** Who waits for a waiting transaction is not as far along as that one. */
  lemma WaitingClimbs(s: Flights, t: Id, u: Id)
    requires Sound(s) && WaitsFor(s, t, u) && s[u].Wanting()
    ensures Climbs(s[t], s[u])
  {
    ScriptsAreSafe(s[t].transaction);
    ScriptsAreSafe(s[u].transaction);
    GuardsExclude(s, t, u);
    var i := TakenAt(s[u], s[t].Wants());
    if Ordered(s[t].Wants()) {
      OrderedClimbs(s[t], s[u], i);
    } else {
      LooseClimbs(s[t], s[u], i);
    }
  }

  lemma OrderedClimbs(a: Flight, b: Flight, i: nat)
    requires a.Wanting() && b.Wanting() && Ordered(a.Wants()) && Ascending(b.Locks())
    requires i < b.taken && b.Locks()[i] == a.Wants()
    ensures Climbs(a, b)
  {
  }

  /** Who needs a lock without its guard waits for one that took it under the guard, and so is further along. */
  lemma LooseClimbs(a: Flight, b: Flight, i: nat)
    requires a.Wanting() && b.Wanting() && !Ordered(a.Wants()) && !Covered(a.Locks(), a.taken)
    requires LooseLast(a.Locks()) && LooseLast(b.Locks()) && TicketsLate(b.Locks())
    requires i < b.taken && b.Locks()[i] == a.Wants()
    ensures Climbs(a, b)
  {
    assert IsTicket(a.Wants()) || a.Wants().LooseOperation?;
    AfterALoose(b.Locks(), i, b.taken);
  }

  /** What a script that goes on after such a lock can still need. */
  lemma AfterALoose(s: seq<Resource>, i: nat, n: nat)
    requires LooseLast(s) && TicketsLate(s) && i < n < |s| && (IsTicket(s[i]) || s[i].LooseOperation?)
    ensures IsTicket(s[i]) && !Ordered(s[n]) && (Covered(s, n) || s[n].LooseOperation?)
  {
    assert !Covered(s, i) || !s[i].LooseOperation?;
    assert !Covered(s, n) ==> Ordered(s[n]) || IsTicket(s[n]) || s[n].LooseOperation?;
  }

  /** A chain of waiting transactions, the last one waiting too. */
  predicate WaitChain(s: Flights, c: seq<Id>) {
    && |c| >= 2
    && (forall i :: 0 <= i < |c| ==> c[i] in s && s[c[i]].Wanting())
    && (forall i :: 0 <= i < |c| - 1 ==> WaitsFor(s, c[i], c[i + 1]))
  }

  lemma {:induction false} ChainClimbs(s: Flights, c: seq<Id>)
    requires Sound(s) && WaitChain(s, c)
    ensures Climbs(s[c[0]], s[c[|c| - 1]])
    decreases |c|
  {
    assert WaitsFor(s, c[0], c[1]);
    WaitingClimbs(s, c[0], c[1]);
    if |c| > 2 {
      var d := c[1..];
      forall i | 0 <= i < |d| - 1 ensures WaitsFor(s, d[i], d[i + 1]) {
        assert WaitsFor(s, c[i + 1], c[i + 1 + 1]);
      }
      ChainClimbs(s, d);
    }
  }

  /** No run of any number of transactions ever contains a cycle of waiting transactions. */
  lemma NoDeadlock(moves: seq<Move>, c: seq<Id>)
    requires WaitChain(Reach(moves), c)
    ensures c[0] != c[|c| - 1]
  {
    ReachSound(moves);
    ChainClimbs(Reach(moves), c);
  }

  /** A transaction that holds the guard of the row it needs only ever waits for one that needs no more locks. */
  lemma GuardedRowsNeverChain(moves: seq<Move>, t: Id, u: Id)
    requires var s := Reach(moves); WaitsFor(s, t, u) && Covered(s[t].Locks(), s[t].taken)
    ensures !Reach(moves)[u].Wanting()
  {
    ReachSound(moves);
    var s := Reach(moves);
    ScriptsAreSafe(s[u].transaction);
    if s[u].Wanting() {
      GuardsExclude(s, t, u);
    }
  }

  /* ---------- Somebody can always go on ---------- */

  /** Some member of a non-empty set of waiting transactions is furthest along. */
  lemma {:induction false} Furthest(s: Flights, ids: set<Id>) returns (t: Id)
    requires ids != {} && ids <= s.Keys && forall i :: i in ids ==> s[i].Wanting()
    ensures t in ids
    ensures forall u :: u in ids ==> !Climbs(s[t], s[u])
    decreases |ids|
  {
    var x :| x in ids;
    if ids == {x} {
      t := x;
    } else {
      var y := Furthest(s, ids - {x});
      t := if Climbs(s[y], s[x]) then x else y;
      forall u | u in ids ensures !Climbs(s[t], s[u]) {
        assert u == x || u in ids - {x};
      }
    }
  }

  /** In every reachable state with a transaction in flight, one can take its next lock or finish. */
  lemma SomebodyCanMove(moves: seq<Move>) returns (t: Id)
    requires Reach(moves) != map[]
    ensures var s := Reach(moves);
      t in s && (s[t].taken == |s[t].Locks()| || Apply(s, Take(t))[t].taken == s[t].taken + 1)
  {
    var s := Reach(moves);
    ReachSound(moves);
    if d :| d in s && s[d].taken == |s[d].Locks()| {
      t := d;
    } else {
      assert s.Keys != {} by {
        assert s.Keys == {} ==> s == map[];
      }
      t := Furthest(s, s.Keys);
      if u :| u in s && WaitsFor(s, t, u) {
        WaitingClimbs(s, t, u);
      }
    }
  }
}
