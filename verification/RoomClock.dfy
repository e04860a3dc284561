/**
 * The timer of a room (room-clock.ts): which internal command is due next, among the two turn
 * warnings, the turn deadline, the game limit and the expiry of any number of trades.
 */
module RoomClock {
  import opened Outcomes

  const TEN_SECONDS := 10_000
  const THIRTY_SECONDS := 30_000

  datatype Warning = Ten | Thirty

  datatype CommandType = WarnThirty | WarnTen | TurnTimeout | CleanupTrades | EnforceLimit

  /** What the scheduler reads of a room's state; a lobby and a finished game are `Idle`. */
  datatype GameState =
    | Idle
    | InProgress(
        gameId: string,
        version: nat,
        deadline: int,
        warned: set<Warning>,
        gameEnd: Option<int>,
        trades: seq<int>,
        bankruptcyPending: bool)

  datatype Candidate = Candidate(kind: CommandType, dueAt: int, priority: int)

  /** The request id is a hash of these four values, taken to be injective. */
  datatype RequestId = RequestId(gameId: string, kind: CommandType, dueAt: int, version: nat)

  datatype Scheduled = Scheduled(dueAt: int, kind: CommandType, expectedVersion: nat, requestId: RequestId)

  function TurnCandidate(s: GameState, now: int): Candidate
    requires s.InProgress?
  {
    var tenAt, thirtyAt := s.deadline - TEN_SECONDS, s.deadline - THIRTY_SECONDS;
    if now >= s.deadline then Candidate(TurnTimeout, s.deadline, 1)
    else if Ten !in s.warned && now >= tenAt then Candidate(WarnTen, tenAt, 2)
    else if Thirty !in s.warned && thirtyAt <= now < tenAt then Candidate(WarnThirty, thirtyAt, 3)
    else if Thirty !in s.warned && now < thirtyAt then Candidate(WarnThirty, thirtyAt, 3)
    else if Ten !in s.warned && now < tenAt then Candidate(WarnTen, tenAt, 2)
    else Candidate(TurnTimeout, s.deadline, 1)
  }

  /** The earliest of the expiries, if there is any. */
  function Earliest(trades: seq<int>): (r: Option<int>)
    ensures r.None? <==> trades == []
    ensures r.Some? ==> r.value in trades && forall t :: t in trades ==> r.value <= t
  {
    if trades == [] then None
    else
      var rest := Earliest(trades[1..]);
      assert trades == [trades[0]] + trades[1..];
      if rest.None? || trades[0] < rest.value then Some(trades[0]) else rest
  }

  /** The comparator of the sort: due before not due, then priority and time, or time and priority. */
  predicate Before(l: Candidate, r: Candidate, now: int) {
    var leftReady, rightReady := l.dueAt <= now, r.dueAt <= now;
    if leftReady != rightReady then leftReady
    else if leftReady then l.priority < r.priority || (l.priority == r.priority && l.dueAt <= r.dueAt)
    else l.dueAt < r.dueAt || (l.dueAt == r.dueAt && l.priority <= r.priority)
  }

  predicate InOrder(s: seq<Candidate>, now: int) {
    forall i, j :: 0 <= i < j < |s| ==> Before(s[i], s[j], now)
  }

  function InsertInOrder(c: Candidate, s: seq<Candidate>, now: int): (r: seq<Candidate>)
    requires InOrder(s, now)
    ensures |r| == |s| + 1 && InOrder(r, now)
    ensures forall x :: x in r <==> x == c || x in s
  {
    if s == [] || Before(c, s[0], now) then
      BeforeAll(c, s, now);
      [c] + s
    else
      assert s == [s[0]] + s[1..];
      var rest := InsertInOrder(c, s[1..], now);
      RestComesAfter(c, s, rest, now);
      [s[0]] + rest
  }

  lemma RestComesAfter(c: Candidate, s: seq<Candidate>, rest: seq<Candidate>, now: int)
    requires s != [] && InOrder(s, now) && !Before(c, s[0], now)
    requires forall x :: x in rest ==> x == c || x in s[1..]
    ensures forall j :: 0 <= j < |rest| ==> Before(s[0], rest[j], now)
  {
    forall j | 0 <= j < |rest| ensures Before(s[0], rest[j], now) {
      assert rest[j] in rest;
      if rest[j] != c {
        var i :| 0 <= i < |s[1..]| && s[1..][i] == rest[j];
        assert s[i + 1] == rest[j];
      }
    }
  }

  lemma BeforeAll(c: Candidate, s: seq<Candidate>, now: int)
    requires InOrder(s, now) && (s == [] || Before(c, s[0], now))
    ensures forall j :: 0 <= j < |s| ==> Before(c, s[j], now)
  {
    forall j | 0 <= j < |s| ensures Before(c, s[j], now) {
      assert j > 0 ==> Before(s[0], s[j], now);
    }
  }

  /** Whether the scheduler has anything to do in this state at all. */
  predicate Live(s: GameState, now: int) {
    0 <= now <= MAX_SAFE_INTEGER && s.InProgress? && !s.bankruptcyPending
  }

  function Candidates(s: GameState, now: int): (r: seq<Candidate>)
    requires s.InProgress?
    ensures |r| > 0
  {
    var trade := Earliest(s.trades);
    [TurnCandidate(s, now)]
    + (if s.gameEnd.Some? then [Candidate(EnforceLimit, s.gameEnd.value, 0)] else [])
    + (if trade.Some? then [Candidate(CleanupTrades, trade.value, 4)] else [])
  }

  function ScheduledFor(s: GameState, c: Candidate): Scheduled
    requires s.InProgress?
  {
    Scheduled(c.dueAt, c.kind, s.version, RequestId(s.gameId, c.kind, c.dueAt, s.version))
  }

  predicate Choice(s: GameState, now: int, c: Candidate)
    requires s.InProgress?
  {
    c in Candidates(s, now) && forall d :: d in Candidates(s, now) ==> Before(c, d, now)
  }

  method EarliestExpiry(trades: seq<int>) returns (expiry: Option<int>)
    ensures expiry == Earliest(trades)
  {
    expiry := None;
    for i := 0 to |trades|
      invariant expiry == Earliest(trades[..i])
    {
      assert trades[..i + 1] == trades[..i] + [trades[i]];
      assert trades[i] in trades[..i + 1];
      assert forall t :: t in trades[..i] ==> t in trades[..i + 1];
      if expiry.None? || trades[i] < expiry.value {
        expiry := Some(trades[i]);
      }
    }
    assert trades[..|trades|] == trades;
  }

  method SortCandidates(candidates: seq<Candidate>, now: int) returns (sorted: seq<Candidate>)
    ensures |sorted| == |candidates| && InOrder(sorted, now)
    ensures forall x :: x in sorted <==> x in candidates
  {
    sorted := [];
    for i := 0 to |candidates|
      invariant |sorted| == i && InOrder(sorted, now)
      invariant forall x :: x in sorted <==> x in candidates[..i]
    {
      sorted := InsertInOrder(candidates[i], sorted, now);
    }
    assert candidates[..|candidates|] == candidates;
  }

  /** The game's time limit has come. */
  predicate LimitDue(s: GameState, now: int)
    requires s.InProgress?
  {
    s.gameEnd.Some? && s.gameEnd.value <= now
  }

  /**
   * The scheduler: collects the candidates, sorts them, takes the first. What it returns is a real duty
   * of the game, bound to the state it was computed from. It is due exactly when some duty is, and
   * otherwise it is the earliest of all. Of the duties that are due, the game limit comes before the end
   * of the turn, that before the warnings, and those before expired trades.
   */
  method NextScheduledRoomCommand(s: GameState, now: int) returns (r: Option<Scheduled>)
    ensures r.Some? <==> 0 <= now <= MAX_SAFE_INTEGER && s.InProgress? && !s.bankruptcyPending
    ensures r.Some? ==>
      && Obligation(s, now, r.value.kind, r.value.dueAt)
      && r.value.expectedVersion == s.version
      && r.value.requestId == RequestId(s.gameId, r.value.kind, r.value.dueAt, s.version)
    ensures r.Some? ==> ((exists k, t :: Obligation(s, now, k, t) && t <= now) <==> r.value.dueAt <= now)
    ensures r.Some? && r.value.dueAt > now ==> forall k, t :: Obligation(s, now, k, t) ==> r.value.dueAt <= t
    ensures r.Some? && LimitDue(s, now) ==> r.value.kind == EnforceLimit
    ensures r.Some? && !LimitDue(s, now) ==>
      && (s.deadline <= now ==> r.value.kind == TurnTimeout)
      && (s.deadline - TEN_SECONDS <= now < s.deadline && Ten !in s.warned ==> r.value.kind == WarnTen)
      && (s.deadline - THIRTY_SECONDS <= now < s.deadline - TEN_SECONDS && Thirty !in s.warned ==> r.value.kind == WarnThirty)
    ensures r.Some? && r.value.kind == CleanupTrades ==> forall t :: t in s.trades ==> r.value.dueAt <= t
    ensures r.Some? ==> forall k, t :: Obligation(s, now, k, t) && (t <= now || t == r.value.dueAt) ==>
      Urgency(r.value.kind) <= Urgency(k)
    ensures r.Some? ==> exists c :: Choice(s, now, c) && r.value == ScheduledFor(s, c)
  {
    if !SafeInteger(now) || now < 0 || s.Idle? || s.bankruptcyPending {
      return None;
    }
    var candidates := [TurnCandidate(s, now)];
    if s.gameEnd.Some? {
      candidates := candidates + [Candidate(EnforceLimit, s.gameEnd.value, 0)];
    }
    var expiry := EarliestExpiry(s.trades);
    if expiry.Some? {
      candidates := candidates + [Candidate(CleanupTrades, expiry.value, 4)];
    }
    assert candidates == Candidates(s, now);
    var sorted := SortCandidates(candidates, now);
    var selected := sorted[0];
    assert Choice(s, now, selected) by {
      assert selected in sorted;
      assert forall i :: 0 <= i < |sorted| ==> Before(selected, sorted[i], now);
    }
    SchedulerChoice(s, now, selected);
    ChoiceRanks(s, now, selected);
    forall k, t | Obligation(s, now, k, t) && (t <= now || t == selected.dueAt) ensures Urgency(selected.kind) <= Urgency(k) {
      NothingMoreUrgent(s, now, selected, k, t);
    }
    return Some(ScheduledFor(s, selected));
  }

  /* ---------- What a choice means ---------- */

  /** The timed duties of a running game at a moment, independent of any priority. */
  predicate Obligation(s: GameState, now: int, kind: CommandType, at: int)
    requires s.InProgress?
  {
    match kind
    case TurnTimeout => at == s.deadline
    case WarnTen => Ten !in s.warned && now < s.deadline && at == s.deadline - TEN_SECONDS
    case WarnThirty => Thirty !in s.warned && now < s.deadline - TEN_SECONDS && at == s.deadline - THIRTY_SECONDS
    case EnforceLimit => s.gameEnd == Some(at)
    case CleanupTrades => at in s.trades
  }

  /** Each obligation is covered by a candidate that is due no later. */
  lemma Covered(s: GameState, now: int, kind: CommandType, at: int) returns (d: Candidate)
    requires s.InProgress? && Obligation(s, now, kind, at)
    ensures d in Candidates(s, now) && (d.dueAt <= at || (d.dueAt <= now && at <= now))
  {
    match kind
    case EnforceLimit => d := Candidate(EnforceLimit, at, 0);
    case CleanupTrades => d := Candidate(CleanupTrades, Earliest(s.trades).value, 4);
    case _ => d := TurnCandidate(s, now);
  }

  lemma CandidateIsObligation(s: GameState, now: int, c: Candidate)
    requires s.InProgress? && c in Candidates(s, now)
    ensures Obligation(s, now, c.kind, c.dueAt)
  {
  }

  /**
   * The choice is itself an obligation; it is due if any obligation is due; the game limit wins when
   * it is due; and when nothing is due the choice is the earliest obligation of all.
   */
  lemma SchedulerChoice(s: GameState, now: int, c: Candidate)
    requires s.InProgress? && Choice(s, now, c)
    ensures Obligation(s, now, c.kind, c.dueAt)
    ensures s.gameEnd.Some? && s.gameEnd.value <= now ==> c.kind == EnforceLimit
    ensures (exists k, t :: Obligation(s, now, k, t) && t <= now) <==> c.dueAt <= now
    ensures c.dueAt > now ==> forall k, t :: Obligation(s, now, k, t) ==> c.dueAt <= t
  {
    CandidateIsObligation(s, now, c);
    if s.gameEnd.Some? && s.gameEnd.value <= now {
      var limit := Candidate(EnforceLimit, s.gameEnd.value, 0);
      assert limit in Candidates(s, now);
      assert Before(c, limit, now);
    }
    forall k, t | Obligation(s, now, k, t) ensures c.dueAt <= t || c.dueAt <= now {
      var d := Covered(s, now, k, t);
      assert Before(c, d, now);
    }
    forall k, t | Obligation(s, now, k, t) && t <= now ensures c.dueAt <= now {
      var d := Covered(s, now, k, t);
      assert Before(c, d, now);
    }
  }

  /** Which kind of duty the choice is when the turn has something due, and which trade it cleans up. */
  lemma ChoiceRanks(s: GameState, now: int, c: Candidate)
    requires s.InProgress? && Choice(s, now, c)
    ensures !LimitDue(s, now) ==>
      && (s.deadline <= now ==> c.kind == TurnTimeout)
      && (s.deadline - TEN_SECONDS <= now < s.deadline && Ten !in s.warned ==> c.kind == WarnTen)
      && (s.deadline - THIRTY_SECONDS <= now < s.deadline - TEN_SECONDS && Thirty !in s.warned ==> c.kind == WarnThirty)
    ensures c.kind == CleanupTrades ==> forall t :: t in s.trades ==> c.dueAt <= t
  {
    assert TurnCandidate(s, now) in Candidates(s, now);
    assert Before(c, TurnCandidate(s, now), now);
  }

  /** Which duty comes first when several come together. */
  function Urgency(kind: CommandType): nat {
    match kind
    case EnforceLimit => 0
    case TurnTimeout => 1
    case WarnTen => 2
    case WarnThirty => 3
    case CleanupTrades => 4
  }

  /** No duty that is due, and none that falls due at the chosen moment, is more urgent than the choice. */
  lemma NothingMoreUrgent(s: GameState, now: int, c: Candidate, k: CommandType, at: int)
    requires s.InProgress? && Choice(s, now, c) && Obligation(s, now, k, at) && (at <= now || at == c.dueAt)
    ensures Urgency(c.kind) <= Urgency(k)
  {
    assert Before(c, TurnCandidate(s, now), now);
    if k == EnforceLimit {
      assert Before(c, Candidate(EnforceLimit, at, 0), now);
    }
    if k == CleanupTrades {
      assert Before(c, Candidate(CleanupTrades, Earliest(s.trades).value, 4), now);
    }
  }

  /** At most one candidate can be the choice: the command is a function of the state and the time. */
  lemma ChoiceUnique(s: GameState, now: int, c: Candidate, d: Candidate)
    requires s.InProgress? && Choice(s, now, c) && Choice(s, now, d)
    ensures c == d
  {
    assert Before(c, d, now) && Before(d, c, now);
    assert c.priority == d.priority && c.dueAt == d.dueAt;
  }

  /* ---------- Warnings over a whole turn ---------- */

  /** One look at the clock: the moment, everything else in the state, and whether the command ran. */
  datatype Tick = Tick(now: int, state: GameState, ran: bool)

  /** The warnings recorded after the ticks, oldest first; a warning that ran records itself. */
  function Emitted(deadline: int, ticks: seq<Tick>): seq<Warning> {
    if ticks == [] then []
    else
      var before := Emitted(deadline, ticks[..|ticks| - 1]);
      var t := ticks[|ticks| - 1];
      var kind := WarningChosen(deadline, before, t);
      if kind.Some? then before + [kind.value] else before
  }

  function Recorded(w: seq<Warning>): set<Warning> {
    set x | x in w
  }

  /** The warning a tick emits, with the turn's own deadline and the warnings recorded so far. */
  function WarningChosen(deadline: int, before: seq<Warning>, t: Tick): Option<Warning> {
    if !t.ran || t.state.Idle? then None
    else
      var s := t.state.(deadline := deadline, warned := Recorded(before));
      if Choice(s, t.now, TurnCandidate(s, t.now)) then
        match TurnCandidate(s, t.now).kind
        case WarnTen => Some(Ten)
        case WarnThirty => Some(Thirty)
        case _ => None
      else None
  }

  predicate TimeNeverFalls(ticks: seq<Tick>) {
    forall i, j :: 0 <= i < j < |ticks| ==> ticks[i].now <= ticks[j].now
  }

  predicate OrderedWarnings(w: seq<Warning>) {
    w == [] || w == [Ten] || w == [Thirty] || w == [Thirty, Ten]
  }

  /** For one deadline and a clock that never falls: each warning at most once, and never 30 after 10. */
  lemma {:induction false} WarningsInOrder(deadline: int, ticks: seq<Tick>)
    requires TimeNeverFalls(ticks)
    ensures OrderedWarnings(Emitted(deadline, ticks))
    ensures Emitted(deadline, ticks) == [Ten] ==>
              ticks != [] && ticks[|ticks| - 1].now >= deadline - TEN_SECONDS
  {
    if ticks != [] {
      var n := |ticks| - 1;
      WarningsInOrder(deadline, ticks[..n]);
      var before := Emitted(deadline, ticks[..n]);
      assert before == [Ten] ==> ticks[n - 1].now <= ticks[n].now;
      assert Recorded(before) == (if before == [] then {} else if before == [Ten] then {Ten}
                                  else if before == [Thirty] then {Thirty} else {Ten, Thirty});
      var chosen := WarningChosen(deadline, before, ticks[n]);
      if chosen.Some? {
        WarningWindow(deadline, before, ticks[n]);
      }
    }
  }

  /** When each warning can be chosen at all. */
  lemma WarningWindow(deadline: int, before: seq<Warning>, t: Tick)
    requires WarningChosen(deadline, before, t).Some?
    ensures var w := WarningChosen(deadline, before, t).value;
      && w !in Recorded(before)
      && (w == Ten ==> t.now >= deadline - TEN_SECONDS || Thirty in Recorded(before))
      && (w == Thirty ==> t.now < deadline - TEN_SECONDS)
  {
  }
}
