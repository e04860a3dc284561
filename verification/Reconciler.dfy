/**
 * The reconciler's loops over its candidates. What a pass does to the tables is a run of ordinary
 * transactions, so everything proved of runs holds of it, wherever it interleaves with requests.
 */
module Reconciler {
  import opened Outcomes
  import opened CoinBank
  import opened Sessions
  import opened CoinApi

  datatype FinalizationRow = FinalizationRow(game: GameId, binding: Binding, action: Action, key: string)

  datatype TerminalRow = TerminalRow(game: GameId, room: RoomId, version: nat, checksum: string, key: string)

  datatype OfflineRow = OfflineRow(game: GameId, key: string)

  function FinalizeCall(row: FinalizationRow, now: int): Call {
    CallFinalize(row.game, row.binding, row.action, row.key, now)
  }

  function AbortCall(row: OfflineRow, now: int): Call {
    CallAbort(row.game, "reconnectWindowExpired", row.key, now)
  }

  function CallAt(calls: seq<Call>, i: nat): Call
    requires i < |calls|
  {
    calls[i]
  }

  /** One finalization for each outbox row, in order. */
  ghost predicate FinalizesEach(calls: seq<Call>, rows: seq<FinalizationRow>, now: int) {
    && |calls| == |rows|
    && (forall i {:trigger CallAt(calls, i)} :: 0 <= i < |calls| ==> CallAt(calls, i) == FinalizeCall(rows[i], now))
  }

  /** One abort for each offline candidate, in order. */
  ghost predicate AbortsEach(calls: seq<Call>, rows: seq<OfflineRow>, now: int) {
    && |calls| == |rows|
    && (forall i {:trigger CallAt(calls, i)} :: 0 <= i < |calls| ==> CallAt(calls, i) == AbortCall(rows[i], now))
  }

  predicate DurablyInvalid(reply: Result<Response, ApiError>) {
    reply == Err(TerminalProofInvalid) || reply == Err(AccountCoinOverflow)
  }

  function SettleCall(row: TerminalRow, now: int): Call {
    CallSettle(row.game, row.room, row.version, row.checksum, row.key, now)
  }

  /** What became of one candidate: the reply to its settlement and, if it was marked, whether the mark was made. */
  datatype Attempt = Attempt(row: TerminalRow, reply: Result<Response, ApiError>, mark: Option<bool>)

  function AttemptCalls(a: Attempt, now: int): seq<Call> {
    [SettleCall(a.row, now)] + if a.mark.Some? then [CallMarkProofRecovery(a.row.game)] else []
  }

  function TraceCalls(trace: seq<Attempt>, now: int): seq<Call> {
    if trace == [] then [] else TraceCalls(trace[..|trace| - 1], now) + AttemptCalls(trace[|trace| - 1], now)
  }

  /** On tables `db` the attempt goes as recorded, and a mark follows exactly when the proof can never work. */
  ghost predicate Happens(cfg: Config, db: Db, a: Attempt, now: int) {
    var o := Step(cfg, db, SettleCall(a.row, now));
    && a.reply == o.reply
    && (a.mark.Some? <==> DurablyInvalid(o.reply))
    && (a.mark.Some? ==> (a.mark.value <==> Step(cfg, o.db, CallMarkProofRecovery(a.row.game)).reply == Ok(Done(true))))
  }

  function At(trace: seq<Attempt>, i: nat): Attempt
    requires i < |trace|
  {
    trace[i]
  }

  /** One attempt for each candidate in order, each on the tables its predecessors left. */
  ghost predicate Traced(cfg: Config, start: Db, trace: seq<Attempt>, rows: seq<TerminalRow>, now: int) {
    && |trace| == |rows|
    && (forall i {:trigger At(trace, i)} :: 0 <= i < |trace| ==>
         At(trace, i).row == rows[i] && Happens(cfg, Run(cfg, start, TraceCalls(trace[..i], now)), At(trace, i), now))
  }

  function CommittedIn(trace: seq<Attempt>): nat {
    if trace == [] then 0 else CommittedIn(trace[..|trace| - 1]) + if trace[|trace| - 1].reply.Ok? then 1 else 0
  }

  function MarkedIn(trace: seq<Attempt>): nat {
    if trace == [] then 0 else MarkedIn(trace[..|trace| - 1]) + if trace[|trace| - 1].mark == Some(true) then 1 else 0
  }

  /** How many calls of a run were answered with success. */
  function Succeeded(cfg: Config, db: Db, calls: seq<Call>): nat {
    if calls == [] then 0
    else
      var before := calls[..|calls| - 1];
      Succeeded(cfg, db, before) + if Step(cfg, Run(cfg, db, before), calls[|calls| - 1]).reply.Ok? then 1 else 0
  }

  lemma RunSnoc(cfg: Config, db: Db, calls: seq<Call>, call: Call)
    ensures Run(cfg, db, calls + [call]) == Step(cfg, Run(cfg, db, calls), call).db
    ensures Succeeded(cfg, db, calls + [call])
         == Succeeded(cfg, db, calls) + if Step(cfg, Run(cfg, db, calls), call).reply.Ok? then 1 else 0
  {
    assert (calls + [call])[..|calls + [call]| - 1] == calls;
  }

  lemma FinalizesOneMore(calls: seq<Call>, rows: seq<FinalizationRow>, now: int)
    requires |calls| < |rows| && FinalizesEach(calls, rows[..|calls|], now)
    ensures FinalizesEach(calls + [FinalizeCall(rows[|calls|], now)], rows[..|calls| + 1], now)
  {
    var longer := calls + [FinalizeCall(rows[|calls|], now)];
    forall i | 0 <= i < |longer| ensures CallAt(longer, i) == FinalizeCall(rows[i], now) {
      assert i < |calls| ==> CallAt(longer, i) == CallAt(calls, i);
    }
  }

  method FinalizeNext(store: CoinStore, ghost start: Db, ghost calls: seq<Call>, row: FinalizationRow, now: int) returns (ok: bool)
    requires store.Contents() == Run(store.cfg, start, calls)
    modifies store
    ensures var more := calls + [FinalizeCall(row, now)];
      && store.Contents() == Run(store.cfg, start, more)
      && Succeeded(store.cfg, start, more) == Succeeded(store.cfg, start, calls) + if ok then 1 else 0
  {
    RunSnoc(store.cfg, start, calls, FinalizeCall(row, now));
    StepFinalizes(store.cfg, store.Contents(), row.game, row.binding, row.action, row.key, now);
    var reply := store.FinalizeRoomCommand(row.game, row.binding, row.action, row.key, now);
    ok := reply.Ok?;
  }

  method FinalizeRoomCommands(store: CoinStore, rows: seq<FinalizationRow>, now: int) returns (count: nat, ghost calls: seq<Call>)
    modifies store
    ensures FinalizesEach(calls, rows, now)
    ensures store.Contents() == Run(store.cfg, old(store.Contents()), calls)
    ensures count == Succeeded(store.cfg, old(store.Contents()), calls)
  {
    ghost var start := store.Contents();
    count, calls := 0, [];
    var i := 0;
    while i < |rows|
      invariant i == |calls| <= |rows| && FinalizesEach(calls, rows[..i], now)
      invariant store.Contents() == Run(store.cfg, start, calls)
      invariant count == Succeeded(store.cfg, start, calls)
    {
      var ok := FinalizeNext(store, start, calls, rows[i], now);
      FinalizesOneMore(calls, rows, now);
      calls := calls + [FinalizeCall(rows[i], now)];
      count := count + if ok then 1 else 0;
      i := i + 1;
    }
    assert rows[..i] == rows;
  }

  lemma AbortsOneMore(calls: seq<Call>, rows: seq<OfflineRow>, now: int)
    requires |calls| < |rows| && AbortsEach(calls, rows[..|calls|], now)
    ensures AbortsEach(calls + [AbortCall(rows[|calls|], now)], rows[..|calls| + 1], now)
  {
    var longer := calls + [AbortCall(rows[|calls|], now)];
    forall i | 0 <= i < |longer| ensures CallAt(longer, i) == AbortCall(rows[i], now) {
      assert i < |calls| ==> CallAt(longer, i) == CallAt(calls, i);
    }
  }

  method AbortNext(store: CoinStore, ghost start: Db, ghost calls: seq<Call>, row: OfflineRow, now: int) returns (ok: bool)
    requires store.Contents() == Run(store.cfg, start, calls)
    modifies store
    ensures var more := calls + [AbortCall(row, now)];
      && store.Contents() == Run(store.cfg, start, more)
      && Succeeded(store.cfg, start, more) == Succeeded(store.cfg, start, calls) + if ok then 1 else 0
  {
    RunSnoc(store.cfg, start, calls, AbortCall(row, now));
    StepAborts(store.cfg, store.Contents(), row.game, "reconnectWindowExpired", row.key, now);
    var reply := store.AbortSessionFor(row.game, "reconnectWindowExpired", row.key, now);
    ok := reply.Ok?;
  }

  method AbortOfflineSessions(store: CoinStore, rows: seq<OfflineRow>, now: int) returns (count: nat, ghost calls: seq<Call>)
    modifies store
    ensures AbortsEach(calls, rows, now)
    ensures store.Contents() == Run(store.cfg, old(store.Contents()), calls)
    ensures count == Succeeded(store.cfg, old(store.Contents()), calls)
  {
    ghost var start := store.Contents();
    count, calls := 0, [];
    var i := 0;
    while i < |rows|
      invariant i == |calls| <= |rows| && AbortsEach(calls, rows[..i], now)
      invariant store.Contents() == Run(store.cfg, start, calls)
      invariant count == Succeeded(store.cfg, start, calls)
    {
      var ok := AbortNext(store, start, calls, rows[i], now);
      AbortsOneMore(calls, rows, now);
      calls := calls + [AbortCall(rows[i], now)];
      count := count + if ok then 1 else 0;
      i := i + 1;
    }
    assert rows[..i] == rows;
  }

  lemma TraceSnoc(trace: seq<Attempt>, a: Attempt, now: int)
    ensures TraceCalls(trace + [a], now) == TraceCalls(trace, now) + AttemptCalls(a, now)
    ensures CommittedIn(trace + [a]) == CommittedIn(trace) + if a.reply.Ok? then 1 else 0
    ensures MarkedIn(trace + [a]) == MarkedIn(trace) + if a.mark == Some(true) then 1 else 0
  {
    assert (trace + [a])[..|trace + [a]| - 1] == trace;
  }

  lemma TracedSnoc(cfg: Config, start: Db, trace: seq<Attempt>, a: Attempt, rows: seq<TerminalRow>, now: int)
    requires |trace| < |rows| && Traced(cfg, start, trace, rows[..|trace|], now)
    requires a.row == rows[|trace|] && Happens(cfg, Run(cfg, start, TraceCalls(trace, now)), a, now)
    ensures Traced(cfg, start, trace + [a], rows[..|trace| + 1], now)
  {
    var longer := trace + [a];
    forall i | 0 <= i < |longer|
      ensures At(longer, i).row == rows[i] && Happens(cfg, Run(cfg, start, TraceCalls(longer[..i], now)), At(longer, i), now)
    {
      if i < |trace| {
        assert longer[..i] == trace[..i];
        assert At(longer, i) == At(trace, i);
      } else {
        assert longer[..i] == trace;
      }
    }
  }

  method SettleCandidate(store: CoinStore, ghost start: Db, ghost calls: seq<Call>, row: TerminalRow, now: int)
      returns (reply: Result<Response, ApiError>)
    requires store.Contents() == Run(store.cfg, start, calls)
    modifies store
    ensures reply == Step(store.cfg, old(store.Contents()), SettleCall(row, now)).reply
    ensures store.Contents() == Step(store.cfg, old(store.Contents()), SettleCall(row, now)).db
    ensures store.Contents() == Run(store.cfg, start, calls + [SettleCall(row, now)])
  {
    RunSnoc(store.cfg, start, calls, SettleCall(row, now));
    reply := store.SettleSessionAt(row.game, row.room, row.version, row.checksum, row.key, now);
  }

  method MarkCandidate(store: CoinStore, ghost start: Db, ghost calls: seq<Call>, row: TerminalRow) returns (marked: bool)
    requires store.Contents() == Run(store.cfg, start, calls)
    modifies store
    ensures marked <==> Step(store.cfg, old(store.Contents()), CallMarkProofRecovery(row.game)).reply == Ok(Done(true))
    ensures store.Contents() == Run(store.cfg, start, calls + [CallMarkProofRecovery(row.game)])
  {
    RunSnoc(store.cfg, start, calls, CallMarkProofRecovery(row.game));
    var mark := store.MarkProofRecoveryRequired(row.game);
    marked := mark == Ok(Done(true));
  }

  /** Settle the candidate and, if its proof can never work, mark its session for recovery. */
  method CommitTerminal(store: CoinStore, ghost start: Db, ghost calls: seq<Call>, row: TerminalRow, now: int) returns (a: Attempt)
    requires store.Contents() == Run(store.cfg, start, calls)
    modifies store
    ensures store.Contents() == Run(store.cfg, start, calls + AttemptCalls(a, now))
    ensures a.row == row && Happens(store.cfg, old(store.Contents()), a, now)
  {
    var reply := SettleCandidate(store, start, calls, row, now);
    if DurablyInvalid(reply) {
      var marked := MarkCandidate(store, start, calls + [SettleCall(row, now)], row);
      a := Attempt(row, reply, Some(marked));
      assert calls + [SettleCall(row, now)] + [CallMarkProofRecovery(row.game)] == calls + AttemptCalls(a, now);
    } else {
      a := Attempt(row, reply, None);
      assert [SettleCall(row, now)] == AttemptCalls(a, now);
    }
  }

  method CommitTerminalSettlements(store: CoinStore, rows: seq<TerminalRow>, now: int)
      returns (committed: nat, marked: nat, ghost trace: seq<Attempt>)
    modifies store
    ensures store.Contents() == Run(store.cfg, old(store.Contents()), TraceCalls(trace, now))
    ensures Traced(store.cfg, old(store.Contents()), trace, rows, now)
    ensures committed == CommittedIn(trace) && marked == MarkedIn(trace)
  {
    ghost var start := store.Contents();
    committed, marked, trace := 0, 0, [];
    var i := 0;
    while i < |rows|
      invariant i == |trace| <= |rows|
      invariant store.Contents() == Run(store.cfg, start, TraceCalls(trace, now))
      invariant Traced(store.cfg, start, trace, rows[..i], now)
      invariant committed == CommittedIn(trace) && marked == MarkedIn(trace)
    {
      var a := CommitTerminal(store, start, TraceCalls(trace, now), rows[i], now);
      TraceSnoc(trace, a, now);
      TracedSnoc(store.cfg, start, trace, a, rows, now);
      trace := trace + [a];
      committed := committed + if a.reply.Ok? then 1 else 0;
      marked := marked + if a.mark == Some(true) then 1 else 0;
      i := i + 1;
    }
    assert rows[..i] == rows;
  }
}
