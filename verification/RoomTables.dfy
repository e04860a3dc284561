/**
 * The durable tables of one room and what each repository transaction does to them
 * (room-lease.ts, checkpoint-repository.ts, command-repository.ts, presence-repository.ts).
 * Every table is keyed by the room, so rooms are independent and one of them is modelled.
 * SHA-256 is taken to be injective: a digest is represented by what it digests.
 */
module RoomTables {
  import opened Outcomes
  import CanonicalJson
  import JsonText

  const RECONNECT_WINDOW_MS := 120_000
  const MAX_CHECKPOINT_BYTES := 1_048_576
  /** The largest instant a JavaScript Date can hold. */
  const MAX_DATE_MS := 8_640_000_000_000_000

  type Blob = seq<Byte>

  /** A lease row, and the copy of it handed to the holder. */
  datatype Lease = Lease(instance: string, game: string, token: nat, until: int)

  datatype Checkpoint = Checkpoint(game: string, token: nat, version: int, checksum: Blob, state: Blob)

  datatype Presence = Presence(game: string, token: nat, allOfflineAt: Option<int>, abortDeadlineAt: Option<int>)

  datatype Action = LeaveSession | CancelSession

  /** A parsed command: `content` is the whole object the hash is taken of. */
  datatype Command = Command(requestId: string, expectedVersion: int, finalizes: Option<Action>, content: JsonText.Json)

  datatype Acknowledgement = Acknowledgement(requestId: string, version: int, eventIds: seq<string>)

  datatype Event = Event(id: string, version: int, payload: string)

  datatype Verdict = Verdict(winner: string, reason: string)

  datatype Proof = Proof(game: string, version: int, checksum: Blob, verdict: Verdict)

  datatype Finalization = Finalization(action: Action, key: string, reservation: string)

  datatype CommandKey = CommandKey(player: string, requestId: string)

  datatype CommandRow =
    CommandRow(expectedVersion: int, committedVersion: int, hash: JsonText.Text, acknowledgement: Acknowledgement)

  datatype Tables = Tables(
    lease: Option<Lease>,
    checkpoint: Option<Checkpoint>,
    presence: Option<Presence>,
    commands: map<CommandKey, CommandRow>,
    events: map<string, Event>,
    proof: Option<Proof>,
    finalizations: map<CommandKey, Finalization>)

  const EMPTY := Tables(None, None, None, map[], map[], None, map[])

  datatype RoomError =
    | LeaseUnavailable
    | CorruptCheckpoint
    | CheckpointConflict
    | FinalizationMismatch
    | InconsistentResult
    | IdempotencyConflict
    | StaleRevision
    | DuplicateRow
    | DeadlineOverflow

  datatype Outcome<+T> = Outcome(tables: Tables, reply: Result<T, RoomError>)

  function Failed<T>(t: Tables, e: RoomError): Outcome<T> {
    Outcome(t, Err(e))
  }

  /* ---------- Leases ---------- */

  predicate Owned(t: Tables, l: Lease, now: int) {
    && t.lease.Some?
    && t.lease.value.instance == l.instance && t.lease.value.game == l.game && t.lease.value.token == l.token
    && t.lease.value.until > now
  }

  /** The presence row when the lease changes hands: still offline since it was, or since the old lease ended. */
  function TakenOver(p: Presence, token: nat, until: int): Presence {
    p.(token := token,
       allOfflineAt := Coalesce(p.allOfflineAt, until),
       abortDeadlineAt := Coalesce(p.abortDeadlineAt, until + RECONNECT_WINDOW_MS))
  }

  function Acquire(t: Tables, owner: string, game: string, duration: int, now: int): Outcome<Lease> {
    match t.lease
    case None =>
      var l := Lease(owner, game, 1, now + duration);
      Outcome(t.(lease := Some(l)), Ok(l))
    case Some(current) =>
      if current.game != game || (current.instance != owner && current.until > now) then Failed(t, LeaseUnavailable)
      else if current.instance == owner && current.until > now then
        var l := Lease(owner, game, current.token, now + duration);
        Outcome(t.(lease := Some(l)), Ok(l))
      else
        var l := Lease(owner, game, current.token + 1, now + duration);
        Outcome(
          t.(lease := Some(l),
             checkpoint := if t.checkpoint.Some? then Some(t.checkpoint.value.(token := l.token)) else None,
             presence := if t.presence.Some? then Some(TakenOver(t.presence.value, l.token, current.until)) else None),
          Ok(l))
  }

  function Renew(t: Tables, l: Lease, duration: int, now: int): Outcome<Lease> {
    if !Owned(t, l, now) then Failed(t, LeaseUnavailable)
    else
      var renewed := l.(until := now + duration);
      Outcome(t.(lease := Some(renewed)), Ok(renewed))
  }

  function Release(t: Tables, l: Lease, now: int): Outcome<bool> {
    if !Owned(t, l, now) then Outcome(t, Ok(false))
    else Outcome(t.(lease := Some(t.lease.value.(until := now))), Ok(true))
  }

  /* ---------- Checkpoints ---------- */

  /** `versionOf` parses a snapshot and reads its version; None when it is not a snapshot. */
  predicate ValidSnapshot(versionOf: Blob -> Option<int>, state: Blob, version: int) {
    0 < |state| <= MAX_CHECKPOINT_BYTES && versionOf(state) == Some(version)
  }

  predicate ValidVersion(version: int) {
    0 <= version <= MAX_SAFE_INTEGER
  }

  /** What loading a row checks before its state is used. */
  predicate Readable(versionOf: Blob -> Option<int>, c: Checkpoint) {
    ValidVersion(c.version) && ValidSnapshot(versionOf, c.state, c.version) && c.checksum == c.state
  }

  function Initialize(versionOf: Blob -> Option<int>, t: Tables, l: Lease, version: int, state: Blob, now: int)
    : Outcome<Checkpoint>
  {
    if !ValidSnapshot(versionOf, state, version) || !ValidVersion(version) then Failed(t, CorruptCheckpoint)
    else if !Owned(t, l, now) then Failed(t, LeaseUnavailable)
    else if t.checkpoint.Some? then Failed(t, CheckpointConflict)
    else
      var c := Checkpoint(l.game, l.token, version, state, state);
      Outcome(t.(checkpoint := Some(c)), Ok(c))
  }

  /** The compare-and-swap of a checkpoint row. */
  predicate Current(t: Tables, l: Lease, expected: int) {
    && t.checkpoint.Some?
    && t.checkpoint.value.game == l.game && t.checkpoint.value.token == l.token
    && t.checkpoint.value.version == expected
  }

  function Save(versionOf: Blob -> Option<int>, t: Tables, l: Lease, expected: int, version: int, state: Blob, now: int)
    : Outcome<Checkpoint>
  {
    if !ValidSnapshot(versionOf, state, version) then Failed(t, CorruptCheckpoint)
    else if !ValidVersion(expected) || !ValidVersion(version) || version <= expected then Failed(t, CheckpointConflict)
    else if !Owned(t, l, now) then Failed(t, LeaseUnavailable)
    else if !Current(t, l, expected) then Failed(t, CheckpointConflict)
    else
      var c := Checkpoint(l.game, l.token, version, state, state);
      Outcome(t.(checkpoint := Some(c)), Ok(c))
  }

  function Load(versionOf: Blob -> Option<int>, t: Tables, l: Lease, now: int): Result<Option<Checkpoint>, RoomError> {
    if !Owned(t, l, now) then Err(LeaseUnavailable)
    else if t.checkpoint.None? || t.checkpoint.value.game != l.game || t.checkpoint.value.token != l.token then Ok(None)
    else if !Readable(versionOf, t.checkpoint.value) then Err(CorruptCheckpoint)
    else Ok(t.checkpoint)
  }

  /* ---------- Commands ---------- */

  function RequestHash(c: CanonicalJson.Collation, command: Command): JsonText.Text {
    CanonicalJson.Canonical(c, command.content)
  }

  /** What a stored row answers to a request with the same id. */
  function Replay(row: CommandRow, hash: JsonText.Text): Result<Acknowledgement, RoomError> {
    if row.hash == hash then Ok(row.acknowledgement) else Err(IdempotencyConflict)
  }

  function FindReplay(c: CanonicalJson.Collation, t: Tables, l: Lease, player: string, command: Command, now: int)
    : Result<Option<Acknowledgement>, RoomError>
  {
    var key := CommandKey(player, command.requestId);
    if !Owned(t, l, now) then Err(LeaseUnavailable)
    else if key !in t.commands then Ok(None)
    else
      var stored := Replay(t.commands[key], RequestHash(c, command));
      if stored.Ok? then Ok(Some(stored.value)) else Err(stored.error)
  }

  datatype Commit = Commit(
    player: string,
    command: Command,
    acknowledgement: Acknowledgement,
    events: seq<Event>,
    state: Blob,
    version: int,
    verdict: Option<Verdict>,
    finalization: Option<Finalization>)

  datatype CommitReply = CommitReply(acknowledgement: Acknowledgement, duplicate: bool)

  function KeyOf(v: Commit): CommandKey {
    CommandKey(v.player, v.command.requestId)
  }

  predicate FinalizationMatches(v: Commit) {
    match v.command.finalizes
    case None => v.finalization.None?
    case Some(action) => v.finalization.Some? && v.finalization.value.action == action
  }

  predicate ResultConsistent(v: Commit) {
    && v.version == v.command.expectedVersion + 1
    && v.acknowledgement.requestId == v.command.requestId && v.acknowledgement.version == v.version
    && (forall i :: 0 <= i < |v.events| ==> v.events[i].version == v.version)
    && |v.acknowledgement.eventIds| == |v.events|
    && (forall i :: 0 <= i < |v.events| ==> v.acknowledgement.eventIds[i] == v.events[i].id)
  }

  /** The event ids are new to the table and to each other, as its primary key demands. */
  predicate EventsInsertable(events: map<string, Event>, added: seq<Event>) {
    && (forall i :: 0 <= i < |added| ==> added[i].id !in events)
    && (forall i, j :: 0 <= i < j < |added| ==> added[i].id != added[j].id)
  }

  function WithEvents(events: map<string, Event>, added: seq<Event>): map<string, Event> {
    if added == [] then events
    else WithEvents(events, added[..|added| - 1])[added[|added| - 1].id := added[|added| - 1]]
  }

  /** The table after an insert: the old rows, the new ones, and nothing else. */
  ghost predicate Inserted(events: map<string, Event>, added: seq<Event>, after: map<string, Event>) {
    && (forall id :: id in events ==> id in after && after[id] == events[id])
    && (forall n :: 0 <= n < |added| ==> added[n].id in after && after[added[n].id] == added[n])
    && (forall id :: id in after ==> id in events || exists n :: 0 <= n < |added| && added[n].id == id)
  }

  lemma InsertedOneMore(events: map<string, Event>, init: seq<Event>, last: Event, before: map<string, Event>)
    requires Inserted(events, init, before) && EventsInsertable(events, init + [last])
    ensures Inserted(events, init + [last], before[last.id := last])
  {
    var added, after := init + [last], before[last.id := last];
    assert added[|init|] == last;
    forall n | 0 <= n < |added| ensures added[n].id in after && after[added[n].id] == added[n] {
      if n < |init| { assert added[n] == init[n] && added[n].id != added[|init|].id; }
    }
    forall id | id in after && id !in events ensures exists n :: 0 <= n < |added| && added[n].id == id {
      if id != last.id {
        var n :| 0 <= n < |init| && init[n].id == id;
        assert added[n].id == id;
      }
    }
  }

  lemma {:induction false} InsertedEvents(events: map<string, Event>, added: seq<Event>)
    requires EventsInsertable(events, added)
    ensures Inserted(events, added, WithEvents(events, added))
    decreases |added|
  {
    if added != [] {
      var init, last := added[..|added| - 1], added[|added| - 1];
      assert added == init + [last];
      assert forall n :: 0 <= n < |init| ==> init[n] == added[n];
      InsertedEvents(events, init);
      InsertedOneMore(events, init, last, WithEvents(events, init));
    }
  }

  /** The tables after a new command has been accepted: checkpoint, events, proof, command, outbox. */
  function Committed(c: CanonicalJson.Collation, t: Tables, l: Lease, v: Commit): Tables {
    t.(checkpoint := Some(Checkpoint(l.game, l.token, v.version, v.state, v.state)),
       events := WithEvents(t.events, v.events),
       proof := if v.verdict.Some? then Some(Proof(l.game, v.version, v.state, v.verdict.value)) else t.proof,
       commands := t.commands[KeyOf(v) :=
         CommandRow(v.command.expectedVersion, v.version, RequestHash(c, v.command), v.acknowledgement)],
       finalizations := if v.finalization.Some? then t.finalizations[KeyOf(v) := v.finalization.value]
                        else t.finalizations)
  }

  /** Whether a well-formed commit is a new command that the compare-and-swap lets through. */
  predicate Accepts(versionOf: Blob -> Option<int>, t: Tables, l: Lease, v: Commit, now: int) {
    && FinalizationMatches(v) && ResultConsistent(v) && ValidSnapshot(versionOf, v.state, v.version)
    && Owned(t, l, now) && KeyOf(v) !in t.commands && Current(t, l, v.command.expectedVersion)
    && EventsInsertable(t.events, v.events) && !(v.verdict.Some? && t.proof.Some?)
  }

  function CommitCommand(
    c: CanonicalJson.Collation, versionOf: Blob -> Option<int>, t: Tables, l: Lease, v: Commit, now: int)
    : Outcome<CommitReply>
  {
    if !FinalizationMatches(v) then Failed(t, FinalizationMismatch)
    else if !ResultConsistent(v) then Failed(t, InconsistentResult)
    else if !ValidSnapshot(versionOf, v.state, v.version) then Failed(t, CorruptCheckpoint)
    else if !Owned(t, l, now) then Failed(t, LeaseUnavailable)
    else if KeyOf(v) in t.commands then
      var stored := Replay(t.commands[KeyOf(v)], RequestHash(c, v.command));
      if stored.Ok? then Outcome(t, Ok(CommitReply(stored.value, true))) else Failed(t, stored.error)
    else if !Current(t, l, v.command.expectedVersion) then Failed(t, StaleRevision)
    else if !EventsInsertable(t.events, v.events) || (v.verdict.Some? && t.proof.Some?) then Failed(t, DuplicateRow)
    else Outcome(Committed(c, t, l, v), Ok(CommitReply(v.acknowledgement, false)))
  }

  /** A commit changes the tables exactly when it is accepted; every other ending leaves them alone. */
  lemma CommitExactly(
    c: CanonicalJson.Collation, versionOf: Blob -> Option<int>, t: Tables, l: Lease, v: Commit, now: int)
    ensures var o := CommitCommand(c, versionOf, t, l, v, now);
      if Accepts(versionOf, t, l, v, now) then
        && o == Outcome(Committed(c, t, l, v), Ok(CommitReply(v.acknowledgement, false)))
        && Inserted(t.events, v.events, o.tables.events)
      else
        o.tables == t && (o.reply.Ok? ==> o.reply.value.duplicate)
  {
    if EventsInsertable(t.events, v.events) { InsertedEvents(t.events, v.events); }
  }

  /* ---------- Presence ---------- */

  function MarkConnected(t: Tables, l: Lease, now: int): Outcome<Option<int>> {
    if !Owned(t, l, now) then Failed(t, LeaseUnavailable)
    else Outcome(
      t.(presence := Some(Presence(l.game, l.token, None, None))),
      Ok(if t.presence.Some? then t.presence.value.allOfflineAt else None))
  }

  function MarkAllOffline(t: Tables, l: Lease, now: int): Outcome<int> {
    if !Owned(t, l, now) then Failed(t, LeaseUnavailable)
    else if now + RECONNECT_WINDOW_MS > MAX_DATE_MS then Failed(t, DeadlineOverflow)
    else
      var prior := if t.presence.Some? then t.presence.value else Presence(l.game, l.token, None, None);
      var p := Presence(
        l.game, l.token,
        Coalesce(prior.allOfflineAt, now),
        Coalesce(prior.abortDeadlineAt, now + RECONNECT_WINDOW_MS));
      Outcome(t.(presence := Some(p)), Ok(p.abortDeadlineAt.value))
  }
}
