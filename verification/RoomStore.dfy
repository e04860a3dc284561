/**
 * The repositories as they run: one row or one insert at a time inside a transaction, rolled back as
 * a whole on any error. Each method is proved to be the step that RoomTables defines.
 */
module RoomStore {
  import opened Outcomes
  import opened RoomTables
  import CanonicalJson

  /** The next event can be inserted exactly when its id is not yet in the table; if it is, the list as a whole cannot be. */
  lemma InsertableOneMore(before: map<string, Event>, added: seq<Event>, i: nat)
    requires i < |added| && EventsInsertable(before, added[..i])
    ensures added[i].id in WithEvents(before, added[..i]) ==> !EventsInsertable(before, added)
    ensures added[i].id !in WithEvents(before, added[..i]) ==> EventsInsertable(before, added[..i + 1])
    ensures WithEvents(before, added[..i + 1]) == WithEvents(before, added[..i])[added[i].id := added[i]]
  {
    InsertedEvents(before, added[..i]);
    assert added[..i + 1] == added[..i] + [added[i]];
    assert added[..i + 1][..i] == added[..i];
    if added[i].id in WithEvents(before, added[..i]) {
      if added[i].id !in before {
        var j :| 0 <= j < i && added[..i][j].id == added[i].id;
        assert added[j].id == added[i].id;
      }
    } else {
      forall j | 0 <= j < i ensures added[j].id != added[i].id {
        assert added[..i][j].id in WithEvents(before, added[..i]);
      }
    }
  }

  class RoomRepository {
    const collation: CanonicalJson.Collation
    const versionOf: Blob -> Option<int>
    var lease: Option<Lease>
    var checkpoint: Option<Checkpoint>
    var presence: Option<Presence>
    var commands: map<CommandKey, CommandRow>
    var events: map<string, Event>
    var proof: Option<Proof>
    var finalizations: map<CommandKey, Finalization>

    constructor (collation: CanonicalJson.Collation, versionOf: Blob -> Option<int>)
      ensures this.collation == collation && this.versionOf == versionOf && Contents() == EMPTY
    {
      this.collation, this.versionOf := collation, versionOf;
      lease, checkpoint, presence, commands := None, None, None, map[];
      events, proof, finalizations := map[], None, map[];
    }

    function Contents(): Tables
      reads this
    {
      Tables(lease, checkpoint, presence, commands, events, proof, finalizations)
    }

    method AssertOwned(l: Lease, now: int) returns (owned: bool)
      ensures owned == Owned(Contents(), l, now)
    {
      owned := lease.Some? && lease.value.instance == l.instance && lease.value.game == l.game
               && lease.value.token == l.token && lease.value.until > now;
    }

    method AcquireLease(owner: string, game: string, duration: int, now: int) returns (r: Result<Lease, RoomError>)
      modifies this
      ensures r.Ok? <==>
        || old(lease).None?
        || (old(lease).value.game == game && (old(lease).value.instance == owner || old(lease).value.until <= now))
      ensures r.Ok? && old(lease).Some? ==>
        r.value.token == if old(lease).value.until > now then old(lease).value.token else old(lease).value.token + 1
      ensures Outcome(Contents(), r) == Acquire(old(Contents()), owner, game, duration, now)
    {
      if lease.None? {
        lease := Some(Lease(owner, game, 1, now + duration));
        return Ok(lease.value);
      }
      var current := lease.value;
      if current.game != game {
        return Err(LeaseUnavailable);
      }
      if current.instance != owner && current.until > now {
        return Err(LeaseUnavailable);
      }
      var continuing := current.instance == owner && current.until > now;
      var token := if continuing then current.token else current.token + 1;
      if token != current.token {
        if checkpoint.Some? {
          checkpoint := Some(checkpoint.value.(token := token));
        }
        if presence.Some? {
          presence := Some(presence.value.(
            token := token,
            allOfflineAt := Coalesce(presence.value.allOfflineAt, current.until),
            abortDeadlineAt := Coalesce(presence.value.abortDeadlineAt, current.until + RECONNECT_WINDOW_MS)));
        }
      }
      lease := Some(Lease(owner, game, token, now + duration));
      return Ok(lease.value);
    }

    method RenewLease(l: Lease, duration: int, now: int) returns (r: Result<Lease, RoomError>)
      modifies this
      ensures Outcome(Contents(), r) == Renew(old(Contents()), l, duration, now)
    {
      var owned := AssertOwned(l, now);
      if !owned {
        return Err(LeaseUnavailable);
      }
      lease := Some(lease.value.(until := now + duration));
      return Ok(l.(until := now + duration));
    }

    method ReleaseLease(l: Lease, now: int) returns (released: bool)
      modifies this
      ensures Outcome(Contents(), Ok(released)) == Release(old(Contents()), l, now)
    {
      released := AssertOwned(l, now);
      if released {
        lease := Some(lease.value.(until := now));
      }
    }

    method InitializeCheckpoint(l: Lease, version: int, state: Blob, now: int) returns (r: Result<Checkpoint, RoomError>)
      modifies this
      ensures Outcome(Contents(), r) == Initialize(versionOf, old(Contents()), l, version, state, now)
    {
      if !ValidSnapshot(versionOf, state, version) || !ValidVersion(version) {
        return Err(CorruptCheckpoint);
      }
      var owned := AssertOwned(l, now);
      if !owned {
        return Err(LeaseUnavailable);
      }
      if checkpoint.Some? {
        return Err(CheckpointConflict);
      }
      checkpoint := Some(Checkpoint(l.game, l.token, version, state, state));
      return Ok(checkpoint.value);
    }

    method SaveCheckpoint(l: Lease, expected: int, version: int, state: Blob, now: int) returns (r: Result<Checkpoint, RoomError>)
      modifies this
      ensures Outcome(Contents(), r) == Save(versionOf, old(Contents()), l, expected, version, state, now)
    {
      if !ValidSnapshot(versionOf, state, version) {
        return Err(CorruptCheckpoint);
      }
      if !ValidVersion(expected) || !ValidVersion(version) || version <= expected {
        return Err(CheckpointConflict);
      }
      var owned := AssertOwned(l, now);
      if !owned {
        return Err(LeaseUnavailable);
      }
      if !Current(Contents(), l, expected) {
        return Err(CheckpointConflict);
      }
      checkpoint := Some(checkpoint.value.(version := version, checksum := state, state := state));
      return Ok(checkpoint.value);
    }

    method LoadCheckpoint(l: Lease, now: int) returns (r: Result<Option<Checkpoint>, RoomError>)
      ensures r == Load(versionOf, Contents(), l, now)
    {
      var owned := AssertOwned(l, now);
      if !owned {
        return Err(LeaseUnavailable);
      }
      if checkpoint.None? || checkpoint.value.game != l.game || checkpoint.value.token != l.token {
        return Ok(None);
      }
      if !Readable(versionOf, checkpoint.value) {
        return Err(CorruptCheckpoint);
      }
      return Ok(checkpoint);
    }

    method FindStoredReplay(l: Lease, player: string, command: Command, now: int)
      returns (r: Result<Option<Acknowledgement>, RoomError>)
      ensures r == FindReplay(collation, Contents(), l, player, command, now)
    {
      var hash := RequestHash(collation, command);
      var owned := AssertOwned(l, now);
      if !owned {
        return Err(LeaseUnavailable);
      }
      var key := CommandKey(player, command.requestId);
      if key !in commands {
        return Ok(None);
      }
      if commands[key].hash != hash {
        return Err(IdempotencyConflict);
      }
      return Ok(Some(commands[key].acknowledgement));
    }

    /** Inserts the events one by one; stops at the first id that is taken. */
    method InsertEvents(added: seq<Event>) returns (ok: bool)
      modifies this`events
      ensures ok == EventsInsertable(old(events), added)
      ensures ok ==> events == WithEvents(old(events), added)
    {
      ghost var before := events;
      for i := 0 to |added|
        invariant EventsInsertable(before, added[..i])
        invariant events == WithEvents(before, added[..i])
      {
        InsertableOneMore(before, added, i);
        if added[i].id in events {
          return false;
        }
        events := events[added[i].id := added[i]];
      }
      assert added[..|added|] == added;
      return true;
    }

    /** The whole transaction: dedupe, compare-and-swap, events, proof, command row, outbox row. */
    method CommitTransaction(l: Lease, v: Commit, now: int) returns (r: Result<CommitReply, RoomError>)
      modifies this
      ensures Outcome(Contents(), r) == CommitCommand(collation, versionOf, old(Contents()), l, v, now)
      ensures r.Ok? && !r.value.duplicate ==> Inserted(old(events), v.events, events)
    {
      if !FinalizationMatches(v) {
        return Err(FinalizationMismatch);
      }
      if !ResultConsistent(v) {
        return Err(InconsistentResult);
      }
      if !ValidSnapshot(versionOf, v.state, v.version) {
        return Err(CorruptCheckpoint);
      }
      var hash := RequestHash(collation, v.command);
      var owned := AssertOwned(l, now);
      if !owned {
        return Err(LeaseUnavailable);
      }
      if KeyOf(v) in commands {
        var stored := commands[KeyOf(v)];
        if stored.hash != hash {
          return Err(IdempotencyConflict);
        }
        return Ok(CommitReply(stored.acknowledgement, true));
      }
      if !Current(Contents(), l, v.command.expectedVersion) {
        return Err(StaleRevision);
      }
      var savedCheckpoint, savedEvents := checkpoint, events;
      checkpoint := Some(checkpoint.value.(version := v.version, checksum := v.state, state := v.state));
      var inserted := InsertEvents(v.events);
      if !inserted || (v.verdict.Some? && proof.Some?) {
        checkpoint, events := savedCheckpoint, savedEvents;
        return Err(DuplicateRow);
      }
      if v.verdict.Some? {
        proof := Some(Proof(l.game, v.version, v.state, v.verdict.value));
      }
      commands := commands[KeyOf(v) := CommandRow(v.command.expectedVersion, v.version, hash, v.acknowledgement)];
      if v.finalization.Some? {
        finalizations := finalizations[KeyOf(v) := v.finalization.value];
      }
      InsertedEvents(old(events), v.events);
      return Ok(CommitReply(v.acknowledgement, false));
    }

    method MarkRoomConnected(l: Lease, now: int) returns (r: Result<Option<int>, RoomError>)
      modifies this
      ensures Outcome(Contents(), r) == MarkConnected(old(Contents()), l, now)
    {
      var owned := AssertOwned(l, now);
      if !owned {
        return Err(LeaseUnavailable);
      }
      var previous := if presence.Some? then presence.value.allOfflineAt else None;
      presence := Some(Presence(l.game, l.token, None, None));
      return Ok(previous);
    }

    method MarkRoomAllOffline(l: Lease, now: int) returns (r: Result<int, RoomError>)
      modifies this
      ensures Outcome(Contents(), r) == MarkAllOffline(old(Contents()), l, now)
    {
      var owned := AssertOwned(l, now);
      if !owned {
        return Err(LeaseUnavailable);
      }
      var deadline := now + RECONNECT_WINDOW_MS;
      if deadline > MAX_DATE_MS {
        return Err(DeadlineOverflow);
      }
      if presence.None? {
        presence := Some(Presence(l.game, l.token, Some(now), Some(deadline)));
      } else {
        presence := Some(Presence(
          l.game, l.token,
          Coalesce(presence.value.allOfflineAt, now),
          Coalesce(presence.value.abortDeadlineAt, deadline)));
      }
      return Ok(presence.value.abortDeadlineAt.value);
    }
  }
}
