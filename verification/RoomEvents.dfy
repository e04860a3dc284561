/** The events table over every run: exactly the events of the logged commands, each once. */
module RoomEvents {
  import opened Outcomes
  import opened RoomTables
  import opened RoomLog

  /* ---------- One entry of the log ---------- */

  function Ids(e: Entry): seq<string> {
    e.acknowledgement.eventIds
  }

  /** The rows that one transition must have left, at the version it led to. */
  predicate RowsOf(events: map<string, Event>, ids: seq<string>, version: int, payloads: seq<string>) {
    && |ids| == |payloads|
    && (forall n :: 0 <= n < |ids| ==> ids[n] in events && events[ids[n]] == Event(ids[n], version, payloads[n]))
    && (forall m, n :: 0 <= m < n < |ids| ==> ids[m] != ids[n])
  }

  /** Entry `i` acknowledged the events of the transition it made from the state folded so far. */
  ghost predicate EntryHolds<S(!new)>(rules: Rules<S>, s: S, log: seq<Entry>, i: nat, events: map<string, Event>)
    requires i < |log|
  {
    var before := Fold(rules, s, log[..i]);
    && before.Some?
    && var effect := rules.transition(before.value, log[i].input);
    && effect.Some?
    && RowsOf(events, Ids(log[i]), rules.version(s) + i + 1, effect.value.payloads)
    && forall n :: 0 <= n < |Ids(log[i])| ==> Ids(log[i])[n] == rules.eventId(log[i].input.command.requestId, n)
  }

  ghost predicate EntriesHold<S(!new)>(rules: Rules<S>, s: S, log: seq<Entry>, events: map<string, Event>) {
    forall i :: 0 <= i < |log| ==> EntryHolds(rules, s, log, i, events)
  }

  /** Every row belongs to an entry, and no two entries share an event. */
  ghost predicate RowsHaveOneEntry(log: seq<Entry>, events: map<string, Event>) {
    && (forall id :: id in events ==> exists i :: 0 <= i < |log| && id in Ids(log[i]))
    && (forall i, id :: 0 <= i < |log| && id in Ids(log[i]) ==> id in events)
    && (forall i, j, id :: 0 <= i < j < |log| && id in Ids(log[i]) ==> id !in Ids(log[j]))
  }

  ghost predicate EventsHold<S(!new)>(rules: Rules<S>, sys: System<S>) {
    if sys.tables.checkpoint.None? then sys.log == [] && sys.tables.events == map[]
    else
      && sys.origin.Some?
      && EntriesHold(rules, sys.origin.value, sys.log, sys.tables.events)
      && RowsHaveOneEntry(sys.log, sys.tables.events)
  }

  /* ---------- One more entry ---------- */

  lemma EntryStays<S(!new)>(
    rules: Rules<S>, s: S, log: seq<Entry>, e: Entry, i: nat, events: map<string, Event>, after: map<string, Event>)
    requires i < |log| && EntryHolds(rules, s, log, i, events)
    requires forall id :: id in events ==> id in after && after[id] == events[id]
    ensures EntryHolds(rules, s, log + [e], i, after)
  {
    assert (log + [e])[..i] == log[..i] && (log + [e])[i] == log[i];
  }

  lemma NewEntry<S(!new)>(rules: Rules<S>, s: S, log: seq<Entry>, x: S, p: Pending<S>, events: map<string, Event>)
    requires Lawful(rules) && Fold(rules, s, log) == Some(x) && Prepare(rules, x, p.input) == Some(p)
    requires EventsInsertable(events, p.commit.events)
    ensures var longer := log + [Entry(p.input, p.commit.acknowledgement)];
      EntryHolds(rules, s, longer, |log|, WithEvents(events, p.commit.events))
  {
    var e := Entry(p.input, p.commit.acknowledgement);
    NewEntryRows(rules, s, log, x, p, events);
    EntryIs(rules, s, log, e, x, WithEvents(events, p.commit.events));
  }

  lemma EntryIs<S(!new)>(rules: Rules<S>, s: S, log: seq<Entry>, e: Entry, x: S, events: map<string, Event>)
    requires Fold(rules, s, log) == Some(x) && rules.transition(x, e.input).Some?
    requires RowsOf(events, Ids(e), rules.version(s) + |log| + 1, rules.transition(x, e.input).value.payloads)
    requires forall n :: 0 <= n < |Ids(e)| ==> Ids(e)[n] == rules.eventId(e.input.command.requestId, n)
    ensures EntryHolds(rules, s, log + [e], |log|, events)
  {
    var longer := log + [e];
    assert longer[..|log|] == log && longer[|log|] == e;
  }

  lemma NewEntryRows<S(!new)>(rules: Rules<S>, s: S, log: seq<Entry>, x: S, p: Pending<S>, events: map<string, Event>)
    requires Lawful(rules) && Fold(rules, s, log) == Some(x) && Prepare(rules, x, p.input) == Some(p)
    requires EventsInsertable(events, p.commit.events)
    ensures var ids := p.commit.acknowledgement.eventIds;
      && rules.transition(x, p.input).Some?
      && RowsOf(WithEvents(events, p.commit.events), ids, rules.version(s) + |log| + 1, rules.transition(x, p.input).value.payloads)
      && forall n :: 0 <= n < |ids| ==> ids[n] == rules.eventId(p.input.command.requestId, n)
  {
    assert log[..|log|] == log;
    FoldPrefix(rules, s, log, |log|);
    InsertedEvents(events, p.commit.events);
    AcknowledgedIds(rules, x, p);
    NewRows(WithEvents(events, p.commit.events), p.commit.events, p.commit.acknowledgement.eventIds,
            rules.version(s) + |log| + 1, rules.transition(x, p.input).value.payloads);
  }

  /** The acknowledgement names the events, in order, and they carry the payloads. */
  lemma AcknowledgedIds<S(!new)>(rules: Rules<S>, x: S, p: Pending<S>)
    requires Lawful(rules) && Prepare(rules, x, p.input) == Some(p)
    ensures var e := rules.transition(x, p.input);
      && e.Some? && |p.commit.events| == |e.value.payloads| == |p.commit.acknowledgement.eventIds|
      && forall n :: 0 <= n < |p.commit.events| ==>
           && p.commit.events[n].id == p.commit.acknowledgement.eventIds[n] == rules.eventId(p.input.command.requestId, n)
           && p.commit.events[n].version == rules.version(x) + 1
           && p.commit.events[n].payload == e.value.payloads[n]
  {
  }

  lemma NewRows(after: map<string, Event>, added: seq<Event>, ids: seq<string>, version: int, payloads: seq<string>)
    requires |added| == |payloads| == |ids|
    requires forall n :: 0 <= n < |added| ==>
      added[n].id == ids[n] && added[n].version == version && added[n].payload == payloads[n]
    requires forall n :: 0 <= n < |added| ==> added[n].id in after && after[added[n].id] == added[n]
    requires forall m, n :: 0 <= m < n < |added| ==> added[m].id != added[n].id
    ensures RowsOf(after, ids, version, payloads)
  {
    forall n | 0 <= n < |ids| ensures ids[n] in after && after[ids[n]] == Event(ids[n], version, payloads[n]) {
      assert added[n].id == ids[n];
    }
    forall m, n | 0 <= m < n < |ids| ensures ids[m] != ids[n] {
      assert added[m].id != added[n].id;
    }
  }

  lemma OneEntryMore(log: seq<Entry>, e: Entry, events: map<string, Event>, added: seq<Event>)
    requires RowsHaveOneEntry(log, events) && EventsInsertable(events, added)
    requires |Ids(e)| == |added| && forall n :: 0 <= n < |added| ==> added[n].id == Ids(e)[n]
    ensures RowsHaveOneEntry(log + [e], WithEvents(events, added))
  {
    var longer, after := log + [e], WithEvents(events, added);
    InsertedEvents(events, added);
    forall id | id in after ensures exists i :: 0 <= i < |longer| && id in Ids(longer[i]) {
      if id in events {
        var i :| 0 <= i < |log| && id in Ids(log[i]);
        assert id in Ids(longer[i]);
      } else {
        assert id in Ids(longer[|log|]);
      }
    }
    forall i, id | 0 <= i < |longer| && id in Ids(longer[i]) ensures id in after && (i == |log| ==> id !in events) {
      if i < |log| {
        assert id in Ids(log[i]);
      } else {
        var n :| 0 <= n < |added| && Ids(e)[n] == id;
        assert added[n].id == id;
      }
    }
    forall i, j, id | 0 <= i < j < |longer| && id in Ids(longer[i]) ensures id !in Ids(longer[j]) {
      assert id in Ids(log[i]) && id in events;
    }
  }

  lemma EntriesOneMore<S(!new)>(rules: Rules<S>, s: S, log: seq<Entry>, x: S, p: Pending<S>, events: map<string, Event>)
    requires Lawful(rules) && Fold(rules, s, log) == Some(x) && Prepare(rules, x, p.input) == Some(p)
    requires EventsInsertable(events, p.commit.events)
    requires EntriesHold(rules, s, log, events) && RowsHaveOneEntry(log, events)
    ensures var e := Entry(p.input, p.commit.acknowledgement);
      var after := WithEvents(events, p.commit.events);
      EntriesHold(rules, s, log + [e], after) && RowsHaveOneEntry(log + [e], after)
  {
    var e := Entry(p.input, p.commit.acknowledgement);
    var after := WithEvents(events, p.commit.events);
    InsertedEvents(events, p.commit.events);
    forall i | 0 <= i < |log + [e]| ensures EntryHolds(rules, s, log + [e], i, after) {
      if i < |log| {
        EntryStays(rules, s, log, e, i, events, after);
      } else {
        NewEntry(rules, s, log, x, p, events);
      }
    }
    AcknowledgedIds(rules, x, p);
    OneEntryMore(log, e, events, p.commit.events);
  }

  /* ---------- Every step ---------- */

  lemma CommitKeepsEvents<S(!new)>(rules: Rules<S>, sys: System<S>, id: nat, now: int, d: Delivery)
    requires Lawful(rules) && Refines(rules, sys) && EventsHold(rules, sys)
    requires id in sys.handlers && sys.handlers[id].pending.Some?
    ensures EventsHold(rules, Committing(rules, sys, id, now, d))
  {
    var o := Attempt(rules, sys, id, now);
    if !(d.RolledBack? || o.reply.Err? || o.reply.value.duplicate) {
      AcceptedIsNext(rules, sys, id, now);
      AcceptedSystem(rules, sys, id, now, d);
      EntriesOneMore(rules, sys.origin.value, sys.log, sys.handlers[id].state, sys.handlers[id].pending.value,
                     sys.tables.events);
    }
  }

  /** No other step writes an event. */
  lemma OthersKeepEvents<S(!new)>(rules: Rules<S>, sys: System<S>, step: Step<S>)
    requires Lawful(rules) && EventsHold(rules, sys) && !step.DoCommit?
    ensures EventsHold(rules, Do(rules, sys, step))
  {
    match step
    case DoAcquire(owner, game, duration, now) =>
    case DoRenew(l, duration, now) =>
    case DoRelease(l, now) =>
    case DoInitialize(id, l, s, now) =>
    case DoLoad(id, l, now) =>
    case DoSubmit(id, input, now) =>
    case DoCrash(id) =>
    case DoConnected(l, now) =>
    case DoAllOffline(l, now) =>
  }

  lemma {:induction false} ReachEvents<S(!new)>(rules: Rules<S>, steps: seq<Step<S>>)
    requires Lawful(rules)
    ensures EventsHold(rules, Reach(rules, steps))
    decreases |steps|
  {
    if steps != [] {
      var before, step := steps[..|steps| - 1], steps[|steps| - 1];
      ReachEvents(rules, before);
      ReachInvariant(rules, before);
      var sys := Reach(rules, before);
      if step.DoCommit? {
        if step.id in sys.handlers && sys.handlers[step.id].pending.Some? {
          CommitKeepsEvents(rules, sys, step.id, step.now, step.delivery);
        }
      } else {
        OthersKeepEvents(rules, sys, step);
      }
    }
  }

  /**
   * In every run the events table holds exactly the events of the committed commands: entry `i`
   * acknowledged one id per payload of the transition from the state folded over the entries before
   * it, each id is stored at version origin + i + 1 with that payload, and no row belongs to two entries or none.
   */
  lemma EventsAreTheLog<S(!new)>(rules: Rules<S>, steps: seq<Step<S>>)
    requires Lawful(rules) && Reach(rules, steps).tables.checkpoint.Some?
    ensures Reach(rules, steps).origin.Some?
    ensures var sys := Reach(rules, steps);
      forall i :: 0 <= i < |sys.log| ==> EntryHolds(rules, sys.origin.value, sys.log, i, sys.tables.events)
    ensures var sys := Reach(rules, steps);
      && (forall id :: id in sys.tables.events ==>
            exists i :: 0 <= i < |sys.log| && id in Ids(sys.log[i]))
      && (forall i, j, id :: 0 <= i < j < |sys.log| && id in Ids(sys.log[i]) ==> id !in Ids(sys.log[j]))
  {
    ReachEvents(rules, steps);
  }
}
