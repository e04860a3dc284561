/**
 * Coins issued to one user: at most one initial grant, and rescue grants at least one window apart.
 * A rescue is read off the ledger and dated by its operation row.
 */
module Rescues {
  import opened Outcomes
  import opened CoinBank
  import opened Sessions
  import opened Growth

  datatype RescueRow = RescueRow(at: int, amount: int)

  predicate CreditsFor(e: Entry, u: UserId, scope: Scope) {
    e.account == Available(u) && e.op.scope == scope
  }

  /** The rescue grants of `u` in the order of the ledger. */
  function RescuesOf(ledger: seq<Entry>, ops: Ops, u: UserId): seq<RescueRow> {
    if ledger == [] then []
    else
      var e, earlier := ledger[|ledger| - 1], RescuesOf(ledger[..|ledger| - 1], ops, u);
      if CreditsFor(e, u, RescueGrant) && e.op in ops then earlier + [RescueRow(ops[e.op].at, e.amount)] else earlier
  }

  function InitialSum(ledger: seq<Entry>, u: UserId): int {
    if ledger == [] then 0
    else
      var e := ledger[|ledger| - 1];
      InitialSum(ledger[..|ledger| - 1], u) + if CreditsFor(e, u, InitialGrant) then e.amount else 0
  }

  /** Coins issued to `u` by operations dated from `since` to `until`. */
  function IssuedTo(ledger: seq<Entry>, ops: Ops, u: UserId, since: int, until: int): int {
    if ledger == [] then 0
    else
      var e := ledger[|ledger| - 1];
      IssuedTo(ledger[..|ledger| - 1], ops, u, since, until)
      + if (CreditsFor(e, u, InitialGrant) || CreditsFor(e, u, RescueGrant)) && e.op in ops && since <= ops[e.op].at <= until
        then e.amount else 0
  }

  function LastRescue(b: Bank, u: UserId): Option<int> {
    if u in b.accounts then b.accounts[u].lastRescue else None
  }

  ghost predicate Spaced(rs: seq<RescueRow>, window: nat) {
    forall i, j :: 0 <= i < j < |rs| ==> rs[i].at + window <= rs[j].at
  }

  ghost predicate UserRescues(cfg: Config, b: Bank, ops: Ops, u: UserId) {
    var rs := RescuesOf(b.ledger, ops, u);
    && Spaced(rs, cfg.rescueWindow)
    && (forall i :: 0 <= i < |rs| ==> 0 < rs[i].amount <= cfg.rescueBalance)
    && LastRescue(b, u) == (if rs == [] then None else Some(rs[|rs| - 1].at))
    && InitialSum(b.ledger, u) == (if OpKey(u, InitialGrant, INITIAL_GRANT_KEY) in ops then cfg.initialGrant else 0)
  }

  /** Ledger rows belong to recorded operations, and a grant only ever credits. */
  ghost predicate LedgerKnown(ledger: seq<Entry>, ops: Ops) {
    forall i :: 0 <= i < |ledger| ==>
      ledger[i].op in ops && (ledger[i].account.Available? && ledger[i].op.scope == InitialGrant ==> ledger[i].amount > 0)
  }

  ghost predicate RescuesOk(cfg: Config, b: Bank, ops: Ops) {
    LedgerKnown(b.ledger, ops) && forall u :: UserRescues(cfg, b, ops, u)
  }

  /* ---------- Steps that grant nothing ---------- */

  predicate Grants(scope: Scope) {
    scope == InitialGrant || scope == RescueGrant
  }

  lemma {:induction false} RescuesSameOps(ledger: seq<Entry>, ops: Ops, after: Ops, u: UserId)
    requires LedgerKnown(ledger, ops) && OpsGrow(ops, after)
    ensures RescuesOf(ledger, after, u) == RescuesOf(ledger, ops, u)
    decreases |ledger|
  {
    if ledger != [] {
      RescuesSameOps(ledger[..|ledger| - 1], ops, after, u);
    }
  }

  lemma {:induction false} RescuesAppend(ledger: seq<Entry>, longer: seq<Entry>, ops: Ops, u: UserId)
    requires Prefix(ledger, longer)
    requires forall i :: |ledger| <= i < |longer| ==> !CreditsFor(longer[i], u, InitialGrant) && !CreditsFor(longer[i], u, RescueGrant)
    ensures RescuesOf(longer, ops, u) == RescuesOf(ledger, ops, u) && InitialSum(longer, u) == InitialSum(ledger, u)
    decreases |longer|
  {
    if |longer| == |ledger| {
      assert longer == ledger;
    } else {
      var init := longer[..|longer| - 1];
      assert init[..|ledger|] == longer[..|ledger|];
      RescuesAppend(ledger, init, ops, u);
    }
  }

  lemma KnownAppend(b: Bank, after: Bank, ops: Ops, more: Ops, k: OpKey)
    requires LedgerKnown(b.ledger, ops) && OpsGrow(ops, more) && Appends(b, after, k)
    requires after.ledger == b.ledger || (k in more && k.scope != InitialGrant)
    ensures LedgerKnown(after.ledger, more)
  {
    forall i | 0 <= i < |after.ledger|
      ensures after.ledger[i].op in more
      ensures after.ledger[i].account.Available? && after.ledger[i].op.scope == InitialGrant ==> after.ledger[i].amount > 0
    {
      if i < |b.ledger| {
        assert after.ledger[..|b.ledger|][i] == b.ledger[i];
      }
    }
  }

  /** Movements of operations that are not grants. */
  lemma MovesKeepRescues(cfg: Config, b: Bank, after: Bank, ops: Ops, more: Ops, k: OpKey)
    requires RescuesOk(cfg, b, ops) && OpsGrow(ops, more) && Appends(b, after, k)
    requires forall u :: LastRescue(after, u) == LastRescue(b, u)
    requires forall u :: OpKey(u, InitialGrant, INITIAL_GRANT_KEY) in more ==> OpKey(u, InitialGrant, INITIAL_GRANT_KEY) in ops
    requires after.ledger == b.ledger || (k in more && !Grants(k.scope))
    ensures RescuesOk(cfg, after, more)
  {
    KnownAppend(b, after, ops, more, k);
    forall u ensures UserRescues(cfg, after, more, u) {
      RescuesSameOps(b.ledger, ops, more, u);
      RescuesAppend(b.ledger, after.ledger, more, u);
      assert UserRescues(cfg, b, ops, u);
    }
  }

  /* ---------- Grants ---------- */

  lemma RescuesSnoc(ledger: seq<Entry>, e: Entry, ops: Ops, u: UserId)
    ensures RescuesOf(ledger + [e], ops, u) == RescuesOf(ledger, ops, u)
      + if CreditsFor(e, u, RescueGrant) && e.op in ops then [RescueRow(ops[e.op].at, e.amount)] else []
    ensures InitialSum(ledger + [e], u) == InitialSum(ledger, u) + if CreditsFor(e, u, InitialGrant) then e.amount else 0
  {
    assert (ledger + [e])[..|ledger + [e]| - 1] == ledger;
  }

  /** The two ledger rows of a grant, in order. */
  lemma GrantLedger(b: Bank, k: OpKey, u: UserId, amount: nat, now: int, rescue: bool)
    requires u in b.accounts && amount > 0 && Grant(b, k, u, amount, now, rescue).Ok?
    ensures Grant(b, k, u, amount, now, rescue).value.ledger
         == (b.ledger + [Entry(k, Available(u), amount)]) + [Entry(k, Issuance, 0 - amount)]
  {
  }

  lemma GrantRows(ledger: seq<Entry>, k: OpKey, u: UserId, amount: nat, ops: Ops, v: UserId)
    ensures var after := (ledger + [Entry(k, Available(u), amount)]) + [Entry(k, Issuance, 0 - amount)];
      && RescuesOf(after, ops, v) == RescuesOf(ledger, ops, v)
           + (if v == u && k.scope == RescueGrant && k in ops then [RescueRow(ops[k].at, amount)] else [])
      && InitialSum(after, v) == InitialSum(ledger, v) + if v == u && k.scope == InitialGrant then amount else 0
  {
    var e, f := Entry(k, Available(u), amount), Entry(k, Issuance, 0 - amount);
    RescuesSnoc(ledger, e, ops, v);
    RescuesSnoc(ledger + [e], f, ops, v);
  }

  lemma GrantKnown(ledger: seq<Entry>, k: OpKey, u: UserId, amount: nat, ops: Ops, more: Ops)
    requires LedgerKnown(ledger, ops) && OpsGrow(ops, more) && k in more && amount > 0
    ensures LedgerKnown((ledger + [Entry(k, Available(u), amount)]) + [Entry(k, Issuance, 0 - amount)], more)
  {
  }

  lemma InitialGrantKeeps(cfg: Config, b: Bank, ops: Ops, k: OpKey, op: Operation, u: UserId, now: int)
    requires RescuesOk(cfg, b, ops) && ValidConfig(cfg) && u in b.accounts
    requires k == OpKey(u, InitialGrant, INITIAL_GRANT_KEY) && k !in ops
    requires Grant(b, k, u, cfg.initialGrant, now, false).Ok?
    ensures RescuesOk(cfg, Grant(b, k, u, cfg.initialGrant, now, false).value, ops[k := op])
  {
    var after, more := Grant(b, k, u, cfg.initialGrant, now, false).value, ops[k := op];
    GrantLedger(b, k, u, cfg.initialGrant, now, false);
    GrantKnown(b.ledger, k, u, cfg.initialGrant, ops, more);
    forall v ensures UserRescues(cfg, after, more, v) {
      assert UserRescues(cfg, b, ops, v);
      RescuesSameOps(b.ledger, ops, more, v);
      GrantRows(b.ledger, k, u, cfg.initialGrant, more, v);
      GrantKeepsStamps(b, k, u, cfg.initialGrant, now, v);
    }
  }

  lemma GrantKeepsStamps(b: Bank, k: OpKey, u: UserId, amount: nat, now: int, v: UserId)
    requires u in b.accounts && Grant(b, k, u, amount, now, false).Ok?
    ensures LastRescue(Grant(b, k, u, amount, now, false).value, v) == LastRescue(b, v)
  {
  }

  lemma SpacedSnoc(rs: seq<RescueRow>, window: nat, at: int, amount: int)
    requires Spaced(rs, window) && (rs == [] || rs[|rs| - 1].at + window <= at)
    ensures Spaced(rs + [RescueRow(at, amount)], window)
  {
    forall i | 0 <= i < |rs| ensures rs[i].at + window <= at {
      assert i < |rs| - 1 ==> rs[i].at + window <= rs[|rs| - 1].at;
    }
  }

  lemma RescueGrantKeeps(cfg: Config, b: Bank, ops: Ops, k: OpKey, op: Operation, u: UserId, amount: nat, now: int)
    requires RescuesOk(cfg, b, ops) && u in b.accounts && k !in ops && op.at == now
    requires k.scope == RescueGrant && 0 < amount <= cfg.rescueBalance
    requires WindowOpen(cfg, b.accounts[u], now)
    requires Grant(b, k, u, amount, now, true).Ok?
    ensures RescuesOk(cfg, Grant(b, k, u, amount, now, true).value, ops[k := op])
  {
    var after, more := Grant(b, k, u, amount, now, true).value, ops[k := op];
    GrantLedger(b, k, u, amount, now, true);
    GrantKnown(b.ledger, k, u, amount, ops, more);
    forall v ensures UserRescues(cfg, after, more, v) {
      assert UserRescues(cfg, b, ops, v);
      RescuesSameOps(b.ledger, ops, more, v);
      GrantRows(b.ledger, k, u, amount, more, v);
      RescueStamp(b, k, u, amount, now, v);
      if v == u {
        SpacedSnoc(RescuesOf(b.ledger, ops, u), cfg.rescueWindow, now, amount);
      }
    }
  }

  lemma RescueStamp(b: Bank, k: OpKey, u: UserId, amount: nat, now: int, v: UserId)
    requires u in b.accounts && Grant(b, k, u, amount, now, true).Ok?
    requires LastRescue(b, u).Some? ==> LastRescue(b, u).value <= now
    ensures LastRescue(Grant(b, k, u, amount, now, true).value, v) == if v == u then Some(now) else LastRescue(b, v)
  {
  }

  /* ---------- The bound ---------- */

  function Count(rs: seq<RescueRow>, since: int, until: int): nat {
    if rs == [] then 0
    else Count(rs[..|rs| - 1], since, until) + if since <= rs[|rs| - 1].at <= until then 1 else 0
  }

  function SumBetween(rs: seq<RescueRow>, since: int, until: int): int {
    if rs == [] then 0
    else SumBetween(rs[..|rs| - 1], since, until) + if since <= rs[|rs| - 1].at <= until then rs[|rs| - 1].amount else 0
  }

  /** Rows a window apart: all but the last of those in an interval fit into it end to end. */
  lemma {:induction false} CountFits(rs: seq<RescueRow>, window: nat, since: int, until: int) returns (i: nat)
    requires Spaced(rs, window) && Count(rs, since, until) > 0
    ensures i < |rs| && since <= rs[i].at <= until
    ensures (Count(rs, since, until) - 1) * window <= rs[i].at - since
    decreases |rs|
  {
    var init, last := rs[..|rs| - 1], rs[|rs| - 1];
    if !(since <= last.at <= until) {
      i := CountFits(init, window, since, until);
    } else {
      i := |rs| - 1;
      if Count(init, since, until) > 0 {
        var j := CountFits(init, window, since, until);
        assert rs[j].at + window <= last.at;
        OneWindowMore(Count(init, since, until) - 1, window);
      }
    }
  }

  lemma OneWindowMore(n: nat, window: nat)
    ensures (n + 1) * window == n * window + window
  {
  }

  lemma {:induction false} SumBounded(rs: seq<RescueRow>, most: nat, since: int, until: int)
    requires forall i :: 0 <= i < |rs| ==> 0 < rs[i].amount <= most
    ensures SumBetween(rs, since, until) <= Count(rs, since, until) * most
    decreases |rs|
  {
    if rs != [] {
      SumBounded(rs[..|rs| - 1], most, since, until);
    }
  }

  lemma {:induction false} IssuedSplits(ledger: seq<Entry>, ops: Ops, u: UserId, since: int, until: int)
    requires LedgerKnown(ledger, ops)
    ensures IssuedTo(ledger, ops, u, since, until) <= InitialSum(ledger, u) + SumBetween(RescuesOf(ledger, ops, u), since, until)
    decreases |ledger|
  {
    if ledger != [] {
      var e, init := ledger[|ledger| - 1], ledger[..|ledger| - 1];
      IssuedSplits(init, ops, u, since, until);
      if CreditsFor(e, u, RescueGrant) {
        var rs := RescuesOf(ledger, ops, u);
        assert rs[..|rs| - 1] == RescuesOf(init, ops, u);
      }
    }
  }

  lemma DivideBound(c: nat, window: nat, length: nat)
    requires window > 0 && c > 0 && (c - 1) * window <= length
    ensures c <= length / window + 1
  {
    assert length < (length / window + 1) * window;
    CancelFactor(c - 1, length / window + 1, window);
  }

  lemma CancelFactor(a: int, b: int, c: nat)
    requires c > 0 && a * c < b * c
    ensures a < b
  {
  }

  lemma {:induction false} CountBound(rs: seq<RescueRow>, window: nat, since: int, until: int)
    requires Spaced(rs, window) && window > 0 && since <= until
    ensures Count(rs, since, until) <= (until - since) / window + 1
  {
    if Count(rs, since, until) > 0 {
      var i := CountFits(rs, window, since, until);
      DivideBound(Count(rs, since, until), window, until - since);
    }
  }

  /** Coins issued to one user over an interval. */
  lemma IssueBound(cfg: Config, b: Bank, ops: Ops, u: UserId, since: int, until: int)
    requires ValidConfig(cfg) && RescuesOk(cfg, b, ops) && since <= until
    ensures IssuedTo(b.ledger, ops, u, since, until)
         <= cfg.initialGrant + ((until - since) / cfg.rescueWindow + 1) * cfg.rescueBalance
  {
    assert UserRescues(cfg, b, ops, u);
    var rs := RescuesOf(b.ledger, ops, u);
    IssuedSplits(b.ledger, ops, u, since, until);
    SumBounded(rs, cfg.rescueBalance, since, until);
    CountBound(rs, cfg.rescueWindow, since, until);
    Scale(Count(rs, since, until), (until - since) / cfg.rescueWindow + 1, cfg.rescueBalance);
  }

  lemma Scale(a: int, b: int, c: nat)
    requires a <= b
    ensures a * c <= b * c
  {
  }
}
