/**
 * The resumable random source of secure-random-source.ts: a counter-mode generator whose state goes
 * into every room checkpoint. The keyed hash is a parameter: any function to 32-byte blocks.
 */
module SecureRandom {
  import opened Outcomes

  const ALGORITHM := "hmac-sha256-v1"
  const SEED_BYTES := 32
  const BLOCK_BYTES := 32
  const MAX_DRAW_BYTES := 4_096

  type Bytes = seq<Byte>
  type Block = b: Bytes | |b| == BLOCK_BYTES witness seq(BLOCK_BYTES, _ => 0)

  /** HMAC-SHA-256 of a message under a key. */
  type Prf = (Bytes, Bytes) -> Block

  /* ---------- The counter message ---------- */

  function Power256(k: nat): (p: nat)
    ensures p > 0
  {
    if k == 0 then 1 else 256 * Power256(k - 1)
  }

  /** The low `k` base-256 digits of `n`, most significant first (writeBigUInt64BE for k == 8). */
  function BigEndian(n: nat, k: nat): (r: Bytes)
    ensures |r| == k
  {
    if k == 0 then [] else BigEndian(n / 256, k - 1) + [n % 256]
  }

  function Counted(f: Prf, seed: Bytes, counter: nat): Block {
    f(seed, BigEndian(counter, 8))
  }

  lemma {:induction false} BigEndianInjective(m: nat, n: nat, k: nat)
    requires m < Power256(k) && n < Power256(k) && BigEndian(m, k) == BigEndian(n, k)
    ensures m == n
  {
    if k > 0 {
      var a, b := BigEndian(m, k), BigEndian(n, k);
      assert a[k - 1] == m % 256 && b[k - 1] == n % 256;
      assert a[..k - 1] == BigEndian(m / 256, k - 1) && b[..k - 1] == BigEndian(n / 256, k - 1);
      BigEndianInjective(m / 256, n / 256, k - 1);
    }
  }

  /* ---------- One draw ---------- */

  datatype Source = Source(seed: Bytes, counter: nat, draws: nat, bytes: nat)

  function Fresh(seed: Bytes): Source {
    Source(seed, 0, 0, 0)
  }

  predicate ValidDraw(length: int) {
    1 <= length <= MAX_DRAW_BYTES
  }

  function Blocks(length: nat): nat {
    (length + BLOCK_BYTES - 1) / BLOCK_BYTES
  }

  /** `length` bytes of the key stream from block `start` on: what a draw must return. */
  function Keystream(f: Prf, seed: Bytes, start: nat, length: nat): (r: Bytes)
    ensures |r| == length
  {
    seq(length, i requires 0 <= i < length => Counted(f, seed, start + i / BLOCK_BYTES)[i % BLOCK_BYTES])
  }

  /** The source after a draw; an invalid length throws and changes nothing. */
  function Advance(s: Source, length: int): Source {
    if ValidDraw(length) then Source(s.seed, s.counter + Blocks(length), s.draws + 1, s.bytes + length) else s
  }

  function Draw(f: Prf, s: Source, length: int): Result<Bytes, string> {
    if ValidDraw(length) then Ok(Keystream(f, s.seed, s.counter, length))
    else Err("Random byte request is invalid")
  }

  /* ---------- Checkpoints ---------- */

  /** The encoded state text, by what decoding it gives: nothing, or a seed and a counter. */
  datatype StateText = Garbled | Encoded(seed: Bytes, counter: int)

  datatype Checkpoint = Checkpoint(algorithm: string, state: StateText, draws: int, bytes: int)

  function CheckpointOf(s: Source): Checkpoint {
    Checkpoint(ALGORITHM, Encoded(s.seed, s.counter), s.draws, s.bytes)
  }

  predicate Decodes(t: StateText) {
    t.Encoded? && |t.seed| == SEED_BYTES && 0 <= t.counter <= MAX_SAFE_INTEGER
  }

  predicate ConsistentConsumption(counter: int, draws: int, bytes: int) {
    if counter == 0 || draws == 0 || bytes == 0 then
      counter == 0 && draws == 0 && bytes == 0
    else
      && draws <= counter <= bytes
      && counter >= (bytes + BLOCK_BYTES - 1) / BLOCK_BYTES
      && bytes <= draws * MAX_DRAW_BYTES
  }

  predicate CanResume(c: Checkpoint) {
    && c.algorithm == ALGORITHM && Decodes(c.state)
    && 0 <= c.draws <= MAX_SAFE_INTEGER && 0 <= c.bytes <= MAX_SAFE_INTEGER
    && ConsistentConsumption(c.state.counter, c.draws, c.bytes)
  }

  /** The source a checkpoint resumes to; the source asked to fork plays no part. */
  function Fork(c: Checkpoint): Option<Source> {
    if CanResume(c) then Some(Source(c.state.seed, c.state.counter, c.draws, c.bytes)) else None
  }

  /* ---------- Runs ---------- */

  function Run(s: Source, lengths: seq<int>): Source
    decreases lengths
  {
    if lengths == [] then s else Run(Advance(s, lengths[0]), lengths[1..])
  }

  function Outputs(f: Prf, s: Source, lengths: seq<int>): seq<Result<Bytes, string>>
    decreases lengths
  {
    if lengths == [] then [] else [Draw(f, s, lengths[0])] + Outputs(f, Advance(s, lengths[0]), lengths[1..])
  }

  lemma {:induction false} RunConcat(s: Source, a: seq<int>, b: seq<int>)
    ensures Run(s, a + b) == Run(Run(s, a), b)
    decreases a
  {
    if a == [] {
      assert a + b == b;
    } else {
      assert (a + b)[1..] == a[1..] + b;
      RunConcat(Advance(s, a[0]), a[1..], b);
    }
  }

  lemma {:induction false} OutputsConcat(f: Prf, s: Source, a: seq<int>, b: seq<int>)
    ensures Outputs(f, s, a + b) == Outputs(f, s, a) + Outputs(f, Run(s, a), b)
    decreases a
  {
    if a == [] {
      assert a + b == b;
    } else {
      assert (a + b)[1..] == a[1..] + b;
      OutputsConcat(f, Advance(s, a[0]), a[1..], b);
    }
  }

  /** What consumption figures can look like; `Envelope` is an invariant of every run. */
  predicate Envelope(s: Source) {
    && s.draws <= s.counter <= s.bytes
    && s.bytes <= BLOCK_BYTES * s.counter
    && s.counter >= Blocks(s.bytes)
    && BLOCK_BYTES * s.counter <= s.bytes + (BLOCK_BYTES - 1) * s.draws
    && s.bytes <= MAX_DRAW_BYTES * s.draws
    && (s.draws == 0 <==> s.counter == 0) && (s.counter == 0 <==> s.bytes == 0)
  }

  lemma {:induction false} RunKeepsEnvelope(s: Source, lengths: seq<int>)
    requires Envelope(s)
    ensures Envelope(Run(s, lengths)) && Run(s, lengths).seed == s.seed
    decreases lengths
  {
    if lengths != [] {
      RunKeepsEnvelope(Advance(s, lengths[0]), lengths[1..]);
    }
  }

  /** Every source reached by draws from a fresh one is within the envelope. */
  lemma ConsumptionEnvelope(seed: Bytes, lengths: seq<int>)
    ensures Envelope(Run(Fresh(seed), lengths))
  {
    RunKeepsEnvelope(Fresh(seed), lengths);
  }

  /** A reached checkpoint can be resumed exactly as long as the byte count is a safe integer. */
  lemma ReachedCheckpointsResume(seed: Bytes, lengths: seq<int>)
    requires |seed| == SEED_BYTES
    ensures var s := Run(Fresh(seed), lengths);
      CanResume(CheckpointOf(s)) <==> s.bytes <= MAX_SAFE_INTEGER
  {
    RunKeepsEnvelope(Fresh(seed), lengths);
  }

  /** Stopping at any point and resuming from the checkpoint changes nothing that follows. */
  lemma ResumedRandomnessIsTheSame(f: Prf, seed: Bytes, before: seq<int>, after: seq<int>)
    requires |seed| == SEED_BYTES && Run(Fresh(seed), before).bytes <= MAX_SAFE_INTEGER
    ensures var resumed := Fork(CheckpointOf(Run(Fresh(seed), before)));
      && resumed.Some?
      && Outputs(f, Fresh(seed), before + after) == Outputs(f, Fresh(seed), before) + Outputs(f, resumed.value, after)
      && forall k :: 0 <= k <= |after| ==>
           CheckpointOf(Run(Fresh(seed), before + after[..k])) == CheckpointOf(Run(resumed.value, after[..k]))
  {
    RunKeepsEnvelope(Fresh(seed), before);
    RunConcat(Fresh(seed), before, after);
    OutputsConcat(f, Fresh(seed), before, after);
    forall k | 0 <= k <= |after|
      ensures Run(Fresh(seed), before + after[..k]) == Run(Run(Fresh(seed), before), after[..k])
    {
      RunConcat(Fresh(seed), before, after[..k]);
    }
  }

  /* ---------- No block twice ---------- */

  lemma {:induction false} CounterNeverFalls(s: Source, lengths: seq<int>)
    ensures Run(s, lengths).counter >= s.counter
    decreases lengths
  {
    if lengths != [] { CounterNeverFalls(Advance(s, lengths[0]), lengths[1..]); }
  }

  /** The counter just before draw number `i`. */
  function Start(seed: Bytes, lengths: seq<int>, i: nat): nat
    requires i <= |lengths|
  {
    Run(Fresh(seed), lengths[..i]).counter
  }

  lemma DrawsUseSeparateCounters(seed: Bytes, lengths: seq<int>, i: nat, j: nat)
    requires i < j < |lengths| && ValidDraw(lengths[i])
    ensures Start(seed, lengths, i) + Blocks(lengths[i]) <= Start(seed, lengths, j)
  {
    var s := Run(Fresh(seed), lengths[..i]);
    assert lengths[..i + 1] == lengths[..i] + [lengths[i]];
    RunConcat(Fresh(seed), lengths[..i], [lengths[i]]);
    assert Run(s, [lengths[i]]) == Advance(s, lengths[i]);
    assert lengths[..j] == lengths[..i + 1] + lengths[i + 1..j];
    RunConcat(Fresh(seed), lengths[..i + 1], lengths[i + 1..j]);
    CounterNeverFalls(Run(Fresh(seed), lengths[..i + 1]), lengths[i + 1..j]);
  }

  /** Two draws never hash the same counter message. */
  lemma NoBlockServesTwoDraws(seed: Bytes, lengths: seq<int>, i: nat, j: nat, c: nat, d: nat)
    requires i < j < |lengths| && ValidDraw(lengths[i]) && ValidDraw(lengths[j])
    requires Start(seed, lengths, i) <= c < Start(seed, lengths, i) + Blocks(lengths[i])
    requires Start(seed, lengths, j) <= d < Start(seed, lengths, j) + Blocks(lengths[j])
    requires d <= MAX_SAFE_INTEGER
    ensures BigEndian(c, 8) != BigEndian(d, 8)
  {
    DrawsUseSeparateCounters(seed, lengths, i, j);
    if BigEndian(c, 8) == BigEndian(d, 8) {
      assert Power256(8) == 18_446_744_073_709_551_616;
      BigEndianInjective(c, d, 8);
    }
  }

  /* ---------- The bytes themselves ---------- */

  lemma {:induction false} OutputAt(f: Prf, s: Source, lengths: seq<int>, i: nat)
    requires i < |lengths|
    ensures |Outputs(f, s, lengths)| == |lengths|
    ensures Outputs(f, s, lengths)[i] == Draw(f, Run(s, lengths[..i]), lengths[i])
    decreases lengths
  {
    if i == 0 {
      assert lengths[..0] == [];
      if |lengths| > 1 {
        OutputAt(f, Advance(s, lengths[0]), lengths[1..], 0);
      }
    } else {
      OutputAt(f, Advance(s, lengths[0]), lengths[1..], i - 1);
      assert lengths[..i][1..] == lengths[1..][..i - 1];
    }
  }

  lemma {:induction false} SeedStays(s: Source, lengths: seq<int>)
    ensures Run(s, lengths).seed == s.seed
    decreases lengths
  {
    if lengths != [] {
      SeedStays(Advance(s, lengths[0]), lengths[1..]);
    }
  }

  /** Byte `k` of draw `i` is byte `k % 32` of the keyed hash of the running counter, `k / 32` blocks into the draw. */
  lemma OutputBytes(f: Prf, seed: Bytes, lengths: seq<int>, i: nat, k: nat)
    requires i < |lengths| && ValidDraw(lengths[i]) && k < lengths[i]
    ensures var outputs := Outputs(f, Fresh(seed), lengths);
      && |outputs| == |lengths| && outputs[i].Ok? && |outputs[i].value| == lengths[i]
      && outputs[i].value[k] == f(seed, BigEndian(Start(seed, lengths, i) + k / 32, 8))[k % 32]
  {
    OutputAt(f, Fresh(seed), lengths, i);
    SeedStays(Fresh(seed), lengths[..i]);
  }

  /** Block `p` of draw `i` is a whole block. */
  predicate FullBlock(lengths: seq<int>, i: nat, p: nat) {
    i < |lengths| && ValidDraw(lengths[i]) && 32 * p + 32 <= lengths[i]
  }

  /** Those 32 bytes of what a run of draws returned. */
  function BlockAt(outputs: seq<Result<Bytes, string>>, i: nat, p: nat): Bytes {
    if i < |outputs| && outputs[i].Ok? && 32 * p + 32 <= |outputs[i].value|
    then outputs[i].value[32 * p..32 * p + 32] else []
  }

  /** The number a byte string stands for, most significant byte first. */
  function ReadBack(b: Bytes): nat {
    if b == [] then 0 else 256 * ReadBack(b[..|b| - 1]) + b[|b| - 1]
  }

  /** The counter message is the counter, most significant byte first. */
  lemma {:induction false} BigEndianReadsBack(n: nat, k: nat)
    requires n < Power256(k)
    ensures ReadBack(BigEndian(n, k)) == n
  {
    if k > 0 {
      var b := BigEndian(n, k);
      assert b[..|b| - 1] == BigEndian(n / 256, k - 1);
      BigEndianReadsBack(n / 256, k - 1);
    }
  }

  lemma CounterReadsBack(c: nat)
    requires c <= MAX_SAFE_INTEGER
    ensures ReadBack(BigEndian(c, 8)) == c
  {
    assert Power256(8) == 18_446_744_073_709_551_616;
    BigEndianReadsBack(c, 8);
  }

  lemma BlockIs(f: Prf, seed: Bytes, lengths: seq<int>, i: nat, p: nat) returns (m: Bytes)
    requires FullBlock(lengths, i, p) && Start(seed, lengths, i) + p <= MAX_SAFE_INTEGER
    ensures |m| == 8 && ReadBack(m) == Start(seed, lengths, i) + p
    ensures BlockAt(Outputs(f, Fresh(seed), lengths), i, p) == f(seed, m)
  {
    CounterReadsBack(Start(seed, lengths, i) + p);
    m := BigEndian(Start(seed, lengths, i) + p, 8);
    OutputBytes(f, seed, lengths, i, 32 * p);
    var out := Outputs(f, Fresh(seed), lengths)[i].value;
    forall k | 0 <= k < 32 ensures out[32 * p + k] == f(seed, m)[k] {
      OutputBytes(f, seed, lengths, i, 32 * p + k);
      assert (32 * p + k) / 32 == p && (32 * p + k) % 32 == k;
    }
    SliceIs(out, p, f(seed, m));
  }

  lemma SliceIs(out: Bytes, p: nat, block: Block)
    requires 32 * p + 32 <= |out| && forall k :: 0 <= k < 32 ==> out[32 * p + k] == block[k]
    ensures out[32 * p..32 * p + 32] == block
  {
    var slice := out[32 * p..32 * p + 32];
    assert forall k :: 0 <= k < 32 ==> slice[k] == out[32 * p + k];
  }

  /** Blocks at different places of a run have different counters. */
  lemma BlocksHaveOwnCounters(seed: Bytes, lengths: seq<int>, i: nat, p: nat, j: nat, q: nat)
    requires FullBlock(lengths, i, p) && FullBlock(lengths, j, q) && (i, p) != (j, q)
    ensures Start(seed, lengths, i) + p != Start(seed, lengths, j) + q
  {
    if i < j {
      DrawsUseSeparateCounters(seed, lengths, i, j);
    } else if j < i {
      DrawsUseSeparateCounters(seed, lengths, j, i);
    }
  }

  ghost predicate CollisionFree(f: Prf, seed: Bytes) {
    forall m, n :: |m| == 8 && |n| == 8 && f(seed, m) == f(seed, n) ==> m == n
  }

  /** Under a keyed hash without collisions no block of a run's output, in one draw or in two, repeats another. */
  lemma NoBlockRepeats(f: Prf, seed: Bytes, lengths: seq<int>, i: nat, p: nat, j: nat, q: nat)
    requires CollisionFree(f, seed)
    requires FullBlock(lengths, i, p) && FullBlock(lengths, j, q) && (i, p) != (j, q)
    requires Start(seed, lengths, i) + p <= MAX_SAFE_INTEGER && Start(seed, lengths, j) + q <= MAX_SAFE_INTEGER
    ensures var a, b := BlockAt(Outputs(f, Fresh(seed), lengths), i, p), BlockAt(Outputs(f, Fresh(seed), lengths), j, q);
      |a| == |b| == 32 && a != b
  {
    var m := BlockIs(f, seed, lengths, i, p);
    var n := BlockIs(f, seed, lengths, j, q);
    BlocksHaveOwnCounters(seed, lengths, i, p, j, q);
    HashesDiffer(f, seed, m, n);
  }

  lemma HashesDiffer(f: Prf, seed: Bytes, m: Bytes, n: Bytes)
    requires CollisionFree(f, seed) && |m| == |n| == 8 && m != n
    ensures f(seed, m) != f(seed, n)
  {
  }

  /** Exactly the checkpoints that can be resumed. */
  lemma CanResumeExactly(c: Checkpoint)
    ensures CanResume(c) <==>
      && c.algorithm == "hmac-sha256-v1" && c.state.Encoded? && |c.state.seed| == 32
      && 0 <= c.state.counter <= MAX_SAFE_INTEGER && 0 <= c.draws <= MAX_SAFE_INTEGER && 0 <= c.bytes <= MAX_SAFE_INTEGER
      && (|| c.state.counter == c.draws == c.bytes == 0
          || (0 < c.draws <= c.state.counter <= c.bytes <= 4096 * c.draws && c.bytes <= 32 * c.state.counter))
  {
  }

  /* ---------- Which figures are reachable at all ---------- */

  /** The figures of real runs; `ConsistentConsumption` accepts more. */
  predicate Attainable(counter: nat, draws: nat, bytes: nat) {
    && draws <= counter <= 128 * draws
    && BLOCK_BYTES * counter - (BLOCK_BYTES - 1) * draws <= bytes <= BLOCK_BYTES * counter
  }

  lemma {:induction false} AttainableByARun(seed: Bytes, counter: nat, draws: nat, bytes: nat) returns (lengths: seq<int>)
    requires Attainable(counter, draws, bytes)
    ensures Run(Fresh(seed), lengths) == Source(seed, counter, draws, bytes)
    decreases draws
  {
    if draws == 0 {
      lengths := [];
    } else {
      var blocks := if counter - (draws - 1) <= 128 then counter - (draws - 1) else 128;
      var spare := BLOCK_BYTES * counter - bytes;
      var length := BLOCK_BYTES * blocks - (if spare <= BLOCK_BYTES - 1 then spare else BLOCK_BYTES - 1);
      var rest := AttainableByARun(seed, counter - blocks, draws - 1, bytes - length);
      var s := Run(Fresh(seed), rest);
      lengths := rest + [length];
      RunConcat(Fresh(seed), rest, [length]);
      assert Run(s, [length]) == Advance(s, length);
      assert Blocks(length) == blocks;
    }
  }

  lemma {:induction false} RunsAreAttainable(s: Source, lengths: seq<int>)
    requires Attainable(s.counter, s.draws, s.bytes)
    ensures var t := Run(s, lengths); Attainable(t.counter, t.draws, t.bytes)
    decreases lengths
  {
    if lengths != [] { RunsAreAttainable(Advance(s, lengths[0]), lengths[1..]); }
  }

  /** A run with these figures exists exactly when they are attainable. */
  lemma AttainableExactly(seed: Bytes, counter: nat, draws: nat, bytes: nat)
    ensures Attainable(counter, draws, bytes)
       <==> exists lengths :: Run(Fresh(seed), lengths) == Source(seed, counter, draws, bytes)
  {
    if Attainable(counter, draws, bytes) {
      var lengths := AttainableByARun(seed, counter, draws, bytes);
    }
    forall lengths: seq<int> ensures
        var t := Run(Fresh(seed), lengths); Attainable(t.counter, t.draws, t.bytes)
    {
      RunsAreAttainable(Fresh(seed), lengths);
    }
  }

  /** `canResume` is only a plausibility test: one draw of two bytes never takes two blocks. */
  lemma CanResumeAcceptsMore(seed: Bytes)
    requires |seed| == SEED_BYTES
    ensures CanResume(CheckpointOf(Source(seed, 2, 1, 2)))
    ensures forall lengths :: Run(Fresh(seed), lengths) != Source(seed, 2, 1, 2)
  {
    AttainableExactly(seed, 2, 1, 2);
  }

  /* ---------- The class ---------- */

  class SecureRandomSource {
    const prf: Prf
    const seed: Bytes
    var counter: nat
    var draws: nat
    var bytesConsumed: nat

    constructor (prf: Prf, seed: Bytes, counter: nat, draws: nat, bytesConsumed: nat)
      ensures this.prf == prf && Model() == Source(seed, counter, draws, bytesConsumed)
    {
      this.prf, this.seed, this.counter, this.draws, this.bytesConsumed := prf, seed, counter, draws, bytesConsumed;
    }

    ghost function Model(): Source
      reads this
    {
      Source(seed, counter, draws, bytesConsumed)
    }

    /** `new SecureRandomSource(seed, counter)`, which throws on a bad seed or counter. */
    static method Make(prf: Prf, seed: Bytes, counter: int) returns (r: Result<SecureRandomSource, string>)
      ensures r.Ok? <==> |seed| == SEED_BYTES && 0 <= counter <= MAX_SAFE_INTEGER
      ensures r.Ok? ==> fresh(r.value) && r.value.prf == prf && r.value.Model() == Source(seed, counter, 0, 0)
    {
      if |seed| != SEED_BYTES || !SafeInteger(counter) || counter < 0 {
        return Err("Secure random checkpoint is invalid");
      }
      var source := new SecureRandomSource(prf, seed, counter, 0, 0);
      return Ok(source);
    }

    method NextBytes(length: int) returns (r: Result<Bytes, string>)
      modifies this
      ensures r.Ok? <==> 1 <= length <= 4096
      ensures r.Ok? ==> |r.value| == length
      ensures r.Ok? ==> forall k :: 0 <= k < length ==> r.value[k] == prf(seed, BigEndian(old(counter) + k / 32, 8))[k % 32]
      ensures r.Ok? ==> counter == old(counter) + (length + 31) / 32 && draws == old(draws) + 1 && bytesConsumed == old(bytesConsumed) + length
      ensures r.Err? ==> counter == old(counter) && draws == old(draws) && bytesConsumed == old(bytesConsumed)
      ensures r == Draw(prf, old(Model()), length)
      ensures Model() == Advance(old(Model()), length)
    {
      if length < 1 || length > MAX_DRAW_BYTES {
        return Err("Random byte request is invalid");
      }
      var output := new Byte[length];
      var offset := 0;
      ghost var start := counter;
      ghost var expected := Keystream(prf, seed, start, length);
      while offset < length
        invariant 0 <= offset <= length && counter >= start
        invariant offset < length ==> offset == BLOCK_BYTES * (counter - start)
        invariant offset == length ==> counter - start == Blocks(length)
        invariant draws == old(draws) && bytesConsumed == old(bytesConsumed)
        invariant forall k :: 0 <= k < offset ==> output[k] == expected[k]
      {
        var block := Counted(prf, seed, counter);
        var blockLength := if BLOCK_BYTES < length - offset then BLOCK_BYTES else length - offset;
        CopyBlock(output, offset, block, blockLength);
        forall k | offset <= k < offset + blockLength ensures output[k] == expected[k] {
          assert k / BLOCK_BYTES == counter - start && k % BLOCK_BYTES == k - offset;
        }
        offset := offset + blockLength;
        counter := counter + 1;
      }
      draws := draws + 1;
      bytesConsumed := bytesConsumed + length;
      assert output[..] == expected;
      return Ok(output[..]);
    }

    static method CopyBlock(output: array<Byte>, offset: nat, block: Block, count: nat)
      requires offset + count <= output.Length && count <= BLOCK_BYTES
      modifies output
      ensures forall k :: offset <= k < offset + count ==> output[k] == block[k - offset]
      ensures forall k :: 0 <= k < output.Length && !(offset <= k < offset + count) ==> output[k] == old(output[k])
    {
      for k := 0 to count
        invariant forall i :: offset <= i < offset + k ==> output[i] == block[i - offset]
        invariant forall i :: 0 <= i < output.Length && !(offset <= i < offset + k) ==> output[i] == old(output[i])
      {
        output[offset + k] := block[k];
      }
    }

    method TakeCheckpoint() returns (c: Checkpoint)
      ensures c == CheckpointOf(Model())
    {
      c := Checkpoint(ALGORITHM, Encoded(seed, counter), draws, bytesConsumed);
    }

    /** A new source that resumes from the checkpoint; `this` lends its hash and is left alone. */
    method ForkFrom(c: Checkpoint) returns (r: Option<SecureRandomSource>)
      ensures r.Some? <==> Fork(c).Some?
      ensures r.Some? ==> fresh(r.value) && r.value.prf == prf && r.value.Model() == Fork(c).value
    {
      if !CanResume(c) {
        return None;
      }
      var made := Make(prf, c.state.seed, c.state.counter);
      var fork := made.value;
      fork.draws := c.draws;
      fork.bytesConsumed := c.bytes;
      return Some(fork);
    }
  }
}
