/** Demo batches: demo/world-simulator/internal/server/scenarios.go and seed.go, and why two runs from
    one seed agree. */
module Seeding {
  import opened Prelude
  import opened Decimal
  import opened Domain
  import opened MemberCodec
  import opened SyntheticRecords
  import opened WorldSimulator

  const MAX_SEED_BATCH_COUNT := 1000

  datatype Preset = Preset(
    name: string, forceBucket: Bucket, forceType: RecordType, codes: seq<string>, concentration: real)

  /** An empty name means "normal". */
  function ScenarioByName(name: string): Option<Preset> {
    if name == "" || name == "normal" then Some(Preset("normal", BucketUnspecified, TypeUnspecified, [], 0.0))
    else if name == "bank-outage" then
      Some(Preset("bank-outage", TransientBank, Payment, ["BANK_NOT_AVAILABLE"], 0.85))
    else if name == "salary-day" then
      Some(Preset("salary-day", InsufficientFunds, Payment, ["INSUFFICIENT_FUNDS"], 0.85))
    else if name == "dead-cards" then
      Some(Preset("dead-cards", HardDecline, Payment, ["CARD_EXPIRED", "DEBIT_INSTRUMENT_BLOCKED"], 0.85))
    else None
  }

  function ForceRecord<R>(src: Source<R>, r: R, rec: GeneratedRecord, preset: Preset): (GeneratedRecord, R) {
    var p := ProfileFor(preset.forceBucket);
    var (i, r1) := src.intn(r, |preset.codes|);
    var (delay, r2) := PickInRange(src, r1, p.delayFrom, p.delayTo);
    (rec.(kind := preset.forceType,
          failureCode := if i < |preset.codes| then preset.codes[i] else "",
          profile := Profile(preset.forceBucket, p.recovery, p.wrongAction, delay)), r2)
  }

  function GenerateScenarioRecord<R>(src: Source<R>, amountOf: real -> int, r: R, preset: Preset)
    : (GeneratedRecord, R)
  {
    var (rec, r1) := GenerateRecord(src, amountOf, r);
    if preset.forceBucket.BucketUnspecified? then (rec, r1)
    else
      var (x, r2) := src.float(r1);
      if x >= preset.concentration then (rec, r2) else ForceRecord(src, r2, rec, preset)
  }

  /** Below the preset's concentration a record is forced to its type, bucket and codes, with the
      bucket's own odds and delays; every other record is the plain draw. */
  lemma ForcedExactly<R(!new)>(src: Source<R>, amountOf: real -> int, r: R, preset: Preset)
    requires Fair(src) && preset.codes != []
    ensures var g, (plain, r1) := GenerateScenarioRecord(src, amountOf, r, preset).0, GenerateRecord(src, amountOf, r);
            var p := ProfileFor(preset.forceBucket);
            if preset.forceBucket.BucketUnspecified? || src.float(r1).0 >= preset.concentration then g == plain
            else
              && g.kind == preset.forceType && g.profile.trueBucket == preset.forceBucket
              && g.failureCode in preset.codes && g.amountPaise == plain.amountPaise
              && g.profile.recoveryProbability == p.recovery && g.profile.wrongActionProbability == p.wrongAction
              && (p.delayFrom <= g.profile.responseDelaySeconds < p.delayTo
                  || g.profile.responseDelaySeconds == p.delayFrom >= p.delayTo)
  {
    var r1 := GenerateRecord(src, amountOf, r).1;
    var (i, r3) := src.intn(src.float(r1).1, |preset.codes|);
    assert preset.codes[i] in preset.codes;
  }

  /** PickInstrumentRef, as a position in the pool. */
  function PickInstrument<R>(src: Source<R>, r: R, kind: RecordType, poolSize: nat): (Option<nat>, R) {
    if !kind.Payment? && !kind.Mandate? then (None, r)
    else
      var (x, r1) := src.float(r);
      if x >= INSTRUMENT_SHARE_CHANCE then (None, r1)
      else
        var (i, r2) := src.intn(r1, poolSize);
        (Some(i), r2)
  }

  /** Only payments and mandates share an instrument, three in ten of them, and then one of the pool. */
  lemma SharesInstrument<R(!new)>(src: Source<R>, r: R, kind: RecordType, poolSize: nat)
    requires Fair(src) && poolSize > 0
    ensures var k := PickInstrument(src, r, kind, poolSize).0;
            && (k.Some? <==> (kind.Payment? || kind.Mandate?) && src.float(r).0 < 0.30)
            && (k.Some? ==> k.value < poolSize)
  {}

  /** Everything the rng decides about one record. */
  datatype Generated = Generated(rec: GeneratedRecord, instrument: Option<nat>)

  /** Where the rng of a batch comes from and how a record uses it. */
  datatype Recipe<!R> = Recipe(src: Source<R>, newSource: int -> R, amountOf: real -> int)
  {
    function Next(r: R, preset: Preset, poolSize: nat): (Generated, R) {
      var (rec, r1) := GenerateScenarioRecord(src, amountOf, r, preset);
      var (instrument, r2) := PickInstrument(src, r1, rec.kind, poolSize);
      (Generated(rec, instrument), r2)
    }

    /** What ordinal `i` of a batch is: a function of seed, preset, pool size and ordinal alone. */
    function Ordinal(seed: int, preset: Preset, poolSize: nat, i: nat): Generated {
      Drawn(Generator(preset, poolSize), newSource(seed), i)
    }

    function Generator(preset: Preset, poolSize: nat): R -> (Generated, R) {
      r => Next(r, preset, poolSize)
    }
  }

  /** The rng after `i` records, each drawn by `next`. */
  function RngAfter<R>(next: R -> (Generated, R), r: R, i: nat): R {
    if i == 0 then r else next(RngAfter(next, r, i - 1)).1
  }

  function Drawn<R>(next: R -> (Generated, R), r: R, i: nat): Generated {
    next(RngAfter(next, r, i)).0
  }

  /** One stored record. */
  datatype Row = Row(recordId: string, createdAt: int, rec: GeneratedRecord, instrumentRef: string, rollKey: string)

  /** What differs between two runs of one seed: fresh ids, fresh instrument strings, the clock, whether
      there is a broker at all, and whether it and the database hold up. */
  datatype Surroundings = Surroundings(
    recordId: nat -> string, instrument: nat -> string, clock: nat -> int,
    hasProducer: bool, storesBatch: bool, stores: nat -> bool, publishes: nat -> bool)

  datatype Answer = Seeded(seed: int) | UnknownScenario | BadCount | NotConfigured | SeedFailed

  function PoolSize(count: nat): (size: nat)
    ensures if count < 10 then size == 1 else 10 * size <= count < 10 * size + 10
  {
    if count / 10 < 1 then 1 else count / 10
  }

  function RowFor(g: Generated, world: Surroundings, i: nat): Row {
    Row(world.recordId(i), world.clock(i), g.rec,
        if g.instrument.Some? then world.instrument(g.instrument.value) else "", Print(i))
  }

  /** How many rows a batch stores, from ordinal `i` on: a failing insert ends it before that row, a
      failing publish after it. */
  function RowsStored(world: Surroundings, count: nat, i: nat): (n: nat)
    requires i <= count
    ensures i <= n <= count
    decreases count - i
  {
    if i == count then count
    else if !world.stores(i) then i
    else if !world.publishes(i) then i + 1
    else RowsStored(world, count, i + 1)
  }

  /** Every row up to the end was stored, all but perhaps the last published too; and a batch that ends
      early ends at a failure. */
  lemma {:induction false} RowsStoredExactly(world: Surroundings, count: nat, i: nat)
    requires i <= count
    ensures var n := RowsStored(world, count, i);
            && (forall k: nat :: i <= k < n ==> world.stores(k) && (k + 1 < n ==> world.publishes(k)))
            && (n < count ==> (n > i && !world.publishes(n - 1)) || !world.stores(n))
    decreases count - i
  {
    if i < count && world.stores(i) && world.publishes(i) { RowsStoredExactly(world, count, i + 1); }
  }

  /** The rows of the first `n` ordinals. */
  function RowsOf<R>(next: R -> (Generated, R), start: R, world: Surroundings, n: nat): (rows: seq<Row>)
    ensures |rows| == n
    ensures forall i: nat :: i < n ==> rows[i] == RowFor(Drawn(next, start, i), world, i)
  {
    if n == 0 then [] else RowsOf(next, start, world, n - 1) + [RowFor(Drawn(next, start, n - 1), world, n - 1)]
  }

  /** SeedBatch's loop. A failing insert or publish ends the batch where it stands, so what is published
      is always stored. */
  method GenerateRows<R>(next: R -> (Generated, R), start: R, count: nat, world: Surroundings)
    returns (rows: seq<Row>, published: nat, ok: bool)
    ensures rows == RowsOf(next, start, world, RowsStored(world, count, 0))
    ensures published <= |rows| <= published + 1
    ensures ok <==> forall i: nat :: i < count ==> world.stores(i) && world.publishes(i)
    ensures ok ==> |rows| == published == count
  {
    rows, published := [], 0;
    var rng := start;
    for i := 0 to count
      invariant |rows| == published == i
      invariant rng == RngAfter(next, start, i)
      invariant rows == RowsOf(next, start, world, i)
      invariant forall k: nat :: k < i ==> world.stores(k) && world.publishes(k)
      invariant RowsStored(world, count, 0) == RowsStored(world, count, i)
    {
      var (g, rng') := next(rng);
      rng := rng';
      if !world.stores(i) {
        return rows, published, false;
      }
      rows := rows + [RowFor(g, world, i)];
      if !world.publishes(i) {
        return rows, published, false;
      }
      published := published + 1;
    }
    ok := true;
  }

  /** A request for a batch, with what surrounds it. */
  datatype Batch = Batch(scenario: string, count: int, requestedSeed: int, clockSeed: int, world: Surroundings)
  {
    /** Refused requests leave no trace; any other stores its seed, even if the batch then fails. */
    predicate Accepted() {
      ScenarioByName(scenario).Some? && 0 < count <= MAX_SEED_BATCH_COUNT && world.hasProducer
    }

    function Seed(): int {
      if requestedSeed != 0 then requestedSeed else clockSeed
    }

    /** The rows the batch leaves in the store. */
    function Rows<R>(recipe: Recipe<R>): seq<Row> {
      if !Accepted() || !world.storesBatch then []
      else
        var preset := ScenarioByName(scenario).value;
        RowsOf(recipe.Generator(preset, PoolSize(count)), recipe.newSource(Seed()), world, RowsStored(world, count, 0))
    }
  }

  method SeedBatch<R>(server: Server, recipe: Recipe<R>, b: Batch) returns (answer: Answer, rows: seq<Row>)
    modifies server
    ensures answer.UnknownScenario? <==> ScenarioByName(b.scenario).None?
    ensures answer.BadCount? <==>
              ScenarioByName(b.scenario).Some? && (b.count <= 0 || b.count > MAX_SEED_BATCH_COUNT)
    ensures answer.NotConfigured? <==>
              ScenarioByName(b.scenario).Some? && 0 < b.count <= MAX_SEED_BATCH_COUNT && !b.world.hasProducer
    ensures answer.SeedFailed? <==>
              && b.Accepted()
              && (!b.world.storesBatch
                  || exists i: nat :: i < b.count && !(b.world.stores(i) && b.world.publishes(i)))
    ensures answer.Seeded? ==> answer.seed == server.seed && |rows| == b.count
    ensures server.seed == if b.Accepted() then b.Seed() else old(server.seed)
    ensures rows == b.Rows(recipe)
  {
    var preset := ScenarioByName(b.scenario);
    if preset.None? {
      return UnknownScenario, [];
    }
    if b.count <= 0 || b.count > MAX_SEED_BATCH_COUNT {
      return BadCount, [];
    }
    if !b.world.hasProducer {
      return NotConfigured, [];
    }
    var seed := b.requestedSeed;
    if seed == 0 {
      seed := b.clockSeed;
    }
    server.seed := seed;
    if !b.world.storesBatch {
      return SeedFailed, [];
    }
    var published, ok;
    var next := recipe.Generator(preset.value, PoolSize(b.count));
    rows, published, ok := GenerateRows(next, recipe.newSource(seed), b.count, b.world);
    answer := if ok then Seeded(seed) else SeedFailed;
  }

  /** What the store later answers about a seeded row. */
  function LookupOf(row: Row): Lookup {
    Sealed(RecordProfile(row.rec.failureCode, row.rec.profile, row.rollKey))
  }

  /** What the store answers for a record id, over the rows of one batch. */
  function Stored(rows: seq<Row>, id: string): Lookup {
    if rows == [] then Missing
    else if rows[|rows| - 1].recordId == id then LookupOf(rows[|rows| - 1])
    else Stored(rows[..|rows| - 1], id)
  }

  ghost predicate FreshIds(rows: seq<Row>) {
    forall i, j :: 0 <= i < j < |rows| ==> rows[i].recordId != rows[j].recordId
  }

  lemma {:induction false} StoredAt(rows: seq<Row>, i: nat)
    requires FreshIds(rows) && i < |rows|
    ensures Stored(rows, rows[i].recordId) == LookupOf(rows[i])
  {
    if i < |rows| - 1 { StoredAt(rows[..|rows| - 1], i); }
  }

  /** Two SeedBatch calls with one nonzero seed, scenario and count agree ordinal by ordinal, as far as
      both got, on everything but ids, instrument strings and clock; and they share instruments alike. */
  lemma SameSeedSameRecords<R>(recipe: Recipe<R>, b: Batch, b': Batch, i: nat)
    requires b.requestedSeed == b'.requestedSeed != 0 && b.scenario == b'.scenario && b.count == b'.count
    requires i < |b.Rows(recipe)| && i < |b'.Rows(recipe)|
    ensures var x, y := b.Rows(recipe)[i], b'.Rows(recipe)[i];
            && x.rec == y.rec && x.rollKey == y.rollKey == Print(i)
            && x.recordId == b.world.recordId(i) && y.recordId == b'.world.recordId(i)
            && ((x.instrumentRef == y.instrumentRef == "")
                || exists k: nat ::
                     x.instrumentRef == b.world.instrument(k) && y.instrumentRef == b'.world.instrument(k))
  {
    var g := recipe.Ordinal(b.Seed(), ScenarioByName(b.scenario).value, PoolSize(b.count), i);
    assert b.Rows(recipe)[i] == RowFor(g, b.world, i) && b'.Rows(recipe)[i] == RowFor(g, b'.world, i);
    if g.instrument.Some? {
      var k := g.instrument.value;
      assert b.Rows(recipe)[i].instrumentRef == b.world.instrument(k);
    }
  }

  /** Within a batch no two rolls share a hash input: ordinals have distinct roll keys. */
  lemma OrdinalsRollApart(seed: int, i: nat, j: nat, attempt: int32, attempt': int32)
    requires RollInput(seed, Print(i), attempt) == RollInput(seed, Print(j), attempt')
    ensures i == j && attempt == attempt'
  {
    RollInputInjective(seed, Print(i), attempt, seed, Print(j), attempt');
    PrintInjective(i, j);
  }
}
