/** The response-time tables: C integer arithmetic, and what it computes. */
module Latency {
  import opened Block

  // The source calls these request_size_kb, but compares them with byte counts.
  const REQUEST_SIZE: seq<int> := [512, 1024, 2048, 4096, 8192, 16384, 32768, 65536]
  const RANDOM_RATE: seq<seq<int>> := [
    [194672, 189513, 186798, 176876, 159182, 141700, 104546, 66149],
    [898, 899, 898, 862, 778, 795, 450, 370]]
  const SEQUENTIAL_RATE: seq<seq<int>> := [
    [522101, 488278, 429834, 371532, 298845, 281019, 146861, 71935],
    [108649, 104858, 101045, 87071, 73645, 289488, 143416, 72945]]

  const INT_MAX: int := 0x7FFF_FFFF
  /** The largest speed factor for which no table entry leaves the range of a C int. */
  const MAX_SPEED: int := 7945

  /** The value a 32-bit int holds after being assigned `x`. */
  function Int32(x: int): (r: int)
    ensures -0x8000_0000 <= r <= INT_MAX
    ensures r == x <==> -0x8000_0000 <= x <= INT_MAX
  {
    (x + 0x8000_0000) % 0x1_0000_0000 - 0x8000_0000
  }

  /** Division of C: the quotient is truncated toward zero. */
  function TruncDiv(x: int, y: int): int
    requires y > 0
  {
    if x >= 0 then x / y else -(-x / y)
  }

  /** One table entry, from a rate in 1/100 operations per second. */
  function Entry(rate: int, speed: int): int
    requires rate > 0
  {
    Int32(Unscaled(rate) * speed)
  }

  /** The part of an entry that does not depend on the speed factor. */
  function Unscaled(rate: int): int
    requires rate > 0
  {
    TruncDiv(Int32(1_000_000_000 / rate * 100), 1000)
  }

  lemma LessByProduct(a: int, b: int, d: int)
    requires d > 0 && a * d < b * d
    ensures a < b
  {
  }

  lemma DivBounds(x: int, d: int)
    requires d > 0
    ensures x / d * d <= x < (x / d + 1) * d
  {
  }

  lemma DivUnique(x: int, d: int, q: int)
    requires d > 0 && q * d <= x < (q + 1) * d
    ensures x / d == q
  {
    DivBounds(x, d);
    LessByProduct(q, x / d + 1, d);
    LessByProduct(x / d, q + 1, d);
  }

  /** The inner product of an entry stays inside a C int for rates from 47 on, and for no smaller one. */
  lemma InnerProductFits(rate: int)
    requires rate > 0
    ensures Int32(1_000_000_000 / rate * 100) == 1_000_000_000 / rate * 100 <==> rate >= 47
  {
    var q := 1_000_000_000 / rate;
    assert 0 <= q;
    InnerQuotient(rate, q);
    assert Int32(q * 100) == q * 100 <==> q * 100 <= INT_MAX;
  }

  lemma InnerQuotient(rate: int, q: int)
    requires rate > 0 && q == 1_000_000_000 / rate
    ensures q * 100 <= INT_MAX <==> rate >= 47
  {
    DivBounds(1_000_000_000, rate);
    LessByProduct(0, q + 1, rate);
    if rate >= 47 {
      ProductGrows(q, 47, rate);
    } else {
      ProductGrows(q + 1, rate, 46);
    }
  }

  lemma ProductGrows(q: int, a: int, b: int)
    requires a <= b && 0 <= q
    ensures q * a <= q * b
  {
  }

  /** Dropping the factor 100 and then 1000 is one division by 10: 100 * floor(10^9/rate) / 1000 = floor(10^8/rate). */
  lemma QuotientsCollapse(rate: int)
    requires rate > 0
    ensures 1_000_000_000 / rate * 100 / 1000 == 100_000_000 / rate
  {
    var q, p := 1_000_000_000 / rate, 100_000_000 / rate;
    DivBounds(1_000_000_000, rate);
    DivBounds(100_000_000, rate);
    assert p * 10 * rate == 10 * (p * rate);
    LessByProduct(p * 10, q + 1, rate);
    assert (p * 10 + 10) * rate == 10 * ((p + 1) * rate);
    LessByProduct(q, p * 10 + 10, rate);
    DivUnique(q * 100, 1000, p);
  }

  lemma UnscaledBy(rate: int, q: int, p: int)
    requires rate > 0 && q == 1_000_000_000 / rate && 0 <= q && q * 100 <= INT_MAX && q * 100 / 1000 == p
    ensures Unscaled(rate) == p >= 0
  {
  }

  lemma UnscaledQuotient(rate: int)
    requires rate >= 47
    ensures Unscaled(rate) == 100_000_000 / rate >= 0
  {
    hide *;
    var q, p := 1_000_000_000 / rate, 100_000_000 / rate;
    DivBounds(1_000_000_000, rate);
    InnerQuotient(rate, q);
    QuotientsCollapse(rate);
    LessByProduct(0, q + 1, rate);
    UnscaledBy(rate, q, p);
  }

  /** That is the exact product precisely when the product is inside a C int. */
  lemma EntryExact(rate: int, speed: int)
    requires rate >= 47 && speed > 0
    ensures Entry(rate, speed) == 100_000_000 / rate * speed <==> 100_000_000 / rate * speed <= INT_MAX
  {
    UnscaledQuotient(rate);
    var p := Unscaled(rate);
    assert p * speed >= 0;
  }

  /** The entry is below the exact response time 10^8 * speed / rate by less than `speed`, and positive up to a rate
      of 10^8. */
  lemma EntryUnderApproximates(rate: int, speed: int)
    requires rate >= 47 && speed > 0 && 100_000_000 / rate * speed <= INT_MAX
    ensures 0 <= 100_000_000 * speed - Entry(rate, speed) * rate < speed * rate
    ensures Entry(rate, speed) > 0 <==> rate <= 100_000_000
  {
    EntryExact(rate, speed);
    DivBounds(100_000_000, rate);
    Slack(rate, speed, 100_000_000 / rate);
  }

  lemma Slack(rate: int, speed: int, p: int)
    requires rate > 0 && speed > 0 && p * rate <= 100_000_000 < (p + 1) * rate
    ensures 0 <= 100_000_000 * speed - p * speed * rate < speed * rate
    ensures p * speed > 0 <==> rate <= 100_000_000
  {
    var slack := 100_000_000 - p * rate;
    assert 100_000_000 * speed - p * speed * rate == slack * speed;
    assert slack < rate;
    assert 0 <= slack * speed < rate * speed;
    assert p > 0 <==> rate <= 100_000_000;
  }

  /** Response times by kind of access, direction (0 read, 1 write) and size class. */
  datatype Config = Config(random: seq<seq<int>>, sequential: seq<seq<int>>) {

    predicate Shaped() {
      && |random| == |sequential| == 2
      && (forall j | 0 <= j < 2 :: |random[j]| == |sequential[j]| == 8)
    }

    predicate Ok() {
      && Shaped()
      && (forall j, i | 0 <= j < 2 && 0 <= i < 8 :: random[j][i] >= 0 && sequential[j][i] >= 0)
    }

    function Of(isSequential: bool, dir: Dir, size: nat): (latency: int)
      requires Shaped() && size < 8
      ensures Ok() ==> latency >= 0
    {
      var j := if dir == Write then 1 else 0;
      if isSequential then sequential[j][size] else random[j][size]
    }
  }

  /** Tables of the right shape: two directions, eight size classes. */
  type Tables = c: Config | c.Shaped() witness
    Config([[0, 0, 0, 0, 0, 0, 0, 0], [0, 0, 0, 0, 0, 0, 0, 0]], [[0, 0, 0, 0, 0, 0, 0, 0], [0, 0, 0, 0, 0, 0, 0, 0]])

  function Row(rates: seq<int>, speed: int): (r: seq<int>)
    requires forall i | 0 <= i < |rates| :: rates[i] > 0
    ensures |r| == |rates| && forall i | 0 <= i < |r| :: r[i] == Entry(rates[i], speed)
  {
    seq(|rates|, i requires 0 <= i < |rates| => Entry(rates[i], speed))
  }

  function TablesFor(speed: int): (cfg: Tables)
  {
    Config([Row(RANDOM_RATE[0], speed), Row(RANDOM_RATE[1], speed)],
           [Row(SEQUENTIAL_RATE[0], speed), Row(SEQUENTIAL_RATE[1], speed)])
  }

  /** Every entry of both tables is the exact product. */
  predicate AllExact(cfg: Tables, speed: int)
  {
    forall j, i | 0 <= j < 2 && 0 <= i < 8 ::
      && cfg.random[j][i] == 100_000_000 / RANDOM_RATE[j][i] * speed
      && cfg.sequential[j][i] == 100_000_000 / SEQUENTIAL_RATE[j][i] * speed
  }

  lemma ExactUpToMaxSpeed(rate: int, speed: int)
    requires rate >= 370 && 0 < speed <= MAX_SPEED
    ensures Entry(rate, speed) == 100_000_000 / rate * speed >= 0
  {
    UnscaledQuotient(rate);
    EntryExact(rate, speed);
    DivBounds(100_000_000, rate);
    SlowestBound(rate, speed, 100_000_000 / rate);
  }

  lemma SlowestBound(rate: int, speed: int, p: int)
    requires rate >= 370 && 0 < speed <= MAX_SPEED && 0 <= p && p * rate <= 100_000_000
    ensures 0 <= p * speed <= INT_MAX
  {
    assert p * 370 <= p * rate;
    assert p <= 270_270;
    assert p * speed <= 270_270 * speed;
  }

  /** No entry of the shipped tables overflows exactly when the speed factor is at most 7945. */
  lemma TablesExact(speed: int)
    requires speed > 0
    ensures AllExact(TablesFor(speed), speed) <==> speed <= MAX_SPEED
    ensures speed <= MAX_SPEED ==> TablesFor(speed).Ok()
  {
    hide Int32, Unscaled, Entry;
    var cfg := TablesFor(speed);
    if speed <= MAX_SPEED {
      forall j, i | 0 <= j < 2 && 0 <= i < 8
        ensures cfg.random[j][i] == 100_000_000 / RANDOM_RATE[j][i] * speed >= 0
        ensures cfg.sequential[j][i] == 100_000_000 / SEQUENTIAL_RATE[j][i] * speed >= 0
      {
        ExactUpToMaxSpeed(RANDOM_RATE[j][i], speed);
        ExactUpToMaxSpeed(SEQUENTIAL_RATE[j][i], speed);
      }
    } else {
      EntryExact(370, speed);
      assert cfg.random[1][7] == Entry(370, speed);
    }
  }

  /** The exact response time, in nanoseconds, of a request of a size class at a speed factor: the time one of the
      operations takes whose rate, in 1/100 operations per second, the shipped table of its kind holds. */
  function Nanoseconds(isSequential: bool, dir: Dir, size: nat, speed: int): int
    requires size < 8
  {
    var rates := if isSequential then SEQUENTIAL_RATE else RANDOM_RATE;
    100_000_000 / rates[if dir == Write then 1 else 0][size] * speed
  }

  /** Whatever tables are exact give every request that response time: sequential ones by the sequential rates, random
      ones by the random rates, and never a sequential one a longer time than a random one. */
  lemma ExactTimes(cfg: Tables, speed: int, dir: Dir, size: nat)
    requires AllExact(cfg, speed) && speed > 0 && size < 8
    ensures cfg.Of(true, dir, size) == 100_000_000 / SEQUENTIAL_RATE[if dir == Write then 1 else 0][size] * speed
    ensures cfg.Of(false, dir, size) == 100_000_000 / RANDOM_RATE[if dir == Write then 1 else 0][size] * speed
    ensures forall isSequential ::
              cfg.Of(isSequential, dir, size) == Nanoseconds(isSequential, dir, size, speed)
    ensures cfg.Of(true, dir, size) <= cfg.Of(false, dir, size)
  {
    var j := if dir == Write then 1 else 0;
    assert 0 <= j < 2 && 0 <= size < 8;
    FasterRate(RANDOM_RATE[j][size], SEQUENTIAL_RATE[j][size], speed);
  }

  lemma FasterRate(slow: int, fast: int, speed: int)
    requires 0 < slow <= fast && speed > 0
    ensures 100_000_000 / fast * speed <= 100_000_000 / slow * speed
  {
    var p, q := 100_000_000 / fast, 100_000_000 / slow;
    DivBounds(100_000_000, fast);
    DivBounds(100_000_000, slow);
    QuotientShrinks(p, q, slow, fast);
    ScalesUp(p, q, speed);
  }

  lemma QuotientShrinks(p: int, q: int, slow: int, fast: int)
    requires 0 < slow <= fast && p * fast <= 100_000_000 < (q + 1) * slow && 0 <= p
    ensures p <= q
  {
    ProductGrows(p, slow, fast);
    LessByProduct(p, q + 1, slow);
  }

  lemma ScalesUp(p: int, q: int, speed: int)
    requires p <= q && speed > 0
    ensures p * speed <= q * speed
  {
  }

  /** One step past the largest good speed factor a response time is negative: a request would complete before it is
      submitted. */
  lemma FirstOverflow()
    ensures TablesFor(MAX_SPEED + 1).random[1][7] < 0
  {
    assert TablesFor(MAX_SPEED + 1).random[1][7] == Entry(370, MAX_SPEED + 1);
  }

  predicate Rates(rates: seq<seq<int>>) {
    && |rates| == 2
    && (forall j | 0 <= j < 2 :: |rates[j]| == 8)
    && (forall j, i | 0 <= j < 2 && 0 <= i < 8 :: rates[j][i] > 0)
  }

  method FillTable(rates: seq<seq<int>>, speed: int, table: array2<int>)
    requires Rates(rates) && table.Length0 == 2 && table.Length1 == 8
    modifies table
    ensures forall j, i | 0 <= j < 2 && 0 <= i < 8 :: table[j, i] == Entry(rates[j][i], speed)
  {
    for j := 0 to 2
      invariant forall j', i | 0 <= j' < j && 0 <= i < 8 :: table[j', i] == Entry(rates[j'][i], speed)
    {
      for i := 0 to 8
        invariant forall j', i' | 0 <= j' < j && 0 <= i' < 8 :: table[j', i'] == Entry(rates[j'][i'], speed)
        invariant forall i' | 0 <= i' < i :: table[j, i'] == Entry(rates[j][i'], speed)
      {
        table[j, i] := Entry(rates[j][i], speed);
      }
    }
  }

  /** The table setup of the module initialisation. */
  method SetupTables(speed: int, random: array2<int>, sequential: array2<int>)
    requires random != sequential
    requires random.Length0 == sequential.Length0 == 2 && random.Length1 == sequential.Length1 == 8
    modifies random, sequential
    ensures Holds(TablesFor(speed), random, sequential)
  {
    FillTable(RANDOM_RATE, speed, random);
    FillTable(SEQUENTIAL_RATE, speed, sequential);
  }

  /** The two arrays hold the tables of `cfg`. */
  predicate Holds(cfg: Tables, random: array2<int>, sequential: array2<int>)
    reads random, sequential
  {
    && random.Length0 == sequential.Length0 == 2 && random.Length1 == sequential.Length1 == 8
    && (forall j, i | 0 <= j < 2 && 0 <= i < 8 :: random[j, i] == cfg.random[j][i])
    && (forall j, i | 0 <= j < 2 && 0 <= i < 8 :: sequential[j, i] == cfg.sequential[j][i])
  }

  /** The size class of a request, or none when it is larger than 64 KB. */
  predicate IsSizeClass(bytes: nat, size: Option<nat>) {
    match size
    case None => bytes > REQUEST_SIZE[7]
    case Some(i) => i < 8 && bytes <= REQUEST_SIZE[i] && forall k | 0 <= k < i :: bytes > REQUEST_SIZE[k]
  }

  function SizeClass(bytes: nat): (size: Option<nat>)
    ensures IsSizeClass(bytes, size)
  {
    if bytes <= 512 then Some(0) else if bytes <= 1024 then Some(1) else if bytes <= 2048 then Some(2)
    else if bytes <= 4096 then Some(3) else if bytes <= 8192 then Some(4) else if bytes <= 16384 then Some(5)
    else if bytes <= 32768 then Some(6) else if bytes <= 65536 then Some(7) else None
  }

  lemma SizeClassUnique(bytes: nat, size: Option<nat>)
    requires IsSizeClass(bytes, size)
    ensures size == SizeClass(bytes)
  {
    if bytes <= REQUEST_SIZE[7] {
      var i, k := size.value, SizeClass(bytes).value;
      assert !(i < k) && !(k < i);
    }
  }

  /** The scan over the size classes. */
  method FindSizeClass(bytes: nat) returns (size: Option<nat>)
    ensures size == SizeClass(bytes)
  {
    size := None;
    var i := 0;
    while i < 8
      invariant 0 <= i <= 8
      invariant forall k | 0 <= k < i :: bytes > REQUEST_SIZE[k]
    {
      if bytes <= REQUEST_SIZE[i] {
        size := Some(i);
        SizeClassUnique(bytes, size);
        return;
      }
      i := i + 1;
    }
  }
}
