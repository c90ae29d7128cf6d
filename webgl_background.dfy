/**
 * The particle background: its size tiers, the particle buffers filled from a
 * stream of random numbers, the capped neighbour-connection builder, and the
 * per-frame vertical wobble.
 *
 * Buffers hold reals. `Math.random()` becomes an input sequence, `Math.sin`
 * of the clock becomes one input value per particle, and the floating-point
 * distance `Math.sqrt(dx * dx + dy * dy + dz * dz)` becomes a function
 * parameter `length` of the three differences: the builder tests the value it
 * returns literally, and the lemmas say what follows when it is the true
 * Euclidean length.
 */
module WebGLBackground {
  /** A particle links to at most this many later particles. */
  const MaxConnections: nat := 3
  /** Particles closer than this are linked. */
  const LinkDistance: real := 2.0
  const WobbleScale: real := 0.001

  // ---------------------------------------------------------------------------
  // Tiers
  // ---------------------------------------------------------------------------

  predicate IsMobile(width: int) { width < 768 }
  predicate IsTablet(width: int) { 768 <= width < 1024 }

  /** 800 particles on phones, 1200 on tablets, 2000 on wider screens. */
  function ParticleCount(width: int): (count: nat)
    ensures count in {800, 1200, 2000}
    ensures count == 800 <==> IsMobile(width)
    ensures count == 1200 <==> IsTablet(width)
    ensures count == 2000 <==> width >= 1024
  {
    if IsMobile(width) then 800 else if IsTablet(width) then 1200 else 2000
  }

  /** A wider screen never gets fewer particles. */
  lemma {:induction false} ParticleCountMonotone(a: int, b: int)
    requires a <= b
    ensures ParticleCount(a) <= ParticleCount(b)
  {
  }

  /**
   * The renderer's pixel ratio, on mount and on every resize: 1 on phones,
   * otherwise the device's ratio capped at 2.
   */
  function PixelRatio(width: int, devicePixelRatio: real): (ratio: real)
    ensures IsMobile(width) ==> ratio == 1.0
    ensures !IsMobile(width) ==> ratio <= 2.0 && ratio <= devicePixelRatio
    ensures !IsMobile(width) ==> ratio == 2.0 || ratio == devicePixelRatio
  {
    if IsMobile(width) then 1.0
    else if devicePixelRatio < 2.0 then devicePixelRatio else 2.0
  }

  /** Antialiasing is switched off exactly on phones. */
  function Antialias(width: int): (on: bool)
    ensures on <==> width >= 768
  {
    !IsMobile(width)
  }

  // ---------------------------------------------------------------------------
  // Initial buffers
  // ---------------------------------------------------------------------------

  /** One coordinate from one random number: the unit interval stretched over [-10, 10). */
  function Spread(r: real): (coordinate: real)
    ensures 0.0 <= r < 1.0 ==> -10.0 <= coordinate < 10.0
    ensures r == 0.5 ==> coordinate == 0.0
  {
    (r - 0.5) * 20.0
  }

  /** The two colour endpoints, `0x00ff88` and `0x4a90e2`, as red, green and blue fractions. */
  function StartColour(channel: nat): (value: real)
    requires channel < 3
  {
    [0.0, 1.0, 136.0 / 255.0][channel]
  }

  function EndColour(channel: nat): (value: real)
    requires channel < 3
  {
    [74.0 / 255.0, 144.0 / 255.0, 226.0 / 255.0][channel]
  }

  /** A colour channel mixed between the two endpoints (`Color.lerp`). */
  function Channel(channel: nat, mix: real): (value: real)
    requires channel < 3
    ensures mix == 0.0 ==> value == StartColour(channel)
    ensures mix == 1.0 ==> value == EndColour(channel)
  {
    StartColour(channel) + (EndColour(channel) - StartColour(channel)) * mix
  }

  /** A mix factor in the unit interval keeps every channel between its endpoints. */
  lemma {:induction false} ChannelBetweenEndpoints(channel: nat, mix: real)
    requires channel < 3 && 0.0 <= mix <= 1.0
    ensures StartColour(channel) <= EndColour(channel) ==>
              StartColour(channel) <= Channel(channel, mix) <= EndColour(channel)
    ensures EndColour(channel) <= StartColour(channel) ==>
              EndColour(channel) <= Channel(channel, mix) <= StartColour(channel)
  {
    var d := EndColour(channel) - StartColour(channel);
    if d >= 0.0 {
      assert 0.0 <= d * mix <= d * 1.0;
    } else {
      assert d * 1.0 <= d * mix <= 0.0;
    }
  }

  /**
   * Particle `p` draws four random numbers in turn: x, y, z, then its mix
   * factor. Its coordinate `c` is buffer entry `3p + c`, and so is its colour
   * channel `c`.
   */
  function InitialPosition(random: seq<real>, p: nat, c: nat): (coordinate: real)
    requires 4 * p + 3 < |random| && c < 3
  {
    Spread(random[4 * p + c])
  }

  function InitialColour(random: seq<real>, p: nat, c: nat): (value: real)
    requires 4 * p + 3 < |random| && c < 3
  {
    Channel(c, random[4 * p + 3])
  }

  /**
   * The init loop: two buffers of three numbers per particle, filled from the
   * random stream, whose next unread number is `next`.
   */
  method InitParticles(count: nat, random: seq<real>) returns (positions: array<real>, colours: array<real>)
    requires |random| == 4 * count
    ensures fresh(positions) && fresh(colours)
    ensures positions.Length == 3 * count && colours.Length == 3 * count
    ensures forall p, c :: 0 <= p < count && 0 <= c < 3 ==> positions[3 * p + c] == InitialPosition(random, p, c)
    ensures forall p, c :: 0 <= p < count && 0 <= c < 3 ==> colours[3 * p + c] == InitialColour(random, p, c)
  {
    positions := new real[3 * count];
    colours := new real[3 * count];
    var i := 0;
    var next := 0;
    ghost var done := 0;
    while i < count * 3
      invariant 0 <= done <= count && i == 3 * done && next == 4 * done
      invariant forall p, c :: 0 <= p < done && 0 <= c < 3 ==> positions[3 * p + c] == InitialPosition(random, p, c)
      invariant forall p, c :: 0 <= p < done && 0 <= c < 3 ==> colours[3 * p + c] == InitialColour(random, p, c)
    {
      positions[i] := Spread(random[next]);
      positions[i + 1] := Spread(random[next + 1]);
      positions[i + 2] := Spread(random[next + 2]);
      var mixFactor := random[next + 3];
      colours[i] := Channel(0, mixFactor);
      colours[i + 1] := Channel(1, mixFactor);
      colours[i + 2] := Channel(2, mixFactor);
      i, next, done := i + 3, next + 4, done + 1;
    }
  }

  /** Random numbers in the unit interval put every particle inside the cube [-10, 10)³. */
  lemma {:induction false} InitialPositionsInCube(random: seq<real>, p: nat, c: nat)
    requires 4 * p + 3 < |random| && c < 3
    requires forall m :: 0 <= m < |random| ==> 0.0 <= random[m] < 1.0
    ensures -10.0 <= InitialPosition(random, p, c) < 10.0
  {
    assert 0.0 <= random[4 * p + c] < 1.0;
  }

  // ---------------------------------------------------------------------------
  // Connections
  // ---------------------------------------------------------------------------

  /** A connection from particle `from` to a later particle `to`. */
  datatype Edge = Edge(from: nat, to: nat)

  /** The squared Euclidean distance between particles `i` and `j`. */
  function SqDist(pos: seq<real>, i: nat, j: nat): (sq: real)
    requires 3 * i + 2 < |pos| && 3 * j + 2 < |pos|
  {
    var dx := pos[3 * i] - pos[3 * j];
    var dy := pos[3 * i + 1] - pos[3 * j + 1];
    var dz := pos[3 * i + 2] - pos[3 * j + 2];
    dx * dx + dy * dy + dz * dz
  }

  /** The distance between particles `i` and `j`, as the builder computes it. */
  function Distance(pos: seq<real>, length: (real, real, real) -> real, i: nat, j: nat): (d: real)
    requires 3 * i + 2 < |pos| && 3 * j + 2 < |pos|
  {
    length(pos[3 * i] - pos[3 * j], pos[3 * i + 1] - pos[3 * j + 1], pos[3 * i + 2] - pos[3 * j + 2])
  }

  predicate Near(pos: seq<real>, length: (real, real, real) -> real, i: nat, j: nat)
    requires 3 * i + 2 < |pos| && 3 * j + 2 < |pos|
  {
    Distance(pos, length, i, j) < LinkDistance
  }

  /** `length` is the Euclidean length: non-negative, and its square is the sum of the squares. */
  ghost predicate IsEuclidean(length: (real, real, real) -> real)
  {
    forall dx, dy, dz :: 0.0 <= length(dx, dy, dz) && length(dx, dy, dz) * length(dx, dy, dz) == dx * dx + dy * dy + dz * dz
  }

  lemma {:induction false} SqDistNonNegative(pos: seq<real>, i: nat, j: nat)
    requires 3 * i + 2 < |pos| && 3 * j + 2 < |pos|
    ensures SqDist(pos, i, j) >= 0.0
  {
    var dx := pos[3 * i] - pos[3 * j];
    var dy := pos[3 * i + 1] - pos[3 * j + 1];
    var dz := pos[3 * i + 2] - pos[3 * j + 2];
    assert dx * dx >= 0.0 && dy * dy >= 0.0 && dz * dz >= 0.0;
  }

  /** With a true square root, "distance below 2" is "squared distance below 4". */
  lemma {:induction false} NearIffSquaredBelowFour(pos: seq<real>, length: (real, real, real) -> real, i: nat, j: nat)
    requires 3 * i + 2 < |pos| && 3 * j + 2 < |pos|
    requires IsEuclidean(length)
    ensures Near(pos, length, i, j) <==> SqDist(pos, i, j) < 4.0
  {
    var s := SqDist(pos, i, j);
    SqDistNonNegative(pos, i, j);
    var d := Distance(pos, length, i, j);
    assert 0.0 <= d && d * d == s;
    if d < 2.0 {
      assert d * d <= d * 2.0 < 2.0 * 2.0;
    } else {
      assert d * d >= 2.0 * d >= 2.0 * 2.0;
    }
  }

  /** The opacity of a line: 1 for coincident particles, fading to 0 at the link distance. */
  function Opacity(pos: seq<real>, length: (real, real, real) -> real, e: Edge): (opacity: real)
    requires 3 * e.from + 2 < |pos| && 3 * e.to + 2 < |pos|
  {
    1.0 - Distance(pos, length, e.from, e.to) / 2.0
  }

  /** Every line between near particles has an opacity in (0, 1]. */
  lemma {:induction false} OpacityInRange(pos: seq<real>, length: (real, real, real) -> real, e: Edge)
    requires 3 * e.from + 2 < |pos| && 3 * e.to + 2 < |pos|
    requires IsEuclidean(length) && Near(pos, length, e.from, e.to)
    ensures 0.0 < Opacity(pos, length, e) <= 1.0
  {
    assert 0.0 <= Distance(pos, length, e.from, e.to);
  }

  /**
   * The distances from particle `i` to every particle, in particle order. The
   * partner selection below reads a particle's row only.
   */
  function Row(pos: seq<real>, length: (real, real, real) -> real, count: nat, i: nat): (row: seq<real>)
    requires |pos| == 3 * count && i < count
    ensures |row| == count
  {
    RowPrefix(pos, length, count, i, count)
  }

  /** The distances from particle `i` to particles `0 .. k - 1`. */
  function RowPrefix(pos: seq<real>, length: (real, real, real) -> real, count: nat, i: nat, k: nat): (row: seq<real>)
    requires |pos| == 3 * count && i < count && k <= count
    ensures |row| == k
    decreases k
  {
    if k == 0 then [] else RowPrefix(pos, length, count, i, k - 1) + [Distance(pos, length, i, k - 1)]
  }

  /** Entry `j` of particle `i`'s row is the distance between the two. */
  lemma {:induction false} RowAt(pos: seq<real>, length: (real, real, real) -> real, count: nat, i: nat, j: nat)
    requires |pos| == 3 * count && i < count && j < count
    ensures Row(pos, length, count, i)[j] == Distance(pos, length, i, j)
  {
    RowPrefixAt(pos, length, count, i, count, j);
  }

  lemma {:induction false} RowPrefixAt(pos: seq<real>, length: (real, real, real) -> real, count: nat, i: nat, k: nat, j: nat)
    requires |pos| == 3 * count && i < count && j < k <= count
    ensures RowPrefix(pos, length, count, i, k)[j] == Distance(pos, length, i, j)
    decreases k
  {
    if j < k - 1 {
      RowPrefixAt(pos, length, count, i, k - 1, j);
    }
  }

  /**
   * The particles after `i` and before `hi` whose distance in `i`'s row is
   * below the link distance, in increasing order.
   */
  function Qualifying(row: seq<real>, i: nat, hi: nat): (js: seq<nat>)
    requires i < |row| && hi <= |row|
    ensures |js| <= hi
    decreases hi
  {
    if hi <= i + 1 then []
    else Qualifying(row, i, hi - 1) + (if row[hi - 1] < LinkDistance then [hi - 1] else [])
  }

  /** Scanning candidate `j` appends it to the qualifying list exactly when it is near. */
  lemma {:induction false} QualifyingStep(row: seq<real>, i: nat, j: nat)
    requires i < j < |row|
    ensures row[j] < LinkDistance ==> Qualifying(row, i, j + 1) == Qualifying(row, i, j) + [j]
    ensures LinkDistance <= row[j] ==> Qualifying(row, i, j + 1) == Qualifying(row, i, j)
  {
    assert Qualifying(row, i, j) + [] == Qualifying(row, i, j);
  }

  predicate Increasing(js: seq<nat>)
  {
    forall a, b :: 0 <= a < b < |js| ==> js[a] < js[b]
  }

  /**
   * The scan up to `hi` finds exactly the near particles strictly between `i`
   * and `hi`, in increasing order.
   */
  lemma {:induction false} QualifyingIsNearAndSorted(row: seq<real>, i: nat, hi: nat)
    requires i < |row| && hi <= |row|
    ensures forall j :: j in Qualifying(row, i, hi) <==> i < j < hi && row[j] < LinkDistance
    ensures Increasing(Qualifying(row, i, hi))
    decreases hi
  {
    if hi > i + 1 {
      QualifyingIsNearAndSorted(row, i, hi - 1);
      var earlier := Qualifying(row, i, hi - 1);
      var js := Qualifying(row, i, hi);
      forall k | 0 <= k < |earlier|
        ensures earlier[k] < hi - 1
      {
        assert earlier[k] in earlier;
      }
      forall a, b | 0 <= a < b < |js|
        ensures js[a] < js[b]
      {
        if b < |earlier| {
          assert js[a] == earlier[a] && js[b] == earlier[b];
        } else {
          assert js[a] == earlier[a];
        }
      }
    }
  }

  /** Scanning further only appends: a shorter scan is a prefix of a longer one. */
  lemma {:induction false} QualifyingPrefix(row: seq<real>, i: nat, lo: nat, hi: nat)
    requires i < |row| && lo <= hi <= |row|
    ensures Qualifying(row, i, lo) <= Qualifying(row, i, hi)
    decreases hi
  {
    if lo < hi && i + 1 < hi {
      QualifyingPrefix(row, i, lo, hi - 1);
    }
  }

  /** The particles `i` links to: the first three near particles after it, or all of them if fewer. */
  function Partners(row: seq<real>, i: nat): (js: seq<nat>)
    requires i < |row|
    ensures |js| <= MaxConnections
  {
    var q := Qualifying(row, i, |row|);
    if |q| <= MaxConnections then q else q[..MaxConnections]
  }

  /**
   * A scan of particle `i`'s candidates that stopped at `j`, because the
   * candidates ran out or three were found, has found exactly its partners.
   */
  lemma {:induction false} ScanFinished(row: seq<real>, i: nat, j: nat)
    requires i + 1 <= j <= |row|
    requires |Qualifying(row, i, j)| <= MaxConnections
    requires j == |row| || |Qualifying(row, i, j)| == MaxConnections
    ensures Qualifying(row, i, j) == Partners(row, i)
  {
    QualifyingPrefix(row, i, j, |row|);
  }

  function Min(a: nat, b: nat): (least: nat)
  {
    if a <= b then a else b
  }

  /** Every index in `js` is a near particle after `i`. */
  predicate AllNearAfter(row: seq<real>, i: nat, js: seq<nat>)
  {
    forall j :: j in js ==> i < j < |row| && row[j] < LinkDistance
  }

  /** A near particle after `i` is missing from `ps` only if `ps` is full and ends before it. */
  predicate NoneSkipped(row: seq<real>, i: nat, ps: seq<nat>)
  {
    forall j :: i < j < |row| && row[j] < LinkDistance && j !in ps ==> |ps| == MaxConnections && ps[2] < j
  }

  /**
   * The partners are exactly the first min(3, k) of the k near particles after
   * `i`, in increasing order: a near particle is left out only when three
   * earlier ones were already taken.
   */
  lemma {:induction false} PartnersAreFirstNear(row: seq<real>, i: nat)
    requires i < |row|
    ensures |Partners(row, i)| == Min(MaxConnections, |Qualifying(row, i, |row|)|)
    ensures Partners(row, i) <= Qualifying(row, i, |row|)
    ensures Increasing(Partners(row, i))
    ensures AllNearAfter(row, i, Partners(row, i))
    ensures NoneSkipped(row, i, Partners(row, i))
  {
    var q := Qualifying(row, i, |row|);
    var ps := Partners(row, i);
    QualifyingIsNearAndSorted(row, i, |row|);
    forall j | j in ps
      ensures i < j < |row| && row[j] < LinkDistance
    {
      var k :| 0 <= k < |ps| && ps[k] == j;
      assert q[k] == j;
      assert j in q;
    }
    forall j | i < j < |row| && row[j] < LinkDistance && j !in ps
      ensures |ps| == MaxConnections && ps[2] < j
    {
      assert j in q;
      var k :| 0 <= k < |q| && q[k] == j;
      if k < |ps| {
        assert false;
      }
      assert ps[2] == q[2];
    }
  }

  /** The edges from particle `i` to each of `js`, in order. */
  function PairsWith(i: nat, js: seq<nat>): (edges: seq<Edge>)
    ensures |edges| == |js|
  {
    if js == [] then [] else PairsWith(i, js[..|js| - 1]) + [Edge(i, js[|js| - 1])]
  }

  /** Edge `k` of the pairs goes from `i` to `js[k]`. */
  lemma {:induction false} PairsWithAt(i: nat, js: seq<nat>, k: nat)
    requires k < |js|
    ensures PairsWith(i, js)[k] == Edge(i, js[k])
    decreases |js|
  {
    if k < |js| - 1 {
      PairsWithAt(i, js[..|js| - 1], k);
    }
  }

  lemma {:induction false} PairsWithAppend(i: nat, js: seq<nat>, j: nat)
    ensures PairsWith(i, js + [j]) == PairsWith(i, js) + [Edge(i, j)]
  {
    assert (js + [j])[..|js|] == js;
  }

  /** All edges from particles `0 .. n - 1`, in the order the builder emits them. */
  function EdgesUpTo(pos: seq<real>, length: (real, real, real) -> real, count: nat, n: nat): (edges: seq<Edge>)
    requires |pos| == 3 * count && n <= count
  {
    if n == 0 then []
    else EdgesUpTo(pos, length, count, n - 1) + PairsWith(n - 1, Partners(Row(pos, length, count, n - 1), n - 1))
  }

  /** Every connection the builder makes, in the order it makes them. */
  function Edges(pos: seq<real>, length: (real, real, real) -> real, count: nat): (edges: seq<Edge>)
    requires |pos| == 3 * count
  {
    EdgesUpTo(pos, length, count, count)
  }

  /** An emitted edge joins a particle before `n` to a later particle its distance row calls near. */
  ghost predicate EdgeOk(pos: seq<real>, length: (real, real, real) -> real, count: nat, n: nat, e: Edge)
    requires |pos| == 3 * count
  {
    e.from < n && e.from < e.to < count && Row(pos, length, count, e.from)[e.to] < LinkDistance
  }

  /** Every edge of the list is emitted before particle `n` and joins near particles. */
  ghost predicate AllEdgesOk(pos: seq<real>, length: (real, real, real) -> real, count: nat, n: nat, edges: seq<Edge>)
    requires |pos| == 3 * count
  {
    forall k :: 0 <= k < |edges| ==> EdgeOk(pos, length, count, n, edges[k])
  }

  /** Edges from particle `i` to later near particles are all fine before `n`, for any `n` past `i`. */
  lemma {:induction false} PairsOk(pos: seq<real>, length: (real, real, real) -> real, count: nat, i: nat, n: nat, js: seq<nat>)
    requires |pos| == 3 * count && i < n <= count
    requires AllNearAfter(Row(pos, length, count, i), i, js)
    ensures AllEdgesOk(pos, length, count, n, PairsWith(i, js))
  {
    var edges := PairsWith(i, js);
    forall k | 0 <= k < |edges|
      ensures EdgeOk(pos, length, count, n, edges[k])
    {
      PairsWithAt(i, js, k);
      assert js[k] in js;
    }
  }

  /** Every edge emitted for particles before `n` starts before `n` and goes forward to a near particle. */
  lemma {:induction false} EdgesAreForwardAndNear(pos: seq<real>, length: (real, real, real) -> real, count: nat, n: nat, k: nat)
    requires |pos| == 3 * count && n <= count && k < |EdgesUpTo(pos, length, count, n)|
    ensures EdgeOk(pos, length, count, n, EdgesUpTo(pos, length, count, n)[k])
    decreases n
  {
    if n == 0 {
      assert false;
    } else {
      var m := n - 1;
      var earlier, later := EdgesUpTo(pos, length, count, m), PairsWith(m, Partners(Row(pos, length, count, m), m));
      if k < |earlier| {
        EdgesAreForwardAndNear(pos, length, count, m, k);
        assert EdgesUpTo(pos, length, count, n)[k] == earlier[k];
      } else {
        PartnerEdgesOk(pos, length, count, m, n);
        assert EdgesUpTo(pos, length, count, n)[k] == later[k - |earlier|];
      }
    }
  }

  /** The edges from particle `i` to its partners are fine before any `n` past `i`. */
  lemma {:induction false} PartnerEdgesOk(pos: seq<real>, length: (real, real, real) -> real, count: nat, i: nat, n: nat)
    requires |pos| == 3 * count && i < n <= count
    ensures AllEdgesOk(pos, length, count, n, PairsWith(i, Partners(Row(pos, length, count, i), i)))
  {
    var row := Row(pos, length, count, i);
    PartnersAreFirstNear(row, i);
    PairsOk(pos, length, count, i, n, Partners(row, i));
  }

  /** Every connection the builder makes joins a particle to a later one, and the two are near. */
  lemma {:induction false} EdgesJoinNearParticles(pos: seq<real>, length: (real, real, real) -> real, count: nat, k: nat)
    requires |pos| == 3 * count && k < |Edges(pos, length, count)|
    ensures var e := Edges(pos, length, count)[k];
            e.from < e.to < count && Near(pos, length, e.from, e.to)
  {
    var e := Edges(pos, length, count)[k];
    EdgesAreForwardAndNear(pos, length, count, count, k);
    RowAt(pos, length, count, e.from, e.to);
  }

  /** The edges whose first endpoint is `i`. */
  function EdgesFrom(edges: seq<Edge>, i: nat): (shifted: seq<Edge>)
  {
    if edges == [] then []
    else EdgesFrom(edges[..|edges| - 1], i) + (if edges[|edges| - 1].from == i then [edges[|edges| - 1]] else [])
  }

  lemma {:induction false} EdgesFromAppend(a: seq<Edge>, b: seq<Edge>, i: nat)
    ensures EdgesFrom(a + b, i) == EdgesFrom(a, i) + EdgesFrom(b, i)
    decreases |b|
  {
    if b != [] {
      assert (a + b)[..|a + b| - 1] == a + b[..|b| - 1];
      EdgesFromAppend(a, b[..|b| - 1], i);
    } else {
      assert a + b == a;
    }
  }

  lemma {:induction false} EdgesFromPairs(n: nat, js: seq<nat>, i: nat)
    ensures n == i ==> EdgesFrom(PairsWith(n, js), i) == PairsWith(n, js)
    ensures n != i ==> |EdgesFrom(PairsWith(n, js), i)| == 0
    decreases |js|
  {
    if js != [] {
      EdgesFromPairs(n, js[..|js| - 1], i);
    }
  }

  /**
   * The edges built from per-particle partner lists: particle `k` is paired
   * with each of `lists[k]`, particles in order.
   */
  function Links(lists: seq<seq<nat>>): (links: seq<Edge>)
  {
    if lists == [] then []
    else Links(lists[..|lists| - 1]) + PairsWith(|lists| - 1, lists[|lists| - 1])
  }

  /** The partner lists of particles `0 .. n - 1`. */
  function PartnerLists(pos: seq<real>, length: (real, real, real) -> real, count: nat, n: nat): (lists: seq<seq<nat>>)
    requires |pos| == 3 * count && n <= count
    ensures |lists| == n
  {
    seq(n, k requires 0 <= k < n => Partners(Row(pos, length, count, k), k))
  }

  /** The builder's edges are the links of the partner lists. */
  lemma {:induction false} EdgesUpToAreLinks(pos: seq<real>, length: (real, real, real) -> real, count: nat, n: nat)
    requires |pos| == 3 * count && n <= count
    ensures EdgesUpTo(pos, length, count, n) == Links(PartnerLists(pos, length, count, n))
    decreases n
  {
    if n > 0 {
      var lists := PartnerLists(pos, length, count, n);
      EdgesUpToAreLinks(pos, length, count, n - 1);
      assert lists[..n - 1] == PartnerLists(pos, length, count, n - 1);
      assert lists[n - 1] == Partners(Row(pos, length, count, n - 1), n - 1);
    }
  }

  /**
   * Grouped by first endpoint, the links from particle `i` are exactly the
   * edges to `i`'s list, in order; particles without a list have none.
   */
  lemma {:induction false} LinksFrom(lists: seq<seq<nat>>, i: nat)
    ensures i < |lists| ==> EdgesFrom(Links(lists), i) == PairsWith(i, lists[i])
    ensures |lists| <= i ==> |EdgesFrom(Links(lists), i)| == 0
    decreases |lists|
  {
    if lists != [] {
      var m := |lists| - 1;
      var init := lists[..m];
      LinksFrom(init, i);
      EdgesFromPairs(m, lists[m], i);
      EdgesFromAppend(Links(init), PairsWith(m, lists[m]), i);
      if i < m {
        assert init[i] == lists[i];
      }
    }
  }

  /** No particle starts more than three connections; those it starts go to its partners. */
  lemma {:induction false} AtMostThreeLinksPerParticle(pos: seq<real>, length: (real, real, real) -> real, count: nat, i: nat)
    requires |pos| == 3 * count
    ensures i < count ==> EdgesFrom(Edges(pos, length, count), i) == PairsWith(i, Partners(Row(pos, length, count, i), i))
    ensures |EdgesFrom(Edges(pos, length, count), i)| <= MaxConnections
  {
    EdgesUpToAreLinks(pos, length, count, count);
    LinksFrom(PartnerLists(pos, length, count, count), i);
  }

  // ---------------------------------------------------------------------------
  // Line buffers
  // ---------------------------------------------------------------------------

  /** The three coordinates of particle `k`, as the builder pushes them. */
  function Point(pos: seq<real>, k: nat): (point: seq<real>)
    requires 3 * k + 2 < |pos|
  {
    [pos[3 * k], pos[3 * k + 1], pos[3 * k + 2]]
  }

  /** The colour of particle `k` followed by a line opacity, as the builder pushes them. */
  function Tinted(col: seq<real>, k: nat, opacity: real): (rgba: seq<real>)
    requires 3 * k + 2 < |col|
  {
    [col[3 * k], col[3 * k + 1], col[3 * k + 2], opacity]
  }

  /** An edge names two particles whose coordinates lie in a buffer of `size` numbers. */
  predicate EdgeFits(e: Edge, size: nat)
  {
    3 * e.from + 2 < size && 3 * e.to + 2 < size
  }

  /** Every edge of the list fits a buffer of `size` numbers. */
  ghost predicate Fits(edges: seq<Edge>, size: nat)
  {
    edges == [] || (Fits(edges[..|edges| - 1], size) && EdgeFits(edges[|edges| - 1], size))
  }

  lemma {:induction false} FitsAt(edges: seq<Edge>, size: nat, k: nat)
    requires Fits(edges, size) && k < |edges|
    ensures EdgeFits(edges[k], size)
    decreases |edges|
  {
    if k < |edges| - 1 {
      FitsAt(edges[..|edges| - 1], size, k);
    }
  }

  /** Six numbers per edge: both endpoints' coordinates. */
  function PositionSegment(pos: seq<real>, e: Edge): (segment: seq<real>)
    requires EdgeFits(e, |pos|)
  {
    Point(pos, e.from) + Point(pos, e.to)
  }

  /** Eight numbers per edge: each endpoint's colour followed by the line's opacity. */
  function ColourSegment(pos: seq<real>, col: seq<real>, length: (real, real, real) -> real, e: Edge): (segment: seq<real>)
    requires |col| == |pos| && EdgeFits(e, |pos|)
  {
    Tinted(col, e.from, Opacity(pos, length, e)) + Tinted(col, e.to, Opacity(pos, length, e))
  }

  /** The two line buffers: six coordinates and eight colour numbers per edge. */
  datatype Lines = Lines(positions: seq<real>, colours: seq<real>)

  /** The `linePositions` and `lineColors` buffers for a list of edges. */
  function LineBuffers(pos: seq<real>, col: seq<real>, length: (real, real, real) -> real, edges: seq<Edge>): (lines: Lines)
    requires |col| == |pos| && Fits(edges, |pos|)
    ensures |lines.positions| == 6 * |edges| && |lines.colours| == 8 * |edges|
  {
    if edges == [] then Lines([], [])
    else
      var init := LineBuffers(pos, col, length, edges[..|edges| - 1]);
      var e := edges[|edges| - 1];
      Lines(init.positions + PositionSegment(pos, e), init.colours + ColourSegment(pos, col, length, e))
  }

  /** Edge `k` owns entries `6k .. 6k + 5` of the position buffer and `8k .. 8k + 7` of the colour buffer. */
  lemma {:induction false} LineBuffersAt(pos: seq<real>, col: seq<real>, length: (real, real, real) -> real, edges: seq<Edge>, k: nat)
    requires |col| == |pos| && Fits(edges, |pos|) && k < |edges|
    ensures EdgeFits(edges[k], |pos|)
    ensures LineBuffers(pos, col, length, edges).positions[6 * k .. 6 * k + 6] == PositionSegment(pos, edges[k])
    ensures LineBuffers(pos, col, length, edges).colours[8 * k .. 8 * k + 8] == ColourSegment(pos, col, length, edges[k])
    decreases |edges|
  {
    FitsAt(edges, |pos|, k);
    if k < |edges| - 1 {
      LineBuffersAt(pos, col, length, edges[..|edges| - 1], k);
      LineBuffersKeepPrefix(pos, col, length, edges, k);
    }
  }

  /** Appending the last edge leaves the numbers of every earlier edge where they were. */
  lemma {:induction false} LineBuffersKeepPrefix(pos: seq<real>, col: seq<real>, length: (real, real, real) -> real, edges: seq<Edge>, k: nat)
    requires |col| == |pos| && Fits(edges, |pos|) && k < |edges| - 1
    ensures var whole, part := LineBuffers(pos, col, length, edges), LineBuffers(pos, col, length, edges[..|edges| - 1]);
            whole.positions[6 * k .. 6 * k + 6] == part.positions[6 * k .. 6 * k + 6] &&
            whole.colours[8 * k .. 8 * k + 8] == part.colours[8 * k .. 8 * k + 8]
  {
    var whole := LineBuffers(pos, col, length, edges);
    var part := LineBuffers(pos, col, length, edges[..|edges| - 1]);
    assert whole.positions[..|part.positions|] == part.positions;
    assert whole.colours[..|part.colours|] == part.colours;
  }

  /** Every index in `js` is below `n`. */
  predicate Below(js: seq<nat>, n: nat)
  {
    forall k :: 0 <= k < |js| ==> js[k] < n
  }

  /**
   * The buffers `lines` followed by the segments from particle `i` to each of
   * `js` in turn, with opacities read from `i`'s distance row.
   */
  function Extend(pos: seq<real>, col: seq<real>, row: seq<real>, lines: Lines, i: nat, js: seq<nat>): (r: Lines)
    requires |pos| == 3 * |row| && |col| == |pos| && i < |row| && Below(js, |row|)
    ensures |r.positions| == |lines.positions| + 6 * |js| && |r.colours| == |lines.colours| + 8 * |js|
  {
    if js == [] then lines
    else
      var init := Extend(pos, col, row, lines, i, js[..|js| - 1]);
      var j := js[|js| - 1];
      Lines(init.positions + PositionSegment(pos, Edge(i, j)),
            init.colours + (Tinted(col, i, 1.0 - row[j] / 2.0) + Tinted(col, j, 1.0 - row[j] / 2.0)))
  }

  /** Extending by one more particle `j` pushes `i`'s and `j`'s numbers once more, in the builder's order. */
  lemma {:induction false} ExtendOneMore(pos: seq<real>, col: seq<real>, row: seq<real>, lines: Lines, i: nat, js: seq<nat>, j: nat)
    requires |pos| == 3 * |row| && |col| == |pos| && i < |row| && Below(js, |row|) && j < |row|
    ensures Below(js + [j], |row|)
    ensures Extend(pos, col, row, lines, i, js + [j]) ==
            Lines(Extend(pos, col, row, lines, i, js).positions + Point(pos, i) + Point(pos, j),
                  Extend(pos, col, row, lines, i, js).colours + Tinted(col, i, 1.0 - row[j] / 2.0) + Tinted(col, j, 1.0 - row[j] / 2.0))
  {
    assert (js + [j])[..|js|] == js;
    var init := Extend(pos, col, row, lines, i, js);
    var opacity := 1.0 - row[j] / 2.0;
    assert init.positions + Point(pos, i) + Point(pos, j) == init.positions + (Point(pos, i) + Point(pos, j));
    assert init.colours + Tinted(col, i, opacity) + Tinted(col, j, opacity)
        == init.colours + (Tinted(col, i, opacity) + Tinted(col, j, opacity));
  }

  /**
   * The buffers of the edges before particle `i` followed by `i`'s edges to
   * `js` are the former buffers extended by `js`.
   */
  lemma {:induction false} LineBuffersOfPairs(pos: seq<real>, col: seq<real>, length: (real, real, real) -> real, count: nat,
                                              prior: seq<Edge>, i: nat, js: seq<nat>)
    requires |pos| == 3 * count && |col| == |pos| && i < count
    requires Fits(prior, |pos|) && Below(js, count)
    ensures Fits(prior + PairsWith(i, js), |pos|)
    ensures LineBuffers(pos, col, length, prior + PairsWith(i, js))
            == Extend(pos, col, Row(pos, length, count, i), LineBuffers(pos, col, length, prior), i, js)
    decreases |js|
  {
    if js == [] {
      assert prior + PairsWith(i, js) == prior;
    } else {
      var row, init, j := Row(pos, length, count, i), js[..|js| - 1], js[|js| - 1];
      var start := LineBuffers(pos, col, length, prior);
      BelowPrefix(js, count);
      LineBuffersOfPairs(pos, col, length, count, prior, i, init);
      LineBuffersPush(pos, col, length, count, prior, i, js);
      ExtendByEdge(pos, col, length, count, start, i, js);
    }
  }

  /** The indices before the last one of `js` are below `n` too, and so is the last one. */
  lemma BelowPrefix(js: seq<nat>, n: nat)
    requires js != [] && Below(js, n)
    ensures Below(js[..|js| - 1], n) && js[|js| - 1] < n
  {
  }

  /** Linking `i` to the last particle of `js` appends that edge's segments to the buffers. */
  lemma {:induction false} LineBuffersPush(pos: seq<real>, col: seq<real>, length: (real, real, real) -> real, count: nat,
                                           prior: seq<Edge>, i: nat, js: seq<nat>)
    requires |pos| == 3 * count && |col| == |pos| && i < count && js != [] && js[|js| - 1] < count
    requires Fits(prior + PairsWith(i, js[..|js| - 1]), |pos|)
    ensures Fits(prior + PairsWith(i, js), |pos|)
    ensures LineBuffers(pos, col, length, prior + PairsWith(i, js))
            == Lines(LineBuffers(pos, col, length, prior + PairsWith(i, js[..|js| - 1])).positions + PositionSegment(pos, Edge(i, js[|js| - 1])),
                     LineBuffers(pos, col, length, prior + PairsWith(i, js[..|js| - 1])).colours + ColourSegment(pos, col, length, Edge(i, js[|js| - 1])))
  {
    var j := js[|js| - 1];
    var edges := prior + PairsWith(i, js[..|js| - 1]);
    assert prior + PairsWith(i, js) == edges + [Edge(i, j)];
    LineBuffersSnoc(pos, col, length, edges, Edge(i, j));
  }

  /** One more edge: the buffers of the others followed by its six and eight numbers. */
  lemma {:induction false} LineBuffersSnoc(pos: seq<real>, col: seq<real>, length: (real, real, real) -> real, edges: seq<Edge>, e: Edge)
    requires |col| == |pos| && Fits(edges, |pos|) && EdgeFits(e, |pos|)
    ensures Fits(edges + [e], |pos|)
    ensures LineBuffers(pos, col, length, edges + [e])
            == Lines(LineBuffers(pos, col, length, edges).positions + PositionSegment(pos, e),
                     LineBuffers(pos, col, length, edges).colours + ColourSegment(pos, col, length, e))
  {
    assert (edges + [e])[..|edges|] == edges;
  }

  /** Extending by the last particle `j` of `js` appends the segments of the edge (i, j). */
  lemma {:induction false} ExtendByEdge(pos: seq<real>, col: seq<real>, length: (real, real, real) -> real, count: nat,
                                        lines: Lines, i: nat, js: seq<nat>)
    requires |pos| == 3 * count && |col| == |pos| && i < count && js != [] && Below(js, count)
    ensures Below(js[..|js| - 1], count)
    ensures var row, e := Row(pos, length, count, i), Edge(i, js[|js| - 1]);
            Extend(pos, col, row, lines, i, js)
            == Lines(Extend(pos, col, row, lines, i, js[..|js| - 1]).positions + PositionSegment(pos, e),
                     Extend(pos, col, row, lines, i, js[..|js| - 1]).colours + ColourSegment(pos, col, length, e))
  {
    ColourSegmentFromRow(pos, col, length, count, i, js[|js| - 1]);
  }

  /** The colour numbers of edge (i, j) are both endpoints' colours tinted by the opacity read off `i`'s row. */
  lemma {:induction false} ColourSegmentFromRow(pos: seq<real>, col: seq<real>, length: (real, real, real) -> real, count: nat, i: nat, j: nat)
    requires |pos| == 3 * count && |col| == |pos| && i < count && j < count
    ensures ColourSegment(pos, col, length, Edge(i, j))
            == Tinted(col, i, 1.0 - Row(pos, length, count, i)[j] / 2.0) + Tinted(col, j, 1.0 - Row(pos, length, count, i)[j] / 2.0)
  {
    OpacityFromRow(pos, length, count, i, j);
  }

  /** A line's opacity is read off the distance row of its first particle. */
  lemma {:induction false} OpacityFromRow(pos: seq<real>, length: (real, real, real) -> real, count: nat, i: nat, j: nat)
    requires |pos| == 3 * count && i < count && j < count
    ensures Opacity(pos, length, Edge(i, j)) == 1.0 - Row(pos, length, count, i)[j] / 2.0
  {
    RowAt(pos, length, count, i, j);
  }

  /** The edges of particles `0 .. n` fit the buffer, and particle `n`'s partners extend the buffers of those before it. */
  lemma {:induction false} EdgesUpToStep(pos: seq<real>, col: seq<real>, length: (real, real, real) -> real, count: nat, n: nat)
    requires |pos| == 3 * count && |col| == |pos| && n < count
    requires Fits(EdgesUpTo(pos, length, count, n), |pos|)
    ensures Below(Partners(Row(pos, length, count, n), n), count)
    ensures Fits(EdgesUpTo(pos, length, count, n + 1), |pos|)
    ensures LineBuffers(pos, col, length, EdgesUpTo(pos, length, count, n + 1))
            == Extend(pos, col, Row(pos, length, count, n), LineBuffers(pos, col, length, EdgesUpTo(pos, length, count, n)),
                      n, Partners(Row(pos, length, count, n), n))
  {
    PartnersBelow(Row(pos, length, count, n), n);
    LineBuffersOfPairs(pos, col, length, count, EdgesUpTo(pos, length, count, n), n, Partners(Row(pos, length, count, n), n));
  }

  /** The partners of a particle are particles. */
  lemma {:induction false} PartnersBelow(row: seq<real>, i: nat)
    requires i < |row|
    ensures Below(Partners(row, i), |row|)
  {
    var ps := Partners(row, i);
    PartnersAreFirstNear(row, i);
    forall k | 0 <= k < |ps| ensures ps[k] < |row| {
      assert ps[k] in ps;
    }
  }

  /**
   * The rest of the builder's inner loop for particle `i`, from candidate `j`
   * with `connections` links made so far and the buffers at `lines`.
   */
  function Scan(pos: seq<real>, col: seq<real>, row: seq<real>, i: nat, j: nat, connections: nat, lines: Lines): (scanned: Lines)
    requires |pos| == 3 * |row| && |col| == |pos| && i < |row| && i + 1 <= j <= |row|
    decreases |row| - j
  {
    if |row| <= j || MaxConnections <= connections then lines
    else if row[j] < LinkDistance then
      Scan(pos, col, row, i, j + 1, connections + 1,
           Lines(lines.positions + Point(pos, i) + Point(pos, j),
                 lines.colours + Tinted(col, i, 1.0 - row[j] / 2.0) + Tinted(col, j, 1.0 - row[j] / 2.0)))
    else Scan(pos, col, row, i, j + 1, connections, lines)
  }

  /** The candidates the scan links from candidate `j` on, having made `connections` links so far. */
  function Picks(row: seq<real>, i: nat, j: nat, connections: nat): (picks: seq<nat>)
    requires i < |row| && i + 1 <= j <= |row|
    decreases |row| - j
  {
    if |row| <= j || MaxConnections <= connections then []
    else if row[j] < LinkDistance then [j] + Picks(row, i, j + 1, connections + 1)
    else Picks(row, i, j + 1, connections)
  }

  /** Whatever the scan links is a particle. */
  lemma {:induction false} PicksBelow(row: seq<real>, i: nat, j: nat, connections: nat)
    requires i < |row| && i + 1 <= j <= |row|
    ensures Below(Picks(row, i, j, connections), |row|)
    decreases |row| - j
  {
    if j < |row| && connections < MaxConnections {
      PicksBelow(row, i, j + 1, connections + 1);
      PicksBelow(row, i, j + 1, connections);
    }
  }

  /**
   * Having found the near candidates before `j`, the scan goes on to link
   * exactly the rest of `i`'s partners.
   */
  lemma {:induction false} PicksCompletePartners(row: seq<real>, i: nat, j: nat)
    requires i + 1 <= j <= |row|
    requires |Qualifying(row, i, j)| <= MaxConnections
    ensures Qualifying(row, i, j) + Picks(row, i, j, |Qualifying(row, i, j)|) == Partners(row, i)
    decreases |row| - j
  {
    var q := Qualifying(row, i, j);
    if |row| <= j || MaxConnections <= |q| {
      ScanFinished(row, i, j);
      assert q + [] == q;
    } else {
      QualifyingStep(row, i, j);
      PicksCompletePartners(row, i, j + 1);
      if row[j] < LinkDistance {
        var rest := Picks(row, i, j + 1, |q| + 1);
        assert q + ([j] + rest) == (q + [j]) + rest;
      }
    }
  }

  /** A scan step at a near candidate pushes both endpoints and counts one more link. */
  lemma ScanNear(pos: seq<real>, col: seq<real>, row: seq<real>, i: nat, j: nat, connections: nat, lines: Lines)
    requires |pos| == 3 * |row| && |col| == |pos| && i < |row| && i + 1 <= j < |row|
    requires connections < MaxConnections && row[j] < LinkDistance
    ensures Scan(pos, col, row, i, j, connections, lines)
            == Scan(pos, col, row, i, j + 1, connections + 1,
                    Lines(lines.positions + Point(pos, i) + Point(pos, j),
                          lines.colours + Tinted(col, i, 1.0 - row[j] / 2.0) + Tinted(col, j, 1.0 - row[j] / 2.0)))
  {
  }

  /** A scan step at a far candidate changes nothing but the candidate. */
  lemma ScanFar(pos: seq<real>, col: seq<real>, row: seq<real>, i: nat, j: nat, connections: nat, lines: Lines)
    requires |pos| == 3 * |row| && |col| == |pos| && i < |row| && i + 1 <= j < |row|
    requires connections < MaxConnections && LinkDistance <= row[j]
    ensures Scan(pos, col, row, i, j, connections, lines) == Scan(pos, col, row, i, j + 1, connections, lines)
  {
  }

  /**
   * Run from candidate `j` on buffers holding the segments to `js`, the scan
   * ends with the segments to `js` followed by those to the candidates it picks.
   */
  lemma {:induction false} ScanExtends(pos: seq<real>, col: seq<real>, row: seq<real>, start: Lines,
                                       i: nat, j: nat, connections: nat, js: seq<nat>)
    requires |pos| == 3 * |row| && |col| == |pos| && i < |row| && i + 1 <= j <= |row|
    requires Below(js, |row|) && Below(Picks(row, i, j, connections), |row|)
    ensures Below(js + Picks(row, i, j, connections), |row|)
    ensures Scan(pos, col, row, i, j, connections, Extend(pos, col, row, start, i, js))
            == Extend(pos, col, row, start, i, js + Picks(row, i, j, connections))
    decreases |row| - j
  {
    var picks := Picks(row, i, j, connections);
    if |row| <= j || MaxConnections <= connections {
      assert js + picks == js;
    } else if row[j] < LinkDistance {
      var rest := Picks(row, i, j + 1, connections + 1);
      assert picks == [j] + rest;
      assert Below(rest, |row|) by {
        forall k | 0 <= k < |rest| ensures rest[k] < |row| {
          assert rest[k] == picks[k + 1];
        }
      }
      ExtendOneMore(pos, col, row, start, i, js, j);
      ScanNear(pos, col, row, i, j, connections, Extend(pos, col, row, start, i, js));
      ScanExtends(pos, col, row, start, i, j + 1, connections + 1, js + [j]);
      assert js + picks == (js + [j]) + rest;
    } else {
      ScanFar(pos, col, row, i, j, connections, Extend(pos, col, row, start, i, js));
      ScanExtends(pos, col, row, start, i, j + 1, connections, js);
    }
  }

  /**
   * The connection builder: for each particle, scan later particles while
   * fewer than three links were made, and push both endpoints' coordinates and
   * colours for every near one. The line object exists iff a link was made.
   */
  method BuildConnections(positions: seq<real>, colours: seq<real>, count: nat, length: (real, real, real) -> real)
      returns (linePositions: seq<real>, lineColours: seq<real>, hasLines: bool)
    requires |positions| == 3 * count && |colours| == 3 * count
    ensures Fits(Edges(positions, length, count), 3 * count)
    ensures Lines(linePositions, lineColours) == LineBuffers(positions, colours, length, Edges(positions, length, count))
    ensures hasLines <==> |Edges(positions, length, count)| > 0
  {
    linePositions, lineColours := [], [];
    for i := 0 to count
      invariant Fits(EdgesUpTo(positions, length, count, i), |positions|)
      invariant Lines(linePositions, lineColours) == LineBuffers(positions, colours, length, EdgesUpTo(positions, length, count, i))
    {
      EdgesUpToStep(positions, colours, length, count, i);
      linePositions, lineColours := LinkParticle(positions, colours, count, length, i, linePositions, lineColours);
    }
    hasLines := |linePositions| > 0;
  }

  /**
   * The builder's inner loop for particle `i`: scan the particles after `i`
   * while fewer than three links were made, pushing both endpoints'
   * coordinates and colours for each near one. It appends exactly the
   * segments to `i`'s partners.
   */
  method LinkParticle(positions: seq<real>, colours: seq<real>, count: nat, length: (real, real, real) -> real, i: nat,
                      linePositions0: seq<real>, lineColours0: seq<real>)
      returns (linePositions: seq<real>, lineColours: seq<real>)
    requires |positions| == 3 * count && |colours| == 3 * count && i < count
    ensures Below(Partners(Row(positions, length, count, i), i), count)
    ensures Lines(linePositions, lineColours)
            == Extend(positions, colours, Row(positions, length, count, i), Lines(linePositions0, lineColours0),
                      i, Partners(Row(positions, length, count, i), i))
  {
    ghost var row := Row(positions, length, count, i);
    ghost var start := Lines(linePositions0, lineColours0);
    linePositions, lineColours := linePositions0, lineColours0;
    var connections := 0;
    var j := i + 1;
    while j < count && connections < MaxConnections
      invariant i + 1 <= j <= count
      invariant Scan(positions, colours, row, i, j, connections, Lines(linePositions, lineColours))
                == Scan(positions, colours, row, i, i + 1, 0, start)
      decreases count - j
    {
      var dx := positions[3 * i] - positions[3 * j];
      var dy := positions[3 * i + 1] - positions[3 * j + 1];
      var dz := positions[3 * i + 2] - positions[3 * j + 2];
      var distance := length(dx, dy, dz);
      RowAt(positions, length, count, i, j);
      if distance < LinkDistance {
        linePositions := linePositions + [positions[3 * i], positions[3 * i + 1], positions[3 * i + 2]];
        linePositions := linePositions + [positions[3 * j], positions[3 * j + 1], positions[3 * j + 2]];
        var opacity := 1.0 - distance / 2.0;
        lineColours := lineColours + [colours[3 * i], colours[3 * i + 1], colours[3 * i + 2], opacity];
        lineColours := lineColours + [colours[3 * j], colours[3 * j + 1], colours[3 * j + 2], opacity];
        connections := connections + 1;
      }
      j := j + 1;
    }
    assert Extend(positions, colours, row, start, i, []) == start;
    PicksBelow(row, i, i + 1, 0);
    ScanExtends(positions, colours, row, start, i, i + 1, 0, []);
    assert Qualifying(row, i, i + 1) == [];
    PicksCompletePartners(row, i, i + 1);
    assert [] + Picks(row, i, i + 1, 0) == Picks(row, i, i + 1, 0);
  }

  // ---------------------------------------------------------------------------
  // Frame update
  // ---------------------------------------------------------------------------

  /**
   * The point cloud's rotation about x and y after `elapsed` seconds: still at
   * the start, and afterwards turning about y faster than about x.
   */
  function CloudRotation(elapsed: real): (rotation: (real, real))
    ensures elapsed == 0.0 ==> rotation == (0.0, 0.0)
    ensures elapsed > 0.0 ==> 0.0 < rotation.0 < rotation.1
  {
    (elapsed * 0.1, elapsed * 0.15)
  }

  /**
   * The `THREE.Points` cloud as the frame loop sees it: its rotation about x
   * and y, and its geometry's position buffer of `count` particles.
   */
  class PointCloud {
    var rotation: (real, real)
    const positions: array<real>
    const count: nat

    ghost predicate Valid()
      reads this
    {
      positions.Length == 3 * count
    }

    /** The cloud as created: unrotated, over the buffer of initial positions. */
    constructor (positions: array<real>, count: nat)
      requires positions.Length == 3 * count
      ensures Valid()
      ensures this.positions == positions && this.count == count && rotation == CloudRotation(0.0)
    {
      this.positions := positions;
      this.count := count;
      rotation := (0.0, 0.0);
    }

    /**
     * One frame at `elapsed` seconds on the clock: the rotation is set from the
     * clock, and particle `i` rises by a thousandth of `wobble[i]` (the sine of
     * the clock plus `i`); only y coordinates change.
     */
    method AnimateFrame(elapsed: real, wobble: seq<real>)
      requires Valid() && |wobble| == count
      modifies this, positions
      ensures Valid()
      ensures rotation == CloudRotation(elapsed)
      ensures forall k :: 0 <= k < positions.Length && k % 3 == 1 ==>
                positions[k] == old(positions[k]) + wobble[k / 3] * WobbleScale
      ensures forall k :: 0 <= k < positions.Length && k % 3 != 1 ==> positions[k] == old(positions[k])
    {
      rotation := (elapsed * 0.1, elapsed * 0.15);
      for i := 0 to count
        invariant rotation == CloudRotation(elapsed)
        invariant forall k :: 0 <= k < positions.Length && k % 3 == 1 && k / 3 < i ==>
                    positions[k] == old(positions[k]) + wobble[k / 3] * WobbleScale
        invariant forall k :: 0 <= k < positions.Length && !(k % 3 == 1 && k / 3 < i) ==>
                    positions[k] == old(positions[k])
      {
        var i3 := i * 3;
        positions[i3 + 1] := positions[i3 + 1] + wobble[i] * WobbleScale;
      }
    }
  }

  /**
   * Two frames: the rotation after the second depends only on its clock
   * reading, not on the first frame (it is set, not accumulated); it never
   * goes back as time passes, and it has moved by exactly the rotation for the
   * time between the two frames.
   */
  method CloudRotationFollowsClock(cloud: PointCloud, t1: real, w1: seq<real>, t2: real, w2: seq<real>)
    returns (first: (real, real))
    requires cloud.Valid() && |w1| == cloud.count && |w2| == cloud.count
    modifies cloud, cloud.positions
    ensures cloud.Valid()
    ensures first == CloudRotation(t1) && cloud.rotation == CloudRotation(t2)
    ensures cloud.rotation.0 == first.0 + CloudRotation(t2 - t1).0
    ensures cloud.rotation.1 == first.1 + CloudRotation(t2 - t1).1
    ensures t1 <= t2 ==> first.0 <= cloud.rotation.0 && first.1 <= cloud.rotation.1
  {
    cloud.AnimateFrame(t1, w1);
    first := cloud.rotation;
    cloud.AnimateFrame(t2, w2);
  }
}
