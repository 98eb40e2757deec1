/** The quantum particle system of the interface page: a fixed set of
    particles moved once per animation frame, a pool of 100 line slots that
    each frame hands out, first come first served, to the pairs of
    particles closer than 10 units, and the mouse impulse.

    Everything the browser supplies is a parameter: the `Math.random`
    draws, the clock, `Math.sin`/`Math.cos`, three.js `distanceTo` and
    `normalize`. */
module QuantumParticles {
  import opened Common

  const ParticleCount: nat := 1000
  const PoolSize: nat := 100
  const LinkDistance: real := 10.0
  const MouseRadius: real := 20.0
  /** |x| and |y| may reach 50 and |z| 25 before the velocity is reflected. */
  const Bounds := Vec3(50.0, 50.0, 25.0)
  const DefaultLineOpacity: real := 0.2

  datatype Particle = Particle(position: Vec3, velocity: Vec3, originalSize: real, phase: real)

  /** A pooled line: its six endpoint coordinates and whether it is drawn. */
  datatype Line = Line(from: Vec3, to: Vec3, visible: bool)

  /** A pair (i, j) found closer than LinkDistance during a frame's scan,
      with the endpoints and the distance the scan saw. */
  datatype Link = Link(i: nat, j: nat, from: Vec3, to: Vec3, distance: real)

  /** What one frame takes from outside: the clock value (seconds), sine,
      cosine and the distance between two points. */
  datatype Frame = Frame(time: real, sin: real -> real, cos: real -> real, dist: (Vec3, Vec3) -> real)

  /** The colour of a particle for the draw t: cyan to purple. */
  function Tint(t: real): (c: Vec3)
    ensures IsDraw(t) ==> 0.0 <= c.x < 1.0 && 0.5 < c.y <= 1.0 && c.z == 1.0
    ensures c.x == 0.0 ==> c == Vec3(0.0, 1.0, 1.0)
  {
    Vec3(t, 1.0 - t * 0.5, 1.0)
  }

  /** The ranges a particle starts in: the box [-50,50) x [-50,50) x
      [-25,25), each velocity component in [-0.05, 0.05), a size in
      [1, 4) and a phase in [0, 2 pi). */
  predicate StartsInRange(p: Particle, pi: real) {
    && -50.0 <= p.position.x < 50.0 && -50.0 <= p.position.y < 50.0 && -25.0 <= p.position.z < 25.0
    && -0.05 <= p.velocity.x < 0.05 && -0.05 <= p.velocity.y < 0.05 && -0.05 <= p.velocity.z < 0.05
    && 1.0 <= p.originalSize < 4.0
    && 0.0 <= p.phase < 2.0 * pi
  }

  /** The particle created from the draws 9i .. 9i+8, in the order the
      source draws them: x, y, z, colour, size, vx, vy, vz, phase. With
      `Math.random` draws it starts in range. */
  function InitialParticle(draws: seq<real>, i: nat, pi: real): (p: Particle)
    requires 9 * i + 9 <= |draws|
    ensures pi > 0.0 && (forall k :: 9 * i <= k < 9 * i + 9 ==> IsDraw(draws[k])) ==> StartsInRange(p, pi)
  {
    var b := 9 * i;
    PhaseBelowTurn(draws[b + 8], pi);
    Particle(Vec3((draws[b] - 0.5) * 100.0, (draws[b + 1] - 0.5) * 100.0, (draws[b + 2] - 0.5) * 50.0),
             Vec3((draws[b + 5] - 0.5) * 0.1, (draws[b + 6] - 0.5) * 0.1, (draws[b + 7] - 0.5) * 0.1),
             draws[b + 4] * 3.0 + 1.0,
             draws[b + 8] * pi * 2.0)
  }

  lemma PhaseBelowTurn(r: real, pi: real)
    ensures IsDraw(r) && pi > 0.0 ==> 0.0 <= r * pi * 2.0 < 2.0 * pi
  {
    if IsDraw(r) && pi > 0.0 {
      assert (1.0 - r) * pi > 0.0;
    }
  }

  predicate IsDraw(r: real) {
    0.0 <= r < 1.0
  }

  /** With `Math.random` draws, every particle starts in range. */
  lemma InitialParticleRanges(draws: seq<real>, pi: real)
    requires pi > 0.0 && forall k :: 0 <= k < |draws| ==> IsDraw(draws[k])
    ensures forall i: nat :: 9 * i + 9 <= |draws| ==> StartsInRange(InitialParticle(draws, i, pi), pi)
  {
    forall i: nat | 9 * i + 9 <= |draws|
      ensures StartsInRange(InitialParticle(draws, i, pi), pi)
    {
      assert forall k :: 9 * i <= k < 9 * i + 9 ==> IsDraw(draws[k]);
    }
  }

  /** Particle i's position occupies slots 3i, 3i+1, 3i+2 of a flat buffer. */
  predicate BufferHolds(buf: seq<real>, k: nat, v: Vec3) {
    3 * k + 2 < |buf| && buf[3 * k] == v.x && buf[3 * k + 1] == v.y && buf[3 * k + 2] == v.z
  }

  /** One particle's move in a frame: position += velocity; each velocity
      component is negated exactly when the moved coordinate lies outside
      its bound; then x and y receive the sin/cos "quantum fluctuation". */
  function Moved(p: Particle, f: Frame): (q: Particle)
    ensures q.originalSize == p.originalSize && q.phase == p.phase
    ensures q.position.z == p.position.z + p.velocity.z
    ensures q.position.x == p.position.x + p.velocity.x + f.sin(f.time + p.phase) * 0.01
    ensures q.position.y == p.position.y + p.velocity.y + f.cos(f.time + p.phase * 1.5) * 0.01
    ensures Abs(q.velocity.x) == Abs(p.velocity.x) && Abs(q.velocity.y) == Abs(p.velocity.y)
    ensures Abs(q.velocity.z) == Abs(p.velocity.z)
    ensures q.velocity.x == (if Abs(p.position.x + p.velocity.x) > Bounds.x then -p.velocity.x else p.velocity.x)
    ensures q.velocity.y == (if Abs(p.position.y + p.velocity.y) > Bounds.y then -p.velocity.y else p.velocity.y)
    ensures q.velocity.z == (if Abs(p.position.z + p.velocity.z) > Bounds.z then -p.velocity.z else p.velocity.z)
  {
    var pos := Add(p.position, p.velocity);
    Particle(Vec3(pos.x + f.sin(f.time + p.phase) * 0.01,
                  pos.y + f.cos(f.time + p.phase * 1.5) * 0.01,
                  pos.z),
             Reflect(pos, p.velocity, Bounds),
             p.originalSize,
             p.phase)
  }

  /** The size written to the size buffer: the original size pulsing by 20%. */
  function PulsedSize(p: Particle, f: Frame): (s: real)
    ensures p.originalSize >= 0.0 && -1.0 <= f.sin(f.time * 2.0 + p.phase) <= 1.0 ==>
      0.8 * p.originalSize <= s <= 1.2 * p.originalSize
  {
    p.originalSize * (1.0 + f.sin(f.time * 2.0 + p.phase) * 0.2)
  }

  /** The opacity written for a link of length d. */
  function LinkOpacity(d: real): (o: real)
    ensures 0.0 <= d < LinkDistance ==> 0.0 < o <= 0.3
  {
    (1.0 - d / 10.0) * 0.3
  }

  /** Closer pairs are drawn more opaque. */
  lemma OpacityDecreasing(d1: real, d2: real)
    requires d1 < d2
    ensures LinkOpacity(d1) > LinkOpacity(d2)
  {
  }

  /** The links of row i with the particles i+1 .. j-1, in scan order,
      where particle i (already moved this frame) is at `from`. */
  function RowLinks(ps: seq<Particle>, i: nat, from: Vec3, j: nat, dist: (Vec3, Vec3) -> real): (ls: seq<Link>)
    requires j <= |ps|
    ensures |ls| <= if j > i then j - i - 1 else 0
    decreases j
  {
    if j <= i + 1 then []
    else
      var prev := RowLinks(ps, i, from, j - 1, dist);
      var d := dist(from, ps[j - 1].position);
      if d < LinkDistance then prev + [Link(i, j - 1, from, ps[j - 1].position, d)] else prev
  }

  /** The links found in rows 0 .. i-1 of a frame that starts from `ps`:
      row r pairs particle r, moved, with the particles after it, which
      have not moved yet. */
  function LinksBefore(ps: seq<Particle>, f: Frame, i: nat): (ls: seq<Link>)
    requires i <= |ps|
    ensures |ls| <= i * |ps|
  {
    if i == 0 then []
    else LinksBefore(ps, f, i - 1) + RowLinks(ps, i - 1, Moved(ps[i - 1], f).position, |ps|, f.dist)
  }

  /** Every link a frame starting from `ps` finds, in scan order. */
  function FrameLinks(ps: seq<Particle>, f: Frame): (ls: seq<Link>)
    ensures |ls| <= |ps| * |ps|
  {
    LinksBefore(ps, f, |ps|)
  }

  /** A slot claimed for a link shows it. */
  function Claimed(l: Link): Line {
    Line(l.from, l.to, true)
  }

  /** The pool after scanning `found`: slot k shows found[k] when the scan
      found more than k links, and is untouched otherwise. */
  ghost predicate PoolAfterScan(now: seq<Line>, before: seq<Line>, found: seq<Link>) {
    |now| == |before| &&
    forall k :: 0 <= k < |now| ==> now[k] == if k < |found| then Claimed(found[k]) else before[k]
  }

  /** The shared opacity after scanning `found` with a pool of `pool`
      slots: the last claim's opacity, or the earlier value if none. */
  function OpacityAfterScan(before: real, found: seq<Link>, pool: nat): real {
    var c := Min(|found|, pool);
    if c == 0 then before else LinkOpacity(found[c - 1].distance)
  }

  /** Slot k at the end of a frame that found `links`. */
  function SlotAfterFrame(before: Line, links: seq<Link>, k: nat): Line {
    if k < |links| then Claimed(links[k]) else before.(visible := false)
  }

  /** Link l is the pair (l.i, l.j) of a frame starting from ps: i < j,
      the first particle moved, the second not yet, and closer than 10. */
  ghost predicate LinkOf(ps: seq<Particle>, f: Frame, l: Link) {
    l.i < l.j < |ps| &&
    l.from == Moved(ps[l.i], f).position &&
    l.to == ps[l.j].position &&
    l.distance == f.dist(l.from, l.to) &&
    l.distance < LinkDistance
  }

  /** (i, j) order of the scan. */
  predicate ScansBefore(a: Link, b: Link) {
    a.i < b.i || (a.i == b.i && a.j < b.j)
  }

  /** How RowLinks grows by one candidate. */
  lemma RowLinksStep(ps: seq<Particle>, i: nat, from: Vec3, j: nat, dist: (Vec3, Vec3) -> real)
    requires i + 1 <= j < |ps|
    ensures var d := dist(from, ps[j].position);
      RowLinks(ps, i, from, j + 1, dist) ==
        if d < LinkDistance then RowLinks(ps, i, from, j, dist) + [Link(i, j, from, ps[j].position, d)]
        else RowLinks(ps, i, from, j, dist)
  {
  }

  /** `row` holds links of row i with partners before j, in increasing j. */
  ghost predicate RowSound(ps: seq<Particle>, f: Frame, i: nat, j: nat, row: seq<Link>) {
    (forall a :: 0 <= a < |row| ==> LinkOf(ps, f, row[a]) && row[a].i == i && row[a].j < j) &&
    (forall a, b :: 0 <= a < b < |row| ==> row[a].j < row[b].j)
  }

  /** `links` holds links of rows before i, in strictly increasing (i, j) order. */
  ghost predicate ScanSound(ps: seq<Particle>, f: Frame, i: nat, links: seq<Link>) {
    (forall a :: 0 <= a < |links| ==> LinkOf(ps, f, links[a]) && links[a].i < i) &&
    (forall a, b :: 0 <= a < b < |links| ==> ScansBefore(links[a], links[b]))
  }

  /** `links` holds a link for the pair (i, k). */
  predicate HasPair(links: seq<Link>, i: nat, k: nat) {
    exists a :: 0 <= a < |links| && links[a].i == i && links[a].j == k
  }

  /** `row` pairs i, at `from`, with particles i+1 .. j-1 closer than 10,
      as measured by `dist`, in increasing j. */
  ghost predicate RowShape(ps: seq<Particle>, i: nat, from: Vec3, j: nat, dist: (Vec3, Vec3) -> real, row: seq<Link>) {
    j <= |ps| &&
    (forall a :: 0 <= a < |row| ==>
      row[a].i == i && i < row[a].j < j && row[a].from == from && row[a].to == ps[row[a].j].position &&
      row[a].distance == dist(from, row[a].to) && row[a].distance < LinkDistance) &&
    (forall a, b :: 0 <= a < b < |row| ==> row[a].j < row[b].j)
  }

  lemma {:induction false} RowLinksShape(ps: seq<Particle>, i: nat, from: Vec3, j: nat, dist: (Vec3, Vec3) -> real)
    requires j <= |ps|
    ensures RowShape(ps, i, from, j, dist, RowLinks(ps, i, from, j, dist))
    decreases j
  {
    if j > i + 1 {
      RowLinksShape(ps, i, from, j - 1, dist);
      var prev := RowLinks(ps, i, from, j - 1, dist);
      var row := RowLinks(ps, i, from, j, dist);
      var d := dist(from, ps[j - 1].position);
      if d < LinkDistance {
        assert row == prev + [Link(i, j - 1, from, ps[j - 1].position, d)];
        forall a, b | 0 <= a < b < |row|
          ensures row[a].j < row[b].j
        {
          assert row[a] == prev[a];
        }
      }
    }
  }

  lemma RowLinksSound(ps: seq<Particle>, f: Frame, i: nat, j: nat)
    requires i < |ps| && j <= |ps|
    ensures RowSound(ps, f, i, j, RowLinks(ps, i, Moved(ps[i], f).position, j, f.dist))
  {
    RowLinksShape(ps, i, Moved(ps[i], f).position, j, f.dist);
  }

  /** Appending row r to the links of the rows before it keeps the scan sound. */
  lemma ScanExtend(ps: seq<Particle>, f: Frame, r: nat, prev: seq<Link>, row: seq<Link>)
    requires ScanSound(ps, f, r, prev) && RowSound(ps, f, r, |ps|, row)
    ensures ScanSound(ps, f, r + 1, prev + row)
  {
    var links := prev + row;
    forall a | 0 <= a < |links|
      ensures LinkOf(ps, f, links[a]) && links[a].i < r + 1
    {
      if a >= |prev| {
        assert links[a] == row[a - |prev|];
      }
    }
    forall a, b | 0 <= a < b < |links|
      ensures ScansBefore(links[a], links[b])
    {
      if b < |prev| {
        assert links[a] == prev[a] && links[b] == prev[b];
      } else if a >= |prev| {
        assert links[a] == row[a - |prev|] && links[b] == row[b - |prev|];
      } else {
        assert links[a] == prev[a] && links[b] == row[b - |prev|];
      }
    }
  }

  lemma {:induction false} LinksBeforeSound(ps: seq<Particle>, f: Frame, i: nat)
    requires i <= |ps|
    ensures ScanSound(ps, f, i, LinksBefore(ps, f, i))
  {
    if i > 0 {
      var r: nat := i - 1;
      var prev := LinksBefore(ps, f, r);
      var row := RowLinks(ps, r, Moved(ps[r], f).position, |ps|, f.dist);
      assert LinksBefore(ps, f, i) == prev + row;
      LinksBeforeSound(ps, f, r);
      RowLinksSound(ps, f, r, |ps|);
      ScanExtend(ps, f, r, prev, row);
    }
  }

  /** Only pairs i < j closer than 10 get a link, with the endpoints the
      scan saw, and links come in strictly increasing (i, j) order. */
  lemma FrameLinksSound(ps: seq<Particle>, f: Frame)
    ensures forall a :: 0 <= a < |FrameLinks(ps, f)| ==> LinkOf(ps, f, FrameLinks(ps, f)[a])
    ensures forall a, b :: 0 <= a < b < |FrameLinks(ps, f)| ==> ScansBefore(FrameLinks(ps, f)[a], FrameLinks(ps, f)[b])
  {
    LinksBeforeSound(ps, f, |ps|);
  }

  lemma {:induction false} RowLinksComplete(ps: seq<Particle>, f: Frame, i: nat, j: nat, k: nat)
    requires i < k < j <= |ps|
    requires f.dist(Moved(ps[i], f).position, ps[k].position) < LinkDistance
    ensures HasPair(RowLinks(ps, i, Moved(ps[i], f).position, j, f.dist), i, k)
    decreases j
  {
    var from := Moved(ps[i], f).position;
    var row := RowLinks(ps, i, from, j, f.dist);
    var prev := RowLinks(ps, i, from, j - 1, f.dist);
    RowLinksStep(ps, i, from, j - 1, f.dist);
    if k == j - 1 {
      assert row[|row| - 1].i == i && row[|row| - 1].j == k;
    } else {
      RowLinksComplete(ps, f, i, j - 1, k);
      var a :| 0 <= a < |prev| && prev[a].i == i && prev[a].j == k;
      assert row[a] == prev[a];
    }
  }

  lemma {:induction false} LinksBeforeComplete(ps: seq<Particle>, f: Frame, n: nat, i: nat, k: nat)
    requires i < n <= |ps| && i < k < |ps|
    requires f.dist(Moved(ps[i], f).position, ps[k].position) < LinkDistance
    ensures HasPair(LinksBefore(ps, f, n), i, k)
  {
    var r: nat := n - 1;
    var links := LinksBefore(ps, f, n);
    var prev := LinksBefore(ps, f, r);
    var row := RowLinks(ps, r, Moved(ps[r], f).position, |ps|, f.dist);
    assert links == prev + row;
    if i == r {
      RowLinksComplete(ps, f, i, |ps|, k);
      var a :| 0 <= a < |row| && row[a].i == i && row[a].j == k;
      assert links[|prev| + a] == row[a];
    } else {
      LinksBeforeComplete(ps, f, r, i, k);
      var a :| 0 <= a < |prev| && prev[a].i == i && prev[a].j == k;
      assert links[a] == prev[a];
    }
  }

  /** Every pair i < j whose distance at scan time is below 10 is found. */
  lemma FrameLinksComplete(ps: seq<Particle>, f: Frame, i: nat, j: nat)
    requires i < j < |ps|
    requires f.dist(Moved(ps[i], f).position, ps[j].position) < LinkDistance
    ensures HasPair(FrameLinks(ps, f), i, j)
  {
    LinksBeforeComplete(ps, f, |ps|, i, j);
  }

  /** A row's links depend only on the particles after the row's own. */
  lemma {:induction false} RowLinksReadLater(ps: seq<Particle>, qs: seq<Particle>, i: nat, from: Vec3, j: nat, dist: (Vec3, Vec3) -> real)
    requires j <= |ps| && j <= |qs|
    requires forall k :: i < k < j ==> ps[k] == qs[k]
    ensures RowLinks(ps, i, from, j, dist) == RowLinks(qs, i, from, j, dist)
    decreases j
  {
    if j > i + 1 {
      RowLinksReadLater(ps, qs, i, from, j - 1, dist);
    }
  }

  /** The particles of `createParticles`, one per 9 draws. */
  method InitialParticles(draws: seq<real>, pi: real) returns (ps: array<Particle>)
    requires |draws| == 9 * ParticleCount
    ensures fresh(ps) && ps.Length == ParticleCount
    ensures forall i :: 0 <= i < ParticleCount ==> ps[i] == InitialParticle(draws, i, pi)
  {
    ps := new Particle[ParticleCount];
    for i := 0 to ParticleCount
      invariant forall k :: 0 <= k < i ==> ps[k] == InitialParticle(draws, k, pi)
    {
      ps[i] := InitialParticle(draws, i, pi);
    }
  }

  /** The pool of `createConnections`: every slot hidden, at the origin. */
  method HiddenPool() returns (pool: array<Line>)
    ensures fresh(pool) && pool.Length == PoolSize
    ensures forall k :: 0 <= k < PoolSize ==> pool[k] == Line(Origin, Origin, false)
  {
    pool := new Line[PoolSize];
    for k := 0 to PoolSize
      invariant forall m :: 0 <= m < k ==> pool[m] == Line(Origin, Origin, false)
    {
      pool[k] := Line(Origin, Origin, false);
    }
  }

  /** Writes particle i's position, colour (from its colour draw 9i+3)
      and size into the geometry buffers. */
  method FillBuffers(ps: array<Particle>, draws: seq<real>, pos: array<real>, col: array<real>, sz: array<real>)
    requires pos.Length == 3 * ps.Length && col.Length == 3 * ps.Length && sz.Length == ps.Length
    requires |draws| == 9 * ps.Length
    requires pos != col && pos != sz && col != sz
    modifies pos, col, sz
    ensures forall i :: 0 <= i < ps.Length ==> BufferHolds(pos[..], i, ps[i].position)
    ensures forall i :: 0 <= i < ps.Length ==> BufferHolds(col[..], i, Tint(draws[9 * i + 3]))
    ensures forall i :: 0 <= i < ps.Length ==> sz[i] == ps[i].originalSize
  {
    for i := 0 to ps.Length
      invariant forall k :: 0 <= k < i ==> BufferHolds(pos[..], k, ps[k].position)
    {
      var v := ps[i].position;
      pos[3 * i], pos[3 * i + 1], pos[3 * i + 2] := v.x, v.y, v.z;
    }
    for i := 0 to ps.Length
      invariant forall k :: 0 <= k < i ==> BufferHolds(col[..], k, Tint(draws[9 * k + 3]))
      invariant forall k :: 0 <= k < ps.Length ==> BufferHolds(pos[..], k, ps[k].position)
    {
      var t := Tint(draws[9 * i + 3]);
      col[3 * i], col[3 * i + 1], col[3 * i + 2] := t.x, t.y, t.z;
    }
    for i := 0 to ps.Length
      invariant forall k :: 0 <= k < i ==> sz[k] == ps[k].originalSize
      invariant forall k :: 0 <= k < ps.Length ==> BufferHolds(pos[..], k, ps[k].position)
      invariant forall k :: 0 <= k < ps.Length ==> BufferHolds(col[..], k, Tint(draws[9 * k + 3]))
    {
      sz[i] := ps[i].originalSize;
    }
  }

  class ParticleSystem {
    const particles: array<Particle>
    /** The geometry's position, colour and size attributes. */
    const positions: array<real>
    const colors: array<real>
    const sizes: array<real>
    /** The line slots of the connection pool. */
    const lines: array<Line>
    /** The opacity of the one material every pooled line shares. */
    var lineOpacity: real
    /** The mouse in normalised device coordinates. */
    var mouse: (real, real)

    ghost predicate Valid() {
      positions.Length == 3 * particles.Length &&
      colors.Length == 3 * particles.Length &&
      sizes.Length == particles.Length &&
      lines.Length == PoolSize &&
      positions != colors && positions != sizes && colors != sizes
    }

    /** Creates the particles from 9 draws each, and the 100 hidden slots. */
    constructor (draws: seq<real>, pi: real)
      requires |draws| == 9 * ParticleCount
      ensures Valid() && particles.Length == ParticleCount
      ensures fresh(particles) && fresh(positions) && fresh(colors) && fresh(sizes) && fresh(lines)
      ensures forall i :: 0 <= i < ParticleCount ==> particles[i] == InitialParticle(draws, i, pi)
      ensures forall i :: 0 <= i < ParticleCount ==> BufferHolds(positions[..], i, particles[i].position)
      ensures forall i :: 0 <= i < ParticleCount ==> BufferHolds(colors[..], i, Tint(draws[9 * i + 3]))
      ensures forall i :: 0 <= i < ParticleCount ==> sizes[i] == particles[i].originalSize
      ensures forall k :: 0 <= k < PoolSize ==> lines[k] == Line(Origin, Origin, false)
      ensures lineOpacity == DefaultLineOpacity && mouse == (0.0, 0.0)
    {
      var ps := InitialParticles(draws, pi);
      var pos := new real[3 * ParticleCount];
      var col := new real[3 * ParticleCount];
      var sz := new real[ParticleCount];
      FillBuffers(ps, draws, pos, col, sz);
      var pool := HiddenPool();
      particles, positions, colors, sizes, lines := ps, pos, col, sz, pool;
      lineOpacity := DefaultLineOpacity;
      mouse := (0.0, 0.0);
    }

    /** Moves particle i and writes its position and pulsed size. */
    method MoveParticle(i: nat, f: Frame)
      requires Valid() && i < particles.Length
      modifies particles, positions, sizes
      ensures particles[i] == Moved(old(particles[i]), f)
      ensures forall k :: 0 <= k < particles.Length && k != i ==> particles[k] == old(particles[k])
      ensures BufferHolds(positions[..], i, particles[i].position)
      ensures forall k :: 0 <= k < positions.Length && (k < 3 * i || 3 * i + 3 <= k) ==> positions[k] == old(positions[k])
      ensures sizes[i] == PulsedSize(old(particles[i]), f)
      ensures forall k :: 0 <= k < sizes.Length && k != i ==> sizes[k] == old(sizes[k])
    {
      var p := Moved(particles[i], f);
      particles[i] := p;
      positions[3 * i] := p.position.x;
      positions[3 * i + 1] := p.position.y;
      positions[3 * i + 2] := p.position.z;
      sizes[i] := PulsedSize(p, f);
    }

    /** Scans row i: each later particle closer than 10 to particle i
        claims the next free slot, while one is left. */
    method ScanRow(i: nat, f: Frame, claimed: nat, ghost before: seq<Line>, ghost found: seq<Link>, ghost opacity0: real)
      returns (claimed': nat)
      requires Valid() && i < particles.Length
      requires Scanned(before, found, opacity0, claimed)
      modifies lines, this`lineOpacity
      ensures Scanned(before, found + RowLinks(particles[..], i, particles[i].position, particles.Length, f.dist), opacity0, claimed')
    {
      claimed' := claimed;
      ghost var ps := particles[..];
      var from := particles[i].position;
      var j := i + 1;
      while j < particles.Length
        invariant i + 1 <= j <= particles.Length && particles[..] == ps
        invariant Scanned(before, found + RowLinks(ps, i, from, j, f.dist), opacity0, claimed')
      {
        var to := particles[j].position;
        var d := f.dist(from, to);
        ghost var current := found + RowLinks(ps, i, from, j, f.dist);
        RowLinksStep(ps, i, from, j, f.dist);
        assert to == ps[j].position;
        assert found + RowLinks(ps, i, from, j + 1, f.dist) ==
          if d < LinkDistance then current + [Link(i, j, from, to, d)] else current;
        claimed' := ClaimSlot(Link(i, j, from, to, d), claimed', before, current, opacity0);
        j := j + 1;
      }
    }

    /** The pool and the shared opacity after scanning `found`, of which
        `claimed` links got a slot. */
    ghost predicate Scanned(before: seq<Line>, found: seq<Link>, opacity0: real, claimed: nat)
      reads this, lines
    {
      claimed == Min(|found|, PoolSize) &&
      PoolAfterScan(lines[..], before, found) &&
      lineOpacity == OpacityAfterScan(opacity0, found, PoolSize)
    }

    /** One candidate pair of the inner loop: a pair closer than 10 takes
        the next free slot while there is one, and sets the shared opacity. */
    method ClaimSlot(l: Link, claimed: nat, ghost before: seq<Line>, ghost found: seq<Link>, ghost opacity0: real)
      returns (claimed': nat)
      requires Valid() && Scanned(before, found, opacity0, claimed)
      modifies lines, this`lineOpacity
      ensures Scanned(before, if l.distance < LinkDistance then found + [l] else found, opacity0, claimed')
    {
      claimed' := claimed;
      if l.distance < LinkDistance && claimed < lines.Length {
        lines[claimed] := Line(l.from, l.to, true);
        lineOpacity := (1.0 - l.distance / 10.0) * 0.3;
        claimed' := claimed + 1;
      }
    }

    /** Hides every slot from `claimed` on. */
    method HideUnclaimed(claimed: nat, ghost links: seq<Link>, ghost before: seq<Line>)
      requires Valid()
      requires claimed == Min(|links|, PoolSize)
      requires PoolAfterScan(lines[..], before, links)
      modifies lines
      ensures forall k :: 0 <= k < PoolSize ==> lines[k] == SlotAfterFrame(before[k], links, k)
    {
      var k := claimed;
      while k < lines.Length
        invariant claimed <= k <= PoolSize
        invariant forall m :: 0 <= m < PoolSize ==>
          lines[m] == if m < k then SlotAfterFrame(before[m], links, m) else before[m]
        invariant forall m :: 0 <= m < claimed ==> lines[m] == Claimed(links[m])
      {
        lines[k] := lines[k].(visible := false);
        k := k + 1;
      }
    }

    /** The state after rows 0 .. i-1 of a frame that started from
        particles ps0, pool lines0 and opacity opacity0. */
    /** Rows before i are moved and written to the buffers; the rest are as at the frame's start. */
    ghost predicate RowsMoved(ps0: seq<Particle>, f: Frame, i: nat)
      reads this, particles, positions, sizes
    {
      Valid() && i <= particles.Length == |ps0| &&
      (forall k :: 0 <= k < i ==> particles[k] == Moved(ps0[k], f)) &&
      (forall k :: i <= k < |ps0| ==> particles[k] == ps0[k]) &&
      (forall k :: 0 <= k < i ==> BufferHolds(positions[..], k, particles[k].position)) &&
      (forall k :: 0 <= k < i ==> sizes[k] == PulsedSize(ps0[k], f))
    }

    /** Moving particle i extends the moved rows by one. */
    method MoveRow(i: nat, f: Frame, ghost ps0: seq<Particle>)
      requires RowsMoved(ps0, f, i) && i < particles.Length
      modifies particles, positions, sizes
      ensures RowsMoved(ps0, f, i + 1)
    {
      MoveParticle(i, f);
    }

    /** Row i of the frame: move particle i, then scan its later partners. */
    method FrameRow(i: nat, f: Frame, claimed: nat, ghost ps0: seq<Particle>, ghost lines0: seq<Line>, ghost opacity0: real)
      returns (claimed': nat)
      requires RowsMoved(ps0, f, i) && i < particles.Length
      requires Scanned(lines0, LinksBefore(ps0, f, i), opacity0, claimed)
      modifies particles, positions, sizes, lines, this`lineOpacity
      ensures RowsMoved(ps0, f, i + 1)
      ensures Scanned(lines0, LinksBefore(ps0, f, i + 1), opacity0, claimed')
    {
      ghost var found := LinksBefore(ps0, f, i);
      MoveRow(i, f, ps0);
      claimed' := ScanRow(i, f, claimed, lines0, found, opacity0);
      RowLinksReadLater(particles[..], ps0, i, Moved(ps0[i], f).position, particles.Length, f.dist);
      assert LinksBefore(ps0, f, i + 1) == found + RowLinks(particles[..], i, particles[i].position, particles.Length, f.dist);
    }

    /** One frame of `updateParticles`. Returns how many slots were claimed. */
    method UpdateParticles(f: Frame) returns (claimed: nat)
      requires Valid()
      modifies particles, positions, sizes, lines, this`lineOpacity
      ensures forall k :: 0 <= k < particles.Length ==> particles[k] == Moved(old(particles[k]), f)
      ensures forall k :: 0 <= k < particles.Length ==> BufferHolds(positions[..], k, particles[k].position)
      ensures forall k :: 0 <= k < particles.Length ==> sizes[k] == PulsedSize(old(particles[k]), f)
      ensures claimed == Min(|FrameLinks(old(particles[..]), f)|, PoolSize)
      ensures forall k :: 0 <= k < PoolSize ==> lines[k] == SlotAfterFrame(old(lines[k]), FrameLinks(old(particles[..]), f), k)
      ensures lineOpacity == OpacityAfterScan(old(lineOpacity), FrameLinks(old(particles[..]), f), PoolSize)
    {
      ghost var ps0 := particles[..];
      ghost var lines0 := lines[..];
      ghost var opacity0 := lineOpacity;
      claimed := 0;
      var i := 0;
      while i < particles.Length
        invariant RowsMoved(ps0, f, i)
        invariant Scanned(lines0, LinksBefore(ps0, f, i), opacity0, claimed)
      {
        claimed := FrameRow(i, f, claimed, ps0, lines0, opacity0);
        i := i + 1;
      }
      FinishFrame(claimed, f, ps0, lines0, opacity0);
    }

    /** After the last row: hide the slots no link claimed. */
    method FinishFrame(claimed: nat, f: Frame, ghost ps0: seq<Particle>, ghost lines0: seq<Line>, ghost opacity0: real)
      requires RowsMoved(ps0, f, particles.Length)
      requires Scanned(lines0, LinksBefore(ps0, f, particles.Length), opacity0, claimed)
      modifies lines
      ensures forall k :: 0 <= k < particles.Length ==> particles[k] == Moved(ps0[k], f)
      ensures forall k :: 0 <= k < particles.Length ==> BufferHolds(positions[..], k, particles[k].position)
      ensures forall k :: 0 <= k < particles.Length ==> sizes[k] == PulsedSize(ps0[k], f)
      ensures claimed == Min(|FrameLinks(ps0, f)|, PoolSize)
      ensures forall k :: 0 <= k < PoolSize ==> lines[k] == SlotAfterFrame(lines0[k], FrameLinks(ps0, f), k)
      ensures lineOpacity == OpacityAfterScan(opacity0, FrameLinks(ps0, f), PoolSize)
    {
      HideUnclaimed(claimed, FrameLinks(ps0, f), lines0);
    }

    /** `onMouseMove`: the mouse's world position is (50 mx, 50 my, 0);
        every particle closer than 20 to it is pushed away from it. */
    method OnMouseMove(clientX: real, clientY: real, width: real, height: real,
                       dist: (Vec3, Vec3) -> real, normalize: Vec3 -> Vec3)
      requires Valid() && width > 0.0 && height > 0.0
      modifies particles, this`mouse
      ensures mouse == ((clientX / width) * 2.0 - 1.0, -(clientY / height) * 2.0 + 1.0)
      ensures forall k :: 0 <= k < particles.Length ==>
        particles[k] == Nudged(old(particles[k]), MouseWorld(mouse), dist, normalize)
    {
      var m := ((clientX / width) * 2.0 - 1.0, -(clientY / height) * 2.0 + 1.0);
      mouse := m;
      var target := MouseWorld(m);
      for k := 0 to particles.Length
        invariant mouse == m
        invariant forall m :: 0 <= m < k ==> particles[m] == Nudged(old(particles[m]), target, dist, normalize)
        invariant forall m :: k <= m < particles.Length ==> particles[m] == old(particles[m])
      {
        particles[k] := Nudged(particles[k], target, dist, normalize);
      }
    }
  }

  /** The mouse position in world coordinates. */
  function MouseWorld(m: (real, real)): (w: Vec3)
    ensures w.z == 0.0
    ensures -1.0 <= m.0 <= 1.0 && -1.0 <= m.1 <= 1.0 ==> -50.0 <= w.x <= 50.0 && -50.0 <= w.y <= 50.0
  {
    Vec3(m.0 * 50.0, m.1 * 50.0, 0.0)
  }

  /** The length of the impulse a particle at distance d receives. */
  function Impulse(d: real): (k: real)
    ensures 0.0 <= d < MouseRadius ==> 0.0 < k <= 0.1
  {
    (1.0 - d / 20.0) * 0.1
  }

  /** A particle under the mouse's influence: within the radius, the unit
      vector pointing away from the mouse, scaled by Impulse, is added to
      its velocity; nothing else about it changes. */
  function Nudged(p: Particle, target: Vec3, dist: (Vec3, Vec3) -> real, normalize: Vec3 -> Vec3): (q: Particle)
    ensures q.position == p.position && q.originalSize == p.originalSize && q.phase == p.phase
    ensures dist(p.position, target) >= MouseRadius ==> q == p
    ensures dist(p.position, target) < MouseRadius ==>
      q.velocity == Add(p.velocity, Scale(normalize(Sub(p.position, target)), Impulse(dist(p.position, target))))
  {
    var d := dist(p.position, target);
    if d < MouseRadius then
      p.(velocity := Add(p.velocity, Scale(normalize(Sub(p.position, target)), Impulse(d))))
    else p
  }
}
