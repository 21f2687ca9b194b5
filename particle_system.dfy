// The smoke emitter's particle store: a fixed array of 4·nParticles vertex
// slots (four per particle) used as a circular queue. The live particles
// form the window of nActive slots that starts at slot activeStart and
// wraps around the end of the array. New particles join at the back of the
// window; expired ones leave from the front.

module Particles {

  import opened Quads

  /** One vertex of a particle quad; the shader moves it along
      `direction` at `speed` from the moment `startTime`. */
  datatype ParticleVertex = ParticleVertex(
    startPosition: Vec3,
    uv: Vec2,
    direction: Vec3,
    speed: real,
    startTime: real)

  /** A slot that has never held a particle: corner c of an unused quad. */
  function IdleVertex(c: int): (v: ParticleVertex)
    requires 0 <= c < 4
    ensures v.uv == CornerUV(c) && v.speed == 0.0 && v.startTime == -1.0
    ensures v.startPosition == Zero3 && v.direction == Zero3
  {
    ParticleVertex(Zero3, CornerUV(c), Zero3, 0.0, -1.0)
  }

  /** The four vertices of an unused quad, one per corner. */
  function IdleQuad(): (r: seq<ParticleVertex>)
    ensures |r| == 4
    ensures forall c :: 0 <= c < 4 ==> r[c] == IdleVertex(c)
  {
    [ParticleVertex(Zero3, Vec2(0.0, 0.0), Zero3, 0.0, -1.0),
     ParticleVertex(Zero3, Vec2(0.0, 1.0), Zero3, 0.0, -1.0),
     ParticleVertex(Zero3, Vec2(1.0, 1.0), Zero3, 0.0, -1.0),
     ParticleVertex(Zero3, Vec2(1.0, 0.0), Zero3, 0.0, -1.0)]
  }

  /** The vertex table of n unused quads. */
  function IdleVertices(n: nat): (r: seq<ParticleVertex>)
    ensures |r| == 4 * n
  {
    if n == 0 then [] else IdleVertices(n - 1) + IdleQuad()
  }

  /** Corner c of every quad of the initial table is the idle corner c. */
  lemma {:induction false} IdleVerticesAt(n: nat, q: int, c: int)
    requires 0 <= q < n && 0 <= c < 4
    ensures VertexSlot(q, c) < 4 * n
    ensures IdleVertices(n)[VertexSlot(q, c)] == IdleVertex(c)
  {
    if q < n - 1 {
      IdleVerticesAt(n - 1, q, c);
      assert IdleVertices(n) == IdleVertices(n - 1) + IdleQuad();
    }
  }

  /** Writes the four vertices of an unused quad at slots i .. i+3. */
  method PutIdleQuad(particles: array<ParticleVertex>, i: int)
    requires 0 <= i && i + 4 <= particles.Length
    modifies particles
    ensures particles[..i + 4] == old(particles[..i]) + IdleQuad()
    ensures particles[i + 4..] == old(particles[i + 4..])
  {
    particles[i + 0] := ParticleVertex(Zero3, Vec2(0.0, 0.0), Zero3, 0.0, -1.0);
    particles[i + 1] := ParticleVertex(Zero3, Vec2(0.0, 1.0), Zero3, 0.0, -1.0);
    particles[i + 2] := ParticleVertex(Zero3, Vec2(1.0, 1.0), Zero3, 0.0, -1.0);
    particles[i + 3] := ParticleVertex(Zero3, Vec2(1.0, 0.0), Zero3, 0.0, -1.0);
    assert particles[..i + 4] == particles[..i] + particles[i..i + 4];
  }

  /** The vertex `v` after a particle is spawned into it: every setting
      but the texture coordinate is replaced. */
  function Spawned(v: ParticleVertex, position: Vec3, direction: Vec3, speed: real, now: real): (w: ParticleVertex)
    ensures w.uv == v.uv && w.startTime == now
    ensures w.startPosition == position && w.direction == direction && w.speed == speed
  {
    v.(startPosition := position, direction := direction, speed := speed, startTime := now)
  }

  /** The slots `s` after a particle is spawned into the four slots from p on. */
  function SpawnQuad(s: seq<ParticleVertex>, p: int, position: Vec3, direction: Vec3, speed: real, now: real): (r: seq<ParticleVertex>)
    ensures |r| == |s|
  {
    seq(|s|, j requires 0 <= j < |s| =>
      if p <= j < p + 4 then Spawned(s[j], position, direction, speed, now) else s[j])
  }

  /** Spawning writes the particle's settings into exactly the four slots
      from p on, keeps their texture coordinates, and leaves every other
      slot as it was. */
  lemma SpawnQuadSlots(s: seq<ParticleVertex>, p: int, position: Vec3, direction: Vec3, speed: real, now: real, j: int)
    requires 0 <= j < |s|
    ensures p <= j < p + 4 ==>
              SpawnQuad(s, p, position, direction, speed, now)[j].startPosition == position &&
              SpawnQuad(s, p, position, direction, speed, now)[j].direction == direction &&
              SpawnQuad(s, p, position, direction, speed, now)[j].speed == speed &&
              SpawnQuad(s, p, position, direction, speed, now)[j].startTime == now &&
              SpawnQuad(s, p, position, direction, speed, now)[j].uv == s[j].uv
    ensures !(p <= j < p + 4) ==> SpawnQuad(s, p, position, direction, speed, now)[j] == s[j]
  {
  }

  /** Index x (with x < 2·length) brought back into [0, length) by one wrap. */
  function Wrap(x: int, length: int): int
  {
    if x < length then x else x - length
  }

  /** The len slots of `s` that start at `start`, in queue order, wrapping
      around the end of `s`. */
  function Ring<T>(s: seq<T>, start: int, len: int): (r: seq<T>)
    requires 0 <= start < |s| && 0 <= len <= |s|
    ensures |r| == len
  {
    seq(len, j requires 0 <= j < len => s[Wrap(start + j, |s|)])
  }

  /** Dropping k slots from the front of a window is the window that starts
      k slots later. */
  lemma RingDrop<T>(s: seq<T>, start: int, len: int, k: int)
    requires 0 <= start < |s| && 0 <= k <= len <= |s|
    ensures 0 <= Wrap(start + k, |s|) < |s|
    ensures Ring(s, Wrap(start + k, |s|), len - k) == Ring(s, start, len)[k..]
  {
    var w, w' := Ring(s, start, len), Ring(s, Wrap(start + k, |s|), len - k);
    forall j | 0 <= j < len - k
      ensures w'[j] == w[k + j]
    {
      assert w'[j] == s[Wrap(Wrap(start + k, |s|) + j, |s|)];
      assert w[k + j] == s[Wrap(start + (k + j), |s|)];
      assert Wrap(Wrap(start + k, |s|) + j, |s|) == Wrap(start + (k + j), |s|);
    }
  }

  /** Spawning into the four slots just behind a window leaves the window as
      it was and extends it by those four slots. */
  lemma RingAppend(s: seq<ParticleVertex>, start: int, len: int,
                   position: Vec3, direction: Vec3, speed: real, now: real)
    requires 0 <= start < |s| && 0 <= len && len + 4 <= |s|
    requires Wrap(start + len, |s|) + 4 <= |s|
    ensures var p, s' := Wrap(start + len, |s|), SpawnQuad(s, Wrap(start + len, |s|), position, direction, speed, now);
            Ring(s', start, len + 4) == Ring(s, start, len) + s'[p..p + 4]
  {
    var p := Wrap(start + len, |s|);
    var s' := SpawnQuad(s, p, position, direction, speed, now);
    var w, w' := Ring(s, start, len), Ring(s', start, len + 4);
    forall j | 0 <= j < len
      ensures w'[j] == w[j]
    {
      assert !(p <= Wrap(start + j, |s|) < p + 4);
    }
    forall j | len <= j < len + 4
      ensures w'[j] == s'[p..p + 4][j - len]
    {
      assert w'[j] == s'[Wrap(start + j, |s|)];
      assert Wrap(start + j, |s|) == p + (j - len);
    }
  }

  /** Length of the longest prefix of `w` whose slots started before `cutoff`. */
  function ExpiredPrefix(w: seq<ParticleVertex>, cutoff: real): (k: nat)
    ensures k <= |w|
    ensures forall j :: 0 <= j < k ==> w[j].startTime < cutoff
    ensures k < |w| ==> w[k].startTime >= cutoff
  {
    if w == [] || w[0].startTime >= cutoff then 0
    else 1 + ExpiredPrefix(w[1..], cutoff)
  }

  /** The slots form whole quads: corner c of quad q carries texture
      coordinate CornerUV(c), and all four corners share one start time. */
  ghost predicate WholeQuads(s: seq<ParticleVertex>)
  {
    |s| % 4 == 0 &&
    forall q, c :: 0 <= q < |s| / 4 && 0 <= c < 4 ==>
      s[VertexSlot(q, c)].uv == CornerUV(c) &&
      s[VertexSlot(q, c)].startTime == s[VertexSlot(q, 0)].startTime
  }

  /** A multiple of four below another multiple of four leaves room for a whole quad. */
  lemma QuadFits(p: int, length: int)
    requires 0 <= p < length && p % 4 == 0 && length % 4 == 0
    ensures p + 4 <= length
  {
    var qp, ql := p / 4, length / 4;
    assert p == 4 * qp && length == 4 * ql;
  }

  /** Removing whole quads from whole quads leaves whole quads. */
  lemma AlignedDiff(a: int, b: int)
    requires a % 4 == 0 && b % 4 == 0
    ensures (a - b) % 4 == 0
  {
    var qa, qb := a / 4, b / 4;
    assert a - b == 4 * (qa - qb);
  }

  /** One wrap keeps an index aligned to a quad boundary. */
  lemma WrapAligned(x: int, length: int)
    requires x % 4 == 0 && length % 4 == 0
    ensures Wrap(x, length) % 4 == 0
  {
    var qx, ql := x / 4, length / 4;
    assert x == 4 * qx && length == 4 * ql;
    assert x - length == 4 * (qx - ql);
  }

  /** In a window of whole particles, expiry removes whole particles. */
  lemma ExpiredPrefixAligned(w: seq<ParticleVertex>, cutoff: real)
    requires WholeQuads(w)
    ensures ExpiredPrefix(w, cutoff) % 4 == 0
  {
    var k := ExpiredPrefix(w, cutoff);
    if k < |w| {
      assert k == VertexSlot(k / 4, k % 4);
      assert w[k].startTime == w[VertexSlot(k / 4, 0)].startTime;
    }
  }

  /** A prefix that is all expired and stops at a live slot (or at the end)
      is the expired prefix. */
  lemma ExpiredPrefixUnique(w: seq<ParticleVertex>, cutoff: real, k: int)
    requires 0 <= k <= |w|
    requires forall j :: 0 <= j < k ==> w[j].startTime < cutoff
    requires k < |w| ==> w[k].startTime >= cutoff
    ensures ExpiredPrefix(w, cutoff) == k
  {
  }

  /** Euclidean remainder after one wrap. */
  lemma ModWrap(x: int, length: int)
    requires 0 <= x < 2 * length
    ensures x % length == Wrap(x, length)
  {
    if length <= x {
      assert x == 1 * length + (x - length);
    }
  }

  /** The remainder is determined by any quotient-remainder decomposition. */
  lemma ModUnique(x: int, length: int, q: int, r: int)
    requires 0 < length && 0 <= r < length && x == q * length + r
    ensures x % length == r
  {
    var d := q - x / length;
    assert d * length == x % length - r;
    assert d >= 1 ==> d * length >= length;
    assert d <= -1 ==> d * length <= -length;
  }

  /** Stepping a remainder by one wraps to zero at the end. */
  lemma ModSucc(x: int, length: int)
    requires 0 <= x && 0 < length
    ensures (x + 1) % length == if x % length + 1 == length then 0 else x % length + 1
  {
    var q, r := x / length, x % length;
    if r + 1 == length {
      ModUnique(x + 1, length, q + 1, 0);
    } else {
      ModUnique(x + 1, length, q, r + 1);
    }
  }

  /** A window that starts on a quad boundary of an array of whole quads
      and holds whole quads is itself made of whole quads. */
  lemma RingWholeQuads(s: seq<ParticleVertex>, start: int, len: int)
    requires 0 <= start < |s| && 0 <= len <= |s|
    requires WholeQuads(s) && start % 4 == 0 && len % 4 == 0
    ensures WholeQuads(Ring(s, start, len))
  {
    var w := Ring(s, start, len);
    forall q, c | 0 <= q < len / 4 && 0 <= c < 4
      ensures w[VertexSlot(q, c)].uv == CornerUV(c)
      ensures w[VertexSlot(q, c)].startTime == w[VertexSlot(q, 0)].startTime
    {
      var p := Wrap(start + VertexSlot(q, 0), |s|);
      WrapAligned(start + VertexSlot(q, 0), |s|);
      QuadFits(p, |s|);
      assert Wrap(start + VertexSlot(q, c), |s|) == VertexSlot(p / 4, c);
      assert p == VertexSlot(p / 4, 0);
    }
  }

  /** The initial table is made of whole quads. */
  lemma IdleVerticesWhole(n: nat)
    ensures WholeQuads(IdleVertices(n))
  {
    forall q, c | 0 <= q < n && 0 <= c < 4
      ensures IdleVertices(n)[VertexSlot(q, c)].uv == CornerUV(c)
      ensures IdleVertices(n)[VertexSlot(q, c)].startTime == IdleVertices(n)[VertexSlot(q, 0)].startTime
    {
      IdleVerticesAt(n, q, c);
      IdleVerticesAt(n, q, 0);
    }
  }

  /** Spawning a particle into the aligned quad at slot p keeps whole quads. */
  lemma SpawnWholeQuads(s: seq<ParticleVertex>, p: int,
                        position: Vec3, direction: Vec3, speed: real, now: real)
    requires WholeQuads(s)
    requires 0 <= p && p % 4 == 0 && p + 4 <= |s|
    ensures WholeQuads(SpawnQuad(s, p, position, direction, speed, now))
  {
    var s' := SpawnQuad(s, p, position, direction, speed, now);
    forall q, c | 0 <= q < |s| / 4 && 0 <= c < 4
      ensures s'[VertexSlot(q, c)].uv == CornerUV(c)
      ensures s'[VertexSlot(q, c)].startTime == s'[VertexSlot(q, 0)].startTime
    {
      assert p <= VertexSlot(q, c) < p + 4 <==> q == p / 4;
      assert p <= VertexSlot(q, 0) < p + 4 <==> q == p / 4;
    }
  }

  /** What the retirement loop establishes about the window it scanned:
      it dropped exactly the expired prefix, a whole number of quads. */
  lemma RetiredPrefix(s: seq<ParticleVertex>, a0: int, end: int, k: int, cutoff: real)
    requires WholeQuads(s) && 0 <= a0 < |s| && a0 % 4 == 0
    requires 0 <= k <= end <= |s| && end % 4 == 0
    requires forall j :: 0 <= j < k ==> Ring(s, a0, end)[j].startTime < cutoff
    requires k < end ==> Ring(s, a0, end)[k].startTime >= cutoff
    ensures ExpiredPrefix(Ring(s, a0, end), cutoff) == k
    ensures k % 4 == 0 && (end - k) % 4 == 0
  {
    var w := Ring(s, a0, end);
    ExpiredPrefixUnique(w, cutoff, k);
    RingWholeQuads(s, a0, end);
    ExpiredPrefixAligned(w, cutoff);
    AlignedDiff(end, k);
  }

  /** ... and the window now starts that many slots later. */
  lemma RetiredWindow(s: seq<ParticleVertex>, a0: int, end: int, k: int)
    requires 0 <= a0 < |s| && a0 % 4 == 0 && |s| % 4 == 0
    requires 0 <= k <= end <= |s| && k % 4 == 0
    ensures 0 <= Wrap(a0 + k, |s|) < |s| && Wrap(a0 + k, |s|) % 4 == 0
    ensures Wrap(a0 + k, |s|) == (a0 + k) % |s|
    ensures Ring(s, Wrap(a0 + k, |s|), end - k) == Ring(s, a0, end)[k..]
  {
    ModWrap(a0 + k, |s|);
    AlignedDiff(a0, -k);
    WrapAligned(a0 + k, |s|);
    RingDrop(s, a0, end, k);
  }

  /** Where a new particle goes when the window of n slots starting at a
      leaves more than one quad free: an aligned quad that does not wrap. */
  lemma SpawnSlot(a: int, n: int, length: int)
    requires 0 <= a < length && 0 <= n && n + 4 < length
    requires a % 4 == 0 && n % 4 == 0 && length % 4 == 0
    ensures Wrap(a + n, length) == (a + n) % length
    ensures Wrap(a + n, length) % 4 == 0 && Wrap(a + n, length) + 4 <= length
    ensures (n + 4) % 4 == 0 && n + 8 <= length
  {
    ModWrap(a + n, length);
    WrapAligned(a + n, length);
    QuadFits(Wrap(a + n, length), length);
    AlignedDiff(n + 4, 4);
    AlignedDiff(length, n + 4);
    QuadFits(n + 4, length);
  }

  /** Spawning into the slot just behind a window of whole quads that
      leaves more than one quad free: the slot is the aligned quad
      (a + n) mod |s|, the slots stay whole quads, and the window grows by
      exactly the spawned quad. */
  lemma SpawnAtBack(s: seq<ParticleVertex>, a: int, n: int,
                    position: Vec3, direction: Vec3, speed: real, now: real)
    requires WholeQuads(s) && 0 <= a < |s| && 0 <= n && n + 4 < |s|
    requires a % 4 == 0 && n % 4 == 0
    ensures var p := Wrap(a + n, |s|);
            var s' := SpawnQuad(s, p, position, direction, speed, now);
            && p == (a + n) % |s| && p % 4 == 0 && p + 4 <= |s|
            && (n + 4) % 4 == 0 && n + 8 <= |s|
            && WholeQuads(s')
            && Ring(s', a, n + 4) == Ring(s, a, n) + s'[p..p + 4]
  {
    SpawnSlot(a, n, |s|);
    var p := Wrap(a + n, |s|);
    SpawnWholeQuads(s, p, position, direction, speed, now);
    RingAppend(s, a, n, position, direction, speed, now);
  }

  class ParticleSystem {
    const nParticles: nat
    const lifespan: real
    var particles: array<ParticleVertex>
    var indices: array<int>
    // Queue variables: the live window of the circular buffer.
    var activeStart: int
    var nActive: int

    /** The arrays: four vertex slots and six indices per particle, indices
        in quad layout, vertex slots in whole quads. */
    ghost predicate Layout()
      reads this`particles, this`indices, particles, indices
    {
      particles.Length == 4 * nParticles &&
      indices.Length == 6 * nParticles &&
      indices[..] == QuadIndices(nParticles) &&
      WholeQuads(particles[..])
    }

    /** The circular-queue invariant: the window starts on a quad boundary,
        holds whole quads, and always leaves at least one quad free. */
    ghost predicate Valid()
      reads this, particles, indices
    {
      Layout() &&
      activeStart % 4 == 0 && nActive % 4 == 0 && 0 <= nActive &&
      (nParticles == 0 ==> activeStart == 0 && nActive == 0) &&
      (nParticles > 0 ==> 0 <= activeStart < particles.Length && nActive <= 4 * (nParticles - 1))
    }

    /** The live slots, oldest first. */
    ghost function Window(): seq<ParticleVertex>
      reads this`particles, this`activeStart, this`nActive, particles
    {
      if 0 <= activeStart < particles.Length && 0 <= nActive <= particles.Length
      then Ring(particles[..], activeStart, nActive)
      else []
    }

    constructor (nParticles: nat, lifespan: real)
      ensures Valid()
      ensures this.nParticles == nParticles && this.lifespan == lifespan
      ensures activeStart == 0 && nActive == 0 && Window() == []
      ensures fresh(particles) && fresh(indices)
      ensures particles[..] == IdleVertices(nParticles)
    {
      this.nParticles := nParticles;
      this.lifespan := lifespan;
      activeStart, nActive := 0, 0;
      particles := new ParticleVertex[0];
      indices := new int[0];
      new;
      GenerateParticles();
      IdleVerticesWhole(nParticles);
    }

    /** Lays out 4·nParticles idle vertices and the quad index table. */
    method GenerateParticles()
      modifies this`particles, this`indices
      ensures fresh(particles) && fresh(indices)
      ensures particles.Length == 4 * nParticles && indices.Length == 6 * nParticles
      ensures particles[..] == IdleVertices(nParticles)
      ensures indices[..] == QuadIndices(nParticles)
    {
      particles := new ParticleVertex[nParticles * 4];
      indices := new int[nParticles * 6];
      var x := 0;
      var i := 0;
      ghost var q := 0;
      while i < nParticles * 4
        modifies particles, indices
        invariant 0 <= q <= nParticles && i == 4 * q && x == 6 * q
        invariant particles[..i] == IdleVertices(q)
        invariant indices[..x] == QuadIndices(q)
      {
        PutIdleQuad(particles, i);
        x := PutQuadIndices(indices, x, i);
        i := i + 4;
        q := q + 1;
      }
      assert particles[..] == particles[..i];
      assert indices[..] == indices[..x];
    }

    /** Index `count` slots after `start`, wrapping around the particle array. */
    method OffsetIndex(start: int, count: int) returns (r: int)
      requires 0 <= start < particles.Length && 0 <= count
      ensures r == (start + count) % particles.Length
      ensures 0 <= r < particles.Length
    {
      var length := particles.Length;
      r := start;
      ModUnique(start, length, 0, start);
      var i := 0;
      while i < count
        invariant 0 <= i <= count
        invariant 0 <= r < length && r == (start + i) % length
      {
        ModSucc(start + i, length);
        r := r + 1;
        if r == length {
          r := 0;
        }
        i := i + 1;
      }
    }

    /** Spawns a particle at time `now` into the four slots behind the
        window, or does nothing when only those four slots are free. */
    method AddParticle(position: Vec3, direction: Vec3, speed: real, now: real)
      requires Valid() && nParticles > 0
      modifies this`nActive, particles
      ensures Valid()
      ensures activeStart == old(activeStart)
      ensures old(nActive) + 4 == 4 * nParticles ==>
                nActive == old(nActive) && particles[..] == old(particles[..])
      ensures old(nActive) + 4 != 4 * nParticles ==>
                var p := Wrap(activeStart + old(nActive), particles.Length);
                p == (activeStart + old(nActive)) % particles.Length &&
                p % 4 == 0 && p + 4 <= particles.Length &&
                nActive == old(nActive) + 4 &&
                particles[..] == SpawnQuad(old(particles[..]), p, position, direction, speed, now) &&
                Window() == old(Window()) + particles[p..p + 4]
    {
      if nActive + 4 == nParticles * 4 {
        return;
      }
      ghost var s := particles[..];
      SpawnAtBack(s, activeStart, nActive, position, direction, speed, now);
      var index := OffsetIndex(activeStart, nActive);
      nActive := nActive + 4;
      var i := 0;
      while i < 4
        modifies particles
        invariant 0 <= i <= 4
        invariant forall j :: 0 <= j < particles.Length ==>
                    particles[j] == if index <= j < index + i
                                    then Spawned(s[j], position, direction, speed, now)
                                    else s[j]
      {
        particles[index + i] := Spawned(particles[index + i], position, direction, speed, now);
        i := i + 1;
      }
      assert particles[..] == SpawnQuad(s, index, position, direction, speed, now);
    }

    /** Retires, at time `now`, every slot at the front of the window that
        started more than `lifespan` ago, stopping at the first live slot. */
    method Update(now: real)
      requires Valid()
      modifies this`activeStart, this`nActive
      ensures Valid()
      ensures particles[..] == old(particles[..])
      ensures var k := ExpiredPrefix(old(Window()), now - lifespan);
              k % 4 == 0 &&
              nActive == old(nActive) - k &&
              (nParticles > 0 ==> activeStart == (old(activeStart) + k) % particles.Length) &&
              Window() == old(Window())[k..]
    {
      ghost var s := particles[..];
      ghost var w0 := Window();
      ghost var a0 := activeStart;
      ghost var cutoff := now - lifespan;
      ghost var removed := 0;
      var end := nActive;
      var i := 0;
      while i < end
        invariant 0 <= removed <= i <= end && nActive == end - removed
        invariant 0 < end ==> 0 < |s| && activeStart == Wrap(a0 + removed, |s|) && w0 == Ring(s, a0, end)
        invariant end == 0 ==> activeStart == a0
        invariant forall j :: 0 <= j < removed ==> w0[j].startTime < cutoff
        invariant removed < i ==> w0[removed].startTime >= cutoff
      {
        assert particles[activeStart] == s[activeStart] == w0[removed];
        if particles[activeStart].startTime < now - lifespan {
          activeStart := activeStart + 1;
          nActive := nActive - 1;
          if activeStart == particles.Length {
            activeStart := 0;
          }
          removed := removed + 1;
        }
        i := i + 1;
      }
      if nParticles > 0 {
        RetiredPrefix(s, a0, end, removed, cutoff);
        RetiredWindow(s, a0, end, removed);
        assert Window() == Ring(s, activeStart, nActive);
      } else {
        assert w0 == [] && Window() == [];
      }
    }

    /** Arguments of the indexed draw call: every vertex slot is drawn. */
    function DrawArguments(): (d: DrawCall)
      reads this, particles, indices
      requires Valid()
      ensures d.numVertices == particles.Length
      ensures 3 * d.primitiveCount == indices.Length
      ensures forall j :: 0 <= j < indices.Length ==> 0 <= indices[j] < d.numVertices
    {
      QuadIndicesBounded(nParticles);
      DrawCall(nParticles * 4, nParticles * 2)
    }
  }
}
