// Static billboards: one camera-facing quad per given position, laid out
// in vertex and index arrays with the same quad layout as the particles.

module Billboards {
  import opened Quads

  /** A billboard vertex: the billboard's centre and one texture corner. */
  datatype VertexPositionTexture = VertexPositionTexture(position: Vec3, uv: Vec2)

  /** The four vertices of a billboard at `pos`, one per texture corner. */
  function QuadVertices(pos: Vec3): (r: seq<VertexPositionTexture>)
    ensures |r| == 4
    ensures forall c :: 0 <= c < 4 ==> r[c] == VertexPositionTexture(pos, CornerUV(c))
  {
    [VertexPositionTexture(pos, Vec2(0.0, 0.0)), VertexPositionTexture(pos, Vec2(0.0, 1.0)),
     VertexPositionTexture(pos, Vec2(1.0, 1.0)), VertexPositionTexture(pos, Vec2(1.0, 0.0))]
  }

  /** The vertex table of billboards at the given positions, quad by quad. */
  function BillboardVertices(positions: seq<Vec3>): (r: seq<VertexPositionTexture>)
    ensures |r| == 4 * |positions|
  {
    if positions == [] then []
    else BillboardVertices(positions[..|positions| - 1]) + QuadVertices(positions[|positions| - 1])
  }

  /** Corner c of quad q stands at position q with texture corner c. */
  lemma {:induction false} BillboardVerticesAt(positions: seq<Vec3>, q: int, c: int)
    requires 0 <= q < |positions| && 0 <= c < 4
    ensures VertexSlot(q, c) < 4 * |positions|
    ensures BillboardVertices(positions)[VertexSlot(q, c)] == VertexPositionTexture(positions[q], CornerUV(c))
  {
    var n := |positions| - 1;
    if q < n {
      BillboardVerticesAt(positions[..n], q, c);
      assert BillboardVertices(positions) == BillboardVertices(positions[..n]) + QuadVertices(positions[n]);
    }
  }

  /** Writes the four vertices of a billboard at `pos` at slots i .. i+3. */
  method PutQuadVertices(particles: array<VertexPositionTexture>, i: int, pos: Vec3)
    requires 0 <= i && i + 4 <= particles.Length
    modifies particles
    ensures particles[..i + 4] == old(particles[..i]) + QuadVertices(pos)
    ensures particles[i + 4..] == old(particles[i + 4..])
  {
    particles[i + 0] := VertexPositionTexture(pos, Vec2(0.0, 0.0));
    particles[i + 1] := VertexPositionTexture(pos, Vec2(0.0, 1.0));
    particles[i + 2] := VertexPositionTexture(pos, Vec2(1.0, 1.0));
    particles[i + 3] := VertexPositionTexture(pos, Vec2(1.0, 0.0));
    assert particles[..i + 4] == particles[..i] + particles[i..i + 4];
  }

  class BillboardSystem {
    const nBillboards: nat
    var particles: array<VertexPositionTexture>
    var indices: array<int>

    /** Four vertices and six indices per billboard, indices in quad layout. */
    ghost predicate Valid()
      reads this, particles, indices
    {
      && particles.Length == 4 * nBillboards
      && indices.Length == 6 * nBillboards
      && indices[..] == QuadIndices(nBillboards)
    }

    /** One billboard per position; quad q stands at position q. */
    constructor (particlePositions: seq<Vec3>)
      ensures Valid()
      ensures nBillboards == |particlePositions|
      ensures fresh(particles) && fresh(indices)
      ensures particles[..] == BillboardVertices(particlePositions)
    {
      nBillboards := |particlePositions|;
      particles := new VertexPositionTexture[0];
      indices := new int[0];
      new;
      GenerateParticles(particlePositions);
    }

    /** Fills fresh arrays: the four corners of quad q carry position q, and
        the index table draws each quad as two triangles. */
    method GenerateParticles(particlePositions: seq<Vec3>)
      requires |particlePositions| == nBillboards
      modifies this`particles, this`indices
      ensures fresh(particles) && fresh(indices)
      ensures particles.Length == 4 * nBillboards && indices.Length == 6 * nBillboards
      ensures particles[..] == BillboardVertices(particlePositions)
      ensures indices[..] == QuadIndices(nBillboards)
    {
      particles := new VertexPositionTexture[nBillboards * 4];
      indices := new int[nBillboards * 6];
      var x := 0;
      var i := 0;
      ghost var q := 0;
      while i < nBillboards * 4
        modifies particles, indices
        invariant 0 <= q <= nBillboards && i == 4 * q && x == 6 * q
        invariant particles[..i] == BillboardVertices(particlePositions[..q])
        invariant indices[..x] == QuadIndices(q)
      {
        assert i / 4 == q;
        var pos := particlePositions[i / 4];
        PutQuadVertices(particles, i, pos);
        assert particlePositions[..q + 1][..q] == particlePositions[..q];
        x := PutQuadIndices(indices, x, i);
        i := i + 4;
        q := q + 1;
      }
      assert particles[..] == particles[..i];
      assert particlePositions[..q] == particlePositions;
      assert indices[..] == indices[..x];
    }

    /** The draw covers every vertex and every index, and no index names a
        vertex outside the array. */
    function DrawArguments(): (d: DrawCall)
      requires Valid()
      reads this, particles, indices
      ensures d.numVertices == particles.Length
      ensures 3 * d.primitiveCount == indices.Length
      ensures forall j :: 0 <= j < indices.Length ==> 0 <= indices[j] < d.numVertices
    {
      QuadIndicesBounded(nBillboards);
      DrawCall(4 * nBillboards, nBillboards * 2)
    }
  }
}
