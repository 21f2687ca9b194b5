// Vector values and the quad layout shared by the billboard and particle
// systems: every quad owns four consecutive vertices and six consecutive
// indices that draw it as two triangles.

module Quads {

  datatype Vec2 = Vec2(x: real, y: real)
  datatype Vec3 = Vec3(x: real, y: real, z: real)

  const Zero3 := Vec3(0.0, 0.0, 0.0)

  /** Vertex and triangle counts passed to an indexed triangle-list draw. */
  datatype DrawCall = DrawCall(numVertices: int, primitiveCount: int)

  /** Corner (0..3) named by the c-th of a quad's six indices:
      triangle (0, 3, 2) followed by triangle (2, 1, 0). */
  function Corner(c: int): (r: int)
    requires 0 <= c < 6
    ensures 0 <= r < 4
    ensures r == 0 <==> c == 0 || c == 5
    ensures r == 2 <==> c == 2 || c == 3
  {
    [0, 3, 2, 2, 1, 0][c]
  }

  /** Texture coordinate of corner c of a quad. */
  function CornerUV(c: int): (uv: Vec2)
    requires 0 <= c < 4
    ensures uv.x == (if c == 2 || c == 3 then 1.0 else 0.0)
    ensures uv.y == (if c == 1 || c == 2 then 1.0 else 0.0)
  {
    [Vec2(0.0, 0.0), Vec2(0.0, 1.0), Vec2(1.0, 1.0), Vec2(1.0, 0.0)][c]
  }

  /** The six indices of the quad whose first vertex is `base`. */
  function QuadBlock(base: int): seq<int>
  {
    [base + Corner(0), base + Corner(1), base + Corner(2),
     base + Corner(3), base + Corner(4), base + Corner(5)]
  }

  /** The index table of n quads, quad by quad. */
  function QuadIndices(n: nat): (r: seq<int>)
    ensures |r| == 6 * n
  {
    if n == 0 then [] else QuadIndices(n - 1) + QuadBlock(4 * (n - 1))
  }

  /** Slot of corner c of quad q in a vertex array. */
  function VertexSlot(q: int, c: int): int
  {
    4 * q + c
  }

  /** Position of the c-th index of quad q in the index table. */
  function IndexSlot(q: int, c: int): int
  {
    6 * q + c
  }

  /** Entry c of quad q in the index table names corner Corner(c) of quad q. */
  lemma {:induction false} QuadIndicesAt(n: nat, q: nat, c: nat)
    requires q < n && c < 6
    ensures IndexSlot(q, c) < 6 * n
    ensures QuadIndices(n)[IndexSlot(q, c)] == 4 * q + Corner(c)
  {
    if q < n - 1 {
      QuadIndicesAt(n - 1, q, c);
      assert QuadIndices(n) == QuadIndices(n - 1) + QuadBlock(4 * (n - 1));
    }
  }

  /** Every entry of the index table names one of the 4n vertices, and
      the entries of a quad name only that quad's vertices. */
  lemma QuadIndicesBounded(n: nat)
    ensures forall j :: 0 <= j < 6 * n ==> 4 * (j / 6) <= QuadIndices(n)[j] < 4 * (j / 6) + 4
    ensures forall j :: 0 <= j < 6 * n ==> 0 <= QuadIndices(n)[j] < 4 * n
  {
    forall j | 0 <= j < 6 * n
      ensures 4 * (j / 6) <= QuadIndices(n)[j] < 4 * (j / 6) + 4
      ensures 0 <= QuadIndices(n)[j] < 4 * n
    {
      QuadIndicesAt(n, j / 6, j % 6);
    }
  }

  /** The two triangles of a quad together use all four of its corners and
      share exactly the diagonal from corner 0 to corner 2. */
  lemma TrianglesCoverQuad()
    ensures {Corner(0), Corner(1), Corner(2), Corner(3), Corner(4), Corner(5)} == {0, 1, 2, 3}
    ensures {Corner(0), Corner(1), Corner(2)} * {Corner(3), Corner(4), Corner(5)} == {0, 2}
  {
  }

  /** Writes the six indices of the quad whose first vertex is `base` at
      positions x .. x+5 of `indices`, advancing the running counter x. */
  method PutQuadIndices(indices: array<int>, x: int, base: int) returns (x': int)
    requires 0 <= x && x + 6 <= indices.Length
    modifies indices
    ensures x' == x + 6
    ensures indices[..x'] == old(indices[..x]) + QuadBlock(base)
    ensures indices[x'..] == old(indices[x'..])
  {
    x' := x;
    indices[x'] := base + 0;
    x' := x' + 1;
    indices[x'] := base + 3;
    x' := x' + 1;
    indices[x'] := base + 2;
    x' := x' + 1;
    indices[x'] := base + 2;
    x' := x' + 1;
    indices[x'] := base + 1;
    x' := x' + 1;
    indices[x'] := base + 0;
    x' := x' + 1;
    assert indices[..x'] == indices[..x] + indices[x..x'];
  }
}
