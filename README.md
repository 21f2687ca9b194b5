# GK1 particles, billboards and bloom blur — a Dafny model

GK1 is a small XNA/MonoGame 3D demo. This project models the three parts of
it that hold real data-structure logic:

- **The smoke particle system** (`GK1/ParticleSystem.cs`), in module
  `Particles`. It keeps a fixed array of `4·nParticles` vertex slots, four per
  particle, plus a static quad index table. The slots are used as a circular
  queue: the live particles form a window of `nActive` slots starting at
  `activeStart`, wrapping at the end of the array. `AddParticle` spawns into
  the quad just behind the window. `Update` retires expired slots from the
  front. The model is the class `Particles.ParticleSystem`, with the arrays as
  `array` fields. Its invariant `Valid()` and the ghost view `Window()` (the
  live slots, oldest first) carry the properties.
- **The static billboard system** (`GK1/BillboardSystem.cs`), in module
  `Billboards`. It lays out one camera-facing quad per given position, using
  the same vertex and index layout.
- **The separable gaussian blur of the bloom post-process**
  (`GK1/Bloom/BloomComponent.cs`), in module `Bloom`. `SetBlurEffectParameters`
  fills a centre tap and symmetric pairs of taps, then normalises the weights.

Module `Quads` holds what both vertex systems share:
- the vector values;
- the corner order of the two triangles that draw a quad;
- the index table of n quads.

Numbers the source keeps in `float` are `real` here. Elapsed time, which the
source reads from the wall clock, is a parameter `now`. The bell curve
`ComputeGaussian` is a parameter `gaussian`.

## Model

| member | source | states |
|---|---|---|
| Quads.Corner | GK1/ParticleSystem.cs:156-161 | the six indices of a quad name corners 0,3,2 then 2,1,0: corner 0 is used by entries 0 and 5 only, corner 2 by entries 2 and 3 only |
| Quads.CornerUV | GK1/ParticleSystem.cs:148-155 | corner c has texture coordinate (0,0), (0,1), (1,1), (1,0) for c = 0..3 |
| Quads.TrianglesCoverQuad | GK1/ParticleSystem.cs:156-161 | the two triangles together use all four corners and share exactly the diagonal 0–2 |
| Quads.QuadIndicesAt | GK1/ParticleSystem.cs:146-162 | entry c of quad q in the index table of n quads is 4q + Corner(c) |
| Quads.QuadIndicesBounded | GK1/ParticleSystem.cs:248-249 | every entry of the table lies inside its own quad's four vertices, and so below 4n |
| Quads.PutQuadIndices | GK1/BillboardSystem.cs:60-65 | the six `indices[x++]` writes append exactly that quad's six indices at x, advance x by 6 and leave later entries alone |
| Particles.IdleVertex | GK1/ParticleSystem.cs:148-155 | an unused slot has zero position and direction, speed 0, start time −1 and its corner's texture coordinate |
| Particles.IdleVerticesAt | GK1/ParticleSystem.cs:146-155 | slot 4q + c of the initial vertex table is the idle corner c |
| Particles.IdleVerticesWhole | GK1/ParticleSystem.cs:146-155 | the initial vertex table is made of whole quads: corners in order, one start time per quad |
| Particles.PutIdleQuad | GK1/ParticleSystem.cs:148-155 | the four vertex writes append the idle quad at slot i and leave later slots alone |
| Particles.Spawned | GK1/ParticleSystem.cs:178-184 | spawning into a slot sets its position, direction, speed and start time and keeps its texture coordinate |
| Particles.SpawnQuadSlots | GK1/ParticleSystem.cs:178-184 | spawning at slot p changes exactly the slots p..p+3, each as Spawned says, and no other slot |
| Particles.RingDrop | GK1/ParticleSystem.cs:210-218 | dropping k slots from the front of the window is the window starting k slots later (wrapping) |
| Particles.RingAppend | GK1/ParticleSystem.cs:172-184 | spawning into the four slots just behind the window keeps the window and extends it by exactly those four slots |
| Particles.ExpiredPrefix | GK1/ParticleSystem.cs:206-219 | the length of the longest front part of a window whose slots started before the cutoff: all of it expired, the next slot (if any) live |
| Particles.ExpiredPrefixAligned | GK1/ParticleSystem.cs:206-219 | in a window of whole quads the expired front part is a whole number of particles |
| Particles.RingWholeQuads | GK1/ParticleSystem.cs:110 | a quad-aligned window of whole quads over whole quads is itself whole quads |
| Particles.SpawnWholeQuads | GK1/ParticleSystem.cs:178-184 | spawning into an aligned quad keeps the slot array in whole quads |
| Particles.SpawnAtBack | GK1/ParticleSystem.cs:169-184 | when more than one quad is free, the spawn slot (start + nActive) mod length is quad-aligned, does not wrap, keeps whole quads and extends the window by that quad |
| Particles.RetiredPrefix | GK1/ParticleSystem.cs:206-219 | a scan that removed k slots, all expired, and stopped at a live one removed exactly the expired prefix, a multiple of four |
| Particles.RetiredWindow | GK1/ParticleSystem.cs:211-217 | after removing k slots the window starts at (start + k) mod length and is the old window without its first k slots |
| Particles.ParticleSystem.constructor | GK1/ParticleSystem.cs:114-135 | a new system satisfies the queue invariant, has an empty window and holds the idle vertex table and the quad index table |
| Particles.ParticleSystem.GenerateParticles | GK1/ParticleSystem.cs:137-163 | fresh arrays of 4n idle vertices and of the 6n-entry quad index table |
| Particles.ParticleSystem.OffsetIndex | GK1/ParticleSystem.cs:189-198 | stepping `count` times with wrap returns (start + count) mod length |
| Particles.ParticleSystem.AddParticle | GK1/ParticleSystem.cs:166-185 | keeps the invariant; when only one quad is free nothing changes, otherwise the particle is written into the quad at (activeStart + nActive) mod length, nActive grows by 4 and the window becomes the old window followed by that quad |
| Particles.ParticleSystem.Update | GK1/ParticleSystem.cs:200-223 | keeps the invariant and the slots; exactly the expired front part of the window (a whole number of particles) is retired, activeStart moves on by that much mod length and the window loses exactly those slots |
| Particles.ParticleSystem.DrawArguments | GK1/ParticleSystem.cs:248-249 | the draw covers all 4n vertices and all 6n indices (2n triangles), and every index names an existing vertex |
| Billboards.QuadVertices | GK1/BillboardSystem.cs:51-58 | the four vertices of a billboard all stand at its position and carry texture corners 0..3 |
| Billboards.BillboardVerticesAt | GK1/BillboardSystem.cs:47-58 | vertex 4q + c of the table stands at position q with texture corner c |
| Billboards.PutQuadVertices | GK1/BillboardSystem.cs:51-58 | the four vertex writes append the billboard's quad at slot i and leave later slots alone |
| Billboards.BillboardSystem.constructor | GK1/BillboardSystem.cs:28-38 | one billboard per given position: nBillboards is the count of positions, with the vertex table of those positions and the quad index table |
| Billboards.BillboardSystem.GenerateParticles | GK1/BillboardSystem.cs:40-77 | fresh arrays of 4n vertices (quad q at position q) and of the 6n-entry quad index table |
| Billboards.BillboardSystem.DrawArguments | GK1/BillboardSystem.cs:87 | the draw covers all 4n vertices and all 6n indices, and every index names an existing vertex |
| Bloom.TotalWeight | GK1/Bloom/BloomComponent.cs:219-231 | the running total is the centre weight plus twice each pair's weight, and it is positive when the bell curve is |
| Bloom.RawWeightsAt | GK1/Bloom/BloomComponent.cs:215-229 | before normalising, slot 0 holds gaussian(0) and both taps of pair i hold gaussian(i + 1) |
| Bloom.RawWeightsSum | GK1/Bloom/BloomComponent.cs:219-231 | the running total equals the sum of the unnormalised weights |
| Bloom.SumScaled | GK1/Bloom/BloomComponent.cs:251-254 | dividing every weight by the same total divides their sum by it |
| Bloom.NormalisedSum | GK1/Bloom/BloomComponent.cs:251-254 | weights divided by their own non-zero sum sum to one |
| Bloom.TapOffsetsAt | GK1/Bloom/BloomComponent.cs:241-247 | slot 0 has zero offset; the positive tap of pair i is (dx, dy)·(2i + 1.5) and the negative tap its negation |
| Bloom.OffsetsAlongStep | GK1/Bloom/BloomComponent.cs:216-247 | every tap lies its signed texel distance along (dx, dy): 0 for the centre, +(2i + 1.5) and −(2i + 1.5) for pair i |
| Bloom.OffsetsOnAxis | GK1/Bloom/BloomComponent.cs:156-162 | a pass with dy = 0 has no vertical offset and a pass with dx = 0 no horizontal offset |
| Bloom.TapSlotsLayout | GK1/Bloom/BloomComponent.cs:208-229 | the writes visit slots 0, 1, 2, … each once; they fill the arrays exactly if and only if sampleCount is odd, and with an even count the last write lands one past the end |
| Bloom.AddTapPairs | GK1/Bloom/BloomComponent.cs:223-248 | the pair loop leaves the unnormalised weights and the symmetric offsets in the arrays and returns their total |
| Bloom.NormaliseWeights | GK1/Bloom/BloomComponent.cs:251-254 | every weight is divided in place by the total |
| Bloom.SetBlurEffectParameters | GK1/Bloom/BloomComponent.cs:199-259 | centre weight gaussian(0)/total at zero offset; both taps of pair i weigh gaussian(i + 1)/total at ±(dx, dy)·(2i + 1.5); the weights sum to one; a pass with dx = 0 (dy = 0) has no x (y) offsets |
| Bloom.BlurPasses | GK1/Bloom/BloomComponent.cs:154-163 | the horizontal and vertical passes use identical weights and put tap j at TapTexels(j)/width across, respectively TapTexels(j)/height down, with no offset on the other axis |

## Left out

- GPU and engine calls are not modelled. They are foreign-library side effects whose effects on this state are nil. This covers:
  - vertex and index buffer creation and `SetData`, including the copies at the end of `Update` and inside the billboard loop (GK1/BillboardSystem.cs:67-75);
  - `DrawIndexedPrimitives` (only its counts are modelled, as `DrawArguments`);
  - effect loading and parameter binding (`SetEffectParameters`, `SetClipPlane`);
  - render targets, `SpriteBatch`, and the bloom extract and combine passes of `CalculateBloomEffect`.
- Particle size, wind, texture and fade-in time are not modelled, and neither are the billboard size and texture. They are only passed to the shader at draw time. Where a particle is at draw time is computed in the shader and is also not modelled.
- The wall clock is a parameter. `DateTime.Now - start` becomes the parameter `now` of `AddParticle` and `Update`.
- `float` arithmetic is modelled as exact `real` arithmetic. As a result, the normalised blur weights sum to exactly one, where the source only comes close.
- `ComputeGaussian` (GK1/Bloom/BloomComponent.cs:266-272) is not modelled. Its square root and exponential are outside what the verifier reasons about, so the bell curve is the parameter `gaussian`. The only properties used are positivity, for `TotalWeight`, and a non-zero total.
- The number of blur taps, which the source reads from the shader's `SampleWeights` parameter, is a parameter. The computed weights and offsets are returned instead of being uploaded to the effect.
- Bloom.SetBlurEffectParameters: requires an odd, positive `sampleCount`. The source does not check this. An even count makes the last write land one past the arrays (proved in `TapSlotsLayout`), and a count of 0 fails at slot 0.
- Bloom.SetBlurEffectParameters: requires a non-zero total weight. In floating point, a zero total would yield infinities or NaN instead.
- Particles.ParticleSystem.AddParticle: requires `nParticles > 0`. With no slots the source's full-buffer guard compares `nActive + 4` with 0 and does not fire, so it goes on to write slot 0 of an empty array and throws.
- Billboards.BillboardSystem.GenerateParticles: takes the positions as a sequence and requires it to hold `nBillboards` positions. This is always the case for its only caller, the constructor.
- Billboards.BillboardSystem.constructor: states the vertex table as `BillboardVertices(particlePositions)`. The per-vertex reading of that table is the lemma `BillboardVerticesAt`.
- Particles.ParticleSystem.constructor: states the vertex table as `IdleVertices(nParticles)`. The per-vertex reading of that table is the lemma `IdleVerticesAt`.
- A buffer of `nParticles` quads holds at most `nParticles − 1` particles. `AddParticle` gives up while one quad is still free, which `Valid()` records as `nActive <= 4·(nParticles − 1)`.
- `Update` retires the expired front slot by slot, so one expired particle frees four slots.
- C# `int` arithmetic is modelled as unbounded. The products `nParticles * 4` and `nParticles * 6` (GK1/ParticleSystem.cs:128-130, 140-141) and `nBillboards * 4` and `nBillboards * 6` (GK1/BillboardSystem.cs:43-44) can overflow 32 bits in the source; the model does not wrap them.
- Particles.ParticleSystem.constructor: takes `nParticles` as a `nat`. A negative count, which the source accepts as an `int` and which then throws at array allocation, is outside the model.
