# KlayGE GPU particle system sample and Box_T, modelled in Dafny

This project models two parts of KlayGE:

- **`Box_T`.** The axis-aligned box of the engine's math library. It stores two corners, `min_` and `max_`.
  - The two-vector constructor sorts the corners axis by axis.
  - The compound assignments `+= -= *= /= &= |= =` update the corners in place.
  - `==`, unary `+`/`-`, `operator[]` and the corner accessors are pure.
  - So are `Width`/`Height`/`Depth`, `IsEmpty`, `Center` and `MaxRadiusSq`.
- **The host side of the GPUParticleSystem sample.** This covers:
  - `GetDensity` and `CreateNoiseVolume`: random densities, gradient normals, and a pitched upload into a 3D texture;
  - the `GPUParticleSystem` object: a ping-pong pair of position/velocity textures selected by `rt_index_`, the sentinel fill of the constructor, the birth-time schedule of `AutoEmit`, and the emission-cycle accumulator of `Update`;
  - the device gate `ConfirmDevice`;
  - the three-pass frame of `GPUParticleSystemApp::DoUpdate`.

Modules, one per file:

| file | module | what |
|---|---|---|
| vectors.dfy | Vectors | 3-vectors over `real`, componentwise min/max as `std::min`/`std::max` |
| boxes.dfy | Boxes | `BoxValue` (the value of a box), its operations and properties, and the class `Box` whose methods are the in-place operators |
| arithmetic.dfy | Arithmetic | small lemmas on row-major offsets, `/` and `%` |
| particle_grid.dfy | ParticleGrid | grid sizing, birth times, the accumulator step, and the two row-pitched fill loops |
| particle_system.dfy | ParticleSystems | the class `GpuParticleSystem` (`rt_index_`, `accumulate_time_`, the textures as arrays) |
| noise_volume.dfy | NoiseVolume | `GetDensity`, the three loops of `CreateNoiseVolume`, where the upload places each voxel |
| device_caps.dfy | DeviceCaps | `ConfirmDevice` over the device caps and the outcome of each trial allocation |
| particle_app.dfy | ParticleApp | `DoUpdate` as a pass-indexed state machine over the app's visibility flags and bound target |

The model makes these representation choices:

- Floats are `real`.
- Bytes are a `byte` newtype.
- The unsigned 32-bit arithmetic of `GetDensity` is reduced modulo 2^32 explicitly (`ToU32`).
- Mapped texture memory is an `array` indexed by offset, with the row pitch (and slice pitch) as parameters.
- Random generators are replaced by input sequences.
- The float normalisation of the gradient is a caller-supplied encoder function.

## Model

| member | source | states |
|---|---|---|
| Boxes.Make | KlayGE/Core/Include/KlayGE/Box.hpp:40-44 | the new min is the componentwise minimum and the new max the componentwise maximum of the arguments, so min <= max on every axis |
| Boxes.MakeSymmetric | KlayGE/Core/Include/KlayGE/Box.hpp:40-44 | the constructor gives the same box whichever order the two vectors come in |
| Boxes.MakeOfNormalised | KlayGE/Core/Include/KlayGE/Box.hpp:40-44 | building from the corners of a box with min <= max gives that box back |
| Boxes.MakeIsSmallest | KlayGE/Core/Include/KlayGE/Box.hpp:40-44 | the constructed box holds both arguments, and every box holding both encloses it |
| Boxes.Box.constructor | KlayGE/Core/Include/KlayGE/Box.hpp:40-44 | the object's corners are those of `Make(vMin, vMax)` |
| Boxes.Box.Copy | KlayGE/Core/Include/KlayGE/Box.hpp:45-49 | the copy has the corners of the original |
| Boxes.Box.AddAssign | KlayGE/Core/Include/KlayGE/Box.hpp:52-57 | `+= v` moves both stored corners by v in place |
| Boxes.Translate | KlayGE/Core/Include/KlayGE/Box.hpp:52-57 | the value `+= v` stores is undone by subtracting v from each corner, and keeps Width, Height and Depth |
| Boxes.Box.SubAssign | KlayGE/Core/Include/KlayGE/Box.hpp:58-63 | `-= v` moves both stored corners by -v in place |
| Boxes.Untranslate | KlayGE/Core/Include/KlayGE/Box.hpp:58-63 | the value `-= v` stores is undone by adding v to each corner, and keeps Width, Height and Depth |
| Boxes.TranslateRoundTrip | KlayGE/Core/Include/KlayGE/Box.hpp:52-63 | `+= v` then `-= v` restores the box, and so does the reverse order |
| Boxes.TranslateKeepsExtents | KlayGE/Core/Include/KlayGE/Box.hpp:52-63 | both translations keep Width, Height and Depth, and each keeps min <= max exactly when it held before |
| Boxes.TranslateMovesPoints | KlayGE/Core/Include/KlayGE/Box.hpp:52-57 | p is in the box exactly when p + v is in the translated box, and the centre moves by v |
| Boxes.TranslateThenUntranslate | KlayGE/Core/Include/KlayGE/Box.hpp:52-63 | calling `+=` then `-=` with the same vector on one object leaves its value unchanged |
| Boxes.Box.MulAssign | KlayGE/Core/Include/KlayGE/Box.hpp:64-69 | `*= k` scales both stored corners by k, without re-sorting them |
| Boxes.ScaleBy | KlayGE/Core/Include/KlayGE/Box.hpp:64-69 | the value `*= k` stores is the box itself for k = 1 and collapses both corners to the origin for k = 0 |
| Boxes.ScaleOrder | KlayGE/Core/Include/KlayGE/Box.hpp:64-69 | for a box with min <= max, a non-negative factor keeps min <= max and a negative one gives max <= min on every axis (strictly where the box had extent) |
| Boxes.ScaleExtents | KlayGE/Core/Include/KlayGE/Box.hpp:64-69 | every extent is multiplied by the factor |
| Boxes.Box.DivAssign | KlayGE/Core/Include/KlayGE/Box.hpp:70-73 | `/= r` is `*= (1 / r)` |
| Boxes.DivideRoundTrip | KlayGE/Core/Include/KlayGE/Box.hpp:64-73 | `/= r` followed by `*= r` restores the box |
| Boxes.Box.AndAssign | KlayGE/Core/Include/KlayGE/Box.hpp:74-79 | `&=` stores the max of the mins and the min of the maxes, without re-sorting |
| Boxes.Intersect | KlayGE/Core/Include/KlayGE/Box.hpp:74-79 | the value `&=` stores has, on every axis, the larger of the two mins as its min and the smaller of the two maxes as its max, whether or not the operands overlap |
| Boxes.IntersectPoints | KlayGE/Core/Include/KlayGE/Box.hpp:74-79 | a point is in `a & b` exactly when it is in both a and b |
| Boxes.IntersectNormalisedIffOverlap | KlayGE/Core/Include/KlayGE/Box.hpp:74-79 | of two boxes with min <= max, the intersection has min <= max exactly when they overlap on every axis |
| Boxes.IntersectOfDisjointIsInverted | KlayGE/Core/Include/KlayGE/Box.hpp:74-79 | two disjoint unit boxes give an intersection with min.x = 2 > max.x = 1 |
| Boxes.Box.OrAssign | KlayGE/Core/Include/KlayGE/Box.hpp:80-85 | the or-assignment stores the min of the mins and the max of the maxes |
| Boxes.Union | KlayGE/Core/Include/KlayGE/Box.hpp:80-85 | the value the or-assignment stores has, on every axis, the smaller of the two mins as its min and the larger of the two maxes as its max, so it encloses both operands |
| Boxes.UnionEncloses | KlayGE/Core/Include/KlayGE/Box.hpp:80-85 | the union encloses both operands and is enclosed by every box that encloses both; it keeps min <= max |
| Boxes.UnionIdempotentCommutative | KlayGE/Core/Include/KlayGE/Box.hpp:80-85 | the union of a box with itself is that box, and the union does not depend on operand order |
| Boxes.UnionWithSelf | KlayGE/Core/Include/KlayGE/Box.hpp:80-85 | or-assigning an object to itself (rhs aliasing this) leaves it unchanged |
| Boxes.Box.Assign | KlayGE/Core/Include/KlayGE/Box.hpp:87-95 | after `=` the object holds the corners rhs held, including when rhs is the object itself |
| Boxes.Equals | KlayGE/Core/Include/KlayGE/Box.hpp:97-100 | `==` holds exactly when both corners are equal |
| Boxes.Identity | KlayGE/Core/Include/KlayGE/Box.hpp:103-106 | unary `+` returns a box equal to its operand |
| Boxes.Negate | KlayGE/Core/Include/KlayGE/Box.hpp:107-110 | unary `-` always has min <= max, and for a box with min <= max it has min = -old max and max = -old min |
| Boxes.NegateNormalised | KlayGE/Core/Include/KlayGE/Box.hpp:107-110 | for min <= max, unary `-` has min = -old max and max = -old min, mirrors the points, and is its own inverse |
| Boxes.NegateIsNormalised | KlayGE/Core/Include/KlayGE/Box.hpp:107-110 | unary `-` goes through the sorting constructor, so its result always has non-negative extents |
| Boxes.CornerIndex | KlayGE/Core/Include/KlayGE/Box.hpp:112-144 | the switch label of the corner with the given flags is one of the eight labels 0..7 |
| Boxes.Corner | KlayGE/Core/Include/KlayGE/Box.hpp:112-144 | for an index below 8 every component of the corner comes from Min() or Max(), and the default label gives the zero vector |
| Boxes.CornerMatchesFlags | KlayGE/Core/Include/KlayGE/Box.hpp:112-144 | `operator[]` at the index of a flag choice is the corner that takes Max() on exactly the flagged axes |
| Boxes.CornerEnds | KlayGE/Core/Include/KlayGE/Box.hpp:112-144 | index 0 is Min(), index 6 is Max(), and every index past 7 gives the zero vector |
| Boxes.CornerIndexInjective | KlayGE/Core/Include/KlayGE/Box.hpp:112-144 | different flag choices have different indices, so the eight indices list every corner once |
| Boxes.CornerInBox | KlayGE/Core/Include/KlayGE/Box.hpp:164-195 | every component of each of the eight corners comes from Min() or Max(), so for min <= max each corner lies in the box |
| Boxes.CornerAccessors | KlayGE/Core/Include/KlayGE/Box.hpp:164-195 | the eight named accessors are `operator[]` 0..7 in switch order |
| Boxes.LeftBottomNear | KlayGE/Core/Include/KlayGE/Box.hpp:164-167 | the corner taking Min() on every axis, as the reference corner of no flag |
| Boxes.LeftTopNear | KlayGE/Core/Include/KlayGE/Box.hpp:168-171 | the reference corner that takes Max() on y only |
| Boxes.RightBottomNear | KlayGE/Core/Include/KlayGE/Box.hpp:172-175 | the reference corner that takes Max() on x only |
| Boxes.RightTopNear | KlayGE/Core/Include/KlayGE/Box.hpp:176-179 | the reference corner that takes Max() on x and y |
| Boxes.LeftBottomFar | KlayGE/Core/Include/KlayGE/Box.hpp:180-183 | the reference corner that takes Max() on z only |
| Boxes.LeftTopFar | KlayGE/Core/Include/KlayGE/Box.hpp:184-187 | the reference corner that takes Max() on y and z |
| Boxes.RightBottomFar | KlayGE/Core/Include/KlayGE/Box.hpp:188-191 | the reference corner that takes Max() on x and z |
| Boxes.RightTopFar | KlayGE/Core/Include/KlayGE/Box.hpp:192-195 | the corner taking Max() on every axis, as the reference corner of all three flags |
| Boxes.Width | KlayGE/Core/Include/KlayGE/Box.hpp:147-150 | the x extent is >= 0 exactly when min.x <= max.x, and 0 exactly when they are equal |
| Boxes.Height | KlayGE/Core/Include/KlayGE/Box.hpp:151-154 | the y extent is >= 0 exactly when min.y <= max.y, and 0 exactly when they are equal |
| Boxes.Depth | KlayGE/Core/Include/KlayGE/Box.hpp:155-158 | the z extent is >= 0 exactly when min.z <= max.z, and 0 exactly when they are equal |
| Boxes.ExtentsNonNegativeIffNormalised | KlayGE/Core/Include/KlayGE/Box.hpp:147-158 | Width, Height and Depth are all >= 0 exactly when min <= max on every axis |
| Boxes.IsEmpty | KlayGE/Core/Include/KlayGE/Box.hpp:159-162 | a box is empty exactly when it contains one point, its min corner; an empty box has min <= max |
| Boxes.EmptyIffZeroExtents | KlayGE/Core/Include/KlayGE/Box.hpp:159-162 | IsEmpty holds exactly when all three extents are 0 |
| Boxes.Center | KlayGE/Core/Include/KlayGE/Box.hpp:213-216 | the centre is half-way between min and max on each of the three axes |
| Boxes.CenterInBox | KlayGE/Core/Include/KlayGE/Box.hpp:213-216 | the centre of a box with min <= max lies in it, half-way along each axis, and negating the box negates the centre |
| Boxes.MaxRadiusSq | KlayGE/Core/Include/KlayGE/Box.hpp:222-225 | the result is at least the squared length of each stored corner and equal to one of them |
| Boxes.MaxRadiusSqOfStoredCorners | KlayGE/Core/Include/KlayGE/Box.hpp:222-225 | MaxRadiusSq is the larger of the squared lengths of Min() and Max(), so it is >= 0 |
| Boxes.MaxRadiusSqBoundsPositiveBox | KlayGE/Core/Include/KlayGE/Box.hpp:222-225 | for a box in the non-negative octant it bounds the squared length of every point of the box |
| Boxes.MaxRadiusSqMissesMixedCorner | KlayGE/Core/Include/KlayGE/Box.hpp:222-225 | in general it does not: for the box (-1,0,0)..(0,1,0), corner 1 has squared length 2 but MaxRadiusSq is 1 |
| ParticleGrid.TexHeight | KlayGE/Samples/src/GPUParticleSystem/GPUParticleSystem.cpp:272 | (max + 255) / 256 rows of 256 texels hold all max particles, and a non-empty system gets at least one row |
| ParticleGrid.GridHoldsAll | KlayGE/Samples/src/GPUParticleSystem/GPUParticleSystem.cpp:272 | the simulation grid of (max + 255) / 256 rows of 256 holds every particle and wastes less than a row |
| ParticleGrid.RenderRows | KlayGE/Samples/src/GPUParticleSystem/GPUParticleSystem.cpp:147 | max / 256 is the number of full rows: they hold at most max slots, and one row more would hold more than max |
| ParticleGrid.RenderRowsMatchIff | KlayGE/Samples/src/GPUParticleSystem/GPUParticleSystem.cpp:147 | the rendering grid of max / 256 rows equals the simulation grid exactly when max is a multiple of 256 |
| ParticleGrid.RenderRowsTooShort | KlayGE/Samples/src/GPUParticleSystem/GPUParticleSystem.cpp:147 | for 300 particles it has 1 row against 2, and for fewer than 256 it has 0 rows |
| ParticleGrid.SlotIndexBijective | KlayGE/Samples/src/GPUParticleSystem/GPUParticleSystem.cpp:363-371 | the slot number y * 256 + x of a texel gives back x and y, and stays below 256 * height |
| ParticleGrid.SlotOrder | KlayGE/Samples/src/GPUParticleSystem/GPUParticleSystem.cpp:363-371 | the next texel of a row and the first texel of the next row are the next slot |
| ParticleGrid.BirthTime | KlayGE/Samples/src/GPUParticleSystem/GPUParticleSystem.cpp:367 | slot 0 is born at 0; with a positive interval every birth time is >= 0 and only slot 0 is born at 0 |
| ParticleGrid.BirthTimeSchedule | KlayGE/Samples/src/GPUParticleSystem/GPUParticleSystem.cpp:359-369 | slot 0 is born at 0, each slot 1/freq after the previous, so birth times strictly increase |
| ParticleGrid.BirthTimeVersusCycle | KlayGE/Samples/src/GPUParticleSystem/GPUParticleSystem.cpp:359-383 | slots below max_num_particles are born before the cycle bound of Update, and the rest no earlier than it |
| ParticleGrid.BirthTimeAt500 | KlayGE/Samples/src/GPUParticleSystem/GPUParticleSystem.cpp:652 | with `AutoEmit(500)`, slot 1 is born at 0.002 and the first texel of row 1 at 0.512 |
| ParticleGrid.Advance | KlayGE/Samples/src/GPUParticleSystem/GPUParticleSystem.cpp:379-383 | the new accumulator is either 0 or the old one plus the elapsed time, and lies in [0, bound) whenever the sum is non-negative |
| ParticleGrid.AdvanceStaysInCycle | KlayGE/Samples/src/GPUParticleSystem/GPUParticleSystem.cpp:379-383 | the accumulator stays in [0, bound); reaching the bound resets it to exactly 0, and below it the elapsed time is added in full |
| ParticleGrid.AdvanceFullCycle | KlayGE/Samples/src/GPUParticleSystem/GPUParticleSystem.cpp:379-383 | from 0, one full cycle lands on 0 and half a cycle on half the bound |
| ParticleGrid.FillSentinel | KlayGE/Samples/src/GPUParticleSystem/GPUParticleSystem.cpp:288-297 | walking a row pointer by the pitch, texel x < 256 of every row becomes (0, 0, 0, -1), and the pitch padding keeps its old contents |
| ParticleGrid.FillBirthTimes | KlayGE/Samples/src/GPUParticleSystem/GPUParticleSystem.cpp:359-371 | the running time puts the birth time of its row-major slot at texel x < 256 of every row, and leaves the padding alone |
| ParticleGrid.FillBirthRow | KlayGE/Samples/src/GPUParticleSystem/GPUParticleSystem.cpp:363-369 | the inner loop writes the birth times of slots (0, y) .. (255, y) to one row, ends the running time at the birth time of slot (0, y + 1), and changes nothing else |
| ParticleGrid.BirthTimeStep | KlayGE/Samples/src/GPUParticleSystem/GPUParticleSystem.cpp:367-368 | adding 1/freq to the running time moves it to the next slot's birth time |
| ParticleSystems.GpuParticleSystem.constructor | KlayGE/Samples/src/GPUParticleSystem/GPUParticleSystem.cpp:269-298 | the grid has 256 columns and ceil(max / 256) rows, rt_index_ is true, the accumulator is 0, and both position generations hold the sentinel in every non-padding texel |
| ParticleSystems.GpuParticleSystem.AutoEmit | KlayGE/Samples/src/GPUParticleSystem/GPUParticleSystem.cpp:355-372 | inv_emit_freq_ = 1 / freq, and every non-padding texel of the birth-time texture holds the birth time of its slot |
| ParticleSystems.GpuParticleSystem.Update | KlayGE/Samples/src/GPUParticleSystem/GPUParticleSystem.cpp:374-394 | it renders into generation rt_index_ while sampling the other generation, which is a different texture; the accumulator advances and stays in [0, max * inv_emit_freq); the flag flips so that PosTexture()/VelTexture() name the generation just written |
| ParticleSystems.GpuParticleSystem.PosTexture | KlayGE/Samples/src/GPUParticleSystem/GPUParticleSystem.cpp:396-399 | the position texture handed out is one of the two generations and, while they are distinct, never the one rt_index_ names, which the next Update renders into |
| ParticleSystems.GpuParticleSystem.VelTexture | KlayGE/Samples/src/GPUParticleSystem/GPUParticleSystem.cpp:401-404 | the same for the velocity generations |
| ParticleSystems.TwoUpdates | KlayGE/Samples/src/GPUParticleSystem/GPUParticleSystem.cpp:374-404 | two Updates swap the roles of the two generations and restore rt_index_; from the initial flag the first writes generation 1 and reads generation 0 |
| NoiseVolume.WrapCoord | KlayGE/Samples/src/GPUParticleSystem/GPUParticleSystem.cpp:62-77 | the wrapped coordinate, computed in uint32 arithmetic, is below vol_size |
| NoiseVolume.DensityIndex | KlayGE/Samples/src/GPUParticleSystem/GPUParticleSystem.cpp:79 | the byte read is inside the vol_size^3 * 4 buffer and in channel 3 |
| NoiseVolume.GetDensity | KlayGE/Samples/src/GPUParticleSystem/GPUParticleSystem.cpp:60-80 | the density is in [-0.5, 0.5] |
| NoiseVolume.WrapCoordPeriodic | KlayGE/Samples/src/GPUParticleSystem/GPUParticleSystem.cpp:62-77 | from -vol_size upwards the wrap is the remainder mod vol_size: in-range coordinates are kept, -1 wraps to vol_size - 1 and vol_size to 0 |
| NoiseVolume.WrapCoordPowerOfTwo | KlayGE/Samples/src/GPUParticleSystem/GPUParticleSystem.cpp:62-77 | when vol_size divides 2^32 the wrap is the remainder for every int coordinate |
| NoiseVolume.WrapCoordBeyondRange | KlayGE/Samples/src/GPUParticleSystem/GPUParticleSystem.cpp:62-77 | otherwise it is not: with vol_size 3, -4 wraps to 0 while -4 mod 3 is 2 |
| NoiseVolume.Gradient | KlayGE/Samples/src/GPUParticleSystem/GPUParticleSystem.cpp:103-105 | each component of the central difference divided by the height adjustment 0.5 lies in [-2, 2] |
| NoiseVolume.DensityAliases | KlayGE/Samples/src/GPUParticleSystem/GPUParticleSystem.cpp:103-105 | the neighbours the normal loop reads past the edges (-1 and vol_size) alias the opposite edge |
| NoiseVolume.DensityReadsOnlyAlpha | KlayGE/Samples/src/GPUParticleSystem/GPUParticleSystem.cpp:79 | two buffers with the same channel 3 give the same densities |
| NoiseVolume.VoxelInVolume | KlayGE/Samples/src/GPUParticleSystem/GPUParticleSystem.cpp:79 | the voxel number of an in-range (x, y, z) is below vol_size^3, so all four of its bytes are in the buffer |
| NoiseVolume.VoxelDecompose | KlayGE/Samples/src/GPUParticleSystem/GPUParticleSystem.cpp:109-111 | x, y and z are recovered from the voxel number, so the numbering is one to one |
| NoiseVolume.VoxelRowStep | KlayGE/Samples/src/GPUParticleSystem/GPUParticleSystem.cpp:97-101 | the loop order z, y, x visits voxel numbers consecutively across row and slice ends |
| NoiseVolume.FillDensities | KlayGE/Samples/src/GPUParticleSystem/GPUParticleSystem.cpp:89-92 | the random fill writes the v-th draw into channel 3 of voxel v and leaves channels 0..2 as they were |
| NoiseVolume.Filled | KlayGE/Samples/src/GPUParticleSystem/GPUParticleSystem.cpp:86-92 | the zeroed vector after the random fill has 4 bytes per draw and 0 in every byte outside channel 3 |
| NoiseVolume.FilledAlpha | KlayGE/Samples/src/GPUParticleSystem/GPUParticleSystem.cpp:86-92 | after the fill of the zeroed vector, channel 3 of voxel v is the v-th draw |
| NoiseVolume.Clamp | KlayGE/Samples/src/GPUParticleSystem/GPUParticleSystem.cpp:109-111 | `clamp(v, 0, 255)` keeps in-range values and saturates the others at 0 and 255 |
| NoiseVolume.EncodeNormals | KlayGE/Samples/src/GPUParticleSystem/GPUParticleSystem.cpp:97-114 | after the triple loop every byte is its encoded value, computed from the densities of the buffer before the loop, although the loop reads the buffer it writes |
| NoiseVolume.NoiseBuffer | KlayGE/Samples/src/GPUParticleSystem/GPUParticleSystem.cpp:86-114 | the buffer after both loops has vol_size^3 * 4 bytes and the same channel 3 as after the random fill |
| NoiseVolume.EncodeVoxel | KlayGE/Samples/src/GPUParticleSystem/GPUParticleSystem.cpp:103-111 | one iteration encodes the next voxel and leaves every later byte alone |
| NoiseVolume.EncodedKeepsAlpha | KlayGE/Samples/src/GPUParticleSystem/GPUParticleSystem.cpp:109-111 | the normal loop keeps channel 3 and writes to channel c < 3 the clamped encoder output for that voxel: channel 2 from x, 1 from y, 0 from z |
| NoiseVolume.MemCopy | KlayGE/Samples/src/GPUParticleSystem/GPUParticleSystem.cpp:125 | memcpy puts n source bytes at the destination offset and changes nothing else |
| NoiseVolume.TexelSourceInData | KlayGE/Samples/src/GPUParticleSystem/GPUParticleSystem.cpp:125 | with row starts that leave room for vol_size * 4 bytes, every non-padding texture byte has its source inside the buffer |
| NoiseVolume.UploadVolume | KlayGE/Samples/src/GPUParticleSystem/GPUParticleSystem.cpp:118-130 | walking the mapped pointer by the row pitch and the rest of the slice pitch, every texture byte ends up as the source byte of its row, and padding bytes keep their old value |
| NoiseVolume.UploadRow | KlayGE/Samples/src/GPUParticleSystem/GPUParticleSystem.cpp:123-127 | one row copy fills the next RowPitch bytes of the texture |
| NoiseVolume.SkipSlicePadding | KlayGE/Samples/src/GPUParticleSystem/GPUParticleSystem.cpp:128 | the bytes the slice-end skip passes over are padding |
| NoiseVolume.RowInSlice | KlayGE/Samples/src/GPUParticleSystem/GPUParticleSystem.cpp:121-127 | each row ends inside its slice, and each slice inside the texture |
| NoiseVolume.TexelOffset | KlayGE/Samples/src/GPUParticleSystem/GPUParticleSystem.cpp:121-127 | a byte of the row copied at z * SlicePitch + y * RowPitch lies in slice z, row y, at its offset from the row start |
| NoiseVolume.TexelInTexture | KlayGE/Samples/src/GPUParticleSystem/GPUParticleSystem.cpp:121-128 | byte c of texel (x, y, z) lies in the texture, in slice z, row y, column 4x + c, outside the padding |
| NoiseVolume.RowStartsInData | KlayGE/Samples/src/GPUParticleSystem/GPUParticleSystem.cpp:125 | both the voxel-layout row start and the row start line 125 uses keep every copy inside the buffer |
| NoiseVolume.SourceRowOffset | KlayGE/Samples/src/GPUParticleSystem/GPUParticleSystem.cpp:125 | byte 4x + c of row (z, y) of the buffer is byte c of voxel (x, y, z) |
| NoiseVolume.UploadPlacesVoxels | KlayGE/Samples/src/GPUParticleSystem/GPUParticleSystem.cpp:119-129 | with the voxel-layout row start, byte c of voxel (x, y, z) lands at z * SlicePitch + y * RowPitch + 4x + c |
| NoiseVolume.UploadAsWrittenMisplacesRows | KlayGE/Samples/src/GPUParticleSystem/GPUParticleSystem.cpp:125 | the row start as written falls behind the true row start on every row but the first, so all copies together read only vol_size^3 + 3 * vol_size of the 4 * vol_size^3 bytes |
| NoiseVolume.UploadAsWrittenCounterexample | KlayGE/Samples/src/GPUParticleSystem/GPUParticleSystem.cpp:125 | with vol_size 2, texture byte 8 gets buffer byte 2 as written, where the voxel layout puts buffer byte 8 |
| NoiseVolume.CreateNoiseVolume | KlayGE/Samples/src/GPUParticleSystem/GPUParticleSystem.cpp:82-133 | the texture holds the upload of the buffer that the random fill and the normal loop leave |
| NoiseVolume.NoiseVolumeTexel | KlayGE/Samples/src/GPUParticleSystem/GPUParticleSystem.cpp:82-133 | with the corrected row start (see Findings), at z * SlicePitch + y * RowPitch + 4x the texture holds the voxel's clamped encoded normal (z, y, x components in bytes 0, 1, 2) and its random density in byte 3 |
| DeviceCaps.ConfirmDevice | KlayGE/Samples/src/GPUParticleSystem/GPUParticleSystem.cpp:508-536 | the device is accepted exactly when it has shader model >= 3, at least 2 render targets and all four trial calls succeed; failing caps make no trial call, and acceptance makes all four |
| DeviceCaps.CallsStopAtFirstFailure | KlayGE/Samples/src/GPUParticleSystem/GPUParticleSystem.cpp:519-532 | once the caps pass, the calls stop right after the first one that throws, and the device is accepted exactly when none throws |
| DeviceCaps.AcceptanceMonotone | KlayGE/Samples/src/GPUParticleSystem/GPUParticleSystem.cpp:512-519 | a device at least as capable as an accepted one, on which the same calls succeed, is accepted |
| ParticleApp.PassResult | KlayGE/Samples/src/GPUParticleSystem/GPUParticleSystem.cpp:701-756 | every pass asks for a flush, and only the passes from 2 on report Finished |
| ParticleApp.PassVisibility | KlayGE/Samples/src/GPUParticleSystem/GPUParticleSystem.cpp:701-756 | the terrain is visible only in pass 0 and the particles only in pass 1, never both |
| ParticleApp.PassTarget | KlayGE/Samples/src/GPUParticleSystem/GPUParticleSystem.cpp:701-756 | pass 0 clears the scene buffer to sky blue, pass 1 the fog buffer to transparent black, and the final pass the screen to sky blue |
| ParticleApp.FrameRunsThreePasses | KlayGE/Samples/src/GPUParticleSystem/GPUParticleSystem.cpp:701-756 | the first pass to report Finished is pass 2, so a frame runs exactly passes 0, 1 and 2 |
| ParticleApp.GpuParticleSystemApp.DoUpdate | KlayGE/Samples/src/GPUParticleSystem/GPUParticleSystem.cpp:701-756 | each pass sets the visibility, target and result above; only pass 1 steps the simulation, which happens exactly once, and the particles then get the post-update PosTexture() |
| ParticleApp.RunFrame | KlayGE/Samples/src/GPUParticleSystem/GPUParticleSystem.cpp:701-756 | over one frame the simulation advances once, the particles sample the generation that update wrote, and the frame ends on the screen with nothing visible |

## Left out

- **GPU and effect plumbing.** These are calls into the render backend, which is not part of this model:
  - texture, frame-buffer and render-view creation, and `Attach`;
  - effect parameter binds and `Render()`;
  - the blend post-process `Apply`, and font text.
- **The simulation shader and the "alive" test.** They live in an effect file that is not part of this model. `Update` records what it binds (`SimPass`) instead of drawing.
- **Float numerics.** Times, box coordinates and densities are `real`. This leaves out:
  - float rounding, including the rounding of AutoEmit's running sum, which the model proves equal to slot * (1 / freq);
  - `MathLib::normalize`, for which the normal loop takes a caller-supplied encoder;
  - camera and model matrices (`ModelMatrix`), and texel offsets and instance texture coordinates.
- **Random generators.** The lagged-Fibonacci draws of the noise volume are an input sequence of bytes. The random initial-velocity texture of the constructor is not modelled: it fills a texture only the shader reads.
- **Application plumbing.** `main` (option parsing and factory selection), `InitObjects`, `OnResize` and `InputHandler` are left out. `DoUpdate` takes the timer's elapsed time as a parameter, and the timer restart is not modelled.
- **Engine sources.** Dll.cpp (dynamic library loading) and Config.hpp (macros) are left out. So are `Box_T::VecInBound`, which delegates to a math routine that is not part of this model, and the `Bound_T` base.
- **The default constructor of `Box_T`.** It leaves the corners uninitialised.
- Boxes.Width: returns the extent by value. The source returns a `T const &` to a temporary, a dangling reference.
- Boxes.Corner: the `BOOST_ASSERT(false)` before the default label's return is not modelled. In a debug build it aborts; the model only returns the zero vector, as a release build does.
- Boxes.Box.DivAssign: requires r != 0. With float r = 0 the source computes an infinite factor.
- NoiseVolume.GetDensity: requires `vol_size` in 1..1023. At 1024 and above, `vol_size^3 * 4` overflows uint32 and the buffer is smaller than the indices.
- NoiseVolume.Gradient: `x - 1` at x = 0 is computed in uint32 and converted to int as -1. The model passes -1 directly, as every mainstream compiler does.
- NoiseVolume.CreateNoiseVolume: uses the corrected row start (see Findings). It also treats the mapped memory as zero before the copy, which only decides the padding bytes.
- NoiseVolume.NoiseVolumeTexel: states the texture layout of the corrected upload, not of line 125 as written (see Findings).
- ParticleSystems.GpuParticleSystem.constructor: requires max_num_particles > 0 and pitches of at least 256 texels. The source takes any int. The row pitch is in texels, as the source divides the byte pitch by the texel size.
- ParticleSystems.GpuParticleSystem.AutoEmit: requires freq > 0.
- ParticleSystems.GpuParticleSystem.Update: requires AutoEmit to have run, so that inv_emit_freq_ is set, and requires a non-negative elapsed time.

## Findings

| source | as written | input that shows it | evidently intended | confidence | as-written member | corrected member |
|---|---|---|---|---|---|---|
| KlayGE/Samples/src/GPUParticleSystem/GPUParticleSystem.cpp:125 | the copy of row (z, y) reads from `&data[(z * vol_size + y) * vol_size]`, a voxel number used as a byte offset | vol_size = 2: row (0, 1) is read from byte 2, where its voxels start at byte 8; in general the last 3 * vol_size^3 - 3 * vol_size bytes never reach the texture | read from byte `(z * vol_size + y) * vol_size * 4`, where the voxel layout of lines 79 and 109-111 puts the row | high (not executed) | NoiseVolume.UploadAsWrittenMisplacesRows, NoiseVolume.UploadAsWrittenCounterexample | NoiseVolume.UploadPlacesVoxels |
| KlayGE/Samples/src/GPUParticleSystem/GPUParticleSystem.cpp:147 | the rendering grid has `max_num_particles / 256` rows, rounded down | 300 particles: 1 row of 256 slots, while the simulation grid of line 272 has 2 rows; below 256 particles it has 0 rows | `(max_num_particles + 255) / 256` rows, as the simulation grid of line 272 | medium (not executed; the sample uses 65536, a multiple of 256) | ParticleGrid.RenderRowsTooShort | ParticleGrid.GridHoldsAll |
