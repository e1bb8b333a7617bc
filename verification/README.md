# FluidEffect particle pipeline, in Dafny

This project models the CPU side of FluidEffect, a small Direct3D 11 particle
demo. It covers:

- **Particles** (`Particles`): one semi-implicit Euler step with gravity
  (0, -9.81, 0), linear drag 0.1 and a lifetime countdown. Each particle
  also has a fixed 32-slot neighbour buffer (`MAX_NEARBY_PARTICLES`):
  - the first 32 particles of the list are copied in;
  - each later particle replaces the furthest slot when it is strictly
    closer than an acceptance threshold;
  - all slots are then moved into view space.

  The threshold of the furthest-slot scan is the maximum over slots 0..30
  only. The model keeps that off-by-one exactly as the code has it.
- **Spawner** (`Spawning`): a countdown that emits at most one particle per
  update. After a spawn it restarts from `1 / (rate + variance)`, with a
  guard that keeps the divisor positive. `CreateParticle` jitters the
  emitter's position, direction, speed and lifetime and appends the new
  particle to the list it shares with the particle system.
- **Particle system** (`ParticleSystems`): one update does three things in
  order.
  1. It applies keyboard tuning of the spawner.
  2. It steps the spawner.
  3. It integrates every particle once and erases the dead ones in place,
     stepping back the index after each erase.

  The render pass recomputes each particle's neighbour buffer in list order
  and stops at the first failed draw.
- **Key observers and the input singleton** (`KeyObservers`, `Input`): the
  pressed/held/released edge detector, and the map of observers. The map is
  stepped while the window has focus and cleared while it has not. The
  mouse velocity is the pixel delta over the client size.
- **OBJ loading and smoothed normals** (`ObjStreams`, `StaticMeshes`):
  - the line and word reader of `LoadObjFile`, for `v`, `vn`, `vt` and `f`;
  - the C++ stream rules that decide how `a/b/c`, `a//c` and `a` face words
    are read;
  - the per-vertex accumulation of normals, which returns early at the first
    negative normal index;
  - the mesh's vertex and index arrays and `SetColor`.

Floats are modelled as `real`. The view transform is a concrete 4×4 matrix
applied as `XMVector4Transform` does. The following are parameters of the
operations that use them:

- vector normalisation (`XMVector3Normalize`), as `normalize`;
- float parsing, as `readFloat`;
- the random draws, as a `SpawnSamples` record whose values lie in [-1, 1];
- the Win32 key state, cursor position and client rectangle;
- the draw result of each particle.

Classes with fields are used where the code updates objects in place:

- `Particle`, whose buffer is an `array`;
- `ParticleSpawner`, and `ParticleList`, the shared `std::vector`;
- `ParticleSystem`;
- `KeyObserver`, and `InputSystem`, whose map holds the observers;
- `StaticMesh`, whose vertex and index arrays are `array`s.

Every loop of the code is a `while` loop with invariants. Most are proved
against a specification function:

- `Gathered` and `NearbyInViewSpace` for the neighbour buffer;
- `Survivors` for the erase loop;
- `ParseObj` for the OBJ reader;
- `SmoothedNormals` for the normal accumulation;
- `LoadedVertices` for the vertex fill;
- `FirstFailure` for the render pass.

The rest are proved against per-element `ensures` clauses:

- the two loops over the observer map, `StepObservers` and `ClearObservers`;
- `SetColor`;
- `CopyIndices`.

## Model

| member | source | states |
|---|---|---|
| VectorMath.TransformZero | FluidEffect/Particle.cpp:167-172 | The view transform maps an all-zero slot to an all-zero slot. |
| Particles.IntegratedLifetime | FluidEffect/Particle.cpp:124 | One update lowers the time to live by exactly deltaTime. |
| Particles.IntegratedVelocity | FluidEffect/Particle.cpp:113-118 | The new velocity is v + g·dt − 0.1·v·dt, with drag taken from the velocity before the step. |
| Particles.IntegratedFromRest | FluidEffect/Particle.cpp:113-118 | From rest the new velocity is (0, −9.81·dt, 0). |
| Particles.IntegratedPosition | FluidEffect/Particle.cpp:120-122 | The position advances by the new velocity times dt (semi-implicit Euler), not by the old one. |
| Particles.LifetimeAfterSteps | FluidEffect/Particle.cpp:111-125 | n updates with the same dt lower the time to live by n·dt. |
| Particles.FurthestAmong | FluidEffect/Particle.cpp:146-155 | The scan over slots 0..n−1 settles on an index below n. |
| Particles.FurthestAmongIsFurthest | FluidEffect/Particle.cpp:146-155 | The scan's index has maximal distance among slots 0..n−1 and is the lowest such index, because the comparison is strict. |
| Particles.FurthestIsUnique | FluidEffect/Particle.cpp:146-155 | Only one index is the lowest of maximal distance, so the scan's choice is determined. |
| Particles.MaxDistIsUnique | FluidEffect/Particle.cpp:148-150 | The maximal distance over a range of slots is a single value. |
| Particles.ThresholdIsMaxOfFirst31 | FluidEffect/Particle.cpp:148-150 | The acceptance threshold is the maximal distance over slots 0..30; slot 31 does not take part. |
| Particles.ThresholdWhenLastSlotNotAlone | FluidEffect/Particle.cpp:146-159 | When slot 31 is not strictly further than every earlier slot, the threshold is the distance of the furthest slot overall. |
| Particles.LastSlotIgnoredByThreshold | FluidEffect/Particle.cpp:148-162 | With slot 31 alone furthest, a candidate closer than slot 31 is still rejected and the buffer is unchanged. |
| Particles.Considered | FluidEffect/Particle.cpp:136-162 | Offering one particle keeps the buffer at exactly 32 slots. |
| Particles.ConsideredReplacesFurthest | FluidEffect/Particle.cpp:157-162 | A later particle overwrites only the furthest slot, and only when strictly closer than the threshold. That slot's distance then strictly drops, and every other slot is kept. |
| Particles.Gathered | FluidEffect/Particle.cpp:129-164 | The buffer after offering a whole list always has 32 slots. |
| Particles.GatheredSlots | FluidEffect/Particle.cpp:129-164 | Before the transform, slot k < n holds the position (w = 1) of some particle of the list, which may be the particle itself. Every slot k ≥ n is all-zero. With n ≤ 32, slot k holds particle k. |
| Particles.FewParticlesInViewSpace | FluidEffect/Particle.cpp:129-172 | With n ≤ 32 particles, slot k < n holds particle k's transformed position, and every later slot is zero in view space too. |
| Particles.Positions | FluidEffect/Particle.cpp:134 | Definition: the positions read from the list, one per particle and in list order. It is the input of `CalculateNearestParticles`' contract. |
| Particles.Particle.constructor | FluidEffect/Particle.cpp:7-12 | A new particle is at the origin, at rest, with time to live 1 and an all-zero neighbour buffer of its own. |
| Particles.Particle.Update | FluidEffect/Particle.cpp:111-125 | The particle's new state is one integration step (`Integrated`) of its old state. |
| Particles.Particle.CalculateNearestParticles | FluidEffect/Particle.cpp:127-173 | The buffer ends as the list's positions gathered from an all-zero buffer in list order, then transformed by the view matrix (`NearbyInViewSpace`). |
| Particles.Particle.SetPosition | FluidEffect/Particle.cpp:175-178 | Only the position changes, to the argument. |
| Particles.Particle.SetVelocity | FluidEffect/Particle.cpp:185-188 | Only the velocity changes, to the argument. |
| Particles.Particle.SetTimeToLive | FluidEffect/Particle.cpp:195-198 | Only the time to live changes, to the argument. |
| Particles.ToViewSpace | FluidEffect/Particle.cpp:166-172 | Every one of the slots is replaced in place by its image under the view matrix. |
| Particles.ReplaceFurthestIfCloser | FluidEffect/Particle.cpp:140-163 | The scan and the conditional overwrite leave the buffer as `Considered` says for a particle past the 32nd. |
| Particles.FurthestSlot | FluidEffect/Particle.cpp:142-155 | The scan returns the lowest index of maximal distance over all 32 slots, together with the maximal distance over slots 0..30. |
| Spawning.JitteredAxisWithin | FluidEffect/ParticleSpawner.cpp:42-44 | With a non-negative variance and a draw in [-1, 1], a jittered coordinate stays within the variance of its base. |
| Spawning.JitteredWithinVariance | FluidEffect/ParticleSpawner.cpp:41-44 | The same bound holds on all three axes of a jittered vector. |
| Spawning.SpawnedPositionWithinVariance | FluidEffect/ParticleSpawner.cpp:41-45 | Each axis of a spawned particle's position differs from the emitter position by at most `m_pVariance`. |
| Spawning.SpawnedWithoutVariance | FluidEffect/ParticleSpawner.cpp:41-57 | With zero position and lifetime variances, the particle starts at the emitter position with the emitter's time to live. |
| Spawning.SpawnedLifetimeWithinVariance | FluidEffect/ParticleSpawner.cpp:57 | A spawned particle's lifetime lies within `m_ttlVariance` of `m_timeToLive`. |
| Spawning.SpawnPeriod | FluidEffect/ParticleSpawner.cpp:27-33 | Thanks to the guard, the countdown set after a spawn is strictly positive for every spawn rate, variance and draw. |
| Spawning.SpawnPeriodWithoutVariance | FluidEffect/ParticleSpawner.cpp:27-33 | Without rate variance the period is exactly 1 / rate. |
| Spawning.CadenceAtRate | FluidEffect/ParticleSpawner.cpp:20-35 | A new spawner stepped n times by dt = 1/rate, without rate variance, emits exactly n particles. |
| Spawning.ParticleSpawner.constructor | FluidEffect/ParticleSpawner.cpp:4-18 | A new spawner has the default configuration around its position, countdown 0, and shares the given list. |
| Spawning.ParticleSpawner.Update | FluidEffect/ParticleSpawner.cpp:20-35 | The countdown drops by dt. At or below zero exactly one particle is appended, however large dt was, and the countdown restarts from `SpawnPeriod`. Otherwise the list is untouched and the countdown is the decremented value. Whether it spawns, and the new countdown, are the one step `Tick` describes, which `CadenceAtRate` is about. |
| Spawning.ParticleSpawner.CreateParticle | FluidEffect/ParticleSpawner.cpp:37-60 | The shared list gains one fresh particle at its end, in the jittered state (`SpawnedState`), with earlier entries untouched. |
| KeyObservers.EdgeFlagsConsistent | FluidEffect/KeyObserver.cpp:20-22 | After a sample, held is the sample, and pressed and released are never both set. Pressed implies held; released implies not held. |
| KeyObservers.ObservedIsEdgeOfSamples | FluidEffect/KeyObserver.cpp:16-23 | After any run of samples, held is the last sample. Pressed holds iff the last sample is down and the one before was up, and released holds the other way round. |
| KeyObservers.KeyKeptDownPressedOnce | FluidEffect/KeyObserver.cpp:20-22 | Two consecutive down samples report pressed on the first at most. |
| KeyObservers.KeyObserver.constructor | FluidEffect/KeyObserver.cpp:4-6 | The default observer watches key −1 with every flag false. |
| KeyObservers.KeyObserver.WithKey | FluidEffect/KeyObserver.cpp:8-14 | An observer of a key starts with every flag false. |
| KeyObservers.KeyObserver.Update | FluidEffect/KeyObserver.cpp:16-23 | The flags become pressed = down ∧ ¬held, released = ¬down ∧ held, held = down, from the held flag before the call. |
| Input.Divide | FluidEffect/InputSystem.cpp:41-42 | The quotient is not finite exactly when the divisor is 0; otherwise quotient × divisor is the dividend. |
| Input.MouseVelocityFullWidth | FluidEffect/InputSystem.cpp:35-42 | Moving the cursor one client width to the right reads as x velocity 1. |
| Input.RefocusReportsPressAgain | FluidEffect/InputSystem.cpp:46-53 | A key still down after focus returns is reported pressed again. A key kept down while in focus is not. |
| Input.InputSystem.Peek | FluidEffect/InputSystem.h:16-18 | An unobserved key reads with every flag false. |
| Input.InputSystem.constructor | FluidEffect/InputSystem.h:25-30 | The singleton starts with no observed keys and a zero mouse position and velocity. |
| Input.InputSystem.ObserveKey | FluidEffect/InputSystem.cpp:14-17 | The key gets a fresh all-false observer, even if it was observed before. Other keys and the mouse state are kept. |
| Input.InputSystem.Update | FluidEffect/InputSystem.cpp:19-55 | The key set never changes. In focus, every observer takes one sample of its own key, the mouse position becomes the cursor, and the velocity is delta over client size. Out of focus, every observer's flags are cleared and the mouse state is kept. |
| Input.InputSystem.StepObservers | FluidEffect/InputSystem.cpp:23-26 | Every observer in the map is stepped exactly once with its own key's sample. |
| Input.InputSystem.ClearObservers | FluidEffect/InputSystem.cpp:48-53 | Every observer in the map ends with all flags false. |
| Input.InputSystem.Entry | FluidEffect/InputSystem.h:16-18 | `m_keyMapper[key]`: the key's observer. A missing key is first inserted with a fresh default observer (key −1, flags false); other entries stay. |
| Input.InputSystem.Pressed | FluidEffect/InputSystem.h:16 | Returns the key's pressed flag, false for an unobserved key, which is then inserted with a default observer. |
| Input.InputSystem.Held | FluidEffect/InputSystem.h:17 | Returns the key's held flag, false for an unobserved key, which is then inserted with a default observer. |
| Input.InputSystem.Released | FluidEffect/InputSystem.h:18 | Returns the key's released flag, false for an unobserved key, which is then inserted with a default observer. |
| ParticleSystems.TuningLeavesOtherFields | FluidEffect/ParticleSystem.cpp:72-86 | Tuning changes only the velocity, the spawn rate and the direction variance. |
| ParticleSystems.TuningGuards | FluidEffect/ParticleSystem.cpp:72-86 | The spawn rate rises by 1 only from below 40 and falls by 1 only from above 2. The velocity does the same at 20 and 2. The direction variance rises only below 2 and falls only above 0. |
| ParticleSystems.TuningKeepsRanges | FluidEffect/ParticleSystem.cpp:72-86 | Tuning keeps the spawn rate in [1, 41], the velocity in [1, 21] and the direction variance in [−0.1, 2.1]. |
| ParticleSystems.ShiftEAtTopVelocityRaisesRate | FluidEffect/ParticleSystem.cpp:72-75 | With Shift held, E pressed and velocity at least 20, control falls through and the spawn rate is raised instead. |
| ParticleSystems.SurvivorsAreTheLiveInOrder | FluidEffect/ParticleSystem.cpp:91-101 | The survivors are exactly the entries whose updated lifetime is positive, each at a strictly increasing position of the list, so relative order is kept. |
| ParticleSystems.SurvivorsAndExpiredPartition | FluidEffect/ParticleSystem.cpp:95-99 | Survivors and erased entries together are the list, as a multiset. |
| ParticleSystems.SurvivorsAndExpiredCount | FluidEffect/ParticleSystem.cpp:89-101 | The count after erasing is the count before minus the number erased. |
| ParticleSystems.SurvivorsStep | FluidEffect/ParticleSystem.cpp:91-101 | One more list entry adds itself to the survivors exactly when its lifetime is positive. |
| ParticleSystems.SurvivorsLive | FluidEffect/ParticleSystem.cpp:95-99 | No survivor has a time to live ≤ 0. |
| ParticleSystems.SurvivorsAdvance | FluidEffect/ParticleSystem.cpp:93-99 | The loop's cursor points at the next unvisited particle. Keeping it, or erasing it and stepping the index back, leaves the survivors so far followed by the unvisited rest. |
| ParticleSystems.SurvivorsWellFormed | FluidEffect/ParticleSystem.cpp:98 | Erasing keeps the particles and their buffers pairwise distinct. |
| ParticleSystems.States | FluidEffect/ParticleSystem.cpp:91-93 | Definition: the states of a particle list, one per particle and in order. It is used in the contracts of `Spawn` and the erase loop. |
| ParticleSystems.IntegratedAll | FluidEffect/ParticleSystem.cpp:91-93 | Definition: each state integrated once, in order. It is the reference `ProcessParticles` is proved against. |
| ParticleSystems.FirstFailure | FluidEffect/ParticleSystem.cpp:58-63 | The index of the first failed draw (or the count): every earlier draw succeeded and the one there failed. |
| ParticleSystems.ParticleSystem.constructor | FluidEffect/ParticleSystem.cpp:6-10 | A new system has an empty particle list and a fresh spawner with the default configuration that shares that list. |
| ParticleSystems.ParticleSystem.Update | FluidEffect/ParticleSystem.cpp:68-102 | The spawner's configuration ends tuned (`TunedConfig`) by the keys read from the input. The spawner steps (at most one append). Every particle present after spawning, the new one included, is integrated exactly once. The list ends as the survivors of that step, in order, with no time to live ≤ 0. |
| ParticleSystems.ParticleSystem.Advance | FluidEffect/ParticleSystem.cpp:89-101 | The spawner steps and every particle is integrated once and the dead erased, as in Update, with the configuration unchanged. |
| ParticleSystems.ParticleSystem.Spawn | FluidEffect/ParticleSystem.cpp:89 | The spawner step seen from the system: the earlier particles keep their place and state, and one particle in the spawned state is appended exactly when the countdown ran out. |
| ParticleSystems.ParticleSystem.ApplyTuning | FluidEffect/ParticleSystem.cpp:72-86 | The four guarded rules leave the spawner in `TunedConfig`, and the countdown is untouched. |
| ParticleSystems.ParticleSystem.ProcessParticles | FluidEffect/ParticleSystem.cpp:91-101 | Every particle is integrated exactly once; the list becomes `Survivors` of the integrated states, all alive. |
| ParticleSystems.ParticleSystem.Visit | FluidEffect/ParticleSystem.cpp:93-100 | One loop iteration integrates the particle at the cursor and erases it if dead, extending the survivors by one entry of the list. |
| ParticleSystems.ParticleSystem.Render | FluidEffect/ParticleSystem.cpp:51-66 | Succeeds iff no draw fails. Particles up to and including the first failed one get their buffers recomputed from the whole list; later ones are untouched. |
| ParticleSystems.RenderParticles | FluidEffect/ParticleSystem.cpp:58-65 | The draw loop over a list, with the same outcome as Render. |
| ParticleSystems.RefreshNearby | FluidEffect/ParticleSystem.cpp:60 | One particle's buffer is recomputed from the whole list; every other buffer is kept. |
| ObjStreams.WordLength | FluidEffect/StaticMesh.cpp:318 | The length of the leading word: its characters are not blanks and the next one is. |
| ObjStreams.Tokens | FluidEffect/StaticMesh.cpp:316-318 | Every word extracted from a line is non-empty and free of blanks. |
| ObjStreams.TokensKeepEveryVisibleChar | FluidEffect/StaticMesh.cpp:316-350 | Splitting a line into words loses only whitespace: the words joined are the line without its blanks. |
| ObjStreams.DigitRun | FluidEffect/StaticMesh.cpp:358 | The length of the leading run of digits, which stops at a non-digit or the end. |
| ObjStreams.ReadIntOfDigits | FluidEffect/StaticMesh.cpp:358-362 | A run of digits up to a non-digit reads as its value and consumes exactly the run. |
| ObjStreams.ReadIntOfNonNumber | FluidEffect/StaticMesh.cpp:358 | A word that starts with neither a digit nor a sign fails the read and stores 0. |
| ObjStreams.FailedStreamKeepsValues | FluidEffect/StaticMesh.cpp:358-367 | Once the stream has failed, every later extraction keeps the variable's value and peek sees no digit. |
| StaticMeshes.FaceVertexFull | FluidEffect/StaticMesh.cpp:355-371 | `a/b/c` gives the 0-based triple (a−1, b−1, c−1). |
| StaticMeshes.FaceVertexWithoutUv | FluidEffect/StaticMesh.cpp:355-371 | `a//c` gives (a−1, −2, c−1): the absent texture index stays −1 and is stored as −2. |
| StaticMeshes.FaceVertexWithoutNormal | FluidEffect/StaticMesh.cpp:355-371 | `a/b` gives (a−1, b−1, −2). |
| StaticMeshes.FaceVertexPositionOnly | FluidEffect/StaticMesh.cpp:355-371 | `a` gives (a−1, −2, −2). |
| StaticMeshes.FaceVertexNonNumeric | FluidEffect/StaticMesh.cpp:355-371 | A word that does not start with a digit or sign gives (−1, −2, −2): the failed read stores 0. |
| StaticMeshes.FaceVertices | FluidEffect/StaticMesh.cpp:340-374 | A face line keeps min(3, number of words) face vertices, each read from its own word, in order. |
| StaticMeshes.VIndices | FluidEffect/StaticMesh.cpp:369 | Definition: the position indices of the kept face vertices, in order. `AddFaceStep` and `FaceLineAppendsAtMostThree` state what they append. |
| StaticMeshes.UvIndices | FluidEffect/StaticMesh.cpp:370 | Definition: the texture indices of the kept face vertices, in order. `AddFaceStep` and `FaceLineAppendsAtMostThree` state what they append. |
| StaticMeshes.NIndices | FluidEffect/StaticMesh.cpp:371 | Definition: the normal indices of the kept face vertices, in order. `AddFaceStep` and `FaceLineAppendsAtMostThree` state what they append. |
| StaticMeshes.OtherLinesChangeNothing | FluidEffect/StaticMesh.cpp:314-376 | A line whose first word is not `v`, `vn`, `vt` or `f` changes nothing. |
| StaticMeshes.VertexLinesAppendOne | FluidEffect/StaticMesh.cpp:320-337 | A `v`, `vn` or `vt` line appends exactly one entry to positions, normals or uvs respectively, and keeps what was there. |
| StaticMeshes.FaceLineAppendsAtMostThree | FluidEffect/StaticMesh.cpp:338-375 | A face line appends at most 3 entries to each index list; a fourth or later word is dropped. The entries appended are the face-vertex readings of its first words, in order. |
| StaticMeshes.ParseObjCounts | FluidEffect/StaticMesh.cpp:314-382 | The vertex count is the number of `v` lines; the index lists all have the number of kept face vertices. |
| StaticMeshes.ParseObjOnlyAppends | FluidEffect/StaticMesh.cpp:314-376 | Reading further lines only appends: what earlier lines produced stays in place and in order. |
| StaticMeshes.OneMoreLineOnlyAppends | FluidEffect/StaticMesh.cpp:314-376 | One more line only appends to what was read so far. |
| StaticMeshes.ParseLineOnlyAppends | FluidEffect/StaticMesh.cpp:316-375 | A single line only appends to each of the six temporary vectors. |
| StaticMeshes.FirstNegative | FluidEffect/StaticMesh.cpp:428-434 | The position of the first negative normal index: all indices before it are non-negative. |
| StaticMeshes.Sums | FluidEffect/StaticMesh.cpp:425-439 | `numVertices` slots; slot v holds the sum of the normals of the face vertices that refer to v. |
| StaticMeshes.SumsStep | FluidEffect/StaticMesh.cpp:430-438 | One face vertex adds its normal into its own vertex slot and leaves every other slot alone. |
| StaticMeshes.SmoothedNormals | FluidEffect/StaticMesh.cpp:423-447 | The output has one entry per vertex. |
| StaticMeshes.UnreferencedVertexSumsToZero | FluidEffect/StaticMesh.cpp:425-439 | A vertex that no face vertex refers to keeps a zero sum. |
| StaticMeshes.SingleReferenceKeepsNormal | FluidEffect/StaticMesh.cpp:425-439 | A vertex referred to exactly once sums to that one normal. |
| StaticMeshes.SlotTotalStep | FluidEffect/StaticMesh.cpp:436-438 | One accumulation step adds the face vertex's normal to the running total over slots 0..m−1 when its vertex is among them. |
| StaticMeshes.AccumulationConservesTotal | FluidEffect/StaticMesh.cpp:428-439 | The slots together hold exactly the sum of the normals contributed: nothing is lost or counted twice. |
| StaticMeshes.ZeroSlots | FluidEffect/StaticMesh.cpp:425-426 | Before accumulation every slot is zero. |
| StaticMeshes.ToUInt32 | FluidEffect/StaticMesh.cpp:399 | The unsigned conversion is in [0, 2^32) and congruent to the int modulo 2^32. |
| StaticMeshes.ToUInt32Examples | FluidEffect/StaticMesh.cpp:399 | An in-range index is kept; −1 and −2 become 0xFFFFFFFF and 0xFFFFFFFE. |
| StaticMeshes.LoadedVertices | FluidEffect/StaticMesh.cpp:388-394 | Definition: one vertex per position, in file order, with that position, the smoothed normal of the same index, and the default uv and colour. `FillVertices` is proved against it. |
| StaticMeshes.AddFaceStep | FluidEffect/StaticMesh.cpp:369-373 | Each kept face vertex pushes its three indices onto the ends of the three index lists. |
| StaticMeshes.StaticMesh.FromObj | FluidEffect/StaticMesh.cpp:296-400 | The vertex count is the number of positions read and the index count the number of kept face vertices. Vertex i is position i with smoothed normal i; index i is the i-th position index as unsigned. |
| StaticMeshes.StaticMesh.FillVertices | FluidEffect/StaticMesh.cpp:388-394 | The vertex loop fills a fresh array with `LoadedVertices`. |
| StaticMeshes.StaticMesh.CopyIndices | FluidEffect/StaticMesh.cpp:396-400 | The index loop copies every position index, in order, converted to unsigned. |
| StaticMeshes.StaticMesh.Triangle | FluidEffect/StaticMesh.cpp:16-37 | The fixed triangle: three default-coloured vertices at (−0.6, −0.6, 0.6), (0, 0.6, 0.6) and (0.6, −0.6, 0.6), and indices 0, 2, 1. |
| StaticMeshes.StaticMesh.SetColor | FluidEffect/StaticMesh.cpp:278-283 | Every vertex takes the colour; its position, normal and uv are kept. |
| StaticMeshes.StaticMesh.ReadObj | FluidEffect/StaticMesh.cpp:306-376 | The getline loop produces exactly the temporary vectors `ParseObj` describes. |
| StaticMeshes.StaticMesh.ReadFace | FluidEffect/StaticMesh.cpp:340-374 | The token loop of a face line appends the readings of its first three words. |
| StaticMeshes.StaticMesh.GetSmoothedNormals | FluidEffect/StaticMesh.cpp:423-447 | The output is `numVertices` per-vertex sums of the face-vertex normals. At the first negative normal index it returns with the partial sums, not normalised; otherwise every sum is normalised. |

## Left out

- Direct3D 11 work is not modelled: buffers, shaders, input layouts, `Map`/`Unmap`, draw calls and `SetShader`. `Particle::Render` is represented only by its result, the `drawOk` parameter of `ParticleSystem.Render`. That function always returns `S_OK` in the code, so a failed draw cannot actually happen; the model keeps the abort path for an arbitrary result.
- `UpdateNearestParticles` is declared in `Particle.h` and called by `ParticleSystem::Render`, but defined as `CalculateNearestParticles`. Both names are modelled as the one method `Particle.CalculateNearestParticles`.
- The getters `GetPosition`, `GetVelocity` and `GetTimeToLive` are read as the fields they return. `GetParticleSpawner` is the `spawner` field.
- Destructors, `new`/`delete` ownership and the erased particle's `delete` are left out. An erased particle simply leaves the list.
- Floating-point rounding is not modelled; all arithmetic is on `real`. This covers the 0.1 steps of the direction variance, whether `-m_spawnRate + 0.01f` is exactly 0.01, and `static_cast<float>` of the mouse delta. Divisions by a zero client width or height yield `NonFinite` instead of a particular infinity or NaN.
- `XMVector3Normalize` and the float parsing of `>> float` are parameters (`normalize`, `readFloat`).
- StaticMeshes.Coord: in the model a missing coordinate on a `v`/`vn`/`vt` line reads as 0. In the code it is left uninitialised, because the previous extraction reached the end of the line and set eofbit. Every coordinate after one that fails to parse is left uninitialised too. Only a coordinate that is present but not a number stores 0. The model does not capture uninitialised values.
- Random draws are a `SpawnSamples` parameter. The Mersenne Twister state and the fact that `RandomValues`' static distribution is fixed by the bounds of its first call are not modelled.
- `GetAsyncKeyState`, `GetCursorPos`/`ScreenToClient` and `GetClientRect` are parameters of `KeyObserver.Update` and `InputSystem.Update`. `InputSystem::Initialize` and the window handle are not part of this model.
- `ParticleSystem::Update` copies the input singleton before reading it. The default entries its lookups insert land in the copy, so `KeysOf` reads the flags without inserting anything.
- `std::map` iteration order is not modelled. The in-focus and out-of-focus loops are proved for every order, since each observer is touched once and independently.
- Integer overflow is not modelled: `int` key codes, mouse deltas and face indices are unbounded. The clamping that `>> int` applies to out-of-range numbers is also left out. Only the `int` to `unsigned int` index conversion wraps, as `ToUInt32`.
- Opening the OBJ file and the early return when it cannot be opened are not modelled; the model takes the file as its sequence of lines. The texture coordinates and texture indices are read but, as in the code, never used for the vertices.
- Camera, GameObject, Shader, DirectX11Helper, EngineMain and the plain data headers are not part of this model.
- StaticMeshes.SmoothedNormals: its own contract states only the length. Its meaning is stated by `GetSmoothedNormals`, `SumsStep`, `UnreferencedVertexSumsToZero`, `SingleReferenceKeepsNormal` and `AccumulationConservesTotal`.
- StaticMeshes.StaticMesh.GetSmoothedNormals: requires every vertex and normal index before the first negative normal index to be in range, and one normal index per vertex index. The code indexes `out` and `normals` unchecked, which is undefined behaviour otherwise. StaticMeshes.StaticMesh.FromObj carries the same requirement for the file it reads.
- Particles.Gathered: its own contract states only the 32-slot length. Its contents are stated by `GatheredSlots`.
- Particles.Considered: its own contract states only the 32-slot length. Its contents are stated by `ConsideredReplacesFurthest`.
