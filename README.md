# ParticlesJS engine core in Dafny

ParticlesJS draws drifting particles on a canvas, links nearby ones with lines, and reacts to the pointer. The repository ships the engine twice:
- `particles.js` is the global script.
- `particles-es6.js` is the ES module. It adds movement behaviours, drag and gravity, recycling on `push`, and the `explode` and `rocketBoost` click modes.

This project models both builds as one engine that takes a `Build` parameter (`Global` or `Es6`). It covers the parts of the engine that compute rather than paint:

- **The particle store.** `_populate` and the click modes (`_applyClickMode`), over a `seq` of particle records held in the `ParticleJS` class.
- **`_linkParticles`.** A uniform-grid query that returns `(i, j, alpha)` links and is proved equal to the brute-force all-pairs answer, with each pair reported once.
- **`_updateParticle`.** Attraction, the hover rules (repulse, bubble, slide, relaxation), the click-bubble window, behaviours with the skip-physics gate, gravity and clamped drag, and the bounce and out-mode boundary rules. Each is a function from particle to particle.
- **The behaviour machinery of the ES module:**
  - registration and unregistration with their validation;
  - the four-layer registry;
  - `_resolveBehaviors`;
  - the per-tick loop that swallows throws and ORs the `skipPhysics` requests.
- **`_merge`, `_hexToRgb` and `_directionVector`.**

## How the model stands in for JavaScript

- **Values.** JavaScript values are the datatype `Js.Value`. Numbers are exact reals, objects are maps, and a function is a token `Fn(Behavior(action, outcome))`. The action is the change the function makes to the particle, and the outcome says whether it returns a value or throws.
  - The four built-in behaviours have their own actions.
  - A user-supplied function is reduced to a velocity change `Kick(dvx, dvy)`.
- **`Math.hypot`.** The parameter `hypot`, constrained only by `|dx| <= hypot(dx, dy)` and `|dy| <= hypot(dx, dy)` (`LinkGrid.Dominates`).
  - The link test `d <= distMax` and the alpha formula are kept as written.
  - The cosine and sine of `Math.atan2(dy, dx)` are `dx / d` and `dy / d`, or `(1, 0)` at `d = 0`.
- **`drag ** (dt * 60)`.** The parameter `pow`. The lemmas that need it assume only `Motion.PowLaw`: for a base in [0, 1] and a non-negative exponent the result is in [0, 1], and it is exactly 1 at exponent 0 or base 1.
- **`Math.random()` and `_spawnParticle()`.** The engine's `source: nat -> Particle`, read one draw at a time through the counter `drawn`. "Fresh particles" means "the next draws", and `Particles.Draws` lists them.
- **`performance.now()`.** The parameter `now`. `Engine.ParticleJS.Step` passes one reading to every particle of the frame, where the source reads the clock again for each particle.
- **The merged options.** The typed record `Particles.Options`, holding the fields the core reads.

## Model

| member | source | states |
|---|---|---|
| Particles.Cap | particles.js:291 | the cap `max(1, max ?? 300)`: 300 when unset, the given maximum when that is at least 1, and 1 when it is below 1 |
| Particles.TargetCount | particles.js:281-292 | the count never exceeds the cap; without density scaling it is `min(value, cap)`; with it, the target `value * cssArea / max(1, value_area ?? 800)` rounded: within 0.5 of the target when that lies in `[1, cap]`, exactly the cap at or above the cap, exactly 1 below 1 |
| Particles.Added | particles.js:528-532 | `push` adds exactly `particles_nb` when they fit, fills up to the cap (`cap - len`) when they do not, and adds nothing when the store is at or over the cap |
| Particles.Recycled | particles-es6.js:216-222 | the ES module recycles nothing when everything asked for was added, and otherwise exactly `min(want - added, len + added)` of the oldest particles |
| Particles.RemoveCount | particles.js:535-538 | `remove` deletes `min(particles_nb, len)` entries: never more than the store holds, exactly `particles_nb` when that fits, everything when it exceeds the length |
| Particles.Removed | particles.js:535-538 | after `remove` the store is the original suffix, in order |
| Particles.GlobalPushAppends | particles.js:528-533 | the global `push` appends the fresh particles behind the unchanged old ones, grows by `Added` and stays within the cap |
| Particles.Es6PushShape | particles-es6.js:210-223 | the ES module's `push` grows the store by exactly `Added` and stays within the cap; when no more than the old store is recycled, the old particles after the recycled prefix stay, in order, ahead of the fresh ones |
| Particles.PushAtCapRecycles | particles-es6.js:216-222 | at the cap, `push` keeps the size and replaces the oldest `min(want, len)` particles by fresh ones (FIFO) |
| Particles.GlobalPushAtCap | particles.js:528-532 | at the cap the global `push` draws nothing and changes nothing |
| Particles.DirectionVector | particles.js:577-588 | `none` and names the table does not define fall back to the random vector, each coordinate in [-0.5, 0.5); named directions are unit vectors to within the rounding of `SQRT1_2` |
| Motion.Heading | particles.js:357-360 | `(cos, sin)` of `atan2(dy, dx)` has both components in [-1, 1] and points the way of `(dx, dy)` |
| Motion.AttractGain | particles.js:346 | the gain lies in `[0, 0.00004 * dpr]` and times `max(1, dist2)` is at most 1 |
| Motion.Attraction | particles.js:342-349 | only the velocity changes, and for non-negative factors no component changes away from the canvas centre |
| Motion.HoverRepulse | particles.js:356-361 | only the velocity changes, and for `dt >= 0` it is never pulled toward the pointer |
| Motion.RepulseForce | particles.js:357-359 | the hover repulse force is never negative on a forward tick |
| Motion.Along | particles.js:359-361 | a non-negative push along the pointer's heading never points toward the pointer |
| Motion.Bubble | particles.js:362-365 | only size and opacity change; linear interpolation in `k = 1 - dist/radius`: the gap left to the bubble value is the base's gap scaled by `dist/radius`, so each ends between its base and the bubble value, and at the bubble value at distance 0 |
| Motion.BubbleNearer | particles.js:362-365 | a particle nearer the pointer is bubbled at least as close to the bubble's size and opacity |
| Motion.Relax | particles.js:366-369 | only size and opacity change; the gap to each base value is scaled by `1 - min(1, 4 dt)`; for `dt >= 0` neither overshoots its base; from `dt >= 0.25` both arrive |
| Motion.RelaxMonotone | particles.js:366-369 | a longer step leaves size and opacity no farther from their base values |
| Motion.HoverSlide | particles-es6.js:182 | only the velocity changes, by `(px - x) * 0.5 * dt` in x and `(py - y) * 0.2 * dt` in y, so for `dt >= 0` it is never pushed away from the pointer |
| Motion.Hover | particles.js:350-370 | repulse inside its radius, else bubble inside its radius, else (ES module) slide, else relaxation; a mode whose radius does not reach the particle relaxes it |
| Motion.ClickBubble | particles.js:371-385 | nothing changes unless click mode `bubble` is on, the click is within `duration` seconds, and the particle is within the bubble radius; when all three hold the particle takes the bubble interpolation at its distance |
| Motion.ClickBubbleAtPointer | particles.js:375-384 | right after a bubble click a particle under the pointer takes the bubble size and opacity, and nothing else changes |
| Motion.ClampDrag | particles-es6.js:184 | the drag is clamped into [0, 1]: 1 when unset or above 1, 0 below 0, the given value when already in range |
| Motion.DragFactorRange | particles-es6.js:184 | the drag factor lies in [0, 1] for `dt >= 0`, and is 1 without drag or at `dt = 0` |
| Motion.ScaleShrinks | particles-es6.js:200 | scaling by a factor in [0, 1] never increases a magnitude or flips a sign |
| Motion.Integrate | particles-es6.js:199-201 | `vx` becomes `vx * f` and `vy` becomes `(vy + gravity * dt) * f`, then the position advances by the new velocity; without gravity and with a factor in [0, 1] neither velocity component grows |
| Motion.Drift | particles.js:386-387 | only the position changes, by `v * dt` |
| Motion.Bounce | particles.js:388-392 | the particle ends inside the canvas, and `vx` (`vy`) is negated exactly when `x` (`y`) was outside |
| Motion.BounceSettles | particles.js:388-392 | bouncing a second time changes nothing |
| Motion.WrapAxis | particles.js:393-398 | a coordinate ends within the 50-unit margin; beyond one margin it reappears at the other |
| Motion.Wrap | particles.js:393-398 | only the position changes, and it ends within the 50-unit margin |
| Motion.Boundary | particles.js:388-398 | in `bounce` mode the particle ends inside the canvas; in every mode within the margin |
| Motion.Rocket | particles-es6.js:236-240 | only `vy` changes, by `-thrust * dpr * dt` with thrust 0 when unset |
| Motion.Slide | particles-es6.js:241-245 | only `vy` changes, to `vy * (1 - min(1, dt * stiffness))` with stiffness 4 when unset, so it moves toward 0; for `dt`, stiffness `>= 0` its magnitude never grows and its sign never flips |
| Motion.Swirl | particles-es6.js:246-254 | only the velocity changes, and the change is perpendicular to the offset toward the canvas centre |
| Motion.ClickRepulse | particles.js:540-549 | only the velocity changes; it is never pulled toward the pointer, and changes by at most 600 per component |
| Motion.NonZero | particles.js:544 | `dist || 1` is positive and still bounds both offsets |
| Motion.Burst | particles.js:546-547 | an impulse of non-negative size along the offset never points toward the pointer and is no larger than that size per component |
| Motion.Explode | particles-es6.js:224 | only the velocity changes; for non-negative power it is never pulled toward the pointer |
| Motion.RocketBoost | particles-es6.js:224 | only `vy` changes, by exactly `-power * dpr * 0.02` (power 180 when unset), the same for every particle |
| LinkGrid.Alpha | particles.js:495 | the alpha of a link within range lies in [0, 1] and never exceeds the line opacity |
| LinkGrid.FadeBounds | particles.js:495 | `opacity * (1 - d / distMax)` lies between 0 and the opacity for `0 <= d <= distMax` |
| LinkGrid.GridFor | particles.js:463-466 | the cell side is at least 1 and at least `distMax`, the grid has at least one column and row, and it covers the canvas |
| LinkGrid.Cell | particles.js:472-473 | the clamped cell coordinate is always in range, even for off-canvas particles |
| LinkGrid.CellIndex | particles.js:474 | every particle lands in an existing bucket `cy * cols + cx` |
| LinkGrid.FlatIndexInjective | particles.js:474 | distinct cells have distinct buckets |
| LinkGrid.FloorStep | particles.js:472 | two values at most one cell apart have floors at most one apart |
| LinkGrid.CellStep | particles.js:472-473 | with clamping too, two coordinates at most one cell apart land in cells at most one apart |
| LinkGrid.BucketMembers | particles.js:467-475 | a bucket holds exactly the indices of the particles whose cell it is |
| LinkGrid.BucketIncreasing | particles.js:467-475 | a bucket lists its indices in increasing order, since the loop pushes them in index order |
| LinkGrid.EmptyBuckets | particles.js:467-468 | the fresh grid has `cols * rows` buckets, all empty |
| LinkGrid.BucketStep | particles.js:470-475 | pushing particle `i` onto its own bucket turns the buckets of the first `i` particles into those of the first `i + 1` |
| LinkGrid.AddToBucket | particles.js:471-474 | one pass of the bucketing loop keeps the buckets equal to those of the particles seen so far |
| LinkGrid.BuildGrid | particles.js:467-475 | the bucketing loop leaves every bucket equal to `Bucket` of all the particles |
| LinkGrid.PairsOfAppend | particles.js:479-502 | the pairs of concatenated link lists are the union of their pairs |
| LinkGrid.EachOnceAppend | particles.js:479-502 | concatenating two duplicate-free link lists with disjoint pairs stays duplicate-free |
| LinkGrid.PairsBelowStep | particles.js:479 | the brute-force pairs below `i + 1` are those below `i` plus row `i`, disjointly |
| LinkGrid.CellScanStep | particles.js:481-499 | the bucket of one cell of the block contributes exactly that cell's pairs, none of them already found |
| LinkGrid.ScanBucket | particles.js:488-499 | scanning one bucket reports exactly the later particles within `distMax`, each once, with the alpha of its distance |
| LinkGrid.BlockCoversRow | particles.js:481-487 | every later particle within `distMax` of particle `i` lies in the 3x3 block of cells around it |
| LinkGrid.ScanBlock | particles.js:480-501 | scanning the 3x3 block reports exactly row `i` of the brute-force answer, each pair once, with its alpha |
| LinkGrid.QueryLinks | particles.js:460-504 | the reported pairs are exactly the brute-force pairs `i < j` within `distMax`, each once, each with `min(1, opacity * (1 - d / distMax))` |
| ConfigMerge.Merge | particles.js:567-575 | arrays on either side give `b ?? a`; a nullish `b` gives `a`; two objects give the union of their own keys, with `a`'s value where `b` lacks the key; a non-object, non-nullish `b` over anything but an array gives `b` |
| ConfigMerge.MergeKeyWise | particles.js:570-572 | the recursion step of the object case, unfolded for use by `NestedDefaultKept`: every key of the user options holds the merge of the defaults' value and the user's value under it (not a separate property; the partners are `NestedDefaultKept`, `MergeIdempotent` and `MergeReapply`) |
| ConfigMerge.NestedDefaultKept | particles.js:570-572 | a default nested one level inside a key both sides set survives when the user options leave it out, and the user's nested keys are all present |
| ConfigMerge.MergeIdempotent | particles.js:567-575 | merging a configuration with itself gives it back |
| ConfigMerge.MergeReapply | particles.js:567-575 | merging the same user options a second time changes nothing |
| ConfigMerge.UserOnlyKey | particles.js:571 | a key only the user options have, and that the defaults do not inherit either, comes out as given, with `null` read as `undefined` |
| HexColor.TrimStart | particles.js:605 | the result is a suffix that does not start with whitespace, and everything removed is whitespace |
| HexColor.TrimEnd | particles.js:605 | the result is a prefix that does not end with whitespace, and everything removed is whitespace |
| HexColor.DropFirstHash | particles.js:605 | nothing is removed when there is no `#`, and exactly one character otherwise |
| HexColor.DropsFirstHash | particles.js:605 | the `#` removed is the first one, and the text before and after it is kept in order |
| HexColor.Doubled | particles.js:606 | a three-character body becomes six characters, character `k` at positions `2k` and `2k + 1` |
| HexColor.ParseDigits | particles.js:607 | `parseInt(c, 16)` of a run of hex digits is its base-16 value |
| HexColor.ParseRejects | particles.js:607 | `parseInt(c, 16)` of text starting with anything but whitespace, a sign or a hex digit is NaN |
| HexColor.Channels | particles.js:609 | `(num >> 16) & 255`, `(num >> 8) & 255`, `num & 255` each lie in [0, 255] |
| HexColor.HexToRgb | particles.js:603-610 | falsy input gives null; otherwise the result is null exactly when `parseInt` of the body is NaN, and else the three channels of the parsed number, each in [0, 255] |
| HexColor.RoundTrip | particles.js:603-610 | reading back `#rrggbb` formatted from any colour gives that colour |
| HexColor.ShortForm | particles.js:606-609 | the short form `#xyz` gives channels `17x`, `17y`, `17z` |
| HexColor.SecondHashRejected | particles.js:605-608 | only one `#` is dropped, so `##...` gives null |
| Behaviors.Register | particles-es6.js:69-74 | a falsy or non-string name is refused first, then a non-function `fn`; otherwise `fn` is stored under the name and every other entry is kept |
| Behaviors.Unregister | particles-es6.js:80-83 | exactly that key is deleted; every other entry is kept |
| Behaviors.RegisterThenUnregister | particles-es6.js:69-83 | registering and then unregistering a name leaves the table as it was without that name |
| Behaviors.BuiltIns | particles-es6.js:235-254 | the global table holds `default`, `rocket`, `slide` and `swirl`, all functions returning `undefined` |
| Behaviors.Registry | particles-es6.js:159-164 | the registry's keys are those of all four layers; `move.behaviors` beats `options.behaviors`, which beats the instance table, which beats the global table |
| Behaviors.SpecFor | particles-es6.js:157 | the particle's own `behavior` is used unless undefined; otherwise `move.behavior ?? 'default'` |
| Behaviors.ToFn | particles-es6.js:166-171 | a function resolves to itself; a name resolves exactly when it is non-empty and its registry entry is truthy, to that entry; any other spec resolves to nothing |
| Behaviors.ResolveEach | particles-es6.js:173-175 | an array spec resolves to at most as many entries, all truthy: every element that resolves contributes its function, and every entry is the resolution of some element |
| Behaviors.ResolveEachAppend | particles-es6.js:173-175 | array resolution is element-wise: resolving a concatenation concatenates the resolutions in order |
| Behaviors.FunctionsResolveToThemselves | particles-es6.js:173-175 | an array of functions resolves to itself |
| Behaviors.UnresolvedDropped | particles-es6.js:173-175 | an entry that resolves to nothing is dropped without disturbing its neighbours |
| Behaviors.Resolve | particles-es6.js:155-178 | an array resolves element-wise; any other spec resolves to the one function `toFn` gives, or to none |
| Behaviors.DefaultWhenUnset | particles-es6.js:155-178 | with no spec anywhere and no layer overriding `default`, a particle runs exactly the global `default` |
| Behaviors.UnknownNameResolvesToNothing | particles-es6.js:155-178 | a name no layer defines resolves to nothing |
| Behaviors.Apply | particles-es6.js:191 | a behaviour changes only the particle's velocity |
| Behaviors.Call | particles-es6.js:190-197 | a call asks to skip exactly when it completes with an object whose `skipPhysics` is truthy; calling a non-function changes nothing |
| Behaviors.RunAll | particles-es6.js:187-198 | physics is skipped exactly when some call completed and asked for it; only the velocity changes |
| Behaviors.RunAllAppend | particles-es6.js:189-198 | one more function runs on the particle as the earlier ones left it, and ORs its request into the flag |
| Behaviors.OutcomesDoNotSteer | particles-es6.js:189-198 | whether calls return or throw never changes what the later calls do to the particle |
| Behaviors.RunBehaviors | particles-es6.js:187-198 | the loop computes `RunAll`, so `skipPhysics` ends true exactly when some completed call asked for it |
| Engine.Attracted | particles-es6.js:181 | `Motion.Attraction` when `move.attract.enable`, otherwise the particle unchanged |
| Engine.Hovered | particles-es6.js:182 | `Motion.Hover` at the pointer distance when the pointer is active and hover is enabled, otherwise the particle unchanged |
| Engine.Steer | particles-es6.js:181-183 | the click-bubble window applied to the hover rule applied to the attraction rule, in that order, each on what the previous left; none of them moves the particle or changes its resting size, resting opacity or behaviour spec |
| Engine.SteerIdle | particles-es6.js:181-183 | with attraction off, the hover rule not in force and no bubble click mode, steering leaves the particle unchanged |
| Engine.Advance | particles-es6.js:184-201 | the global build drifts; in the ES module gravity, drag and position integration (`Integrate`) run exactly when no behaviour asked to skip physics: a skipped step leaves the particle, velocity included, exactly as the behaviours left it, and otherwise the behaviours' result is integrated with `(gravity ?? 0) * dpr` and the drag factor |
| Engine.Tick | particles-es6.js:179-203 | the update is the boundary rule after `Advance` after `Steer`; afterwards the particle is inside the canvas in `bounce` mode and within the 50-unit margin in every mode; its resting values and spec are unchanged |
| Engine.SkipKeepsPosition | particles-es6.js:199-201 | when a behaviour asks to skip physics, the particle reaches the boundary rule where it started the tick |
| Engine.DragNeverAccelerates | particles-es6.js:184-201 | without gravity and for `dt >= 0`, the physics step never speeds up either velocity component |
| Engine.Kicked | particles-es6.js:224 | `repulse`, `explode` and `rocketBoost` change only a particle's velocity |
| Engine.BehaviorTable.WithBuiltIns | particles-es6.js:235-254 | the global table starts with the four built-ins |
| Engine.BehaviorTable.Register | particles-es6.js:91-97 | the static and instance `registerBehavior`: a refused registration returns the error and leaves the table alone; an accepted one gives the table `Behaviors.Register` computes |
| Engine.BehaviorTable.Unregister | particles-es6.js:104-107 | the static and instance `unregisterBehavior` delete exactly that key |
| Engine.ParticleJS.constructor | particles-es6.js:109 | a new engine has an inactive pointer, an empty instance table, and a store populated with the first `TargetCount` draws |
| Engine.ParticleJS.Spawn | particles.js:296-316 | a spawned particle is the next draw |
| Engine.ParticleJS.PushSpawned | particles.js:293 | the push loop appends exactly the next `n` draws |
| Engine.ParticleJS.Populate | particles.js:281-294 | the store becomes exactly the next `TargetCount` draws |
| Engine.ParticleJS.KickAll | particles.js:540-549 | every particle gets the velocity rule of the click mode, in place, in store order; the length is kept |
| Engine.ParticleJS.Push | particles-es6.js:210-223 | a `push` click leaves the store equal to `Pushed` of the old store and the next `PushDraws` draws, and advances the draw counter by that many |
| Engine.ParticleJS.ApplyClickMode | particles-es6.js:207-224 | disabled clicks (ES module), an empty mode and an unknown mode change nothing; `push` gives `Pushed`, `remove` gives `Removed`, the velocity modes give `Kicked` on every particle |
| Engine.ParticleJS.UpdateParticle | particles-es6.js:179-203 | the imperative update, with its behaviour loop, computes `Tick` |
| Engine.ParticleJS.LinkParticles | particles-es6.js:205 | nothing when linking is off; otherwise exactly the brute-force pairs within `distance * dpr`, each once, with their alphas |
| Engine.ParticleJS.Step | particles.js:326-333 | every particle is updated by `Tick` in store order; with linking off there are no links, otherwise exactly the brute-force pairs of the updated store, each once, with its alpha |

## Left out

- Canvas painting is not modelled: `_drawParticle`, `_drawGrabLines`, and the `ctx` calls of `_step` and `_linkParticles`. The link query returns its links instead.
- DOM and event plumbing are not modelled: `_ensureCanvas`, `_bindEvents`, `_unbindEvents`, `_pointerPos`, `_resize`, `play`, `pause`, `destroy`, `setScene` and `requestAnimationFrame`. The canvas size, the pixel ratio and the pointer are engine fields.
- The `dpr` field is fixed at construction, because only `setScene` changes it.
- `_withDefaults`, the scene presets, `_pickColor`, `_rgba` and `_loadImage` are data, colour formatting or asynchronous plumbing. `demo-es6.js` is a usage example.
- Options arrive as the typed record `Particles.Options`. The model does not derive them from the merged `Js.Value`. The colour, shape, size, opacity and speed options only affect spawning or painting.
- `_spawnParticle` is the abstract `source` of particles. Its randomness, trigonometry and colour picking are not modelled, and neither are the `ax`, `ay`, colour, stroke and image fields of a particle.
- Floating point is not modelled. Numbers are exact reals, so there is no NaN, no infinity and no rounding. `Math.hypot` and `**` are parameters with the stated laws.
- LinkGrid.Alpha: at `distMax = 0` two coincident particles get alpha 0. The source divides `0 / 0` there and strokes with a NaN alpha.
- Particles.DirectionVector: named directions are unit vectors only to within the rounding of `SQRT1_2` (1e-7). `dir` is a string, and non-string directions are not modelled. The lookup `map[dir] ?? map['none']` also finds inherited members of the object literal: for `dir` equal to `constructor`, `toString`, `valueOf`, `__proto__` and the like the source does not fall back, and later reads `.x` and `.y` of a function or object as `undefined`. The model treats such names like any unknown name and returns the random vector.
- HexColor.HexToRgb: the input is an optional string. The string conversion `'' + hex` of non-string values is not modelled, and neither are digit runs whose value exceeds 2^53. A string here is a sequence of Unicode scalar values, while `c.length === 3` in the source counts UTF-16 code units: a body with a character outside the Basic Multilingual Plane, such as `a😀`, is doubled by the source (which then reads `aa`) but not by the model (which reads `a`).
- ConfigMerge.Merge: `a[k]` in the source reads through the prototype chain, and the model reads own keys only. For a user key such as `toString`, `constructor`, `valueOf` or `hasOwnProperty` whose user value is `null` or `undefined`, the source yields the inherited function where the model yields `undefined`; assigning `out['__proto__']` sets the prototype instead of adding a key.
- ConfigMerge.UserOnlyKey: holds only for keys the defaults do not inherit either (see the line above).
- Behaviors.Layer: spreading a truthy string or array contributes index keys in JavaScript, and the model treats it as contributing nothing. Inherited (prototype) keys are not modelled either.
- Behaviors.Apply: a user-supplied behaviour is reduced to a velocity change, then a return value or a throw. It cannot read or change other particle fields or the engine. Its `console.warn` on a throw is not modelled.
- The integer options (`number.value`, `number.max`, `particles_nb`) are unbounded integers. Fractional values are not modelled.
- Particles are values in the store's `seq`. The in-place mutation of a shared particle object is modelled by replacing the store entry, and aliasing of particle objects is not modelled.
- The global build has no `behaviors` table. The model gives every engine an empty one, which the global build never reads.
