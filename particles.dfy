/**
 * The particle record, the options the engine reads, and the pure part of
 * the particle store: how many particles `_populate` creates, and what the
 * `push` and `remove` click modes leave in the store.
 */
module Particles {
  import opened Js
  import opened JsMath

  /**
   * A particle: position and velocity in device pixels, its current and
   * resting size and opacity, and its own behaviour spec `p.behavior`
   * (undefined unless the user sets one). Colour, stroke and image are
   * only painted and are not part of the model.
   */
  datatype Particle = Particle(x: real, y: real, vx: real, vy: real,
                               size: real, baseSize: real,
                               opacity: real, baseOpacity: real,
                               behavior: Value)

  /** The two builds of the engine: the global script and the ES module. */
  datatype Build = Global | Es6

  datatype Vec = Vec(x: real, y: real)

  // ---------- Options ----------

  datatype Density = Density(enable: bool, valueArea: Option<real>)

  /** `particles.number`: the requested count, density scaling, and the cap `max`. */
  datatype NumberOptions = NumberOptions(value: int, density: Option<Density>, max: Option<int>)

  /** `particles.line_linked`. */
  datatype LineLinked = LineLinked(enable: bool, distance: real, opacity: real)

  /** `particles.move.attract`. */
  datatype Attract = Attract(enable: bool, rotateX: real, rotateY: real)

  /**
   * `particles.move`: the out mode, the start direction, attraction, the
   * behaviour spec and extra behaviour table, and the parameters of the
   * built-in behaviours (`rocket.thrust`, `slide.stiffness`, `swirl.strength`).
   */
  datatype Move = Move(outMode: string, direction: string, attract: Attract,
                       behavior: Value, behaviors: Value,
                       rocketThrust: Option<real>, slideStiffness: Option<real>,
                       swirlStrength: Option<real>)

  /** `particles.physics` (read by the ES module only). */
  datatype Physics = Physics(drag: Option<real>, gravity: Option<real>)

  /** `interactivity.events`: hover and click switches and modes. */
  datatype Events = Events(hoverEnable: bool, hoverMode: string, clickEnable: bool, clickMode: string)

  /** `interactivity.modes.bubble`. */
  datatype BubbleMode = BubbleMode(distance: real, size: real, opacity: real, duration: real)

  /** `interactivity.modes`. */
  datatype Modes = Modes(repulseDistance: real, bubble: BubbleMode,
                         pushNb: int, removeNb: int,
                         explodePower: Option<real>, rocketBoostPower: Option<real>)

  /** The merged options, as the engine reads them; `behaviors` is `options.behaviors`. */
  datatype Options = Options(number: NumberOptions, lineLinked: LineLinked, move: Move,
                             physics: Physics, events: Events, modes: Modes,
                             behaviors: Value)

  /** `this.pointer`: whether it is over the target, where, and when it last clicked (ms). */
  datatype Pointer = Pointer(active: bool, x: real, y: real, lastClick: real)

  // ---------- Population ----------

  /** `Math.max(1, numOpt.max ?? 300)`: the population cap. */
  function Cap(num: NumberOptions): (cap: int)
    ensures cap >= 1
    ensures num.max.None? ==> cap == 300
    ensures num.max.Some? && num.max.value >= 1 ==> cap == num.max.value
    ensures num.max.Some? && num.max.value < 1 ==> cap == 1
  {
    IMax(1, match num.max case Some(m) => m case None => 300)
  }

  /** `numOpt.density?.enable`. */
  predicate DensityOn(num: NumberOptions)
  {
    num.density.Some? && num.density.value.enable
  }

  /** The unrounded density target `value * cssArea / max(1, value_area ?? 800)`. */
  function DensityTarget(num: NumberOptions, width: nat, height: nat, dpr: real): real
    requires dpr > 0.0
    requires DensityOn(num)
  {
    var cssArea := (width * height) as real / (dpr * dpr);
    var baseArea := Max(1.0, OrElse(num.density.value.valueArea, 800.0));
    num.value as real * (cssArea / baseArea)
  }

  /**
   * The count `_populate` aims for on a `width` by `height` canvas. It never
   * exceeds the cap. With density scaling it is the density target rounded
   * to the nearest integer, saturating at 1 and at the cap. Without density
   * scaling it is `min(value, cap)`, which is 0 or negative when `value` is,
   * and then nothing is spawned.
   */
  function TargetCount(num: NumberOptions, width: nat, height: nat, dpr: real): (count: int)
    requires dpr > 0.0
    ensures count <= Cap(num)
    ensures DensityOn(num) ==> 1 <= count
    ensures !DensityOn(num) ==> count == IMin(num.value, Cap(num))
    ensures DensityOn(num) && 1.0 <= DensityTarget(num, width, height, dpr) <= Cap(num) as real ==>
              Abs(count as real - DensityTarget(num, width, height, dpr)) <= 0.5
    ensures DensityOn(num) && DensityTarget(num, width, height, dpr) >= Cap(num) as real ==> count == Cap(num)
    ensures DensityOn(num) && DensityTarget(num, width, height, dpr) < 1.0 ==> count == 1
  {
    var count :=
      if DensityOn(num) then IMax(1, Round(DensityTarget(num, width, height, dpr)))
      else num.value;
    IMin(count, Cap(num))
  }

  /** How many times `for (let i = 0; i < n; i++)` runs. */
  function Times(n: int): (k: nat)
    ensures n >= 0 ==> k == n
    ensures n < 0 ==> k == 0
  {
    if n < 0 then 0 else n
  }

  /** The fresh particles a supplier yields from draw `from` on, `n` of them, in order. */
  function Draws(source: nat -> Particle, from: nat, n: nat): (s: seq<Particle>)
    ensures |s| == n && forall k :: 0 <= k < n ==> s[k] == source(from + k)
  {
    seq(n, k requires 0 <= k < n => source(from + k))
  }

  // ---------- Click push and remove ----------

  /** `add = Math.min(want, Math.max(0, cap - len))`, as the number of particles the loop pushes. */
  function Added(want: int, cap: int, len: nat): (n: nat)
    ensures n <= Times(want)
    ensures len <= cap ==> len + n <= cap
    ensures want <= cap - len ==> n == Times(want)
    ensures 0 <= cap - len < want ==> n == cap - len
    ensures cap <= len ==> n == 0
  {
    Times(IMin(want, IMax(0, cap - len)))
  }

  /**
   * The ES module's recycling count: when `want` exceeds what fits,
   * `Math.min(want - add, particles.length)` of the oldest particles are
   * evicted and as many fresh ones pushed.
   */
  function Recycled(want: int, cap: int, len: nat): (n: nat)
    ensures n <= len + Added(want, cap, len)
    ensures want <= cap - len ==> n == 0
    ensures want <= Added(want, cap, len) ==> n == 0
    ensures want > Added(want, cap, len) ==>
              n == IMin(want - Added(want, cap, len), len + Added(want, cap, len))
  {
    var add := IMin(want, IMax(0, cap - len));
    var overflow := want - add;
    if overflow > 0 then IMin(overflow, len + Times(add)) else 0
  }

  /** How many fresh particles a `push` click draws. */
  function PushDraws(build: Build, want: int, cap: int, len: nat): nat
  {
    Added(want, cap, len) + (if build == Es6 then Recycled(want, cap, len) else 0)
  }

  /**
   * The store after a `push` click: `Added` fresh particles appended; then,
   * in the ES module only, the `Recycled` oldest evicted from the front and
   * as many fresh ones appended.
   */
  function Pushed(build: Build, ps: seq<Particle>, spawned: seq<Particle>, want: int, cap: int): (r: seq<Particle>)
    requires |spawned| == PushDraws(build, want, cap, |ps|)
  {
    var add := Added(want, cap, |ps|);
    var grown := ps + spawned[..add];
    if build == Es6 then grown[Recycled(want, cap, |ps|)..] + spawned[add..] else grown
  }

  /** `Math.min(particles_nb, len)`, as the number of entries `splice(0, n)` deletes. */
  function RemoveCount(nb: int, len: nat): (n: nat)
    ensures n <= len
    ensures 0 <= nb <= len ==> n == nb
    ensures nb >= len ==> n == len
  {
    Times(IMin(nb, len))
  }

  /** The store after a `remove` click: the suffix after the first `RemoveCount` entries. */
  function Removed(ps: seq<Particle>, nb: int): (r: seq<Particle>)
    ensures |r| == |ps| - RemoveCount(nb, |ps|)
    ensures forall k :: 0 <= k < |r| ==> r[k] == ps[k + RemoveCount(nb, |ps|)]
  {
    ps[RemoveCount(nb, |ps|)..]
  }

  /** The global build's `push` appends the fresh particles behind the old ones, within the cap. */
  lemma GlobalPushAppends(ps: seq<Particle>, spawned: seq<Particle>, want: int, cap: int)
    requires |spawned| == PushDraws(Global, want, cap, |ps|)
    ensures Pushed(Global, ps, spawned, want, cap) == ps + spawned
    ensures |ps + spawned| == |ps| + Added(want, cap, |ps|)
    ensures |ps| <= cap ==> |ps + spawned| <= cap
  {
    assert spawned[..Added(want, cap, |ps|)] == spawned;
  }

  /**
   * The ES module's `push` grows the store by exactly `Added`, keeps it
   * within the cap, and keeps the old particles after the recycled prefix in
   * order ahead of the fresh ones.
   */
  lemma Es6PushShape(ps: seq<Particle>, spawned: seq<Particle>, want: int, cap: int)
    requires |spawned| == PushDraws(Es6, want, cap, |ps|)
    ensures |Pushed(Es6, ps, spawned, want, cap)| == |ps| + Added(want, cap, |ps|)
    ensures |ps| <= cap ==> |Pushed(Es6, ps, spawned, want, cap)| <= cap
    ensures Recycled(want, cap, |ps|) <= |ps| ==>
              Pushed(Es6, ps, spawned, want, cap) == ps[Recycled(want, cap, |ps|)..] + spawned
  {
    var add := Added(want, cap, |ps|);
    var n := Recycled(want, cap, |ps|);
    var grown := ps + spawned[..add];
    assert Pushed(Es6, ps, spawned, want, cap) == grown[n..] + spawned[add..];
    assert |grown[n..] + spawned[add..]| == |ps| + add;
    if n <= |ps| {
      assert grown[n..] == ps[n..] + spawned[..add];
      assert spawned[..add] + spawned[add..] == spawned;
    }
  }

  /**
   * At the cap the ES module's `push` keeps the population size and replaces
   * its oldest `min(want, len)` particles by fresh ones, FIFO.
   */
  lemma PushAtCapRecycles(ps: seq<Particle>, spawned: seq<Particle>, want: int, cap: int)
    requires |ps| == cap && want >= 1
    requires |spawned| == PushDraws(Es6, want, cap, |ps|)
    ensures Added(want, cap, |ps|) == 0
    ensures Recycled(want, cap, |ps|) == IMin(want, |ps|)
    ensures Pushed(Es6, ps, spawned, want, cap) == ps[IMin(want, |ps|)..] + spawned
    ensures |Pushed(Es6, ps, spawned, want, cap)| == |ps|
  {
    Es6PushShape(ps, spawned, want, cap);
  }

  /** The global build's `push` does nothing at the cap. */
  lemma GlobalPushAtCap(ps: seq<Particle>, want: int, cap: int)
    requires |ps| >= cap
    ensures PushDraws(Global, want, cap, |ps|) == 0
    ensures Pushed(Global, ps, [], want, cap) == ps
  {
  }

  // ---------- Direction ----------

  /** `Math.SQRT1_2` as the nearest double. */
  const Sqrt1_2: real := 0.7071067811865476

  /** The fixed entries of the `_directionVector` table; `none` is random. */
  function Compass(dir: string): Option<Vec>
  {
    if dir == "top" then Some(Vec(0.0, -1.0))
    else if dir == "bottom" then Some(Vec(0.0, 1.0))
    else if dir == "left" then Some(Vec(-1.0, 0.0))
    else if dir == "right" then Some(Vec(1.0, 0.0))
    else if dir == "top-right" then Some(Vec(Sqrt1_2, -Sqrt1_2))
    else if dir == "top-left" then Some(Vec(-Sqrt1_2, -Sqrt1_2))
    else if dir == "bottom-right" then Some(Vec(Sqrt1_2, Sqrt1_2))
    else if dir == "bottom-left" then Some(Vec(-Sqrt1_2, Sqrt1_2))
    else None
  }

  /**
   * `_directionVector(dir)`, with the two `Math.random()` draws of the `none`
   * entry as `r1` and `r2`. A named direction is a unit vector (to within
   * the rounding of `SQRT1_2`); `none` and every unknown name give the
   * random vector, each coordinate in [-0.5, 0.5).
   */
  function DirectionVector(dir: string, r1: real, r2: real): (v: Vec)
    requires 0.0 <= r1 < 1.0 && 0.0 <= r2 < 1.0
    ensures Compass(dir).None? ==> v == Vec(r1 - 0.5, r2 - 0.5)
    ensures Compass(dir).None? ==> -0.5 <= v.x < 0.5 && -0.5 <= v.y < 0.5
    ensures Compass(dir).Some? ==> 0.9999999 <= v.x * v.x + v.y * v.y <= 1.0000001
  {
    match Compass(dir)
    case Some(v) => v
    case None => Vec(r1 - 0.5, r2 - 0.5)
  }
}
