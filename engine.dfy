/**
 * The `ParticleJS` engine object: its behaviour tables, its particle store
 * and the methods that change them (`_populate`, `_applyClickMode`,
 * `registerBehavior`/`unregisterBehavior`), one tick of `_updateParticle`
 * over every particle, and `_linkParticles` as a query that returns the
 * links instead of stroking them.
 *
 * `Math.random()` is the engine's `source` of particles, read one draw at a
 * time; `Math.hypot` and `**` are the parameters `hypot` and `pow`;
 * `performance.now()` is the parameter `now`.
 */
module Engine {
  import opened Js
  import opened JsMath
  import opened Particles
  import Motion
  import LinkGrid
  import Behaviors

  // ---------- One tick of one particle ----------

  /** What `_updateParticle` reads of the engine besides the particle itself. */
  datatype Frame = Frame(build: Build, options: Options, pointer: Pointer,
                         width: nat, height: nat, dpr: real,
                         global: map<string, Value>, instance: map<string, Value>)

  /** `Math.hypot(p.x - pointer.x, p.y - pointer.y)`. */
  function PointerDist(p: Particle, ptr: Pointer, hypot: (real, real) -> real): (d: real)
    requires LinkGrid.Dominates(hypot)
    ensures Motion.Bounds(p.x - ptr.x, p.y - ptr.y, d)
  {
    var dx, dy := p.x - ptr.x, p.y - ptr.y;
    assert Abs(dx) <= hypot(dx, dy) && Abs(dy) <= hypot(dx, dy);
    hypot(dx, dy)
  }

  /** Predicate form of the three steering rules keeping what they must keep. */
  predicate SteerKeeps(p: Particle, r: Particle)
  {
    r.x == p.x && r.y == p.y && r.baseSize == p.baseSize &&
    r.baseOpacity == p.baseOpacity && r.behavior == p.behavior
  }

  /** Attraction to the canvas centre, when `move.attract.enable` is set. */
  function Attracted(f: Frame, p: Particle): (r: Particle)
    requires f.dpr >= 1.0
    ensures f.options.move.attract.enable ==>
              r == Motion.Attraction(p, f.options.move.attract, f.width as real, f.height as real, f.dpr)
    ensures !f.options.move.attract.enable ==> r == p
  {
    if f.options.move.attract.enable
    then Motion.Attraction(p, f.options.move.attract, f.width as real, f.height as real, f.dpr)
    else p
  }

  /** The hover rule, while the pointer is active and hover is enabled. */
  function Hovered(f: Frame, p: Particle, dt: real, hypot: (real, real) -> real): (r: Particle)
    requires LinkGrid.Dominates(hypot) && f.dpr >= 1.0
    ensures f.pointer.active && f.options.events.hoverEnable ==>
              r == Motion.Hover(f.build, f.options.events.hoverMode, p, f.pointer,
                                PointerDist(p, f.pointer, hypot), f.options.modes, f.dpr, dt)
    ensures !(f.pointer.active && f.options.events.hoverEnable) ==> r == p
  {
    if f.pointer.active && f.options.events.hoverEnable
    then Motion.Hover(f.build, f.options.events.hoverMode, p, f.pointer,
                      PointerDist(p, f.pointer, hypot), f.options.modes, f.dpr, dt)
    else p
  }

  /**
   * The first part of `_updateParticle`: attraction to the centre when
   * enabled, the hover rule while the pointer is active and hover enabled,
   * then the click-bubble window, each applied to what the previous one
   * left. None of them moves the particle or touches its resting size,
   * resting opacity or behaviour spec.
   */
  function Steer(f: Frame, p: Particle, dt: real, now: real, hypot: (real, real) -> real): (r: Particle)
    requires LinkGrid.Dominates(hypot) && f.dpr >= 1.0
    ensures var h := Hovered(f, Attracted(f, p), dt, hypot);
            r == Motion.ClickBubble(h, f.options.events, f.pointer, PointerDist(h, f.pointer, hypot),
                                    f.options.modes.bubble, f.dpr, now)
    ensures SteerKeeps(p, r)
  {
    var hovered := Hovered(f, Attracted(f, p), dt, hypot);
    Motion.ClickBubble(hovered, f.options.events, f.pointer, PointerDist(hovered, f.pointer, hypot),
                       f.options.modes.bubble, f.dpr, now)
  }

  /**
   * With attraction off, the hover rule not in force and no bubble click
   * running, steering leaves the particle exactly as it was.
   */
  lemma SteerIdle(f: Frame, p: Particle, dt: real, now: real, hypot: (real, real) -> real)
    requires LinkGrid.Dominates(hypot) && f.dpr >= 1.0
    requires !f.options.move.attract.enable && !(f.pointer.active && f.options.events.hoverEnable)
    requires !f.options.events.clickEnable || f.options.events.clickMode != "bubble"
    ensures Steer(f, p, dt, now, hypot) == p
  {
  }

  /** What a behaviour sees of the engine during this tick. */
  function ContextOf(f: Frame, dt: real, hypot: (real, real) -> real): Behaviors.Context
  {
    Behaviors.Context(dt, f.dpr, f.width as real, f.height as real, f.options.move, hypot)
  }

  /** The behaviour functions a particle runs this tick. */
  function FnsOf(f: Frame, p: Particle): seq<Value>
  {
    Behaviors.ResolveFor(p, f.options, f.global, f.instance)
  }

  /** `(phys.gravity ?? 0) * dpr`. */
  function Gravity(f: Frame): real
  {
    OrElse(f.options.physics.gravity, 0.0) * f.dpr
  }

  /**
   * The movement part of `_updateParticle`. The global build advances the
   * position by the velocity. The ES module runs the particle's behaviours
   * and then, unless one of them asked to skip physics, applies gravity and
   * drag and advances the position by the new velocity. Integration runs
   * exactly when no behaviour asked to skip; a skipped physics step leaves
   * the particle, velocity included, as the behaviours left it, so its
   * position is where it was; neither path touches the resting
   * size, resting opacity or behaviour spec.
   */
  function Advance(f: Frame, p: Particle, dt: real, hypot: (real, real) -> real,
                   pow: (real, real) -> real): (r: Particle)
    requires LinkGrid.Dominates(hypot)
    ensures f.build == Global ==> r == Motion.Drift(p, dt)
    ensures f.build == Es6 && Behaviors.RunAll(FnsOf(f, p), p, ContextOf(f, dt, hypot)).1 ==>
              r.x == p.x && r.y == p.y && r.size == p.size && r.opacity == p.opacity
    ensures f.build == Es6 && !Behaviors.RunAll(FnsOf(f, p), p, ContextOf(f, dt, hypot)).1 ==>
              r.x == p.x + r.vx * dt && r.y == p.y + r.vy * dt
    ensures f.build == Es6 && Behaviors.RunAll(FnsOf(f, p), p, ContextOf(f, dt, hypot)).1 ==>
              r == Behaviors.RunAll(FnsOf(f, p), p, ContextOf(f, dt, hypot)).0
    ensures f.build == Es6 && !Behaviors.RunAll(FnsOf(f, p), p, ContextOf(f, dt, hypot)).1 ==>
              r == Motion.Integrate(Behaviors.RunAll(FnsOf(f, p), p, ContextOf(f, dt, hypot)).0,
                                    Gravity(f), Motion.DragFactor(pow, f.options.physics.drag, dt), dt)
    ensures r.baseSize == p.baseSize && r.baseOpacity == p.baseOpacity && r.behavior == p.behavior
  {
    if f.build == Global then Motion.Drift(p, dt)
    else
      var ran := Behaviors.RunAll(FnsOf(f, p), p, ContextOf(f, dt, hypot));
      if ran.1 then ran.0
      else Motion.Integrate(ran.0, Gravity(f), Motion.DragFactor(pow, f.options.physics.drag, dt), dt)
  }

  /**
   * `_updateParticle(p, dt)`: steer, move, then the boundary rule, which
   * runs whether or not physics was skipped. Afterwards the particle is
   * inside the canvas in `bounce` mode and inside the 50-unit margin in
   * every mode, and its resting values and behaviour spec are unchanged.
   */
  function Tick(f: Frame, p: Particle, dt: real, now: real, hypot: (real, real) -> real,
                pow: (real, real) -> real): (r: Particle)
    requires LinkGrid.Dominates(hypot) && f.dpr >= 1.0
    ensures f.options.move.outMode == "bounce" ==>
              0.0 <= r.x <= f.width as real && 0.0 <= r.y <= f.height as real
    ensures -50.0 <= r.x <= f.width as real + 50.0 && -50.0 <= r.y <= f.height as real + 50.0
    ensures r.baseSize == p.baseSize && r.baseOpacity == p.baseOpacity && r.behavior == p.behavior
    ensures r == Motion.Boundary(f.options.move.outMode, Advance(f, Steer(f, p, dt, now, hypot), dt, hypot, pow),
                                 f.width as real, f.height as real)
  {
    var moved := Advance(f, Steer(f, p, dt, now, hypot), dt, hypot, pow);
    Motion.Boundary(f.options.move.outMode, moved, f.width as real, f.height as real)
  }

  /**
   * When a behaviour asks to skip physics, the particle reaches the
   * boundary rule where it started the tick: neither the steering rules nor
   * the behaviours move it.
   */
  lemma SkipKeepsPosition(f: Frame, p: Particle, dt: real, now: real, hypot: (real, real) -> real,
                          pow: (real, real) -> real)
    requires LinkGrid.Dominates(hypot) && f.dpr >= 1.0 && f.build == Es6
    requires var s := Steer(f, p, dt, now, hypot);
             exists k :: 0 <= k < |FnsOf(f, s)| && Behaviors.Skips(FnsOf(f, s)[k])
    ensures Advance(f, Steer(f, p, dt, now, hypot), dt, hypot, pow).x == p.x
    ensures Advance(f, Steer(f, p, dt, now, hypot), dt, hypot, pow).y == p.y
  {
  }

  /**
   * Without gravity, and with `dt >= 0`, the physics step never speeds a
   * particle up: the drag factor lies in [0, 1] whatever `drag` is set to.
   */
  lemma DragNeverAccelerates(f: Frame, p: Particle, dt: real, hypot: (real, real) -> real,
                             pow: (real, real) -> real)
    requires LinkGrid.Dominates(hypot) && Motion.PowLaw(pow) && dt >= 0.0
    requires f.build == Es6 && Gravity(f) == 0.0
    requires !Behaviors.RunAll(FnsOf(f, p), p, ContextOf(f, dt, hypot)).1
    ensures var q := Behaviors.RunAll(FnsOf(f, p), p, ContextOf(f, dt, hypot)).0;
            var r := Advance(f, p, dt, hypot, pow);
            Abs(r.vx) <= Abs(q.vx) && Abs(r.vy) <= Abs(q.vy)
  {
    Motion.DragFactorRange(pow, f.options.physics.drag, dt);
  }

  // ---------- Click velocity rules over the store ----------

  /** The click modes that change every particle's velocity. */
  datatype Kick = RepulseKick | ExplodeKick | BoostKick

  /** What one of those click modes does to one particle. */
  function Kicked(kind: Kick, p: Particle, ptr: Pointer, modes: Modes, dpr: real,
                  hypot: (real, real) -> real): (r: Particle)
    requires LinkGrid.Dominates(hypot)
    ensures Motion.VelocityOnly(p, r)
  {
    match kind
    case RepulseKick => Motion.ClickRepulse(p, p.x - ptr.x, p.y - ptr.y, PointerDist(p, ptr, hypot))
    case ExplodeKick =>
      Motion.Explode(p, p.x - ptr.x, p.y - ptr.y, PointerDist(p, ptr, hypot), modes.explodePower)
    case BoostKick => Motion.RocketBoost(p, modes.rocketBoostPower, dpr)
  }

  /** The click modes the build knows; any other mode leaves the store alone. */
  predicate ChangesStore(build: Build, mode: string)
  {
    mode == "push" || mode == "remove" || mode == "repulse" ||
    (build == Es6 && (mode == "explode" || mode == "rocketBoost"))
  }

  /** Links are reported between particles, indexed as in the store. */
  function Points(ps: seq<Particle>): (pts: seq<LinkGrid.Point>)
    ensures |pts| == |ps|
    ensures forall k :: 0 <= k < |ps| ==> pts[k] == LinkGrid.Point(ps[k].x, ps[k].y)
  {
    seq(|ps|, k requires 0 <= k < |ps| => LinkGrid.Point(ps[k].x, ps[k].y))
  }

  // ---------- Behaviour tables ----------

  /**
   * A table of named behaviours: `ParticleJS.Behaviors`, shared by every
   * engine and holding the built-ins, or an engine's own `behaviors`.
   */
  class BehaviorTable {
    var entries: map<string, Value>

    /** The global table as the module leaves it: the four built-ins. */
    constructor WithBuiltIns()
      ensures entries == Behaviors.BuiltIns()
    {
      entries := Behaviors.BuiltIns();
    }

    /** An engine's own table, empty at construction. */
    constructor Empty()
      ensures entries == map[]
    {
      entries := map[];
    }

    /** `registerBehavior(name, fn)`: on a refusal the error is returned (thrown) and the table is unchanged. */
    method Register(name: Value, fn: Value) returns (err: Option<Behaviors.RegisterError>)
      modifies this
      ensures match Behaviors.Register(old(entries), name, fn)
              case Ok(t) => entries == t && err == None
              case Err(e) => entries == old(entries) && err == Some(e)
    {
      var r := Behaviors.Register(entries, name, fn);
      if r.Ok? {
        entries := r.value;
        err := None;
      } else {
        err := Some(r.error);
      }
    }

    /** `unregisterBehavior(name)`. */
    method Unregister(name: string)
      modifies this
      ensures entries == Behaviors.Unregister(old(entries), name)
    {
      entries := Behaviors.Unregister(entries, name);
    }
  }

  // ---------- The engine ----------

  class ParticleJS {
    const build: Build
    /** `ParticleJS.Behaviors`, the table shared by all engines. */
    const globals: BehaviorTable
    /** `this.behaviors`. */
    const behaviors: BehaviorTable
    /** The particles `_spawnParticle` would create, one per draw. */
    const source: nat -> Particle
    /** How many particles have been drawn from `source` so far. */
    var drawn: nat
    var particles: seq<Particle>
    var options: Options
    /** `this.canvas.width` and `this.canvas.height`, in device pixels. */
    var width: nat
    var height: nat
    const dpr: real
    var pointer: Pointer

    predicate Valid()
      reads this
    {
      dpr >= 1.0 && globals != behaviors
    }

    /** `line_linked.distance * dpr`: how far apart two linked particles may be. */
    function LinkDistance(): real
      reads this
    {
      options.lineLinked.distance * dpr
    }

    /** What `_updateParticle` reads of the engine. */
    function Snapshot(): Frame
      reads this, globals, behaviors
    {
      Frame(build, options, pointer, width, height, dpr, globals.entries, behaviors.entries)
    }

    /**
     * A new engine over the merged `options`: the pointer inactive, its own
     * behaviour table empty, and the store populated.
     */
    constructor (build: Build, globals: BehaviorTable, source: nat -> Particle, options: Options,
                 width: nat, height: nat, dpr: real)
      requires dpr >= 1.0
      ensures Valid() && fresh(behaviors) && behaviors.entries == map[]
      ensures this.build == build && this.globals == globals && this.source == source
      ensures this.options == options && this.width == width && this.height == height && this.dpr == dpr
      ensures pointer == Pointer(false, 0.0, 0.0, 0.0)
      ensures particles == Draws(source, 0, Times(TargetCount(options.number, width, height, dpr)))
      ensures drawn == |particles|
    {
      this.build := build;
      this.globals := globals;
      this.source := source;
      this.options := options;
      this.width := width;
      this.height := height;
      this.dpr := dpr;
      behaviors := new BehaviorTable.Empty();
      pointer := Pointer(false, 0.0, 0.0, 0.0);
      drawn := 0;
      particles := [];
      new;
      Populate();
    }

    /** `_spawnParticle()`: the next draw. */
    method Spawn() returns (p: Particle)
      modifies this`drawn
      ensures p == source(old(drawn)) && drawn == old(drawn) + 1
    {
      p := source(drawn);
      drawn := drawn + 1;
    }

    /** `for (let i = 0; i < n; i++) this.particles.push(this._spawnParticle())`. */
    method PushSpawned(n: nat)
      modifies this`particles, this`drawn
      ensures particles == old(particles) + Draws(source, old(drawn), n)
      ensures drawn == old(drawn) + n
    {
      var i := 0;
      while i < n
        invariant 0 <= i <= n
        invariant particles == old(particles) + Draws(source, old(drawn), i)
        invariant drawn == old(drawn) + i
      {
        var p := Spawn();
        assert Draws(source, old(drawn), i + 1) == Draws(source, old(drawn), i) + [p];
        particles := particles + [p];
        i := i + 1;
      }
    }

    /** `_populate()`: the store emptied and refilled with `TargetCount` fresh particles. */
    method Populate()
      requires Valid()
      modifies this`particles, this`drawn
      ensures particles == Draws(source, old(drawn), Times(TargetCount(options.number, width, height, dpr)))
      ensures drawn == old(drawn) + |particles|
    {
      particles := [];
      PushSpawned(Times(TargetCount(options.number, width, height, dpr)));
    }

    /** Applies one of the velocity click modes to every particle, in store order. */
    method KickAll(kind: Kick, hypot: (real, real) -> real)
      requires LinkGrid.Dominates(hypot)
      modifies this`particles
      ensures |particles| == |old(particles)|
      ensures forall k :: 0 <= k < |particles| ==>
                particles[k] == Kicked(kind, old(particles)[k], pointer, options.modes, dpr, hypot)
    {
      var i := 0;
      while i < |particles|
        invariant 0 <= i <= |particles| == |old(particles)|
        invariant forall k :: 0 <= k < i ==>
                    particles[k] == Kicked(kind, old(particles)[k], pointer, options.modes, dpr, hypot)
        invariant forall k :: i <= k < |particles| ==> particles[k] == old(particles)[k]
      {
        particles := particles[i := Kicked(kind, particles[i], pointer, options.modes, dpr, hypot)];
        i := i + 1;
      }
    }

    /**
     * `_applyClickMode(mode)`. The ES module first requires clicks to be
     * enabled; both builds ignore an empty mode. `push` adds up to the cap
     * (and in the ES module recycles the oldest particles when the request
     * does not fit), `remove` evicts from the front, `repulse` (and in the ES
     * module `explode` and `rocketBoost`) change every particle's velocity,
     * and any other mode, `bubble` included, changes nothing.
     */
    method ApplyClickMode(mode: string, hypot: (real, real) -> real)
      requires Valid() && LinkGrid.Dominates(hypot)
      modifies this`particles, this`drawn
      ensures (build == Es6 && !options.events.clickEnable) || !ChangesStore(build, mode) ==>
                particles == old(particles) && drawn == old(drawn)
      ensures (build == Global || options.events.clickEnable) && mode == "push" ==>
                var cap, want := Cap(options.number), options.modes.pushNb;
                var n := PushDraws(build, want, cap, |old(particles)|);
                particles == Pushed(build, old(particles), Draws(source, old(drawn), n), want, cap) &&
                drawn == old(drawn) + n
      ensures (build == Global || options.events.clickEnable) && mode == "remove" ==>
                particles == Removed(old(particles), options.modes.removeNb) && drawn == old(drawn)
      ensures (build == Global || options.events.clickEnable) && mode in ["repulse", "explode", "rocketBoost"] &&
              ChangesStore(build, mode) ==>
                var kind := if mode == "repulse" then RepulseKick else if mode == "explode" then ExplodeKick else BoostKick;
                drawn == old(drawn) && |particles| == |old(particles)| &&
                forall k :: 0 <= k < |particles| ==>
                  particles[k] == Kicked(kind, old(particles)[k], pointer, options.modes, dpr, hypot)
    {
      if build == Es6 && !options.events.clickEnable {
        return;
      }
      if mode == "" {
        return;
      }
      if mode == "push" {
        Push();
      } else if mode == "remove" {
        particles := particles[RemoveCount(options.modes.removeNb, |particles|)..];
      } else if mode == "repulse" {
        KickAll(RepulseKick, hypot);
      } else if build == Es6 && mode == "explode" {
        KickAll(ExplodeKick, hypot);
      } else if build == Es6 && mode == "rocketBoost" {
        KickAll(BoostKick, hypot);
      }
    }

    /**
     * The `push` case of the click handler: `Added` fresh particles up to the
     * cap, then in the ES module the `Recycled` oldest replaced by fresh ones.
     */
    method Push()
      requires Valid()
      modifies this`particles, this`drawn
      ensures var cap, want := Cap(options.number), options.modes.pushNb;
              var n := PushDraws(build, want, cap, |old(particles)|);
              particles == Pushed(build, old(particles), Draws(source, old(drawn), n), want, cap) &&
              drawn == old(drawn) + n
    {
      var cap := Cap(options.number);
      var want := options.modes.pushNb;
      var len := |particles|;
      ghost var spawned := Draws(source, drawn, PushDraws(build, want, cap, len));
      var add := Added(want, cap, len);
      PushSpawned(add);
      if build == Es6 {
        var removeN := Recycled(want, cap, len);
        particles := particles[removeN..];
        PushSpawned(removeN);
        assert spawned == Draws(source, old(drawn), add) + Draws(source, old(drawn) + add, removeN);
      } else {
        assert spawned == Draws(source, old(drawn), add);
      }
      assert spawned[..add] == Draws(source, old(drawn), add);
    }

    /** `_updateParticle(p, dt)` as a method: the behaviour loop runs as a loop. */
    method UpdateParticle(p: Particle, dt: real, now: real, hypot: (real, real) -> real,
                          pow: (real, real) -> real) returns (q: Particle)
      requires Valid() && LinkGrid.Dominates(hypot)
      ensures q == Tick(Snapshot(), p, dt, now, hypot, pow)
    {
      var f := Snapshot();
      var s := Steer(f, p, dt, now, hypot);
      var moved: Particle;
      if build == Es6 {
        var fns := Behaviors.ResolveFor(s, options, globals.entries, behaviors.entries);
        var ran, skip := Behaviors.RunBehaviors(fns, s, ContextOf(f, dt, hypot));
        if skip {
          moved := ran;
        } else {
          moved := Motion.Integrate(ran, Gravity(f), Motion.DragFactor(pow, options.physics.drag, dt), dt);
        }
      } else {
        moved := Motion.Drift(s, dt);
      }
      q := Motion.Boundary(options.move.outMode, moved, width as real, height as real);
    }

    /**
     * `_linkParticles`: nothing when linking is off; otherwise exactly the
     * pairs `i < j` within `distance * dpr` of each other, each once, with
     * the alpha of its stroke.
     */
    method LinkParticles(hypot: (real, real) -> real) returns (links: seq<LinkGrid.Link>)
      requires LinkGrid.Dominates(hypot)
      ensures !options.lineLinked.enable ==> links == []
      ensures options.lineLinked.enable ==>
                LinkGrid.PairsOf(links) == LinkGrid.AllPairs(Points(particles), LinkDistance(), hypot) &&
                LinkGrid.EachOnce(links) &&
                LinkGrid.Exact(Points(particles), LinkDistance(), options.lineLinked.opacity, hypot, links)
    {
      if !options.lineLinked.enable {
        return [];
      }
      links := LinkGrid.QueryLinks(Points(particles), LinkDistance(), options.lineLinked.opacity,
                                   width as real, height as real, hypot);
    }

    /**
     * The logic of `_step(dt)`: every particle updated in store order, then
     * the links of the updated store.
     */
    method Step(dt: real, now: real, hypot: (real, real) -> real, pow: (real, real) -> real)
      returns (links: seq<LinkGrid.Link>)
      requires Valid() && LinkGrid.Dominates(hypot)
      modifies this`particles
      ensures |particles| == |old(particles)|
      ensures forall k :: 0 <= k < |particles| ==>
                particles[k] == Tick(Snapshot(), old(particles)[k], dt, now, hypot, pow)
      ensures !options.lineLinked.enable ==> links == []
      ensures options.lineLinked.enable ==>
                LinkGrid.PairsOf(links) == LinkGrid.AllPairs(Points(particles), LinkDistance(), hypot) &&
                LinkGrid.EachOnce(links) &&
                LinkGrid.Exact(Points(particles), LinkDistance(), options.lineLinked.opacity, hypot, links)
    {
      var i := 0;
      while i < |particles|
        invariant 0 <= i <= |particles| == |old(particles)|
        invariant forall k :: 0 <= k < i ==>
                    particles[k] == Tick(Snapshot(), old(particles)[k], dt, now, hypot, pow)
        invariant forall k :: i <= k < |particles| ==> particles[k] == old(particles)[k]
      {
        var q := UpdateParticle(particles[i], dt, now, hypot, pow);
        particles := particles[i := q];
        i := i + 1;
      }
      links := LinkParticles(hypot);
    }
  }
}
