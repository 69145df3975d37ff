/**
 * Movement behaviours of the ES module build: the four registry layers,
 * the resolution of a particle's behaviour spec into an ordered list of
 * functions, registration with its validation, and the per-tick loop that
 * calls every resolved function, swallows what they throw and ORs together
 * their `skipPhysics` requests.
 *
 * A function is a token `Fn(Behavior(action, outcome))`: the change it makes
 * to the particle, then whether it returns a value or throws.
 */
module Behaviors {
  import opened Js
  import opened JsMath
  import opened Particles
  import Motion
  import LinkGrid

  // ---------- Registration ----------

  /** Why `registerBehavior` throws. */
  datatype RegisterError = NameNotString | FnNotFunction

  /**
   * `registerBehavior(name, fn)` on a table of behaviours: an empty or
   * non-string name is refused first, then a non-function `fn`; otherwise
   * `fn` is stored under `name` and every other entry is kept.
   */
  function Register(table: map<string, Value>, name: Value, fn: Value): (r: Result<map<string, Value>, RegisterError>)
    ensures r.Ok? <==> Truthy(name) && name.Str? && fn.Fn?
    ensures (!Truthy(name) || !name.Str?) ==> r == Err(NameNotString)
    ensures Truthy(name) && name.Str? && !fn.Fn? ==> r == Err(FnNotFunction)
    ensures r.Ok? ==> r.value.Keys == table.Keys + {name.s} && r.value[name.s] == fn &&
                      forall k :: k in table && k != name.s ==> r.value[k] == table[k]
  {
    if !Truthy(name) || !name.Str? then Err(NameNotString)
    else if !fn.Fn? then Err(FnNotFunction)
    else Ok(table[name.s := fn])
  }

  /** `unregisterBehavior(name)`: deletes that one key, whether or not it was there. */
  function Unregister(table: map<string, Value>, name: string): (r: map<string, Value>)
    ensures r.Keys == table.Keys - {name}
    ensures forall k :: k in r ==> r[k] == table[k]
  {
    table - {name}
  }

  /** Registering a name and then unregistering it leaves the table as it was without that name. */
  lemma RegisterThenUnregister(table: map<string, Value>, name: string, fn: Value)
    requires name != "" && fn.Fn?
    ensures Register(table, Str(name), fn).Ok?
    ensures Unregister(Register(table, Str(name), fn).value, name) == Unregister(table, name)
  {
    var r := Register(table, Str(name), fn).value;
    assert Unregister(r, name).Keys == Unregister(table, name).Keys;
  }

  /** The built-in entries of the global table: `default` does nothing, `rocket`, `slide` and `swirl` are the built-in movements. */
  function BuiltIns(): (t: map<string, Value>)
    ensures t.Keys == {"default", "rocket", "slide", "swirl"}
    ensures forall k :: k in t ==> t[k].Fn? && t[k].f.outcome == Returns(Undefined)
  {
    map["default" := Fn(Behavior(NoOp, Returns(Undefined))),
        "rocket" := Fn(Behavior(Rocket, Returns(Undefined))),
        "slide" := Fn(Behavior(Slide, Returns(Undefined))),
        "swirl" := Fn(Behavior(Swirl, Returns(Undefined)))]
  }

  // ---------- Resolution ----------

  /** `...(x || {})`: the properties an object spreads; any other value spreads none. */
  function Layer(v: Value): (m: map<string, Value>)
    ensures !v.Obj? ==> m == map[]
  {
    if v.Obj? then v.fields else map[]
  }

  /**
   * The registry a particle's spec is looked up in: the global table, then
   * the instance's table, then `options.behaviors`, then
   * `options.particles.move.behaviors`, each later layer overriding the
   * earlier ones.
   */
  function Registry(global: map<string, Value>, instance: map<string, Value>,
                    options: Value, move: Value): (reg: map<string, Value>)
    ensures reg.Keys == global.Keys + instance.Keys + Layer(options).Keys + Layer(move).Keys
    ensures forall k :: k in Layer(move) ==> reg[k] == Layer(move)[k]
    ensures forall k :: k !in Layer(move) && k in Layer(options) ==> reg[k] == Layer(options)[k]
    ensures forall k :: k !in Layer(move) && k !in Layer(options) && k in instance ==>
              reg[k] == instance[k]
    ensures forall k :: k !in Layer(move) && k !in Layer(options) && k !in instance && k in global ==>
              reg[k] == global[k]
  {
    global + instance + Layer(options) + Layer(move)
  }

  /** The spec in force: the particle's own `behavior` unless it is undefined, else `move.behavior ?? 'default'`. */
  function SpecFor(p: Particle, move: Move): (spec: Value)
    ensures !p.behavior.Undefined? ==> spec == p.behavior
    ensures p.behavior.Undefined? ==> spec == Coalesce(move.behavior, Str("default"))
  {
    if !p.behavior.Undefined? then p.behavior else Coalesce(move.behavior, Str("default"))
  }

  /**
   * `toFn(s)`: a falsy spec is nothing, a function is itself, a name is its
   * registry entry when that entry is truthy, and anything else is nothing.
   */
  function ToFn(s: Value, reg: map<string, Value>): (f: Option<Value>)
    ensures f.Some? ==> Truthy(f.value)
    ensures s.Fn? ==> f == Some(s)
    ensures s.Str? ==> (f.Some? <==> s.s != "" && s.s in reg && Truthy(reg[s.s]))
    ensures s.Str? && f.Some? ==> f.value == reg[s.s]
    ensures !s.Fn? && !s.Str? ==> f == None
  {
    if !Truthy(s) then None
    else if s.Fn? then Some(s)
    else if s.Str? then (if s.s in reg && Truthy(reg[s.s]) then Some(reg[s.s]) else None)
    else None
  }

  /** `spec.map(toFn).filter(Boolean)` over the elements of an array spec. */
  function ResolveEach(items: seq<Value>, reg: map<string, Value>): (fs: seq<Value>)
    ensures |fs| <= |items|
    ensures forall k :: 0 <= k < |fs| ==> Truthy(fs[k])
    ensures forall k :: 0 <= k < |items| && ToFn(items[k], reg).Some? ==> ToFn(items[k], reg).value in fs
    ensures forall f :: f in fs ==> exists k :: 0 <= k < |items| && ToFn(items[k], reg) == Some(f)
    decreases |items|
  {
    if items == [] then []
    else
      var rest := ResolveEach(items[1..], reg);
      assert forall k :: 1 <= k < |items| ==> items[k] == items[1..][k - 1];
      (match ToFn(items[0], reg) case Some(f) => [f] case None => []) + rest
  }

  /** Resolution is element-wise: resolving a concatenation concatenates the resolutions, in order. */
  lemma {:induction false} ResolveEachAppend(a: seq<Value>, b: seq<Value>, reg: map<string, Value>)
    ensures ResolveEach(a + b, reg) == ResolveEach(a, reg) + ResolveEach(b, reg)
    decreases |a|
  {
    if a == [] {
      assert a + b == b;
    } else {
      assert (a + b)[1..] == a[1..] + b;
      ResolveEachAppend(a[1..], b, reg);
    }
  }

  /** An array of functions resolves to itself: nothing is dropped and the order is kept. */
  lemma {:induction false} FunctionsResolveToThemselves(items: seq<Value>, reg: map<string, Value>)
    requires forall k :: 0 <= k < |items| ==> items[k].Fn?
    ensures ResolveEach(items, reg) == items
    decreases |items|
  {
    if items != [] {
      FunctionsResolveToThemselves(items[1..], reg);
    }
  }

  /** An element that resolves to nothing is dropped without disturbing its neighbours. */
  lemma UnresolvedDropped(a: seq<Value>, s: Value, b: seq<Value>, reg: map<string, Value>)
    requires ToFn(s, reg).None?
    ensures ResolveEach(a + [s] + b, reg) == ResolveEach(a, reg) + ResolveEach(b, reg)
  {
    ResolveEachAppend(a + [s], b, reg);
    ResolveEachAppend(a, [s], reg);
  }

  /** `_resolveBehaviors` on a spec: an array resolves element-wise, anything else to at most one function. */
  function Resolve(spec: Value, reg: map<string, Value>): (fs: seq<Value>)
    ensures spec.Arr? ==> fs == ResolveEach(spec.items, reg)
    ensures !spec.Arr? ==> |fs| <= 1 && (|fs| == 1 <==> ToFn(spec, reg).Some?)
    ensures !spec.Arr? && |fs| == 1 ==> fs[0] == ToFn(spec, reg).value
    ensures forall k :: 0 <= k < |fs| ==> Truthy(fs[k])
  {
    if spec.Arr? then ResolveEach(spec.items, reg)
    else match ToFn(spec, reg) case Some(f) => [f] case None => []
  }

  /** The functions a particle runs this tick. */
  function ResolveFor(p: Particle, opts: Options, global: map<string, Value>,
                      instance: map<string, Value>): (fs: seq<Value>)
  {
    Resolve(SpecFor(p, opts.move), Registry(global, instance, opts.behaviors, opts.move.behaviors))
  }

  /**
   * With no spec on the particle or in `move`, and no layer overriding the
   * name, a particle runs exactly the global `default` entry.
   */
  lemma DefaultWhenUnset(p: Particle, opts: Options, global: map<string, Value>, instance: map<string, Value>)
    requires p.behavior.Undefined? && Nullish(opts.move.behavior)
    requires "default" in global && Truthy(global["default"])
    requires "default" !in instance && "default" !in Layer(opts.behaviors) && "default" !in Layer(opts.move.behaviors)
    ensures ResolveFor(p, opts, global, instance) == [global["default"]]
  {
    var reg := Registry(global, instance, opts.behaviors, opts.move.behaviors);
    assert SpecFor(p, opts.move) == Str("default");
    assert reg["default"] == global["default"];
  }

  /** A name that no layer defines resolves to nothing. */
  lemma UnknownNameResolvesToNothing(name: string, global: map<string, Value>, instance: map<string, Value>,
                                     options: Value, move: Value)
    requires name !in global && name !in instance && name !in Layer(options) && name !in Layer(move)
    ensures Resolve(Str(name), Registry(global, instance, options, move)) == []
  {
  }

  // ---------- The per-tick loop ----------

  /**
   * What a behaviour sees of the engine: the tick length, the pixel ratio,
   * the canvas size, the `move` options and `Math.hypot`.
   */
  datatype Context = Context(dt: real, dpr: real, width: real, height: real, move: Move,
                             hypot: (real, real) -> real)

  /** The change a behaviour's action makes to the particle. */
  function Apply(a: Action, p: Particle, ctx: Context): (r: Particle)
    requires LinkGrid.Dominates(ctx.hypot)
    ensures Motion.VelocityOnly(p, r)
  {
    match a
    case NoOp => p
    case Rocket => Motion.Rocket(p, ctx.move.rocketThrust, ctx.dpr, ctx.dt)
    case Slide => Motion.Slide(p, ctx.move.slideStiffness, ctx.dt)
    case Swirl =>
      var dx, dy := ctx.width / 2.0 - p.x, ctx.height / 2.0 - p.y;
      assert Abs(dx) <= ctx.hypot(dx, dy);
      Motion.Swirl(p, ctx.width, ctx.height, ctx.hypot(dx, dy), ctx.move.swirlStrength, ctx.dpr, ctx.dt)
    case Kick(dvx, dvy) => p.(vx := p.vx + dvx, vy := p.vy + dvy)
  }

  /** `out && typeof out === 'object' && out.skipPhysics`. */
  predicate RequestsSkip(out: Value)
  {
    out.Obj? && Truthy(Prop(out.fields, "skipPhysics"))
  }

  /** A call of `v` that completes and asks to skip physics. */
  predicate Skips(v: Value)
  {
    v.Fn? && v.f.outcome.Returns? && RequestsSkip(v.f.outcome.result)
  }

  /**
   * One call inside the `try`: a function makes its change and then returns
   * or throws; a value that is not a function throws a `TypeError` at once
   * and changes nothing. Either way the throw is caught.
   */
  function Call(v: Value, p: Particle, ctx: Context): (r: (Particle, bool))
    requires LinkGrid.Dominates(ctx.hypot)
    ensures r.1 <==> Skips(v)
    ensures !v.Fn? ==> r.0 == p
    ensures v.Fn? ==> r.0 == Apply(v.f.action, p, ctx)
  {
    if v.Fn? then (Apply(v.f.action, p, ctx), Skips(v)) else (p, false)
  }

  /**
   * The loop over the resolved functions: each is called in order on the
   * particle as the previous ones left it, and physics is skipped exactly
   * when some call completed and asked for it.
   */
  function RunAll(fns: seq<Value>, p: Particle, ctx: Context): (r: (Particle, bool))
    requires LinkGrid.Dominates(ctx.hypot)
    ensures r.1 <==> exists k :: 0 <= k < |fns| && Skips(fns[k])
    ensures Motion.VelocityOnly(p, r.0)
    decreases |fns|
  {
    if fns == [] then (p, false)
    else
      var c := Call(fns[0], p, ctx);
      var rest := RunAll(fns[1..], c.0, ctx);
      assert forall k :: 1 <= k < |fns| ==> fns[k] == fns[1..][k - 1];
      (rest.0, c.1 || rest.1)
  }

  /** One more function at the end of the list runs on the particle as the others left it. */
  lemma {:induction false} RunAllAppend(fns: seq<Value>, v: Value, p: Particle, ctx: Context)
    requires LinkGrid.Dominates(ctx.hypot)
    ensures RunAll(fns + [v], p, ctx).0 == Call(v, RunAll(fns, p, ctx).0, ctx).0
    ensures RunAll(fns + [v], p, ctx).1 == (RunAll(fns, p, ctx).1 || Call(v, RunAll(fns, p, ctx).0, ctx).1)
    decreases |fns|
  {
    if fns == [] {
      assert [v][1..] == [];
    } else {
      assert (fns + [v])[1..] == fns[1..] + [v];
      RunAllAppend(fns[1..], v, Call(fns[0], p, ctx).0, ctx);
    }
  }

  /** Two lists that do the same things in the same order, returning or throwing alike or not. */
  predicate SameActions(fns: seq<Value>, gns: seq<Value>)
  {
    |fns| == |gns| &&
    forall k :: 0 <= k < |fns| ==> fns[k].Fn? == gns[k].Fn? && (fns[k].Fn? ==> fns[k].f.action == gns[k].f.action)
  }

  /**
   * A throw does not stop the loop: how each call ends never changes what
   * the later calls do to the particle.
   */
  lemma {:induction false} OutcomesDoNotSteer(fns: seq<Value>, gns: seq<Value>, p: Particle, ctx: Context)
    requires LinkGrid.Dominates(ctx.hypot)
    requires SameActions(fns, gns)
    ensures RunAll(fns, p, ctx).0 == RunAll(gns, p, ctx).0
    decreases |fns|
  {
    if fns != [] {
      assert Call(fns[0], p, ctx).0 == Call(gns[0], p, ctx).0;
      assert SameActions(fns[1..], gns[1..]) by {
        forall k | 0 <= k < |fns[1..]|
          ensures fns[1..][k].Fn? == gns[1..][k].Fn?
          ensures fns[1..][k].Fn? ==> fns[1..][k].f.action == gns[1..][k].f.action
        {
          assert fns[1..][k] == fns[k + 1] && gns[1..][k] == gns[k + 1];
        }
      }
      OutcomesDoNotSteer(fns[1..], gns[1..], Call(fns[0], p, ctx).0, ctx);
    }
  }

  /**
   * The loop of `_updateParticle`: `skip` starts false and is set by any
   * call that completes with a truthy `skipPhysics`; throws are swallowed.
   */
  method RunBehaviors(fns: seq<Value>, p: Particle, ctx: Context) returns (q: Particle, skip: bool)
    requires LinkGrid.Dominates(ctx.hypot)
    ensures (q, skip) == RunAll(fns, p, ctx)
    ensures skip <==> exists k :: 0 <= k < |fns| && Skips(fns[k])
  {
    q, skip := p, false;
    var i := 0;
    while i < |fns|
      invariant 0 <= i <= |fns|
      invariant (q, skip) == RunAll(fns[..i], p, ctx)
    {
      RunAllAppend(fns[..i], fns[i], p, ctx);
      assert fns[..i + 1] == fns[..i] + [fns[i]];
      var out := Call(fns[i], q, ctx);
      q := out.0;
      if out.1 {
        skip := true;
      }
      i := i + 1;
    }
    assert fns[..i] == fns;
  }
}
