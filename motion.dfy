/**
 * The per-particle rules of `_updateParticle` and the velocity rules of the
 * click modes, each as a function from a particle to the updated particle.
 *
 * `Math.hypot(dx, dy)` arrives as an input `dist` together with the two facts
 * about it the rules need, `|dx| <= dist` and `|dy| <= dist`; the cosine and
 * sine of `Math.atan2(dy, dx)` are `dx / dist` and `dy / dist` (and `(1, 0)`
 * when both offsets are 0).
 */
module Motion {
  import opened Js
  import opened JsMath
  import opened Particles

  /** What `Math.hypot(dx, dy) = dist` guarantees about the offsets. */
  predicate Bounds(dx: real, dy: real, dist: real)
  {
    Abs(dx) <= dist && Abs(dy) <= dist
  }

  /** `(cos a, sin a)` for `a = Math.atan2(dy, dx)`, at `dist = Math.hypot(dx, dy)`. */
  function Heading(dx: real, dy: real, dist: real): (h: Vec)
    requires Bounds(dx, dy, dist)
    ensures Abs(h.x) <= 1.0 && Abs(h.y) <= 1.0
    ensures h.x * dx >= 0.0 && h.y * dy >= 0.0
  {
    if dist == 0.0 then Vec(1.0, 0.0)
    else
      UnitShare(dx, dist);
      UnitShare(dy, dist);
      Vec(dx / dist, dy / dist)
  }

  lemma UnitShare(a: real, dist: real)
    requires Abs(a) <= dist && dist != 0.0
    ensures Abs(a / dist) <= 1.0 && (a / dist) * a >= 0.0
  {
    assert dist > 0.0;
    DivMono(a, dist, dist);
    DivMono(-dist, a, dist);
    assert dist / dist == 1.0;
    assert (-dist) / dist == -(dist / dist);
    assert a * a == Abs(a) * Abs(a);
    MulNonNeg(Abs(a), Abs(a));
    DivMono(0.0, a * a, dist);
    assert (a / dist) * a == (a * a) / dist;
  }

  /** The particle with only its velocity replaced. */
  predicate VelocityOnly(p: Particle, r: Particle)
  {
    r == p.(vx := r.vx, vy := r.vy)
  }

  /** `p.vx += kx; p.vy += ky`: an impulse on the velocity and nothing else. */
  function Nudge(p: Particle, kx: real, ky: real): (r: Particle)
    ensures VelocityOnly(p, r)
    ensures r.vx - p.vx == kx && r.vy - p.vy == ky
  {
    p.(vx := p.vx + kx, vy := p.vy + ky)
  }

  /** The velocity change from `p` to `r` points away from the pointer at offset `(dx, dy)`, axis by axis. */
  predicate Away(p: Particle, r: Particle, dx: real, dy: real)
  {
    (r.vx - p.vx) * dx >= 0.0 && (r.vy - p.vy) * dy >= 0.0
  }

  /** An impulse whose components share the offset's signs pushes away. */
  lemma NudgeAway(p: Particle, kx: real, ky: real, dx: real, dy: real)
    requires kx * dx >= 0.0 && ky * dy >= 0.0
    ensures Away(p, Nudge(p, kx, ky), dx, dy)
  {
    var r := Nudge(p, kx, ky);
    assert (r.vx - p.vx) * dx == kx * dx;
    assert (r.vy - p.vy) * dy == ky * dy;
  }

  // ---------- Attraction ----------

  /** `Math.min(0.00004 * dpr, 1 / Math.max(1, dist2))`: the attraction gain. */
  function AttractGain(dist2: real, dpr: real): (f: real)
    requires dpr >= 0.0
    ensures 0.0 <= f <= 0.00004 * dpr
    ensures f * Max(1.0, dist2) <= 1.0
  {
    var m := Max(1.0, dist2);
    assert (1.0 / m) * m == 1.0;
    var f := Min(0.00004 * dpr, 1.0 / m);
    assert f * m <= (1.0 / m) * m;
    f
  }

  /**
   * `move.attract`: a pull toward the canvas centre, scaled per axis by
   * `rotateX / 1000` and `rotateY / 1000`. Only the velocity changes, and for
   * non-negative factors each velocity component moves toward the centre.
   */
  function Attraction(p: Particle, at: Attract, width: real, height: real, dpr: real): (r: Particle)
    requires dpr >= 0.0
    ensures VelocityOnly(p, r)
    ensures at.rotateX >= 0.0 ==> (r.vx - p.vx) * (width / 2.0 - p.x) >= 0.0
    ensures at.rotateY >= 0.0 ==> (r.vy - p.vy) * (height / 2.0 - p.y) >= 0.0
  {
    var dx, dy := width / 2.0 - p.x, height / 2.0 - p.y;
    var f := AttractGain(dx * dx + dy * dy, dpr);
    var kx, ky := f * (at.rotateX / 1000.0), f * (at.rotateY / 1000.0);
    SquareScale(dx, kx);
    SquareScale(dy, ky);
    p.(vx := p.vx + dx * kx, vy := p.vy + dy * ky)
  }

  lemma SquareScale(d: real, k: real)
    ensures k >= 0.0 ==> (d * k) * d >= 0.0
  {
    if k >= 0.0 {
      assert (d * k) * d == (d * d) * k;
      assert d * d >= 0.0;
    }
  }

  // ---------- Hover ----------

  /**
   * Hover `repulse` inside the radius `radius = repulse.distance * dpr`: a
   * push of `max(0.0001, radius - dist) / radius * 400 * dt` straight away
   * from the pointer. Only the velocity changes.
   */
  function HoverRepulse(p: Particle, dx: real, dy: real, dist: real, radius: real, dt: real): (r: Particle)
    requires Bounds(dx, dy, dist) && dist < radius
    ensures VelocityOnly(p, r)
    ensures dt >= 0.0 ==> Away(p, r, dx, dy)
  {
    Along(p, Heading(dx, dy, dist), dx, dy, RepulseForce(dist, radius, dt))
  }

  /** An impulse of size `force` along the heading `h` of the offset `(dx, dy)`. */
  function Along(p: Particle, h: Vec, dx: real, dy: real, force: real): (r: Particle)
    requires h.x * dx >= 0.0 && h.y * dy >= 0.0
    ensures VelocityOnly(p, r)
    ensures force >= 0.0 ==> Away(p, r, dx, dy)
  {
    if force >= 0.0 then
      AwayScale(h.x, dx, force);
      AwayScale(h.y, dy, force);
      NudgeAway(p, h.x * force, h.y * force, dx, dy);
      Nudge(p, h.x * force, h.y * force)
    else Nudge(p, h.x * force, h.y * force)
  }

  /** `max(0.0001, radius - dist) / radius * 400 * dt`: never negative on a forward tick. */
  function RepulseForce(dist: real, radius: real, dt: real): (f: real)
    requires 0.0 <= dist < radius
    ensures dt >= 0.0 ==> f >= 0.0
  {
    var strength := Max(0.0001, radius - dist);
    DivMono(0.0, strength, radius);
    if dt >= 0.0 then
      MulNonNeg(strength / radius * 400.0, dt);
      (strength / radius) * 400.0 * dt
    else (strength / radius) * 400.0 * dt
  }

  lemma AwayScale(h: real, d: real, force: real)
    requires h * d >= 0.0
    ensures force >= 0.0 ==> (h * force) * d >= 0.0
  {
    if force >= 0.0 {
      assert (h * force) * d == (h * d) * force;
    }
  }

  /** `a + (b - a) * k`: the point a fraction `k` of the way from `a` to `b`. */
  function Lerp(a: real, b: real, k: real): (r: real)
    requires 0.0 <= k <= 1.0
    ensures Min(a, b) <= r <= Max(a, b)
    ensures k == 1.0 ==> r == b
    ensures k == 0.0 ==> r == a
    ensures r - b == (a - b) * (1.0 - k)
  {
    assert (a - b) * (1.0 - k) == (a - b) + (b - a) * k;
    if a <= b then
      MulNonNeg(b - a, k);
      MulNonNeg(b - a, 1.0 - k);
      assert (b - a) - (b - a) * k == (b - a) * (1.0 - k);
      a + (b - a) * k
    else
      MulNonNeg(a - b, k);
      MulNonNeg(a - b, 1.0 - k);
      assert (b - a) * k == -((a - b) * k);
      assert (a - b) - (a - b) * k == (a - b) * (1.0 - k);
      a + (b - a) * k
  }

  /**
   * Bubble inside the radius: size and opacity go from their base values at
   * the edge to the bubble's at the pointer, linearly in `k = 1 - dist/radius`.
   * They end between the base and the bubble values, and only they change.
   */
  function Bubble(p: Particle, dist: real, radius: real, bubble: BubbleMode): (r: Particle)
    requires 0.0 <= dist < radius
    ensures r == p.(size := r.size, opacity := r.opacity)
    ensures Min(p.baseSize, bubble.size) <= r.size <= Max(p.baseSize, bubble.size)
    ensures Min(p.baseOpacity, bubble.opacity) <= r.opacity <= Max(p.baseOpacity, bubble.opacity)
    ensures dist == 0.0 ==> r.size == bubble.size && r.opacity == bubble.opacity
    ensures r.size - bubble.size == (p.baseSize - bubble.size) * (dist / radius)
    ensures r.opacity - bubble.opacity == (p.baseOpacity - bubble.opacity) * (dist / radius)
  {
    var k := 1.0 - dist / radius;
    assert dist / radius < radius / radius;
    p.(size := Lerp(p.baseSize, bubble.size, k), opacity := Lerp(p.baseOpacity, bubble.opacity, k))
  }

  /** The share of the gap to the base value that one relaxation step keeps: `1 - min(1, 4 dt)`. */
  function RelaxKeep(dt: real): (keep: real)
    ensures keep == 1.0 - Min(1.0, dt * 4.0)
  {
    1.0 - Min(1.0, dt * 4.0)
  }

  /**
   * The hover fallback: size and opacity relax toward their base values by
   * the factor `min(1, 4 dt)`. For `dt >= 0` neither overshoots its base,
   * and from `dt >= 0.25` on both arrive.
   */
  function Relax(p: Particle, dt: real): (r: Particle)
    ensures r == p.(size := r.size, opacity := r.opacity)
    ensures dt >= 0.0 ==> Min(p.size, p.baseSize) <= r.size <= Max(p.size, p.baseSize)
    ensures dt >= 0.0 ==> Min(p.opacity, p.baseOpacity) <= r.opacity <= Max(p.opacity, p.baseOpacity)
    ensures dt >= 0.25 ==> r.size == p.baseSize && r.opacity == p.baseOpacity
    ensures r.size - p.baseSize == (p.size - p.baseSize) * RelaxKeep(dt)
    ensures r.opacity - p.baseOpacity == (p.opacity - p.baseOpacity) * RelaxKeep(dt)
  {
    var k := Min(1.0, dt * 4.0);
    assert (p.size - p.baseSize) * (1.0 - k) == (p.size - p.baseSize) + (p.baseSize - p.size) * k;
    assert (p.opacity - p.baseOpacity) * (1.0 - k) == (p.opacity - p.baseOpacity) + (p.baseOpacity - p.opacity) * k;
    if dt >= 0.0 then
      p.(size := Lerp(p.size, p.baseSize, k), opacity := Lerp(p.opacity, p.baseOpacity, k))
    else
      p.(size := p.size + (p.baseSize - p.size) * k, opacity := p.opacity + (p.baseOpacity - p.opacity) * k)
  }

  /** Two gaps `x1 = g * f1` and `x2 = g * f2` with `0 <= f1 <= f2`: the first is no larger. */
  lemma ScaleMono(g: real, f1: real, f2: real, x1: real, x2: real)
    requires 0.0 <= f1 <= f2 && x1 == g * f1 && x2 == g * f2
    ensures Abs(x1) <= Abs(x2)
  {
    var e := if g >= 0.0 then g else -g;
    MulNonNeg(e, f1);
    MulNonNeg(e, f2 - f1);
    assert e * f2 - e * f1 == e * (f2 - f1);
    assert Abs(x1) == e * f1 && Abs(x2) == e * f2;
  }

  /** One relaxation step, as a gap to a base value: `x1 = g * keep(dt1)`, `x2 = g * keep(dt2)`. */
  lemma RelaxGapMono(g: real, dt1: real, dt2: real, x1: real, x2: real)
    requires 0.0 <= dt1 <= dt2 && x1 == g * RelaxKeep(dt1) && x2 == g * RelaxKeep(dt2)
    ensures Abs(x2) <= Abs(x1)
  {
    ScaleMono(g, RelaxKeep(dt2), RelaxKeep(dt1), x2, x1);
  }

  /** A longer relaxation step leaves size and opacity no farther from their base values. */
  lemma RelaxMonotone(p: Particle, dt1: real, dt2: real)
    requires 0.0 <= dt1 <= dt2
    ensures Abs(Relax(p, dt2).size - p.baseSize) <= Abs(Relax(p, dt1).size - p.baseSize)
    ensures Abs(Relax(p, dt2).opacity - p.baseOpacity) <= Abs(Relax(p, dt1).opacity - p.baseOpacity)
  {
    RelaxGapMono(p.size - p.baseSize, dt1, dt2, Relax(p, dt1).size - p.baseSize, Relax(p, dt2).size - p.baseSize);
    RelaxGapMono(p.opacity - p.baseOpacity, dt1, dt2,
                 Relax(p, dt1).opacity - p.baseOpacity, Relax(p, dt2).opacity - p.baseOpacity);
  }

  /** A particle nearer the pointer is bubbled at least as close to the bubble's values. */
  lemma BubbleNearer(p: Particle, d1: real, d2: real, radius: real, bubble: BubbleMode)
    requires 0.0 <= d1 <= d2 < radius
    ensures Abs(Bubble(p, d1, radius, bubble).size - bubble.size) <=
            Abs(Bubble(p, d2, radius, bubble).size - bubble.size)
    ensures Abs(Bubble(p, d1, radius, bubble).opacity - bubble.opacity) <=
            Abs(Bubble(p, d2, radius, bubble).opacity - bubble.opacity)
  {
    var b1, b2 := Bubble(p, d1, radius, bubble), Bubble(p, d2, radius, bubble);
    DivMono(0.0, d1, radius);
    DivMono(d1, d2, radius);
    ScaleMono(p.baseSize - bubble.size, d1 / radius, d2 / radius, b1.size - bubble.size, b2.size - bubble.size);
    ScaleMono(p.baseOpacity - bubble.opacity, d1 / radius, d2 / radius,
              b1.opacity - bubble.opacity, b2.opacity - bubble.opacity);
  }

  /**
   * Hover `slide` (ES module only): the velocity is pulled toward the
   * pointer, by half the x offset and a fifth of the y offset per second.
   */
  function HoverSlide(p: Particle, px: real, py: real, dt: real): (r: Particle)
    ensures VelocityOnly(p, r)
    ensures r.vx - p.vx == (px - p.x) * 0.5 * dt && r.vy - p.vy == (py - p.y) * 0.2 * dt
    ensures dt >= 0.0 ==> (r.vx - p.vx) * (px - p.x) >= 0.0 && (r.vy - p.vy) * (py - p.y) >= 0.0
  {
    SquareScale(px - p.x, 0.5 * dt);
    SquareScale(py - p.y, 0.2 * dt);
    p.(vx := p.vx + (px - p.x) * 0.5 * dt, vy := p.vy + (py - p.y) * 0.2 * dt)
  }

  /**
   * The hover rule with the pointer active and hover enabled: `repulse`
   * inside its radius, else `bubble` inside its radius, else (ES module)
   * `slide`, else relaxation: a `repulse` or `bubble` mode whose radius
   * does not reach the particle relaxes it.
   */
  function Hover(build: Build, mode: string, p: Particle, ptr: Pointer, dist: real,
                 modes: Modes, dpr: real, dt: real): (r: Particle)
    requires Bounds(p.x - ptr.x, p.y - ptr.y, dist)
    ensures mode == "repulse" && dist < modes.repulseDistance * dpr ==>
              r == HoverRepulse(p, p.x - ptr.x, p.y - ptr.y, dist, modes.repulseDistance * dpr, dt)
    ensures mode == "bubble" && dist < modes.bubble.distance * dpr ==>
              r == Bubble(p, dist, modes.bubble.distance * dpr, modes.bubble)
    ensures mode == "slide" && build == Es6 ==> r == HoverSlide(p, ptr.x, ptr.y, dt)
    ensures (!(mode == "repulse" && dist < modes.repulseDistance * dpr) &&
             !(mode == "bubble" && dist < modes.bubble.distance * dpr) &&
             !(mode == "slide" && build == Es6)) ==> r == Relax(p, dt)
  {
    var dx, dy := p.x - ptr.x, p.y - ptr.y;
    assert dist >= 0.0;
    if mode == "repulse" && dist < modes.repulseDistance * dpr then
      HoverRepulse(p, dx, dy, dist, modes.repulseDistance * dpr, dt)
    else if mode == "bubble" && dist < modes.bubble.distance * dpr then
      Bubble(p, dist, modes.bubble.distance * dpr, modes.bubble)
    else if build == Es6 && mode == "slide" then
      HoverSlide(p, ptr.x, ptr.y, dt)
    else
      Relax(p, dt)
  }

  /**
   * The click `bubble` window: for `bubble.duration` seconds after a click
   * (`now` and `lastClick` in milliseconds) a particle within the bubble
   * radius is bubbled. Outside the window, or out of reach, nothing changes.
   */
  function ClickBubble(p: Particle, events: Events, ptr: Pointer, dist: real,
                       bubble: BubbleMode, dpr: real, now: real): (r: Particle)
    requires dist >= 0.0
    ensures !events.clickEnable || events.clickMode != "bubble" ==> r == p
    ensures (now - ptr.lastClick) / 1000.0 >= bubble.duration ==> r == p
    ensures dist >= bubble.distance * dpr ==> r == p
    ensures events.clickEnable && events.clickMode == "bubble" &&
            (now - ptr.lastClick) / 1000.0 < bubble.duration && dist < bubble.distance * dpr ==>
              r == Bubble(p, dist, bubble.distance * dpr, bubble)
  {
    var since := (now - ptr.lastClick) / 1000.0;
    if events.clickEnable && events.clickMode == "bubble" && since < bubble.duration
       && dist < bubble.distance * dpr
    then Bubble(p, dist, bubble.distance * dpr, bubble)
    else p
  }

  /**
   * Right after a bubble click, a particle under the pointer takes the
   * bubble's size and opacity, while its position and velocity stay.
   */
  lemma ClickBubbleAtPointer(p: Particle, events: Events, ptr: Pointer, bubble: BubbleMode, dpr: real, now: real)
    requires events.clickEnable && events.clickMode == "bubble"
    requires (now - ptr.lastClick) / 1000.0 < bubble.duration && bubble.distance * dpr > 0.0
    ensures ClickBubble(p, events, ptr, 0.0, bubble, dpr, now).size == bubble.size
    ensures ClickBubble(p, events, ptr, 0.0, bubble, dpr, now).opacity == bubble.opacity
    ensures ClickBubble(p, events, ptr, 0.0, bubble, dpr, now) ==
            p.(size := bubble.size, opacity := bubble.opacity)
  {
  }

  // ---------- Physics ----------

  /** `Math.max(0, Math.min(1, phys.drag ?? 1))`. */
  function ClampDrag(drag: Option<real>): (d: real)
    ensures 0.0 <= d <= 1.0
    ensures drag.None? ==> d == 1.0
    ensures drag.Some? && 0.0 <= drag.value <= 1.0 ==> d == drag.value
    ensures drag.Some? && drag.value > 1.0 ==> d == 1.0
    ensures drag.Some? && drag.value < 0.0 ==> d == 0.0
  {
    Max(0.0, Min(1.0, OrElse(drag, 1.0)))
  }

  /**
   * What `base ** exponent` guarantees for a base in [0, 1] and a
   * non-negative exponent: a value in [0, 1], and exactly 1 for exponent 0
   * or base 1.
   */
  ghost predicate PowLaw(pow: (real, real) -> real)
  {
    forall b, e :: 0.0 <= b <= 1.0 && e >= 0.0 ==>
      0.0 <= pow(b, e) <= 1.0 && (e == 0.0 ==> pow(b, e) == 1.0) && (b == 1.0 ==> pow(b, e) == 1.0)
  }

  /** `drag ** (dt * 60)` with the clamped drag. */
  function DragFactor(pow: (real, real) -> real, drag: Option<real>, dt: real): real
  {
    pow(ClampDrag(drag), dt * 60.0)
  }

  /** The drag factor lies in [0, 1] and is 1 without drag or at `dt = 0`. */
  lemma DragFactorRange(pow: (real, real) -> real, drag: Option<real>, dt: real)
    requires PowLaw(pow) && dt >= 0.0
    ensures 0.0 <= DragFactor(pow, drag, dt) <= 1.0
    ensures drag.None? || dt == 0.0 ==> DragFactor(pow, drag, dt) == 1.0
  {
    var b := ClampDrag(drag);
    assert 0.0 <= b <= 1.0 && dt * 60.0 >= 0.0;
  }

  /** Scaling by a factor in [0, 1] never increases a magnitude. */
  lemma ScaleShrinks(v: real, f: real)
    ensures 0.0 <= f <= 1.0 ==> Abs(v * f) <= Abs(v) && (v * f == 0.0 || (v * f > 0.0 <==> v > 0.0))
  {
    if 0.0 <= f <= 1.0 {
      if v >= 0.0 {
        MulNonNeg(v, f);
        MulNonNeg(v, 1.0 - f);
        assert v - v * f == v * (1.0 - f);
      } else {
        MulNonNeg(-v, f);
        MulNonNeg(-v, 1.0 - f);
        assert v * f == -((-v) * f);
        assert (-v) - (-v) * f == (-v) * (1.0 - f);
      }
    }
  }

  /**
   * The ES module's physics step: gravity into `vy`, both velocity
   * components scaled by the drag factor, then the position advanced by the
   * new velocity. Without gravity and with a factor in [0, 1], neither
   * velocity component grows.
   */
  function Integrate(p: Particle, gravity: real, dragFactor: real, dt: real): (r: Particle)
    ensures r.size == p.size && r.opacity == p.opacity && r.baseSize == p.baseSize
    ensures r.baseOpacity == p.baseOpacity && r.behavior == p.behavior
    ensures r.vx == p.vx * dragFactor && r.vy == (p.vy + gravity * dt) * dragFactor
    ensures r.x == p.x + r.vx * dt && r.y == p.y + r.vy * dt
    ensures gravity == 0.0 && 0.0 <= dragFactor <= 1.0 ==> Abs(r.vx) <= Abs(p.vx) && Abs(r.vy) <= Abs(p.vy)
  {
    var vy := p.vy + gravity * dt;
    var vx', vy' := p.vx * dragFactor, vy * dragFactor;
    ScaleShrinks(p.vx, dragFactor);
    ScaleShrinks(vy, dragFactor);
    p.(vx := vx', vy := vy', x := p.x + vx' * dt, y := p.y + vy' * dt)
  }

  /** The global build's position step: the position advances by the velocity. */
  function Drift(p: Particle, dt: real): (r: Particle)
    ensures r == p.(x := r.x, y := r.y)
    ensures r.x - p.x == p.vx * dt && r.y - p.y == p.vy * dt
  {
    p.(x := p.x + p.vx * dt, y := p.y + p.vy * dt)
  }

  // ---------- Boundary ----------

  /**
   * `out_mode: 'bounce'`: a velocity component is negated exactly when the
   * particle lies outside the canvas on that axis, and the position is then
   * clamped onto the canvas.
   */
  function Bounce(p: Particle, width: real, height: real): (r: Particle)
    requires width >= 0.0 && height >= 0.0
    ensures 0.0 <= r.x <= width && 0.0 <= r.y <= height
    ensures r.vx == if p.x < 0.0 || p.x > width then -p.vx else p.vx
    ensures r.vy == if p.y < 0.0 || p.y > height then -p.vy else p.vy
    ensures 0.0 <= p.x <= width ==> r.x == p.x
    ensures 0.0 <= p.y <= height ==> r.y == p.y
    ensures r == p.(x := r.x, y := r.y, vx := r.vx, vy := r.vy)
  {
    var vx := if p.x < 0.0 || p.x > width then p.vx * -1.0 else p.vx;
    var vy := if p.y < 0.0 || p.y > height then p.vy * -1.0 else p.vy;
    p.(vx := vx, vy := vy, x := Max(0.0, Min(width, p.x)), y := Max(0.0, Min(height, p.y)))
  }

  /** One axis of the out mode: beyond the 50-unit margin, to the opposite margin. */
  function WrapAxis(v: real, extent: real): (r: real)
    requires extent >= 0.0
    ensures -50.0 <= r <= extent + 50.0
    ensures v < -50.0 ==> r == extent + 50.0
    ensures v > extent + 50.0 ==> r == -50.0
    ensures -50.0 <= v <= extent + 50.0 ==> r == v
  {
    var v1 := if v < -50.0 then extent + 50.0 else v;
    if v1 > extent + 50.0 then -50.0 else v1
  }

  /**
   * Every other out mode: a particle beyond the 50-unit margin reappears at
   * the opposite margin; velocity, size and opacity are untouched.
   */
  function Wrap(p: Particle, width: real, height: real): (r: Particle)
    requires width >= 0.0 && height >= 0.0
    ensures -50.0 <= r.x <= width + 50.0 && -50.0 <= r.y <= height + 50.0
    ensures r == p.(x := r.x, y := r.y)
  {
    p.(x := WrapAxis(p.x, width), y := WrapAxis(p.y, height))
  }

  /** The boundary step of `_updateParticle`. */
  function Boundary(outMode: string, p: Particle, width: real, height: real): (r: Particle)
    requires width >= 0.0 && height >= 0.0
    ensures outMode == "bounce" ==> 0.0 <= r.x <= width && 0.0 <= r.y <= height
    ensures -50.0 <= r.x <= width + 50.0 && -50.0 <= r.y <= height + 50.0
  {
    if outMode == "bounce" then Bounce(p, width, height) else Wrap(p, width, height)
  }

  /** Bouncing twice in a row changes nothing more: the first bounce already put the particle inside. */
  lemma BounceSettles(p: Particle, width: real, height: real)
    requires width >= 0.0 && height >= 0.0
    ensures Bounce(Bounce(p, width, height), width, height) ==
            Bounce(p, width, height)
  {
  }

  // ---------- Built-in behaviours ----------

  /** The `rocket` behaviour: `vy` loses `thrust * dpr * dt`, with thrust 0 when unset; nothing else changes. */
  function Rocket(p: Particle, thrust: Option<real>, dpr: real, dt: real): (r: Particle)
    ensures r == p.(vy := r.vy)
    ensures r.vy == p.vy - OrElse(thrust, 0.0) * dpr * dt
  {
    p.(vy := p.vy - OrElse(thrust, 0.0) * dpr * dt)
  }

  /**
   * The `slide` behaviour: `vy` relaxes toward 0 by the factor
   * `min(1, dt * stiffness)` (stiffness 4 when unset). For non-negative
   * `dt` and stiffness `|vy|` never grows and keeps its sign; nothing else
   * changes.
   */
  function Slide(p: Particle, stiffness: Option<real>, dt: real): (r: Particle)
    ensures r == p.(vy := r.vy)
    ensures r.vy == p.vy * (1.0 - Min(1.0, dt * OrElse(stiffness, 4.0)))
    ensures dt >= 0.0 && OrElse(stiffness, 4.0) >= 0.0 ==>
              Abs(r.vy) <= Abs(p.vy) && (r.vy == 0.0 || (r.vy > 0.0 <==> p.vy > 0.0))
  {
    var k := Min(1.0, dt * OrElse(stiffness, 4.0));
    var vy := p.vy + (0.0 - p.vy) * k;
    assert vy == p.vy * (1.0 - k);
    ScaleShrinks(p.vy, 1.0 - k);
    p.(vy := vy)
  }

  /**
   * The `swirl` behaviour: a push of `strength * dpr * dt` (strength 60 when
   * unset) at right angles to the line to the canvas centre, where
   * `dist = hypot(dx, dy)` and the divisor is `dist + 0.0001`. The velocity
   * change is perpendicular to the offset `(dx, dy)` from the particle to
   * the centre.
   */
  function Swirl(p: Particle, width: real, height: real, dist: real,
                 strength: Option<real>, dpr: real, dt: real): (r: Particle)
    requires dist >= 0.0
    ensures VelocityOnly(p, r)
    ensures (r.vx - p.vx) * (width / 2.0 - p.x) + (r.vy - p.vy) * (height / 2.0 - p.y) == 0.0
  {
    var dx, dy := width / 2.0 - p.x, height / 2.0 - p.y;
    var d := dist + 0.0001;
    var s := OrElse(strength, 60.0) * dpr;
    var c := s * dt / d;
    assert (-dy / d) * s * dt == -dy * c && (dx / d) * s * dt == dx * c;
    assert (-dy * c) * dx + (dx * c) * dy == 0.0;
    p.(vx := p.vx + (-dy / d) * s * dt, vy := p.vy + (dx / d) * s * dt)
  }

  // ---------- Click velocity rules ----------

  /**
   * Click `repulse`: with `d = hypot || 1`, a push of `min(600, 6000 / d)`
   * straight away from the pointer; each velocity component changes by at
   * most 600.
   */
  function ClickRepulse(p: Particle, dx: real, dy: real, dist: real): (r: Particle)
    requires Bounds(dx, dy, dist)
    ensures VelocityOnly(p, r)
    ensures Away(p, r, dx, dy)
    ensures Abs(r.vx - p.vx) <= 600.0 && Abs(r.vy - p.vy) <= 600.0
  {
    var d := NonZero(dx, dy, dist);
    DivMono(0.0, 6000.0, d);
    Burst(p, dx, dy, d, Min(600.0, 6000.0 / d))
  }

  /** An impulse of size `force` along the direction `(dx, dy) / d`. */
  function Burst(p: Particle, dx: real, dy: real, d: real, force: real): (r: Particle)
    requires d > 0.0 && Bounds(dx, dy, d)
    ensures VelocityOnly(p, r)
    ensures force >= 0.0 ==> Away(p, r, dx, dy) && Abs(r.vx - p.vx) <= force && Abs(r.vy - p.vy) <= force
  {
    var kx, ky := Share(dx, d, force), Share(dy, d, force);
    if force >= 0.0 then
      NudgeAway(p, kx, ky, dx, dy);
      Nudge(p, kx, ky)
    else Nudge(p, kx, ky)
  }

  /** `dist || 1`: a positive divisor that still bounds both offsets. */
  function NonZero(dx: real, dy: real, dist: real): (d: real)
    requires Bounds(dx, dy, dist)
    ensures d > 0.0 && Bounds(dx, dy, d)
    ensures dist != 0.0 ==> d == dist
  {
    if dist == 0.0 then 1.0 else dist
  }

  /** `(a / d) * force`: the share of `force` along an offset `a` no longer than `d`. */
  function Share(a: real, d: real, force: real): (k: real)
    requires d > 0.0 && Abs(a) <= d
    ensures force >= 0.0 ==> k * a >= 0.0 && Abs(k) <= force
  {
    var u := a / d;
    if force >= 0.0 then
      UnitShare(a, d);
      AwayScale(u, a, force);
      assert (u >= 0.0 ==> u * force <= 1.0 * force) && (u < 0.0 ==> -u * force <= 1.0 * force);
      u * force
    else u * force
  }

  /**
   * Click `explode` (ES module only): with `d = hypot || 1`, an impulse of
   * `power / d` (power 300 when unset) away from the pointer.
   */
  function Explode(p: Particle, dx: real, dy: real, dist: real, power: Option<real>): (r: Particle)
    requires Bounds(dx, dy, dist)
    ensures VelocityOnly(p, r)
    ensures OrElse(power, 300.0) >= 0.0 ==> Away(p, r, dx, dy)
  {
    var d := NonZero(dx, dy, dist);
    var impulse := OrElse(power, 300.0) / d;
    if OrElse(power, 300.0) >= 0.0 then
      DivMono(0.0, OrElse(power, 300.0), d);
      Burst(p, dx, dy, d, impulse)
    else Burst(p, dx, dy, d, impulse)
  }

  /** Click `rocketBoost` (ES module only): `vy` loses `power * dpr * 0.02` (power 180 when unset). */
  function RocketBoost(p: Particle, power: Option<real>, dpr: real): (r: Particle)
    ensures r == p.(vy := r.vy)
    ensures p.vy - r.vy == OrElse(power, 180.0) * dpr * 0.02
  {
    p.(vy := p.vy - OrElse(power, 180.0) * dpr * 0.02)
  }
}
