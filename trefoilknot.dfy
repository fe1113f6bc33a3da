/** The animation controller of the trefoil-knot effect: `init`, `reset` and
    the per-frame `anim`, with the integer arithmetic they rely on. */
module TrefoilKnot {
  import opened Cache

  /** Curve samples per revolution (`resolution`). */
  const Resolution: nat := 420

  /** `Math.round(a / b)` for a non-negative numerator and a positive
      denominator. */
  function RoundDiv(a: nat, b: nat): nat
    requires b > 0
  {
    (2 * a + b) / (2 * b)
  }

  /** `RoundDiv(a, b)` is the integer nearest to `a / b`, a tie going up:
      `r - 1/2 <= a / b < r + 1/2`. */
  lemma RoundDivNearest(a: nat, b: nat)
    requires b > 0
    ensures var r := RoundDiv(a, b); b * (2 * r - 1) <= 2 * a < b * (2 * r + 1)
  {
  }

  function Min(a: nat, b: nat): nat
  {
    if a <= b then a else b
  }

  /** `Math.floor(resolution / num)`: the spacing of the strands along the curve. */
  function Offset(n: nat): nat
    requires n >= 1
  {
    Resolution / n
  }

  /** `Offset(n)` is the largest spacing at which `n` strands fit in one revolution. */
  lemma OffsetIsFloor(n: nat)
    requires n >= 1
    ensures n * Offset(n) <= Resolution < n * (Offset(n) + 1)
  {
  }

  /** The cache index strand `i` reads at step `base`. */
  function Index(base: nat, offset: nat, i: nat): nat
  {
    base + i * offset
  }

  /** Strand `i < n` reads slot `k` at step `base`. */
  ghost predicate ReadAt(base: nat, offset: nat, n: nat, k: nat)
  {
    exists i :: 0 <= i < n && Index(base, offset, i) == k
  }

  /** The cache array `m` after the strands `0 .. n-1`, in that order, have
      had their slots at step `base` rewritten with `f`. */
  function Rewritten(m: map<nat, real>, base: nat, offset: nat, n: nat, f: nat -> real): map<nat, real>
    decreases n
  {
    if n == 0 then m
    else Rewritten(m, base, offset, n - 1, f)[Index(base, offset, n - 1) := f(Index(base, offset, n - 1))]
  }

  /** Rewriting touches exactly the slots the strands read: those hold `f`
      afterwards, every other slot keeps its value, and no slot is lost. */
  lemma {:induction false} RewrittenSlots(m: map<nat, real>, base: nat, offset: nat, n: nat, f: nat -> real, k: nat)
    ensures k in Rewritten(m, base, offset, n, f) <==> k in m || ReadAt(base, offset, n, k)
    ensures k in Rewritten(m, base, offset, n, f) ==>
              Rewritten(m, base, offset, n, f)[k] == if ReadAt(base, offset, n, k) then f(k) else m[k]
    decreases n
  {
    if n > 0 {
      RewrittenSlots(m, base, offset, n - 1, f, k);
      if ReadAt(base, offset, n, k) && Index(base, offset, n - 1) != k {
        var i :| 0 <= i < n && Index(base, offset, i) == k;
        assert ReadAt(base, offset, n - 1, k);
      }
    }
  }

  /** The slots a frame reads are present afterwards, and no slot is lost. */
  lemma {:induction false} RewrittenGrows(m: map<nat, real>, base: nat, offset: nat, n: nat, f: nat -> real)
    ensures m.Keys <= Rewritten(m, base, offset, n, f).Keys
    ensures forall i :: 0 <= i < n ==> Index(base, offset, i) in Rewritten(m, base, offset, n, f)
    decreases n
  {
    if n > 0 {
      RewrittenGrows(m, base, offset, n - 1, f);
    }
  }

  /** Every slot below `b` has been written, and holds `f` of its index. */
  ghost predicate FilledWith(m: map<nat, real>, f: nat -> real, b: nat)
  {
    forall k :: 0 <= k < b ==> k in m && m[k] == f(k)
  }

  /** Rewriting with `f` keeps every prefix filled with `f` filled, and a
      pass starting at slot `b` over at least one strand extends the prefix
      below `b` by one. */
  lemma RewrittenFills(m: map<nat, real>, base: nat, offset: nat, n: nat, f: nat -> real, b: nat)
    requires FilledWith(m, f, b)
    ensures FilledWith(Rewritten(m, base, offset, n, f), f, b)
    ensures 0 < n && base == b ==> FilledWith(Rewritten(m, base, offset, n, f), f, b + 1)
  {
    var r := Rewritten(m, base, offset, n, f);
    forall k | 0 <= k < b
      ensures k in r && r[k] == f(k)
    {
      RewrittenSlots(m, base, offset, n, f, k);
    }
    if 0 < n && base == b {
      assert Index(base, offset, 0) == b;
      RewrittenSlots(m, base, offset, n, f, b);
    }
  }

  /** Rewriting slots that already hold `f` changes nothing. */
  lemma {:induction false} RewrittenStable(m: map<nat, real>, base: nat, offset: nat, n: nat, f: nat -> real)
    requires forall i :: 0 <= i < n ==> Index(base, offset, i) in m && m[Index(base, offset, i)] == f(Index(base, offset, i))
    ensures Rewritten(m, base, offset, n, f) == m
    decreases n
  {
    if n > 0 {
      RewrittenStable(m, base, offset, n - 1, f);
    }
  }

  /** Once a whole revolution of slots holds the curve, seeding the strands
      again alters no cached value. */
  lemma SeedStable(m: map<nat, real>, n: nat, f: nat -> real)
    requires n >= 1 && FilledWith(m, f, Resolution)
    ensures Rewritten(m, 0, Offset(n), n, f) == m
  {
    forall i | 0 <= i < n
      ensures Index(0, Offset(n), i) in m && m[Index(0, Offset(n), i)] == f(Index(0, Offset(n), i))
    {
      SeedIndexInRange(n, i);
    }
    RewrittenStable(m, 0, Offset(n), n, f);
  }

  /** Rewriting the same slots again with the same values changes nothing. */
  lemma RewrittenTwice(m: map<nat, real>, base: nat, offset: nat, n: nat, f: nat -> real)
    ensures Rewritten(Rewritten(m, base, offset, n, f), base, offset, n, f) == Rewritten(m, base, offset, n, f)
  {
    var r := Rewritten(m, base, offset, n, f);
    var rr := Rewritten(r, base, offset, n, f);
    forall k | k in rr
      ensures k in r && rr[k] == r[k]
    {
      RewrittenSlots(r, base, offset, n, f, k);
      RewrittenSlots(m, base, offset, n, f, k);
    }
    forall k | k in r
      ensures k in rr
    {
      RewrittenSlots(r, base, offset, n, f, k);
    }
  }

  /** The x coordinates of the strands `0 .. n-1` at step `base`. */
  function StrandXs(curve: (nat, nat) -> Point, radius: nat, base: nat, offset: nat, n: nat): seq<Value>
  {
    seq(n, i requires 0 <= i < n => Num(curve(radius, Index(base, offset, i)).x))
  }

  /** The y coordinates of the strands `0 .. n-1` at step `base`. */
  function StrandYs(curve: (nat, nat) -> Point, radius: nat, base: nat, offset: nat, n: nat): seq<Value>
  {
    seq(n, i requires 0 <= i < n => Num(curve(radius, Index(base, offset, i)).y))
  }

  /** The value of `step` after `anim` entered at step `s` returns: one more,
      or, when that completes the revolution, the step left by the restart
      (`reset` zeroes it and its own frame advances it). */
  function NextStep(s: nat): (r: nat)
    requires s < Resolution
    ensures 0 < r < Resolution
    ensures s + 1 < Resolution ==> r == s + 1
    ensures s + 1 == Resolution ==> r == 1
  {
    if s + 1 < Resolution then s + 1 else NextStep(0)
  }

  /** `step` after `k` timer-driven frames starting from step `s`. */
  function StepAfter(s: nat, k: nat): (r: nat)
    requires s < Resolution
    ensures r < Resolution
    decreases k
  {
    if k == 0 then s else StepAfter(NextStep(s), k - 1)
  }

  /** Between restarts the frames count steps up one at a time. */
  lemma {:induction false} CountsUp(s: nat, k: nat)
    requires s + k < Resolution
    ensures StepAfter(s, k) == s + k
    decreases k
  {
    if k > 0 {
      CountsUp(s + 1, k - 1);
    }
  }

  /** From any step a timer has scheduled, `Resolution - 1` timer frames
      (one revolution, whose frame at step 0 runs inside `reset`) bring the
      counter back to where it was, and no smaller positive number does. */
  lemma {:induction false} CycleLength(s: nat, k: nat)
    requires 0 < s < Resolution
    ensures StepAfter(s, Resolution - 1) == s
    ensures 0 < k < Resolution - 1 ==> StepAfter(s, k) != s
  {
    StepAfterSplit(s, Resolution - 1 - s, s);
    CountsUp(s, Resolution - 1 - s);
    CountsUp(1, s - 1);
    if 0 < k < Resolution - 1 {
      if s + k < Resolution {
        CountsUp(s, k);
      } else {
        StepAfterSplit(s, Resolution - 1 - s, k - (Resolution - 1 - s));
        CountsUp(1, k - (Resolution - s));
      }
    }
  }

  /** `k + l` frames are `k` frames followed by `l` frames. */
  lemma {:induction false} StepAfterSplit(s: nat, k: nat, l: nat)
    requires s < Resolution
    ensures StepAfter(s, k + l) == StepAfter(StepAfter(s, k), l)
    decreases k
  {
    if k > 0 {
      StepAfterSplit(NextStep(s), k - 1, l);
    }
  }

  /** `reset` seeds every strand from a slot inside one revolution:
      `num * floor(resolution / num) <= resolution`. */
  lemma SeedIndexInRange(n: nat, i: nat)
    requires n >= 1 && i < n
    ensures Index(0, Offset(n), i) < Resolution
  {
    var q := Offset(n);
    OffsetIsFloor(n);
    MulMono(i, n - 1, q);
    assert (n - 1) * q + q == n * q;
    if q == 0 {
      assert i * q == 0;
    }
  }

  /** Every index a frame reads is below two revolutions. */
  lemma FrameIndexBound(n: nat, s: nat, i: nat)
    requires n >= 1 && s < Resolution && i < n
    ensures Index(s, Offset(n), i) <= Resolution - 1 + (n - 1) * Offset(n) < 2 * Resolution
  {
    var q := Offset(n);
    MulMono(i, n - 1, q);
    assert (n - 1) * q == n * q - q;
  }

  /** The largest index a frame reads lies past the 420 slots allocated for
      the cache exactly when the strands are spaced at least one slot apart
      and there is more than one of them. */
  lemma MaxIndexPastCache(n: nat)
    requires n >= 1
    ensures Resolution - 1 + (n - 1) * Offset(n) >= Resolution <==> 2 <= n <= Resolution
  {
    var q := Offset(n);
    if 2 <= n <= Resolution {
      assert q >= 1;
      MulMono(1, n - 1, q);
    } else if n > Resolution {
      assert q == 0;
    }
  }

  lemma MulMono(a: nat, b: nat, c: nat)
    requires a <= b
    ensures a * c <= b * c
  {
  }

  /** The variables of the animation (`num`, `offset`, `step`, `radius`, the
      centre `p_x`/`p_y`, `colorVar` and the strand arrays `x`, `y`, `prev_x`,
      `prev_y`), with the host's canvas reduced to its size and the pending
      `setTimeout` to a flag. */
  class Controller {
    const cache: PointCache
    /** `stepSize * Math.cos(current)` for the frame entered at a given step. */
    const colorDrift: nat -> real
    var canvasW: nat
    var canvasH: nat
    var num: nat
    var offset: nat
    var step: nat
    var radius: nat
    var centerX: nat
    var centerY: nat
    var colorVar: real
    var pending: bool
    var x: array<Value>
    var y: array<Value>
    var prevX: array<Value>
    var prevY: array<Value>

    /** The closure flag that guards recomputation in `getXY` is false. */
    ghost predicate MemoOff()
      reads this, cache
    {
      !cache.ready
    }

    /** The four strand arrays are distinct and `num` long, and memoisation is off. */
    ghost predicate Shaped()
      reads this, cache
    {
      && MemoOff()
      && x.Length == num && y.Length == num && prevX.Length == num && prevY.Length == num
      && x != y && x != prevX && x != prevY && y != prevX && y != prevY && prevX != prevY
    }

    /** What `init` establishes and nothing afterwards changes. */
    ghost predicate Configured()
      reads this, cache
    {
      Shaped() && num >= 1 && offset == Offset(num)
    }

    /** What `reset` derives from the canvas size. */
    ghost predicate Sized()
      reads this
    {
      && radius == RoundDiv(Min(canvasW, canvasH), 7)
      && centerX == RoundDiv(canvasW, 2)
      && centerY == RoundDiv(canvasH, 2)
    }

    /** Every cache slot below `n` holds the curve point at the current radius. */
    ghost predicate Filled(n: nat)
      reads this, cache
    {
      FilledWith(cache.cacheX, XOf(cache.curve, radius), n) && FilledWith(cache.cacheY, YOf(cache.curve, radius), n)
    }

    /** The state between two frames: a frame is scheduled and the step
      counter is inside the revolution. */
    ghost predicate Valid()
      reads this, cache
    {
      Configured() && Sized() && pending && 0 < step < Resolution && Filled(step)
    }

    /** The configuration and the arrays' identities are those of the old state. */
    twostate predicate Kept()
      reads this
    {
      && num == old(num) && offset == old(offset)
      && canvasW == old(canvasW) && canvasH == old(canvasH)
      && x == old(x) && y == old(y) && prevX == old(prevX) && prevY == old(prevY)
    }

    /** The effect of one call of `anim` entered at the old step. The cache
        is what the frame's own reads leave: on a restart, `reset` finds every
        slot of the revolution already holding the curve and alters none. */
    twostate predicate Advanced()
      reads this, x, y, prevX, prevY, cache
      requires old(step) < Resolution
    {
      && step == NextStep(old(step))
      && radius == old(radius) && centerX == old(centerX) && centerY == old(centerY)
      && cache.cacheX == Rewritten(old(cache.cacheX), old(step), offset, num, XOf(cache.curve, radius))
      && cache.cacheY == Rewritten(old(cache.cacheY), old(step), offset, num, YOf(cache.curve, radius))
      && (old(step) + 1 < Resolution ==>
           && colorVar == old(colorVar) + colorDrift(old(step))
           && prevX[..] == old(x[..]) && prevY[..] == old(y[..])
           && x[..] == StrandXs(cache.curve, radius, old(step), offset, num)
           && y[..] == StrandYs(cache.curve, radius, old(step), offset, num)
           && cache.readyProp == old(cache.readyProp))
      && (old(step) + 1 == Resolution ==>
           && colorVar == colorDrift(0)
           && prevX[..] == x[..] && prevY[..] == y[..]
           && x[..] == StrandXs(cache.curve, radius, 0, offset, num)
           && y[..] == StrandYs(cache.curve, radius, 0, offset, num)
           && cache.readyProp
           && Filled(Resolution))
    }

    /** Loading the script: default strand count, step 0, nothing scheduled,
        a fresh cache; the arrays do not exist yet. */
    constructor (curve: (nat, nat) -> Point, colorDrift: nat -> real)
      ensures MemoOff() && !pending && step == 0 && num == 6
      ensures fresh(cache) && cache.curve == curve && this.colorDrift == colorDrift
      ensures cache.cacheX == map[] && cache.cacheY == map[] && !cache.readyProp
    {
      cache := new PointCache(curve);
      this.colorDrift := colorDrift;
      num := 6;
      step := 0;
      pending := false;
      x, y, prevX, prevY := new Value[0], new Value[0], new Value[0], new Value[0];
    }

    /** `init(cvs, n, style)` for a canvas of `w` by `h` pixels. */
    method Init(w: nat, h: nat, n: nat)
      requires n >= 1 && MemoOff()
      modifies this, cache
      ensures Valid() && step == 1
      ensures num == n && offset == Offset(n) && canvasW == w && canvasH == h
      ensures fresh(x) && fresh(y) && fresh(prevX) && fresh(prevY)
      ensures radius == RoundDiv(Min(w, h), 7) && centerX == RoundDiv(w, 2) && centerY == RoundDiv(h, 2)
      ensures colorVar == colorDrift(0)
      ensures x[..] == StrandXs(cache.curve, radius, 0, offset, num) && prevX[..] == x[..]
      ensures y[..] == StrandYs(cache.curve, radius, 0, offset, num) && prevY[..] == y[..]
      ensures cache.cacheX == Rewritten(old(cache.cacheX), 0, offset, num, XOf(cache.curve, radius))
      ensures cache.cacheY == Rewritten(old(cache.cacheY), 0, offset, num, YOf(cache.curve, radius))
      ensures cache.readyProp == old(cache.readyProp)
    {
      Configure(w, h, n);
      Reset();
    }

    /** The part of `init` before its call of `reset`: the strand count, the
        canvas size, four new arrays of `n` holes each, and the spacing. */
    method Configure(w: nat, h: nat, n: nat)
      requires n >= 1 && MemoOff()
      modifies this`num, this`canvasW, this`canvasH, this`x, this`y, this`prevX, this`prevY, this`offset
      ensures Configured() && num == n && offset == Offset(n) && canvasW == w && canvasH == h
      ensures fresh(x) && fresh(y) && fresh(prevX) && fresh(prevY)
    {
      num := n;
      canvasW, canvasH := w, h;
      x := new Value[n](_ => Undefined);
      y := new Value[n](_ => Undefined);
      prevX := new Value[n](_ => Undefined);
      prevY := new Value[n](_ => Undefined);
      offset := Offset(n);
    }

    /** `reset()`: cancels the pending frame, restarts the counters, derives
        the radius and the centre, seeds the strands, and runs the first
        frame. */
    method Reset()
      requires Configured()
      modifies this, x, y, prevX, prevY, cache
      decreases 2
      ensures Valid() && Kept() && step == 1
      ensures colorVar == colorDrift(0)
      ensures x[..] == StrandXs(cache.curve, radius, 0, offset, num) && prevX[..] == x[..]
      ensures y[..] == StrandYs(cache.curve, radius, 0, offset, num) && prevY[..] == y[..]
      ensures cache.cacheX == Rewritten(old(cache.cacheX), 0, offset, num, XOf(cache.curve, radius))
      ensures cache.cacheY == Rewritten(old(cache.cacheY), 0, offset, num, YOf(cache.curve, radius))
      ensures cache.readyProp == old(cache.readyProp)
    {
      Restart();
      Seed();
      Anim();
      RewrittenTwice(old(cache.cacheX), 0, offset, num, XOf(cache.curve, radius));
      RewrittenTwice(old(cache.cacheY), 0, offset, num, YOf(cache.curve, radius));
    }

    /** The part of `reset` before its loop: the pending frame is cancelled,
        the counters restart, and the radius and the centre are derived from
        the canvas. */
    method Restart()
      requires Configured()
      modifies this`pending, this`step, this`colorVar, this`radius, this`centerX, this`centerY
      ensures Sized() && !pending && step == 0 && colorVar == 0.0
    {
      pending := false;
      step := 0;
      colorVar := 0.0;
      var recSize := Min(canvasW, canvasH);
      radius := RoundDiv(recSize, 7);
      centerX := RoundDiv(canvasW, 2);
      centerY := RoundDiv(canvasH, 2);
    }

    /** The loop of `reset`: strand `i` starts at slot `i * offset`, read
        through `getXY`, which rewrites exactly the slots read. */
    method Seed()
      requires Shaped()
      modifies x, y, cache`cacheX, cache`cacheY
      ensures x[..] == StrandXs(cache.curve, radius, 0, offset, num)
      ensures y[..] == StrandYs(cache.curve, radius, 0, offset, num)
      ensures cache.cacheX == Rewritten(old(cache.cacheX), 0, offset, num, XOf(cache.curve, radius))
      ensures cache.cacheY == Rewritten(old(cache.cacheY), 0, offset, num, YOf(cache.curve, radius))
    {
      for i := 0 to num
        invariant Shaped()
        invariant cache.cacheX == Rewritten(old(cache.cacheX), 0, offset, i, XOf(cache.curve, radius))
        invariant cache.cacheY == Rewritten(old(cache.cacheY), 0, offset, i, YOf(cache.curve, radius))
        invariant forall j :: 0 <= j < i ==> x[j] == Num(cache.curve(radius, Index(0, offset, j)).x)
        invariant forall j :: 0 <= j < i ==> y[j] == Num(cache.curve(radius, Index(0, offset, j)).y)
      {
        SeedStrand(i);
      }
      assert x[..] == StrandXs(cache.curve, radius, 0, offset, num);
      assert y[..] == StrandYs(cache.curve, radius, 0, offset, num);
    }

    /** One pass of the loop of `reset`, for strand `i`. */
    method SeedStrand(i: nat)
      requires Shaped() && i < num
      modifies x, y, cache`cacheX, cache`cacheY
      ensures x[i] == Num(cache.curve(radius, Index(0, offset, i)).x)
      ensures y[i] == Num(cache.curve(radius, Index(0, offset, i)).y)
      ensures forall j :: 0 <= j < num && j != i ==> x[j] == old(x[j]) && y[j] == old(y[j])
      ensures cache.cacheX == old(cache.cacheX)[Index(0, offset, i) := cache.curve(radius, Index(0, offset, i)).x]
      ensures cache.cacheY == old(cache.cacheY)[Index(0, offset, i) := cache.curve(radius, Index(0, offset, i)).y]
    {
      var k := i * offset;
      assert k == Index(0, offset, i);
      var px, py := cache.GetXY(k, radius);
      x[i] := px;
      px, py := cache.GetXY(k, radius);
      y[i] := py;
    }

    /** `anim()` without its drawing: one frame is computed, then either the
        next frame is scheduled or, after the last step of the revolution,
        the cache is marked ready and `reset` restarts the cycle. */
    method Anim()
      requires Configured() && Sized() && step < Resolution && Filled(step)
      modifies this, x, y, prevX, prevY, cache
      decreases if step == 0 then 1 else 3
      ensures Valid() && Kept() && Advanced()
    {
      Frame();
      if step < Resolution {
        pending := true;
      } else {
        cache.MarkReady();
        ghost var r, cx, cy := radius, cache.cacheX, cache.cacheY;
        Reset();
        assert radius == r;
        SeedStable(cx, num, XOf(cache.curve, radius));
        SeedStable(cy, num, YOf(cache.curve, radius));
      }
    }

    /** The part of `anim` that computes a frame: each strand's current point
        becomes its previous point and its new point is read from slot
        `step + i * offset`, which `getXY` rewrites; then the step and the
        colour variable advance. */
    method Frame()
      requires Shaped() && Filled(step)
      modifies this`step, this`colorVar, x, y, prevX, prevY, cache`cacheX, cache`cacheY
      ensures step == old(step) + 1 && colorVar == old(colorVar) + colorDrift(old(step))
      ensures prevX[..] == old(x[..]) && prevY[..] == old(y[..])
      ensures x[..] == StrandXs(cache.curve, radius, old(step), offset, num)
      ensures y[..] == StrandYs(cache.curve, radius, old(step), offset, num)
      ensures cache.cacheX == Rewritten(old(cache.cacheX), old(step), offset, num, XOf(cache.curve, radius))
      ensures cache.cacheY == Rewritten(old(cache.cacheY), old(step), offset, num, YOf(cache.curve, radius))
      ensures num > 0 ==> Filled(step)
    {
      for i := 0 to num
        invariant Shaped()
        invariant cache.cacheX == Rewritten(old(cache.cacheX), step, offset, i, XOf(cache.curve, radius))
        invariant cache.cacheY == Rewritten(old(cache.cacheY), step, offset, i, YOf(cache.curve, radius))
        invariant forall j :: 0 <= j < i ==> prevX[j] == old(x[j]) && prevY[j] == old(y[j])
        invariant forall j :: 0 <= j < i ==> x[j] == Num(cache.curve(radius, Index(step, offset, j)).x)
        invariant forall j :: 0 <= j < i ==> y[j] == Num(cache.curve(radius, Index(step, offset, j)).y)
        invariant forall j :: i <= j < num ==> x[j] == old(x[j]) && y[j] == old(y[j])
        modifies x, y, prevX, prevY, cache`cacheX, cache`cacheY
      {
        ShiftStrand(i);
      }
      assert x[..] == StrandXs(cache.curve, radius, step, offset, num);
      assert y[..] == StrandYs(cache.curve, radius, step, offset, num);
      assert prevX[..] == old(x[..]);
      assert prevY[..] == old(y[..]);
      RewrittenFills(old(cache.cacheX), step, offset, num, XOf(cache.curve, radius), step);
      RewrittenFills(old(cache.cacheY), step, offset, num, YOf(cache.curve, radius), step);
      var current := step;
      step := step + 1;
      colorVar := colorVar + colorDrift(current);
    }

    /** One pass of the first loop of `anim`, for strand `i`. */
    method ShiftStrand(i: nat)
      requires Shaped() && i < num
      modifies x, y, prevX, prevY, cache`cacheX, cache`cacheY
      ensures prevX[i] == old(x[i]) && prevY[i] == old(y[i])
      ensures x[i] == Num(cache.curve(radius, Index(step, offset, i)).x)
      ensures y[i] == Num(cache.curve(radius, Index(step, offset, i)).y)
      ensures forall j :: 0 <= j < num && j != i ==> x[j] == old(x[j]) && y[j] == old(y[j])
      ensures forall j :: 0 <= j < num && j != i ==> prevX[j] == old(prevX[j]) && prevY[j] == old(prevY[j])
      ensures cache.cacheX == old(cache.cacheX)[Index(step, offset, i) := cache.curve(radius, Index(step, offset, i)).x]
      ensures cache.cacheY == old(cache.cacheY)[Index(step, offset, i) := cache.curve(radius, Index(step, offset, i)).y]
    {
      prevX[i] := x[i];
      prevY[i] := y[i];
      var k := step + i * offset;
      assert k == Index(step, offset, i);
      var px, py := cache.GetXY(k, radius);
      x[i] := px;
      px, py := cache.GetXY(k, radius);
      y[i] := py;
    }

    /** The host's timer firing the scheduled frame. */
    method Tick()
      requires Valid()
      modifies this, x, y, prevX, prevY, cache
      ensures Valid() && Kept() && Advanced()
    {
      pending := false;
      Anim();
    }
  }
}
