# Trefoil knot animation — controller and point cache

A Dafny model of the animation core of `asset/js/trefoilknot.js`.

The script draws `num` strands that move around a trefoil knot. The model
covers two modules:

- `TrefoilKnot.Controller` is the controller state: `num`, `offset`, `step`,
  `radius`, the centre `p_x`/`p_y` (here `centerX`/`centerY`), `colorVar` and
  the four strand arrays `x`, `y`, `prev_x`, `prev_y`. It has the operations
  `init`, `reset` and `anim`.
- `Cache.PointCache` is the `cache` closure. It holds the sparse arrays
  `cacheX`/`cacheY`, the captured flag `ready` and the method `getXY`.

Modelling choices:

- The core is imperative, so it is modelled with classes, arrays and frames.
- The strand arrays are Dafny arrays of `Value`. A hole reads as `Undefined`.
  `Cache.Get` is the definition of reading a slot of a sparse array: a number
  where the slot was written, `Undefined` elsewhere.
- The cache arrays are maps from index to coordinate. JavaScript arrays grow
  when written past their end, and a frame writes up to index
  `419 + (num - 1) * offset`.
- The trigonometric curve is a function `curve(radius, index)` given to the
  cache's constructor.
- The colour increment `stepSize * Math.cos(current)` is a function
  `colorDrift(step)` given to the controller's constructor.
- `setTimeout` is a `pending` flag, and the timer firing is `Tick`.
- `Math.round(a / b)` on non-negative integers is `(2a + b) / (2b)`.
- `Math.floor(420 / n)` is integer division.

How the steps run:

- `reset` calls `anim` directly, and `anim` calls `reset` when the step reaches
  420. So `Reset` and `Anim` are mutually recursive methods.
- After `reset` returns, its own first frame has already run, so `step` is 1.
- One revolution is therefore 420 frames. The frame at step 0 runs inside
  `reset`, and the other 419 run from the timer.

The memoisation flag:

- `anim` assigns `cache.ready = true`. That sets the property `ready` of the
  object the closure returned (`readyProp` in the model).
- `getXY` tests the variable `ready` captured by the closure.
- `GetXY` and `MarkReady` have frames that exclude the captured variable. The
  controller's methods may modify the cache object as a whole, but each of
  them ensures the controller invariant, and that invariant carries
  `!cache.ready`. So memoisation never switches on, and every `getXY` call
  recomputes and overwrites its slot.
- Line 128's `cache.ready = true` is evidently meant to switch off the
  `if (!ready)` guard of line 148 once a revolution has filled the cache. The
  model follows the code.
- The controller invariant also records what the cache holds: every slot
  below the current step holds the curve point at the current radius. So
  after a revolution every slot below 420 holds the value memoisation would
  reuse, and the restart's seeding rewrites those slots with the values they
  already hold.

## Model

| member | source | states |
|---|---|---|
| Cache.PointCache.constructor | asset/js/trefoilknot.js:141-159 | Evaluating the closure gives two empty cache arrays, a false captured `ready` and a false `ready` property copied from it. |
| Cache.PointCache.GetXY | asset/js/trefoilknot.js:146-153 | While the captured `ready` is false, `getXY(k)` writes the curve point at the current radius into slot `k` of both arrays, changes no other slot and returns the stored pair. When it is true, nothing changes and the stored slot is returned. Neither flag changes. |
| Cache.PointCache.MarkReady | asset/js/trefoilknot.js:128 | `cache.ready = true` sets the object's property and leaves the captured flag that `getXY` tests unchanged. |
| TrefoilKnot.RoundDivNearest | asset/js/trefoilknot.js:54-56 | The integer rounding used for `radius` and the centre is within one half of the exact quotient, and a tie rounds up, as `Math.round` does. |
| TrefoilKnot.OffsetIsFloor | asset/js/trefoilknot.js:44 | `offset` is the floor of `420 / num`: `num * offset <= 420 < num * (offset + 1)`. |
| TrefoilKnot.SeedIndexInRange | asset/js/trefoilknot.js:58-61 | Every seed index `i * offset` with `i < num` lies in `[0, 420)`. |
| TrefoilKnot.FrameIndexBound | asset/js/trefoilknot.js:72-73 | Every index a frame reads, `step + i * offset` with `step < 420` and `i < num`, is at most `419 + (num - 1) * offset`, which is below 840. |
| TrefoilKnot.MaxIndexPastCache | asset/js/trefoilknot.js:142-143 | The largest index a frame reads is past the 420 slots the cache arrays are created with exactly when `2 <= num <= 420`. |
| TrefoilKnot.RewrittenSlots | asset/js/trefoilknot.js:69-74 | After a loop over the strands, a cache slot is present exactly when it was present before or some strand read it. A slot some strand read holds the curve value; every other slot keeps its old value. |
| TrefoilKnot.RewrittenGrows | asset/js/trefoilknot.js:69-74 | A loop over the strands loses no cache slot, and every slot a strand read is present afterwards. |
| TrefoilKnot.RewrittenFills | asset/js/trefoilknot.js:69-74 | A loop over the strands keeps every prefix of the cache whose slots hold the curve point in that state. A frame at step `s` with at least one strand extends such a prefix below `s` to one below `s + 1`. |
| TrefoilKnot.RewrittenStable | asset/js/trefoilknot.js:146-151 | A loop over the strands whose every slot already holds the value `getXY` would write leaves the cache array unchanged. |
| TrefoilKnot.SeedStable | asset/js/trefoilknot.js:58-61 | Once every slot below 420 holds the curve, the seed loop of `reset` leaves the cache arrays exactly as they were. |
| TrefoilKnot.RewrittenTwice | asset/js/trefoilknot.js:58-74 | Reading the same slots again at the same radius (the seed loop, then the frame at step 0) leaves the cache as one pass left it. |
| TrefoilKnot.NextStep | asset/js/trefoilknot.js:118-130 | The step after a frame is one more than before, unless that reaches 420. Then `reset` restarts and its own frame leaves step 1. Either way the scheduled step is in `(0, 420)`. |
| TrefoilKnot.StepAfter | asset/js/trefoilknot.js:125-130 | After any number of timer frames the step stays below 420. |
| TrefoilKnot.CountsUp | asset/js/trefoilknot.js:118 | Between restarts, `k` timer frames advance the step by exactly `k`. |
| TrefoilKnot.CycleLength | asset/js/trefoilknot.js:118-130 | From any scheduled step, 419 timer frames return the step to where it was, and no smaller positive number of frames does. With the frame inside `reset` that makes 420 frames per revolution. |
| TrefoilKnot.Controller.constructor | asset/js/trefoilknot.js:3-26 | Loading the script gives `num = 6`, `step = 0`, nothing scheduled and a fresh cache with both flags false. |
| TrefoilKnot.Controller.Configure | asset/js/trefoilknot.js:29-44 | The assignments of `init` set `num = n` and the canvas size, allocate four fresh arrays of length `n` and set `offset = floor(420 / n)`. Memoisation stays off. |
| TrefoilKnot.Controller.Init | asset/js/trefoilknot.js:28-47 | `init` sets `num = n` and the canvas size. It allocates four fresh arrays of length `num` and sets `offset = floor(420 / num)`, then runs `reset`. It ends with step 1, the strands at step 0 and a frame pending. |
| TrefoilKnot.Controller.Reset | asset/js/trefoilknot.js:49-64 | `reset` cancels the pending frame and zeroes `step` and `colorVar`. It rounds `min(w, h) / 7` into `radius` and the half-size into the centre, seeds strand `i` from index `i * offset`, and runs one frame. It ends at step 1, and the configuration and array identities are unchanged. |
| TrefoilKnot.Controller.Restart | asset/js/trefoilknot.js:50-56 | The first part of `reset` cancels the pending frame, sets `step = 0` and `colorVar = 0`, and rounds `min(w, h) / 7` into `radius` and the half-size into the centre. |
| TrefoilKnot.Controller.Seed | asset/js/trefoilknot.js:58-61 | The seed loop sets `x[i]`/`y[i]` to the curve point at index `i * offset` for every strand. The cache changes exactly on the slots read. |
| TrefoilKnot.Controller.SeedStrand | asset/js/trefoilknot.js:59-60 | One pass of the seed loop writes only slot `i` of `x` and `y` and only cache slot `i * offset`. |
| TrefoilKnot.Controller.Anim | asset/js/trefoilknot.js:66-131 | `anim`, entered at step `s < 420`, shifts the strands and advances `step` and `colorVar`. Below 420 it schedules the next frame. At 420 it sets the `ready` property and restarts through `reset`. At that point every slot below 420 holds the curve point at the current radius, and the restart alters no cached value. Either way the cache is what the frame's own reads leave, the captured flag stays false, and the controller invariant holds. That invariant includes every slot below `step` holding the curve point. |
| TrefoilKnot.Controller.Frame | asset/js/trefoilknot.js:67-119 | A frame sets `prev_x`/`prev_y` to exactly the old `x`/`y`. The new `x[i]`/`y[i]` is the curve point at `step + i * offset`, and the cache changes exactly on the slots read. Then `step` grows by 1 and `colorVar` by the drift of the old step. |
| TrefoilKnot.Controller.ShiftStrand | asset/js/trefoilknot.js:70-73 | One pass of the frame loop moves strand `i`'s point into `prev_x[i]`/`prev_y[i]`, reads cache slot `step + i * offset`, and changes no other array slot or cache slot. |
| TrefoilKnot.Controller.Tick | asset/js/trefoilknot.js:125-126 | The timer firing the scheduled `anim` keeps the controller invariant and has the effect `Anim` states. |

## Left out

- Canvas drawing is not modelled: the stroke styles, line widths, `draw_line` and the fade `fillRect` (lines 76-116, 120-123 and 133-139). They are output side effects. The canvas is reduced to its width and height, taken as non-negative integers.
- The curve formula (lines 147-150) is a parameter, because it is floating-point trigonometry. Its values are Dafny reals.
- The colour values `c1`, `c2`, `c3` are not modelled. In `colorVar += stepSize * Math.cos(current)` the term `stepSize * Math.cos(current)` is a parameter of the step. Both are floating point.
- Style parsing, the `split(',')` and unary `+` (lines 31-33), is not modelled. It is decimal float parsing.
- `setTimeout`/`clearTimeout` and the 12 ms delay are reduced to the `pending` flag. Timing is host scheduling.
- `TrefoilKnot.Controller.Init`: requires `n >= 1`. With `n = 0` the JavaScript offset is `Infinity`, and a fractional or negative `n` is not an array length. The only caller passes 6.
- The lengths of JavaScript arrays are not modelled. The cache arrays are created with length 420 and grow when written past the end. Only their contents are modelled.
- `assets/js/about.js` (the page's resize and load listeners that call `init`) is not part of this model. It contains no logic of its own.
