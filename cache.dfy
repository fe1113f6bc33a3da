/** The point cache of the trefoil-knot animation: the closure `cache` that
    holds the sampled curve coordinates and the memoisation flag `ready`. */
module Cache {

  /** A value read back from a JavaScript array slot: a hole reads as `undefined`. */
  datatype Value = Undefined | Num(v: real)

  /** One curve sample, the pair `getXY` computes. */
  datatype Point = Point(x: real, y: real)

  /** Reading slot `k` of a sparse JavaScript array of numbers: a slot never
      written is a hole. */
  function Get(m: map<nat, real>, k: nat): Value
  {
    if k in m then Num(m[k]) else Undefined
  }

  /** The x coordinate of the curve at radius `radius`, as a function of the index. */
  function XOf(curve: (nat, nat) -> Point, radius: nat): nat -> real
  {
    (k: nat) => curve(radius, k).x
  }

  /** The y coordinate of the curve at radius `radius`, as a function of the index. */
  function YOf(curve: (nat, nat) -> Point, radius: nat): nat -> real
  {
    (k: nat) => curve(radius, k).y
  }

  /** What the cache object holds. `ready` is the variable captured by
      `getXY`; `readyProp` is the property of the object the closure returns,
      which starts as a copy of `ready` and is what the controller assigns. */
  class PointCache {
    /** The trigonometric formula of `getXY`, as a function of radius and index. */
    const curve: (nat, nat) -> Point
    var cacheX: map<nat, real>
    var cacheY: map<nat, real>
    var ready: bool
    var readyProp: bool

    /** Evaluating the closure: two empty arrays and both flags false. */
    constructor (curve: (nat, nat) -> Point)
      ensures this.curve == curve
      ensures cacheX == map[] && cacheY == map[]
      ensures !ready && !readyProp
    {
      this.curve := curve;
      cacheX := map[];
      cacheY := map[];
      ready := false;
      readyProp := ready;
    }

    /** `getXY(k)`, reading the controller's current `radius`. While `ready`
        is false it overwrites slot `k` of both arrays and nothing else and
        returns the pair it stored; otherwise it returns what slot `k` holds.
        Its frame leaves both flags untouched. */
    method GetXY(k: nat, radius: nat) returns (px: Value, py: Value)
      modifies this`cacheX, this`cacheY
      ensures !ready ==> cacheX == old(cacheX)[k := curve(radius, k).x]
      ensures !ready ==> cacheY == old(cacheY)[k := curve(radius, k).y]
      ensures !ready ==> px == Num(curve(radius, k).x) && py == Num(curve(radius, k).y)
      ensures ready ==> cacheX == old(cacheX) && cacheY == old(cacheY)
      ensures ready ==> px == Get(cacheX, k) && py == Get(cacheY, k)
    {
      if !ready {
        cacheX := cacheX[k := curve(radius, k).x];
        cacheY := cacheY[k := curve(radius, k).y];
      }
      px, py := Get(cacheX, k), Get(cacheY, k);
    }

    /** `cache.ready = true`: assigns the property of the returned object.
        The captured variable that `getXY` tests is outside its frame. */
    method MarkReady()
      modifies this`readyProp
      ensures readyProp && ready == old(ready)
    {
      readyProp := true;
    }
  }
}
