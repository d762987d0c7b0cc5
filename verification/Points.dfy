/** Raw points, the coordinate frame of a build, and the octree descent
    `point_to_key` that assigns a point to a voxel at every depth. */
module Points {
  import opened Arith
  import opened Bytes
  import opened Voxel

  /** A stored point: scaled integer coordinates plus attributes. `gpsTime` is the bit
      pattern of the double. */
  datatype RawPoint = RawPoint(
    x: I32, y: I32, z: I32,
    intensity: U16, returnNumber: U8, numberOfReturns: U8, classification: U8,
    scanAngle: I16, userData: U8, pointSourceId: U16, gpsTime: U64,
    red: U16, green: U16, blue: U16, nir: U16, extras: seq<U8>)

  type Scale = r: real | r > 0.0 witness 1.0

  /** Root cube and the scale and offset that turn stored integers into coordinates. */
  datatype Frame = Frame(
    cx: real, cy: real, cz: real, half: real,
    scaleX: Scale, scaleY: Scale, scaleZ: Scale,
    offsetX: real, offsetY: real, offsetZ: real)

  function WorldX(f: Frame, p: RawPoint): real { p.x as real * f.scaleX + f.offsetX }
  function WorldY(f: Frame, p: RawPoint): real { p.y as real * f.scaleY + f.offsetY }
  function WorldZ(f: Frame, p: RawPoint): real { p.z as real * f.scaleZ + f.offsetZ }

  /** One axis of the descent after some steps: voxel coordinate, voxel centre, half size. */
  datatype Descent = Descent(v: nat, o: real, h: real)

  function Descend(w: real, c: real, half: real, n: nat): Descent {
    if n == 0 then Descent(0, c, half)
    else
      var d := Descend(w, c, half, n - 1);
      if w >= d.o then Descent(2 * d.v + 1, d.o + d.h / 2.0, d.h / 2.0)
      else Descent(2 * d.v, d.o - d.h / 2.0, d.h / 2.0)
  }

  /** The voxel of a point at a tree depth. */
  function KeyAt(f: Frame, p: RawPoint, depth: nat): VoxelKey {
    VoxelKey(depth,
             Descend(WorldX(f, p), f.cx, f.half, depth).v,
             Descend(WorldY(f, p), f.cy, f.half, depth).v,
             Descend(WorldZ(f, p), f.cz, f.half, depth).v)
  }

  /** Deepest level whose coordinates fit their signed 32-bit words. */
  const MAX_LEVEL: nat := 31

  lemma {:induction false} AxisInRange(w: real, c: real, half: real, n: nat)
    ensures Descend(w, c, half, n).v < Pow2(n)
  {
    if n > 0 {
      AxisInRange(w, c, half, n - 1);
    }
  }

  lemma Pow2Of31()
    ensures Pow2(31) == 0x8000_0000
  {
    assert Pow2(8) == 256;
    Pow2Add(8, 8);
    Pow2Add(16, 8);
    Pow2Add(24, 7);
  }

  /** One step of the loop on one axis; the doubled coordinate still fits. */
  lemma AxisStep(w: real, c: real, half: real, n: nat, v: nat, o: real, h: real)
    requires n < MAX_LEVEL && Descend(w, c, half, n) == Descent(v, o, h)
    ensures Descend(w, c, half, n + 1) == if w >= o then Descent(v * 2 + 1, o + h / 2.0, h / 2.0) else Descent(v * 2, o - h / 2.0, h / 2.0)
    ensures v * 2 + 1 < 0x8000_0000
  {
    AxisInRange(w, c, half, n);
    Pow2Monotone(n + 1, 31);
    Pow2Of31();
    assert Pow2(n + 1) == 2 * Pow2(n);
  }

  /** The loop of `point_to_key`, whose coordinates are 32-bit words: down to level 31 no step
      overflows. */
  method PointToKey(x: real, y: real, z: real, cx: real, cy: real, cz: real, halfsize: real, depth: nat)
    returns (k: VoxelKey)
    requires depth <= MAX_LEVEL
    ensures k == VoxelKey(depth, Descend(x, cx, halfsize, depth).v,
                          Descend(y, cy, halfsize, depth).v, Descend(z, cz, halfsize, depth).v)
  {
    var vx: I32, vy: I32, vz: I32 := 0, 0, 0;
    var half, ox, oy, oz := halfsize, cx, cy, cz;
    for i := 0 to depth
      invariant vx >= 0 && Descend(x, cx, halfsize, i) == Descent(vx, ox, half)
      invariant vy >= 0 && Descend(y, cy, halfsize, i) == Descent(vy, oy, half)
      invariant vz >= 0 && Descend(z, cz, halfsize, i) == Descent(vz, oz, half)
    {
      AxisStep(x, cx, halfsize, i, vx, ox, half);
      AxisStep(y, cy, halfsize, i, vy, oy, half);
      AxisStep(z, cz, halfsize, i, vz, oz, half);
      half := half / 2.0;
      if x >= ox { vx, ox := vx * 2 + 1, ox + half; } else { vx, ox := vx * 2, ox - half; }
      if y >= oy { vy, oy := vy * 2 + 1, oy + half; } else { vy, oy := vy * 2, oy - half; }
      if z >= oz { vz, oz := vz * 2 + 1, oz + half; } else { vz, oz := vz * 2, oz - half; }
    }
    k := VoxelKey(depth, vx, vy, vz);
  }

  /** `n` points at the same place. */
  function Copies(p: RawPoint, n: nat): (s: seq<RawPoint>)
    ensures |s| == n && forall i :: 0 <= i < n ==> s[i] == p
  {
    seq(n, _ => p)
  }

  /** The classification every stage performs: world coordinates, then the descent. */
  method Classify(f: Frame, p: RawPoint, depth: nat) returns (k: VoxelKey)
    requires depth <= MAX_LEVEL
    ensures k == KeyAt(f, p, depth)
  {
    k := PointToKey(WorldX(f, p), WorldY(f, p), WorldZ(f, p), f.cx, f.cy, f.cz, f.half, depth);
  }

  /** Descending deeper refines: the shallow key is an ancestor of the deep one. */
  lemma {:induction false} DescentRefines(f: Frame, p: RawPoint, shallow: nat, deep: nat)
    requires shallow <= deep
    ensures AncestorAt(KeyAt(f, p, deep), shallow) == KeyAt(f, p, shallow)
    decreases deep
  {
    if shallow < deep {
      ParentOfDescent(f, p, deep);
      DescentRefines(f, p, shallow, deep - 1);
    }
  }

  lemma ParentOfDescent(f: Frame, p: RawPoint, deep: nat)
    requires deep > 0
    ensures Parent(KeyAt(f, p, deep)) == Some(KeyAt(f, p, deep - 1))
  {
  }

  /** The right shift used by `choose_split_level` also reaches the shallow key. */
  lemma DescentRefinesByShift(f: Frame, p: RawPoint, shallow: nat, deep: nat)
    requires shallow <= deep
    ensures Shifted(KeyAt(f, p, deep), shallow) == KeyAt(f, p, shallow)
  {
    DescentRefines(f, p, shallow, deep);
    AncestorByShift(KeyAt(f, p, deep), shallow);
  }

  /** Voxel coordinates lie in [0, 2^depth), so defensive clamps never fire and a depth
      up to 31 fits the signed 32-bit coordinates. */
  lemma KeyInRange(f: Frame, p: RawPoint, depth: nat)
    ensures InRange(KeyAt(f, p, depth)) && Under(KeyAt(f, p, depth), ROOT)
    ensures depth <= MAX_LEVEL ==> KeyAt(f, p, depth).x < 0x8000_0000 &&
                                   KeyAt(f, p, depth).y < 0x8000_0000 && KeyAt(f, p, depth).z < 0x8000_0000
  {
    AxisInRange(WorldX(f, p), f.cx, f.half, depth);
    AxisInRange(WorldY(f, p), f.cy, f.half, depth);
    AxisInRange(WorldZ(f, p), f.cz, f.half, depth);
    InRangeUnderRoot(KeyAt(f, p, depth));
    if depth <= MAX_LEVEL {
      Pow2Monotone(depth, 31);
      Pow2Of31();
    }
  }

  lemma {:induction false} FarthestAxis(w: real, c: real, half: real, n: nat)
    requires half >= 0.0 && w >= c + half
    ensures var d := Descend(w, c, half, n); d.v == Pow2(n) - 1 && d.o + d.h == c + half && d.h >= 0.0
  {
    if n > 0 {
      FarthestAxis(w, c, half, n - 1);
    }
  }

  /** One level deeper is too deep: a point on the far face of the root cube has a coordinate that
      no signed 32-bit word holds. */
  lemma DeeperOverflows(f: Frame, p: RawPoint, depth: nat)
    requires depth > MAX_LEVEL && f.half >= 0.0 && WorldX(f, p) >= f.cx + f.half
    ensures KeyAt(f, p, depth).x == Pow2(depth) - 1 >= 0x8000_0000
  {
    FarthestAxis(WorldX(f, p), f.cx, f.half, depth);
    Pow2Monotone(32, depth);
    Pow2Of31();
  }

  /** Edge of a voxel: the root edge `2*half`, halved once per level. */
  function VoxelSize(half: real, depth: nat): real {
    if depth == 0 then 2.0 * half else VoxelSize(half, depth - 1) / 2.0
  }

  lemma {:induction false} VoxelSizeIsFraction(half: real, depth: nat)
    ensures VoxelSize(half, depth) * Pow2(depth) as real == 2.0 * half
  {
    if depth > 0 {
      VoxelSizeIsFraction(half, depth - 1);
      HalfTimesDouble(VoxelSize(half, depth - 1), Pow2(depth - 1) as real);
    }
  }

  lemma HalfTimesDouble(a: real, b: real)
    ensures (a / 2.0) * (2.0 * b) == a * b
  {
    var h := a / 2.0;
    assert h * (2.0 * b) == (2.0 * h) * b;
  }

  /** Lower face of voxel `v` on one axis of the root cube, at voxel edge `size`. */
  function VoxelLow(c: real, half: real, v: nat, size: real): real {
    c - half + v as real * size
  }

  lemma VoxelLowHalved(c: real, half: real, v: nat, size: real)
    ensures VoxelLow(c, half, 2 * v, size / 2.0) == VoxelLow(c, half, v, size)
    ensures VoxelLow(c, half, v + 1, size) == VoxelLow(c, half, v, size) + size
  {
    HalfTimesDouble(size, v as real);
    assert (v + 1) as real * size == v as real * size + size;
  }

  lemma {:induction false} DescentCentre(w: real, c: real, half: real, n: nat)
    ensures var d, s := Descend(w, c, half, n), VoxelSize(half, n);
            2.0 * d.h == s && d.o == VoxelLow(c, half, d.v, s) + d.h
  {
    if n > 0 {
      DescentCentre(w, c, half, n - 1);
      var d, s := Descend(w, c, half, n - 1), VoxelSize(half, n - 1);
      VoxelLowHalved(c, half, d.v, s);
      VoxelLowHalved(c, half, 2 * d.v, s / 2.0);
    }
  }

  lemma {:induction false} DescentBrackets(w: real, c: real, half: real, n: nat)
    requires c - half <= w < c + half
    ensures var d := Descend(w, c, half, n); d.o - d.h <= w < d.o + d.h
  {
    if n > 0 {
      DescentBrackets(w, c, half, n - 1);
    }
  }

  /** In exact arithmetic a coordinate inside the root cube lies in its voxel's half-open
      interval, as the COPC node bounds reconstruct it. */
  lemma VoxelContainsPoint(w: real, c: real, half: real, n: nat)
    requires c - half <= w < c + half
    ensures var v, s := Descend(w, c, half, n).v, VoxelSize(half, n);
            VoxelLow(c, half, v, s) <= w < VoxelLow(c, half, v + 1, s)
  {
    DescentCentre(w, c, half, n);
    DescentBrackets(w, c, half, n);
    VoxelLowHalved(c, half, Descend(w, c, half, n).v, VoxelSize(half, n));
  }

  /** The point's world coordinates lie in the root cube. */
  predicate InCube(f: Frame, p: RawPoint) {
    f.cx - f.half <= WorldX(f, p) < f.cx + f.half &&
    f.cy - f.half <= WorldY(f, p) < f.cy + f.half &&
    f.cz - f.half <= WorldZ(f, p) < f.cz + f.half
  }

  predicate Brackets(w: real, c: real, half: real, v: nat, size: real) {
    VoxelLow(c, half, v, size) <= w < VoxelLow(c, half, v + 1, size)
  }

  /** The point lies in the voxel's half-open box, as the COPC node bounds reconstruct it. */
  predicate InVoxelBox(f: Frame, p: RawPoint, k: VoxelKey) {
    var size := VoxelSize(f.half, k.level);
    Brackets(WorldX(f, p), f.cx, f.half, k.x, size) &&
    Brackets(WorldY(f, p), f.cy, f.half, k.y, size) &&
    Brackets(WorldZ(f, p), f.cz, f.half, k.z, size)
  }

  lemma KeyBounds(f: Frame, p: RawPoint, k: VoxelKey)
    requires InCube(f, p) && KeyAt(f, p, k.level) == k
    ensures InVoxelBox(f, p, k)
  {
    VoxelContainsPoint(WorldX(f, p), f.cx, f.half, k.level);
    VoxelContainsPoint(WorldY(f, p), f.cy, f.half, k.level);
    VoxelContainsPoint(WorldZ(f, p), f.cz, f.half, k.level);
  }
}
