/** Sub-splitting of an over-target finest cell into `8^e` deeper voxels (`split_extra_levels`
    and `emit_chunk_root` of src/chunking.rs, `sub_octant_index` of src/octree.rs). */
module SubSplit {
  import opened Arith
  import opened Voxel
  import opened Leaves

  const SPLIT_LEVEL_CAP: nat := 6

  datatype Chunk = Chunk(root: VoxelKey, pointCount: nat)

  /** The least split depth from `k` on whose average sub-chunk fits the target, up to the cap. */
  function SplitDepth(pop: nat, target: nat, k: nat): (d: nat)
    requires k <= SPLIT_LEVEL_CAP
    ensures k <= d <= SPLIT_LEVEL_CAP
    decreases SPLIT_LEVEL_CAP - k
  {
    if k == SPLIT_LEVEL_CAP || pop <= target * Pow8(k) then k else SplitDepth(pop, target, k + 1)
  }

  method SplitExtraLevels(pop: nat, target: nat) returns (k: nat)
    ensures k == SplitDepth(pop, target, 0)
  {
    assert Pow8(0) == 1;
    if pop <= target {
      return 0;
    }
    k := 0;
    var over := AverageExceeds(pop, Pow8(k), target);
    while over
      invariant k < SPLIT_LEVEL_CAP && SplitDepth(pop, target, 0) == SplitDepth(pop, target, k)
      invariant over <==> pop > target * Pow8(k)
      decreases SPLIT_LEVEL_CAP - k, over
    {
      k := k + 1;
      if k >= SPLIT_LEVEL_CAP {
        break;
      }
      over := AverageExceeds(pop, Pow8(k), target);
    }
  }

  lemma {:induction false} SplitDepthFits(pop: nat, target: nat, k: nat)
    requires k <= SPLIT_LEVEL_CAP
    ensures var d := SplitDepth(pop, target, k);
            pop <= target * Pow8(d) <==> pop <= target * Pow8(SPLIT_LEVEL_CAP)
    ensures pop <= target * Pow8(k) ==> SplitDepth(pop, target, k) == k
    decreases SPLIT_LEVEL_CAP - k
  {
    if k < SPLIT_LEVEL_CAP && pop > target * Pow8(k) {
      SplitDepthFits(pop, target, k + 1);
    } else if k < SPLIT_LEVEL_CAP {
      FitsDeeper(pop, target, k, SPLIT_LEVEL_CAP);
    }
  }

  lemma {:induction false} FitsDeeper(pop: nat, target: nat, k: nat, k': nat)
    requires k <= k' && pop <= target * Pow8(k)
    ensures pop <= target * Pow8(k')
  {
    if k < k' {
      FitsDeeper(pop, target, k, k' - 1);
      Pow8Step(k' - 1);
      TimesEight(target, Pow8(k' - 1));
    }
  }

  lemma TimesEight(a: nat, b: nat)
    ensures a * (8 * b) >= a * b
  {
    assert a * (8 * b) == 8 * (a * b);
  }

  /** Sub-octant number `j` of a cell, `e` levels down: z-major, then y, then x. */
  function SubRoot(k: VoxelKey, e: nat, j: nat): VoxelKey {
    var s := Pow2(e);
    VoxelKey(k.level + e, k.x * s + DigitX(j, s), k.y * s + DigitY(j, s), k.z * s + DigitZ(j, s))
  }

  /** `sub_octant_index`: the low `e` bits of each coordinate, as a row-major index. */
  function SubOctantIndex(q: VoxelKey, e: nat): nat {
    var s := Pow2(e);
    Flat(q.x % s, q.y % s, q.z % s, s)
  }

  lemma AxisSplit(v: nat, d: nat, e: nat)
    requires d < Pow2(e)
    ensures Shr(v * Pow2(e) + d, e) == v && (v * Pow2(e) + d) % Pow2(e) == d
  {
    DivModUnique(v, Pow2(e), d);
  }

  lemma UnderByAxes(q: VoxelKey, k: VoxelKey, e: nat)
    requires q.level == k.level + e && Shr(q.x, e) == k.x && Shr(q.y, e) == k.y && Shr(q.z, e) == k.z
    ensures Under(q, k)
  {
    AncestorByShift(q, k.level);
  }

  lemma IndexByAxes(q: VoxelKey, e: nat, dx: nat, dy: nat, dz: nat)
    requires q.x % Pow2(e) == dx && q.y % Pow2(e) == dy && q.z % Pow2(e) == dz
    ensures SubOctantIndex(q, e) == Flat(dx, dy, dz, Pow2(e))
  {
  }

  /** The sub-octant index inverts the emission order. */
  lemma SubRootFacts(k: VoxelKey, e: nat, j: nat)
    requires j < Pow8(e)
    ensures Under(SubRoot(k, e, j), k) && SubOctantIndex(SubRoot(k, e, j), e) == j
  {
    DigitsFlat(j, Pow2(e));
    var dx, dy, dz := DigitX(j, Pow2(e)), DigitY(j, Pow2(e)), DigitZ(j, Pow2(e));
    AxisSplit(k.x, dx, e);
    AxisSplit(k.y, dy, e);
    AxisSplit(k.z, dz, e);
    UnderByAxes(SubRoot(k, e, j), k, e);
    IndexByAxes(SubRoot(k, e, j), e, dx, dy, dz);
  }

  lemma IndexInRange(q: VoxelKey, e: nat)
    ensures SubOctantIndex(q, e) < Pow8(e)
  {
    var s := Pow2(e);
    FlatInRange(q.x % s, q.y % s, q.z % s, s);
  }

  /** Every descendant `e` levels down is the sub-octant its index names. */
  lemma SubRootOfIndex(k: VoxelKey, e: nat, q: VoxelKey)
    requires q.level == k.level + e && Under(q, k)
    ensures SubOctantIndex(q, e) < Pow8(e) && SubRoot(k, e, SubOctantIndex(q, e)) == q
  {
    var s := Pow2(e);
    AncestorByShift(q, k.level);
    AxisJoin(q.x, k.x, e);
    AxisJoin(q.y, k.y, e);
    AxisJoin(q.z, k.z, e);
    FlatInRange(q.x % s, q.y % s, q.z % s, s);
    SubRootAt(k, e, q.x % s, q.y % s, q.z % s);
  }

  lemma AxisJoin(q: nat, v: nat, e: nat)
    requires Shr(q, e) == v
    ensures 0 <= q % Pow2(e) < Pow2(e) && q == v * Pow2(e) + q % Pow2(e)
  {
  }

  lemma SubRootAt(k: VoxelKey, e: nat, sx: nat, sy: nat, sz: nat)
    requires sx < Pow2(e) && sy < Pow2(e) && sz < Pow2(e)
    ensures var s := Pow2(e);
            SubRoot(k, e, Flat(sx, sy, sz, s)) == VoxelKey(k.level + e, k.x * s + sx, k.y * s + sy, k.z * s + sz)
  {
    FlatDigits(sx, sy, sz, Pow2(e));
  }

  lemma SubRootInRange(k: VoxelKey, e: nat, j: nat)
    requires InRange(k) && j < Pow8(e)
    ensures InRange(SubRoot(k, e, j))
  {
    var s := Pow2(e);
    DigitsFlat(j, s);
    Pow2Add(k.level, e);
    DigitBound(k.x, DigitX(j, s), Pow2(k.level), s);
    DigitBound(k.y, DigitY(j, s), Pow2(k.level), s);
    DigitBound(k.z, DigitZ(j, s), Pow2(k.level), s);
  }

  lemma DigitBound(v: nat, d: nat, n: nat, s: nat)
    requires v < n && d < s
    ensures v * s + d < n * s
  {
    MulLe(v + 1, n, s);
    assert (v + 1) * s == v * s + s;
  }

  /** Estimate of sub-chunk `j`: an even share, the remainder going to the first ones. */
  function Share(pop: nat, n: nat, j: nat): nat
    requires n > 0
  {
    DivNonNegative(pop, n);
    pop / n + if j < pop % n then 1 else 0
  }

  function SubChunk(k: VoxelKey, e: nat, pop: nat, j: nat): Chunk {
    Pow8Positive(e);
    Chunk(SubRoot(k, e, j), Share(pop, Pow8(e), j))
  }

  lemma Pow8Positive(e: nat)
    ensures Pow8(e) > 0
  {
    MulAtLeast(Pow2(e), Pow2(e));
    MulAtLeast(Pow2(e) * Pow2(e), Pow2(e));
  }

  /** The first `n` sub-chunks of a cell. */
  function SubChunks(k: VoxelKey, e: nat, pop: nat, n: nat): (c: seq<Chunk>)
    ensures |c| == n
  {
    if n == 0 then [] else SubChunks(k, e, pop, n - 1) + [SubChunk(k, e, pop, n - 1)]
  }

  lemma {:induction false} SubChunksAt(k: VoxelKey, e: nat, pop: nat, n: nat, j: nat)
    requires j < n
    ensures SubChunks(k, e, pop, n)[j] == SubChunk(k, e, pop, j)
  {
    if j < n - 1 {
      SubChunksAt(k, e, pop, n - 1, j);
    }
  }

  /** The chunks of one cell; only a cell of the finest level is ever split. */
  function Emit(depth: nat, target: nat, k: VoxelKey, pop: nat): seq<Chunk> {
    var e := if k.level == depth then SplitDepth(pop, target, 0) else 0;
    if e == 0 then [Chunk(k, pop)] else SubChunks(k, e, pop, Pow8(e))
  }

  /** Extra points still to hand out before sub-chunk `j`. */
  function Left(extra: nat, j: nat): nat {
    if j < extra then extra - j else 0
  }

  lemma RowMajor(s: nat, y: nat, z: nat)
    requires y < s && z < s
    ensures Flat(0, 0, 0, s) == 0 && Flat(s, y, z, s) == Flat(0, y + 1, z, s)
    ensures Flat(0, s, z, s) == Flat(0, 0, z + 1, s) && Flat(0, 0, s, s) == s * s * s
  {
    assert (y + 1) * s == y * s + s;
    assert (z + 1) * s * s == z * s * s + s * s;
  }

  /** Handing out one share. */
  lemma ShareStep(pop: nat, n: nat, j: nat, estEach: nat, remainder: nat)
    requires n > 0 && estEach == pop / n && remainder == Left(pop % n, j)
    ensures Share(pop, n, j) == if remainder > 0 then estEach + 1 else estEach
    ensures Left(pop % n, j + 1) == if remainder > 0 then remainder - 1 else remainder
  {
  }

  /** One sub-chunk, at the loop position `(sx, sy, sz)`. */
  method EmitSub(chunks: seq<Chunk>, k: VoxelKey, e: nat, sx: nat, sy: nat, sz: nat, estEach: nat, remainder: nat,
                 ghost pop: nat, ghost before: seq<Chunk>, ghost j: nat)
    returns (chunks': seq<Chunk>, remainder': nat)
    requires sx < Pow2(e) && sy < Pow2(e) && sz < Pow2(e) && Pow8(e) > 0
    requires estEach == pop / Pow8(e) && j == Flat(sx, sy, sz, Pow2(e))
    requires EmittedTo(before, k, e, pop, j, chunks, remainder)
    ensures EmittedTo(before, k, e, pop, j + 1, chunks', remainder')
  {
    SubRootAt(k, e, sx, sy, sz);
    ShareStep(pop, Pow8(e), j, estEach, remainder);
    var pointCount := estEach;
    remainder' := remainder;
    if remainder > 0 {
      remainder', pointCount := remainder - 1, estEach + 1;
    }
    var span := Pow2(e);
    var sub := Chunk(VoxelKey(k.level + e, k.x * span + sx, k.y * span + sy, k.z * span + sz), pointCount);
    assert sub == SubChunk(k, e, pop, j);
    chunks' := chunks + [sub];
  }

  /** `emit_chunk_root`. */
  method EmitChunkRoot(chunks0: seq<Chunk>, depth: nat, target: nat, k: VoxelKey, pop: nat) returns (chunks: seq<Chunk>)
    ensures chunks == chunks0 + Emit(depth, target, k, pop)
  {
    var e := 0;
    if k.level == depth {
      e := SplitExtraLevels(pop, target);
    }
    if e == 0 {
      return chunks0 + [Chunk(k, pop)];
    }
    chunks := EmitSubChunks(chunks0, k, e, pop);
  }

  /** Where the triple loop stands: `j` sub-chunks emitted. */
  ghost predicate EmittedTo(before: seq<Chunk>, k: VoxelKey, e: nat, pop: nat, j: nat, chunks: seq<Chunk>, remainder: nat)
    requires Pow8(e) > 0
  {
    remainder == Left(pop % Pow8(e), j) && chunks == before + SubChunks(k, e, pop, j)
  }

  method EmitRow(chunks0: seq<Chunk>, k: VoxelKey, e: nat, sy: nat, sz: nat, estEach: nat, remainder0: nat,
                 ghost pop: nat, ghost before: seq<Chunk>)
    returns (chunks: seq<Chunk>, remainder: nat)
    requires sy < Pow2(e) && sz < Pow2(e) && Pow8(e) > 0 && estEach == pop / Pow8(e)
    requires EmittedTo(before, k, e, pop, Flat(0, sy, sz, Pow2(e)), chunks0, remainder0)
    ensures EmittedTo(before, k, e, pop, Flat(0, sy + 1, sz, Pow2(e)), chunks, remainder)
  {
    chunks, remainder := chunks0, remainder0;
    for sx := 0 to Pow2(e)
      invariant EmittedTo(before, k, e, pop, Flat(sx, sy, sz, Pow2(e)), chunks, remainder)
    {
      chunks, remainder := EmitSub(chunks, k, e, sx, sy, sz, estEach, remainder, pop, before, Flat(sx, sy, sz, Pow2(e)));
    }
    RowMajor(Pow2(e), sy, sz);
  }

  method EmitPlane(chunks0: seq<Chunk>, k: VoxelKey, e: nat, sz: nat, estEach: nat, remainder0: nat,
                   ghost pop: nat, ghost before: seq<Chunk>)
    returns (chunks: seq<Chunk>, remainder: nat)
    requires sz < Pow2(e) && Pow8(e) > 0 && estEach == pop / Pow8(e)
    requires EmittedTo(before, k, e, pop, Flat(0, 0, sz, Pow2(e)), chunks0, remainder0)
    ensures EmittedTo(before, k, e, pop, Flat(0, 0, sz + 1, Pow2(e)), chunks, remainder)
  {
    chunks, remainder := chunks0, remainder0;
    for sy := 0 to Pow2(e)
      invariant EmittedTo(before, k, e, pop, Flat(0, sy, sz, Pow2(e)), chunks, remainder)
    {
      chunks, remainder := EmitRow(chunks, k, e, sy, sz, estEach, remainder, pop, before);
    }
    RowMajor(Pow2(e), 0, sz);
  }

  lemma EvenSplit(pop: nat, n: nat)
    requires n > 0
    ensures pop / n >= 0 && pop - pop / n * n == pop % n == Left(pop % n, 0)
  {
    DivNonNegative(pop, n);
  }

  method EmitSubChunks(chunks0: seq<Chunk>, k: VoxelKey, e: nat, pop: nat) returns (chunks: seq<Chunk>)
    ensures chunks == chunks0 + SubChunks(k, e, pop, Pow8(e))
  {
    Pow8Positive(e);
    var nSub := Pow8(e);
    EvenSplit(pop, nSub);
    var estEach: nat := pop / nSub;
    var remainder: nat := pop - estEach * nSub;
    RowMajor(Pow2(e), 0, 0);
    chunks := EmitPlanes(chunks0, k, e, estEach, remainder, pop);
  }

  method EmitPlanes(chunks0: seq<Chunk>, k: VoxelKey, e: nat, estEach: nat, remainder0: nat, ghost pop: nat)
    returns (chunks: seq<Chunk>)
    requires Pow8(e) > 0 && estEach == pop / Pow8(e)
    requires EmittedTo(chunks0, k, e, pop, Flat(0, 0, 0, Pow2(e)), chunks0, remainder0)
    ensures chunks == chunks0 + SubChunks(k, e, pop, Pow8(e))
  {
    var remainder := remainder0;
    chunks := chunks0;
    for sz := 0 to Pow2(e)
      invariant EmittedTo(chunks0, k, e, pop, Flat(0, 0, sz, Pow2(e)), chunks, remainder)
    {
      chunks, remainder := EmitPlane(chunks, k, e, sz, estEach, remainder, pop, chunks0);
    }
    RowMajor(Pow2(e), 0, 0);
  }

  function Estimates(chunks: seq<Chunk>): nat {
    if chunks == [] then 0 else Estimates(chunks[..|chunks| - 1]) + chunks[|chunks| - 1].pointCount
  }

  lemma {:induction false} EstimatesAppend(a: seq<Chunk>, b: seq<Chunk>)
    ensures Estimates(a + b) == Estimates(a) + Estimates(b)
  {
    if b == [] {
      assert a + b == a;
    } else {
      EstimatesAppend(a, b[..|b| - 1]);
      assert (a + b)[..|a + b| - 1] == a + b[..|b| - 1];
    }
  }

  lemma {:induction false} SubChunksSum(k: VoxelKey, e: nat, pop: nat, n: nat, q: nat, r: nat)
    requires Pow8(e) > 0 && q == pop / Pow8(e) && r == pop % Pow8(e)
    ensures Estimates(SubChunks(k, e, pop, n)) == n * q + (if n < r then n else r)
  {
    if n > 0 {
      SubChunksSum(k, e, pop, n - 1, q, r);
      assert SubChunks(k, e, pop, n)[..n - 1] == SubChunks(k, e, pop, n - 1);
      ShareOf(pop, Pow8(e), n - 1, q, r);
      OneMore(n, q);
    }
  }

  lemma ShareOf(pop: nat, count: nat, j: nat, q: nat, r: nat)
    requires count > 0 && q == pop / count && r == pop % count
    ensures Share(pop, count, j) == q + (if j < r then 1 else 0)
  {
  }

  lemma OneMore(n: nat, q: nat)
    requires n > 0
    ensures n * q == (n - 1) * q + q
  {
  }

  /** The estimates of a cell's chunks add up to its population. */
  lemma EmitConserves(depth: nat, target: nat, k: VoxelKey, pop: nat)
    ensures Estimates(Emit(depth, target, k, pop)) == pop
  {
    var e := if k.level == depth then SplitDepth(pop, target, 0) else 0;
    if e == 0 {
      assert [Chunk(k, pop)][..0] == [];
    } else {
      Pow8Positive(e);
      var q: nat, r: nat := SplitParts(pop, Pow8(e));
      SubChunksSum(k, e, pop, Pow8(e), q, r);
    }
  }

  lemma SplitParts(pop: nat, n: nat) returns (q: nat, r: nat)
    requires n > 0
    ensures q == pop / n && r == pop % n && r < n && n * q + r == pop
  {
    EvenSplit(pop, n);
    q, r := pop / n, pop % n;
  }

  /** The largest estimate of an even split. */
  lemma ShareFits(pop: nat, n: nat, target: nat)
    requires n > 0
    ensures Share(pop, n, 0) <= target <==> pop <= target * n
    ensures forall j: nat :: Share(pop, n, j) <= Share(pop, n, 0)
  {
    var q, r := pop / n, pop % n;
    assert pop == q * n + r;
    if q < target {
      MulLe(q + 1, target, n);
      assert (q + 1) * n == q * n + n;
    } else if q > target {
      MulLe(target + 1, q, n);
      assert (target + 1) * n == target * n + n;
    }
  }

  ghost predicate AllFit(chunks: seq<Chunk>, target: nat) {
    forall i :: 0 <= i < |chunks| ==> chunks[i].pointCount <= target
  }

  /** A cell's chunks all fit the target exactly when the split depth cap does not bind. */
  lemma EmitFits(depth: nat, target: nat, k: VoxelKey, pop: nat)
    requires k.level == depth || pop <= target
    ensures AllFit(Emit(depth, target, k, pop), target) <==> pop <= target * Pow8(SPLIT_LEVEL_CAP)
  {
    assert Pow8(0) == 1;
    if k.level != depth {
      FitsDeeper(pop, target, 0, SPLIT_LEVEL_CAP);
    }
    var e := if k.level == depth then SplitDepth(pop, target, 0) else 0;
    SplitDepthFits(pop, target, 0);
    Pow8Positive(e);
    ShareFits(pop, Pow8(e), target);
    var chunks := Emit(depth, target, k, pop);
    if e == 0 {
      assert chunks[0].pointCount == pop;
    } else {
      forall j | 0 <= j < |chunks| ensures chunks[j].pointCount == Share(pop, Pow8(e), j) {
        SubChunksAt(k, e, pop, Pow8(e), j);
      }
    }
  }

  /** A cell of more than `8^6` targets has estimates above the target: with a target of one point
      and `2 * 8^6` points, every sub-chunk is estimated at two. */
  lemma SplitCapBinds(k: VoxelKey)
    ensures !AllFit(Emit(k.level, 1, k, 2 * Pow8(SPLIT_LEVEL_CAP)), 1)
  {
    var pop := 2 * Pow8(SPLIT_LEVEL_CAP);
    Pow8Positive(SPLIT_LEVEL_CAP);
    EmitFits(k.level, 1, k, pop);
  }
}
