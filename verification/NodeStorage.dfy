/** The contract of the scratch node store (`NodeStore` in src/node_store.rs): a map from
    keys to points, overwritten as a whole. `PackedStore` shows that the append-only pack
    implementation refines it under concurrency. */
module NodeStorage {
  import opened Voxel
  import opened Points
  import opened NodeMap

  class NodeStore {
    var contents: Nodes

    constructor ()
      ensures contents == map[]
    {
      contents := map[];
    }

    /** What every write of a build keeps to: points of the input `all`, at most `cap` of them, at
        a level whose coordinates fit their words. */
    method Write(key: VoxelKey, points: seq<RawPoint>, ghost all: multiset<RawPoint>, ghost cap: nat)
      requires multiset(points) <= all && |points| <= cap && key.level <= MAX_LEVEL
      modifies this
      ensures contents == old(contents)[key := points]
    {
      contents := contents[key := points];
    }

    method Read(key: VoxelKey) returns (points: seq<RawPoint>)
      ensures points == Get(contents, key)
    {
      points := if key in contents then contents[key] else [];
    }

    method Count(key: VoxelKey) returns (n: nat)
      ensures n == |Get(contents, key)|
    {
      n := if key in contents then |contents[key]| else 0;
    }
  }
}
