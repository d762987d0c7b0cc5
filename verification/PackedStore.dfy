/** The append-only packed node store of src/node_store.rs as a state machine: any number of tasks
    write and read through per-pack locks and a shared index, their steps interleaved in any
    way. It refines the plain map of `NodeStorage`: a write takes effect when its index entry is
    inserted, a read when it looks the entry up. */
module PackedStore {
  import opened Bytes
  import opened Voxel
  import opened Points
  import opened Framing

  /** An index entry. `slot` numbers the append within its pack and is used by proofs only. */
  datatype Location = Location(pack: nat, offset: nat, byteLen: nat, pointCount: nat, slot: nat)

  /** One pack file: bytes on disk, bytes still in the writer's buffer, and the append cursor.
      `log` is the history of appended batches. */
  datatype Pack = Pack(file: seq<U8>, buffer: seq<U8>, cursor: nat, log: seq<Batch>)

  /** Where a task stands. `seen` is the value a read must return: the contents at its lookup. */
  datatype Task =
    | Idle
    | Serialized(key: VoxelKey, points: Batch, buf: seq<U8>, pack: nat)
    | Appended(key: VoxelKey, points: Batch, loc: Location)
    | Located(loc: Location, seen: Batch)
    | Flushed(loc: Location, seen: Batch)
    | Returned(result: Option<seq<RawPoint>>, seen: Batch)

  datatype State = State(packs: seq<Pack>, index: map<VoxelKey, Location>, tasks: seq<Task>, contents: map<VoxelKey, Batch>)

  /** One atomic step. Appending and flushing hold the pack's lock; the buffered writer may also
      push any part of its buffer to disk on its own. */
  datatype Step =
    | Serialize(task: nat, key: VoxelKey, points: Batch, pack: nat)
    | Append(task: nat)
    | Insert(task: nat)
    | Lookup(task: nat, key: VoxelKey)
    | Flush(task: nat)
    | AutoFlush(pack: nat, bytes: nat)
    | RangeRead(task: nat)
    | Finish(task: nat)

  function Contents(m: map<VoxelKey, Batch>, k: VoxelKey): Batch {
    if k in m then m[k] else []
  }

  predicate Enabled(s: State, step: Step, nxb: nat) {
    match step
    case Serialize(t, _, points, pack) => t < |s.tasks| && s.tasks[t].Idle? && pack < |s.packs| && Uniform(points, nxb)
    case Append(t) => t < |s.tasks| && s.tasks[t].Serialized? && s.tasks[t].pack < |s.packs|
    case Insert(t) => t < |s.tasks| && s.tasks[t].Appended?
    case Lookup(t, _) => t < |s.tasks| && s.tasks[t].Idle?
    case Flush(t) => t < |s.tasks| && s.tasks[t].Located? && s.tasks[t].loc.pack < |s.packs|
    case AutoFlush(p, n) => p < |s.packs| && n <= |s.packs[p].buffer|
    case RangeRead(t) => t < |s.tasks| && s.tasks[t].Flushed? && s.tasks[t].loc.pack < |s.packs|
    case Finish(t) => t < |s.tasks| && s.tasks[t].Returned?
  }

  function AppendTo(p: Pack, points: Batch, buf: seq<U8>): Pack {
    Pack(p.file, p.buffer + buf, p.cursor + |buf|, p.log + [points])
  }

  function FlushBytes(p: Pack, n: nat): Pack
    requires n <= |p.buffer|
  {
    Pack(p.file + p.buffer[..n], p.buffer[n..], p.cursor, p.log)
  }

  /** Reading a byte range of the pack file and decoding it; bytes past the end are not there. */
  function ReadRange(p: Pack, loc: Location, nxb: nat): Option<seq<RawPoint>> {
    if loc.offset + loc.byteLen > |p.file| then None
    else DecodeStream(p.file[loc.offset..loc.offset + loc.byteLen], nxb)
  }

  function Apply(s: State, step: Step, nxb: nat): State
    requires Enabled(s, step, nxb)
  {
    match step
    case Serialize(t, key, points, pack) => s.(tasks := s.tasks[t := Serialized(key, points, EncodeBatch(points), pack)])
    case Append(t) =>
      var w := s.tasks[t];
      var p := s.packs[w.pack];
      var loc := Location(w.pack, p.cursor, |w.buf|, |w.points|, |p.log|);
      s.(packs := s.packs[w.pack := AppendTo(p, w.points, w.buf)], tasks := s.tasks[t := Appended(w.key, w.points, loc)])
    case Insert(t) =>
      var w := s.tasks[t];
      s.(index := s.index[w.key := w.loc], contents := s.contents[w.key := w.points], tasks := s.tasks[t := Idle])
    case Lookup(t, key) =>
      s.(tasks := s.tasks[t := if key in s.index then Located(s.index[key], Contents(s.contents, key))
                               else Returned(Some([]), Contents(s.contents, key))])
    case Flush(t) =>
      var r := s.tasks[t];
      var p := s.packs[r.loc.pack];
      s.(packs := s.packs[r.loc.pack := FlushBytes(p, |p.buffer|)], tasks := s.tasks[t := Flushed(r.loc, r.seen)])
    case AutoFlush(p, n) => s.(packs := s.packs[p := FlushBytes(s.packs[p], n)])
    case RangeRead(t) =>
      var r := s.tasks[t];
      s.(tasks := s.tasks[t := Returned(ReadRange(s.packs[r.loc.pack], r.loc, nxb), r.seen)])
    case Finish(t) => s.(tasks := s.tasks[t := Idle])
  }

  /** File and buffer together are the encoded log, and the cursor is their length. */
  ghost predicate PackOk(p: Pack, nxb: nat) {
    p.file + p.buffer == EncodeBatches(p.log) && p.cursor == |p.file| + |p.buffer| &&
    forall i :: 0 <= i < |p.log| ==> Uniform(p.log[i], nxb)
  }

  /** The location is the byte range of one append, and that append was `points`. */
  ghost predicate LocOk(packs: seq<Pack>, loc: Location, points: Batch) {
    loc.pack < |packs| && loc.slot < |packs[loc.pack].log| && packs[loc.pack].log[loc.slot] == points &&
    loc.offset == |EncodeBatches(packs[loc.pack].log[..loc.slot])| &&
    loc.byteLen == |EncodeBatch(points)| && loc.pointCount == |points|
  }

  ghost predicate TaskOk(packs: seq<Pack>, task: Task, nxb: nat) {
    match task
    case Idle => true
    case Serialized(_, points, buf, pack) => pack < |packs| && Uniform(points, nxb) && buf == EncodeBatch(points)
    case Appended(_, points, loc) => LocOk(packs, loc, points)
    case Located(loc, seen) => LocOk(packs, loc, seen)
    case Flushed(loc, seen) => LocOk(packs, loc, seen) && loc.offset + loc.byteLen <= |packs[loc.pack].file|
    case Returned(result, seen) => result == Some(seen)
  }

  ghost predicate SameSlot(a: Location, b: Location) {
    a.pack == b.pack && a.slot == b.slot
  }

  /** No two index entries and no index entry and pending insert share an append. */
  ghost predicate SlotsApart(index: map<VoxelKey, Location>, tasks: seq<Task>) {
    (forall a, b :: a in index && b in index && a != b ==> !SameSlot(index[a], index[b])) &&
    (forall a, t :: a in index && 0 <= t < |tasks| && tasks[t].Appended? ==> !SameSlot(index[a], tasks[t].loc)) &&
    (forall t, u :: 0 <= t < u < |tasks| && tasks[t].Appended? && tasks[u].Appended? ==>
       !SameSlot(tasks[t].loc, tasks[u].loc))
  }

  ghost predicate PacksOk(packs: seq<Pack>, nxb: nat) {
    forall p :: 0 <= p < |packs| ==> PackOk(packs[p], nxb)
  }

  ghost predicate IndexOk(packs: seq<Pack>, index: map<VoxelKey, Location>, contents: map<VoxelKey, Batch>) {
    index.Keys == contents.Keys && forall k :: k in index ==> LocOk(packs, index[k], contents[k])
  }

  ghost predicate TasksOk(packs: seq<Pack>, tasks: seq<Task>, nxb: nat) {
    forall t :: 0 <= t < |tasks| ==> TaskOk(packs, tasks[t], nxb)
  }

  ghost predicate Inv(s: State, nxb: nat) {
    PacksOk(s.packs, nxb) && IndexOk(s.packs, s.index, s.contents) && TasksOk(s.packs, s.tasks, nxb) && SlotsApart(s.index, s.tasks)
  }

  /** Packs only grow: logs are extended, files never lose bytes. */
  ghost predicate Grows(a: seq<Pack>, b: seq<Pack>) {
    |b| == |a| &&
    forall p :: 0 <= p < |a| ==>
      |a[p].log| <= |b[p].log| && b[p].log[..|a[p].log|] == a[p].log && |a[p].file| <= |b[p].file|
  }

  /** A location stays valid, for the same points, whatever is appended later. */
  lemma LocSurvives(a: seq<Pack>, b: seq<Pack>, loc: Location, points: Batch)
    requires Grows(a, b) && LocOk(a, loc, points)
    ensures LocOk(b, loc, points)
  {
    var la, lb := a[loc.pack].log, b[loc.pack].log;
    assert lb[..|la|] == la;
    assert lb[loc.slot] == lb[..|la|][loc.slot];
    assert lb[..loc.slot] == lb[..|la|][..loc.slot];
  }

  lemma TaskSurvives(a: seq<Pack>, b: seq<Pack>, task: Task, nxb: nat)
    requires Grows(a, b) && TaskOk(a, task, nxb)
    ensures TaskOk(b, task, nxb)
  {
    match task
    case Appended(_, points, loc) => LocSurvives(a, b, loc, points);
    case Located(loc, seen) => LocSurvives(a, b, loc, seen);
    case Flushed(loc, seen) => LocSurvives(a, b, loc, seen);
    case _ =>
  }

  lemma IndexSurvives(a: seq<Pack>, b: seq<Pack>, index: map<VoxelKey, Location>, contents: map<VoxelKey, Batch>)
    requires Grows(a, b) && IndexOk(a, index, contents)
    ensures IndexOk(b, index, contents)
  {
    forall k | k in index ensures LocOk(b, index[k], contents[k]) {
      LocSurvives(a, b, index[k], contents[k]);
    }
  }

  /** Everything but the packs and one task is unchanged. */
  lemma TasksSurvive(a: seq<Pack>, b: seq<Pack>, tasks: seq<Task>, t: nat, task: Task, nxb: nat)
    requires Grows(a, b) && TasksOk(a, tasks, nxb) && t < |tasks| && TaskOk(b, task, nxb)
    ensures TasksOk(b, tasks[t := task], nxb)
  {
    var tasks' := tasks[t := task];
    forall u | 0 <= u < |tasks'| ensures TaskOk(b, tasks'[u], nxb) {
      if u != t {
        TaskSurvives(a, b, tasks[u], nxb);
      }
    }
  }

  lemma AppendOk(p: Pack, points: Batch, nxb: nat)
    requires PackOk(p, nxb) && Uniform(points, nxb)
    ensures PackOk(AppendTo(p, points, EncodeBatch(points)), nxb)
  {
    EncodeBatchesSnoc(p.log, points);
    Regroup(p.file, p.buffer, EncodeBatch(points));
    var log' := p.log + [points];
    forall i | 0 <= i < |log'| ensures Uniform(log'[i], nxb) {
    }
  }

  lemma FlushOk(p: Pack, n: nat, nxb: nat)
    requires PackOk(p, nxb) && n <= |p.buffer|
    ensures PackOk(FlushBytes(p, n), nxb)
  {
    assert (p.file + p.buffer[..n]) + p.buffer[n..] == p.file + p.buffer;
  }

  lemma OnePackChanges(packs: seq<Pack>, i: nat, p: Pack, nxb: nat)
    requires i < |packs| && PacksOk(packs, nxb) && PackOk(p, nxb)
    requires |packs[i].log| <= |p.log| && p.log[..|packs[i].log|] == packs[i].log && |packs[i].file| <= |p.file|
    ensures PacksOk(packs[i := p], nxb) && Grows(packs, packs[i := p])
  {
    forall j | 0 <= j < |packs| && j != i
      ensures packs[j].log[..|packs[j].log|] == packs[j].log
    {
    }
  }

  /** The bytes of one append within the pack. */
  lemma {:induction false} AppendBytes(log: seq<Batch>, i: nat)
    requires i < |log|
    ensures |EncodeBatches(log[..i])| + |EncodeBatch(log[i])| == |EncodeBatches(log[..i + 1])| <= |EncodeBatches(log)|
    ensures EncodeBatches(log)[|EncodeBatches(log[..i])|..|EncodeBatches(log[..i + 1])|] == EncodeBatch(log[i])
  {
    EncodeBatchesSnoc(log[..i], log[i]);
    assert log[..i] + [log[i]] == log[..i + 1];
    EncodeBatchesAppend(log[..i + 1], log[i + 1..]);
    assert log == log[..i + 1] + log[i + 1..];
  }

  /** Indexed ranges lie inside the bytes written. */
  lemma InBounds(packs: seq<Pack>, loc: Location, points: Batch, nxb: nat)
    requires PacksOk(packs, nxb) && LocOk(packs, loc, points)
    ensures loc.offset + loc.byteLen <= packs[loc.pack].cursor
  {
    AppendBytes(packs[loc.pack].log, loc.slot);
    assert PackOk(packs[loc.pack], nxb);
    var p := packs[loc.pack];
    assert |p.file + p.buffer| == |EncodeBatches(p.log)|;
  }

  /** Ranges of different appends are disjoint. */
  lemma RangesDisjoint(packs: seq<Pack>, a: Location, x: Batch, b: Location, y: Batch)
    requires LocOk(packs, a, x) && LocOk(packs, b, y) && a.pack == b.pack && a.slot < b.slot
    ensures a.offset + a.byteLen <= b.offset
  {
    var log := packs[a.pack].log;
    AppendBytes(log[..b.slot], a.slot);
    assert log[..b.slot][..a.slot] == log[..a.slot] && log[..b.slot][..a.slot + 1] == log[..a.slot + 1];
  }

  /** Entries of different keys never overlap. */
  lemma EntriesDisjoint(s: State, nxb: nat, a: VoxelKey, b: VoxelKey)
    requires Inv(s, nxb) && a in s.index && b in s.index && a != b
    ensures var la, lb := s.index[a], s.index[b];
            la.pack != lb.pack || la.offset + la.byteLen <= lb.offset || lb.offset + lb.byteLen <= la.offset
  {
    var la, lb := s.index[a], s.index[b];
    assert LocOk(s.packs, la, s.contents[a]) && LocOk(s.packs, lb, s.contents[b]);
    assert !SameSlot(la, lb);
    if la.pack == lb.pack {
      if la.slot < lb.slot {
        RangesDisjoint(s.packs, la, s.contents[a], lb, s.contents[b]);
      } else {
        RangesDisjoint(s.packs, lb, s.contents[b], la, s.contents[a]);
      }
    }
  }

  /** The count an entry reports is the length of the stored value. */
  lemma CountIsLength(s: State, nxb: nat, k: VoxelKey)
    requires Inv(s, nxb)
    ensures (if k in s.index then s.index[k].pointCount else 0) == |Contents(s.contents, k)|
  {
    if k in s.index {
      assert LocOk(s.packs, s.index[k], s.contents[k]);
    }
  }

  /** A flushed range decodes to the points of its append. */
  lemma RangeDecodes(p: Pack, packs: seq<Pack>, loc: Location, points: Batch, nxb: nat)
    requires LocOk(packs, loc, points) && p == packs[loc.pack] && PackOk(p, nxb)
    requires loc.offset + loc.byteLen <= |p.file|
    ensures ReadRange(p, loc, nxb) == Some(points)
  {
    RangeBytes(p, loc.slot, loc.offset, loc.offset + loc.byteLen, nxb);
    assert Uniform(p.log[loc.slot], nxb);
    WholeBatch(points, nxb);
    ReadOf(p, loc, EncodeBatch(points), points, nxb);
  }

  lemma ReadOf(p: Pack, loc: Location, range: seq<U8>, points: seq<RawPoint>, nxb: nat)
    requires loc.offset + loc.byteLen <= |p.file| && p.file[loc.offset..loc.offset + loc.byteLen] == range
    requires DecodeStream(range, nxb) == Some(points)
    ensures ReadRange(p, loc, nxb) == Some(points)
  {
  }

  lemma RangeBytes(p: Pack, slot: nat, lo: nat, hi: nat, nxb: nat)
    requires PackOk(p, nxb) && slot < |p.log| && lo == |EncodeBatches(p.log[..slot])|
    requires hi == lo + |EncodeBatch(p.log[slot])| <= |p.file|
    ensures p.file[lo..hi] == EncodeBatch(p.log[slot])
  {
    AppendBytes(p.log, slot);
    SliceOfPrefix(p.file, p.buffer, lo, hi);
  }

  lemma SliceOfPrefix(a: seq<U8>, b: seq<U8>, lo: nat, hi: nat)
    requires lo <= hi <= |a|
    ensures a[lo..hi] == (a + b)[lo..hi]
  {
  }

  lemma WholeBatch(points: Batch, nxb: nat)
    requires Uniform(points, nxb)
    ensures DecodeStream(EncodeBatch(points), nxb) == Some(points)
  {
    BatchThenRest(points, [], nxb);
    assert EncodeBatch(points) + [] == EncodeBatch(points) && points + [] == points;
  }

  /** A task moving on without an append to insert. */
  lemma TaskMoves(s: State, t: nat, task: Task, nxb: nat)
    requires Inv(s, nxb) && t < |s.tasks| && TaskOk(s.packs, task, nxb) && !task.Appended?
    ensures Inv(s.(tasks := s.tasks[t := task]), nxb)
  {
    GrowsSelf(s.packs);
    TasksSurvive(s.packs, s.packs, s.tasks, t, task, nxb);
    ApartMoves(s.index, s.tasks, t, task);
  }

  lemma GrowsSelf(packs: seq<Pack>)
    ensures Grows(packs, packs)
  {
    forall p | 0 <= p < |packs| ensures packs[p].log[..|packs[p].log|] == packs[p].log {
    }
  }

  lemma ApartMoves(index: map<VoxelKey, Location>, tasks: seq<Task>, t: nat, task: Task)
    requires SlotsApart(index, tasks) && t < |tasks| && !task.Appended?
    ensures SlotsApart(index, tasks[t := task])
  {
  }

  lemma FreshSlot(s: State, pack: nat, nxb: nat, loc: Location)
    requires IndexOk(s.packs, s.index, s.contents) && TasksOk(s.packs, s.tasks, nxb)
    requires pack < |s.packs| && loc.pack == pack && loc.slot == |s.packs[pack].log|
    ensures forall k :: k in s.index ==> !SameSlot(s.index[k], loc)
    ensures forall t :: 0 <= t < |s.tasks| && s.tasks[t].Appended? ==> !SameSlot(s.tasks[t].loc, loc)
  {
    forall k | k in s.index ensures !SameSlot(s.index[k], loc) {
      assert LocOk(s.packs, s.index[k], s.contents[k]);
    }
    forall t | 0 <= t < |s.tasks| && s.tasks[t].Appended? ensures !SameSlot(s.tasks[t].loc, loc) {
      assert TaskOk(s.packs, s.tasks[t], nxb);
    }
  }

  lemma AppendLoc(packs: seq<Pack>, w: nat, points: Batch, buf: seq<U8>, nxb: nat)
    requires w < |packs| && PackOk(packs[w], nxb) && buf == EncodeBatch(points)
    ensures var p := packs[w];
            LocOk(packs[w := AppendTo(p, points, buf)], Location(w, p.cursor, |buf|, |points|, |p.log|), points)
  {
    var p := packs[w];
    assert (p.log + [points])[..|p.log|] == p.log;
    assert |p.file + p.buffer| == |EncodeBatches(p.log)|;
  }

  lemma AppendKeeps(s: State, t: nat, nxb: nat)
    requires Inv(s, nxb) && Enabled(s, Append(t), nxb)
    ensures Inv(Apply(s, Append(t), nxb), nxb)
  {
    var w, s' := s.tasks[t], Apply(s, Append(t), nxb);
    assert TaskOk(s.packs, w, nxb);
    var p := s.packs[w.pack];
    AppendOk(p, w.points, nxb);
    assert (p.log + [w.points])[..|p.log|] == p.log;
    OnePackChanges(s.packs, w.pack, AppendTo(p, w.points, w.buf), nxb);
    AppendLoc(s.packs, w.pack, w.points, w.buf, nxb);
    IndexSurvives(s.packs, s'.packs, s.index, s.contents);
    TasksSurvive(s.packs, s'.packs, s.tasks, t, s'.tasks[t], nxb);
    FreshSlot(s, w.pack, nxb, s'.tasks[t].loc);
    AppendApart(s.index, s.tasks, t, s'.tasks[t]);
  }

  lemma AppendApart(index: map<VoxelKey, Location>, tasks: seq<Task>, t: nat, task: Task)
    requires SlotsApart(index, tasks) && t < |tasks| && task.Appended?
    requires forall k :: k in index ==> !SameSlot(index[k], task.loc)
    requires forall u :: 0 <= u < |tasks| && tasks[u].Appended? ==> !SameSlot(tasks[u].loc, task.loc)
    ensures SlotsApart(index, tasks[t := task])
  {
  }

  lemma InsertKeeps(s: State, t: nat, nxb: nat)
    requires Inv(s, nxb) && Enabled(s, Insert(t), nxb)
    ensures Inv(Apply(s, Insert(t), nxb), nxb)
  {
    var w := s.tasks[t];
    assert TaskOk(s.packs, w, nxb);
    InsertIndex(s.packs, s.index, s.contents, w.key, w.loc, w.points);
    InsertApart(s.index, s.tasks, t, w.key, w.loc, w.points);
    GrowsSelf(s.packs);
    TasksSurvive(s.packs, s.packs, s.tasks, t, Idle, nxb);
  }

  lemma InsertIndex(packs: seq<Pack>, index: map<VoxelKey, Location>, contents: map<VoxelKey, Batch>,
                    key: VoxelKey, loc: Location, points: Batch)
    requires IndexOk(packs, index, contents) && LocOk(packs, loc, points)
    ensures IndexOk(packs, index[key := loc], contents[key := points])
  {
    var index', contents' := index[key := loc], contents[key := points];
    forall k | k in index' ensures LocOk(packs, index'[k], contents'[k]) {
      if k != key {
        assert LocOk(packs, index[k], contents[k]);
      }
    }
  }

  lemma InsertApart(index: map<VoxelKey, Location>, tasks: seq<Task>, t: nat, key: VoxelKey, loc: Location, points: Batch)
    requires SlotsApart(index, tasks) && t < |tasks| && tasks[t] == Appended(key, points, loc)
    ensures SlotsApart(index[key := loc], tasks[t := Idle])
  {
    forall u | 0 <= u < |tasks| && u != t && tasks[u].Appended? ensures !SameSlot(loc, tasks[u].loc) {
      if u < t {
        assert !SameSlot(tasks[u].loc, tasks[t].loc);
      }
    }
  }

  lemma LookupKeeps(s: State, t: nat, key: VoxelKey, nxb: nat)
    requires Inv(s, nxb) && Enabled(s, Lookup(t, key), nxb)
    ensures Inv(Apply(s, Lookup(t, key), nxb), nxb)
  {
    var task := Apply(s, Lookup(t, key), nxb).tasks[t];
    if key in s.index {
      assert LocOk(s.packs, s.index[key], s.contents[key]);
    }
    TaskMoves(s, t, task, nxb);
  }

  lemma AutoFlushKeeps(s: State, p: nat, n: nat, nxb: nat)
    requires Inv(s, nxb) && Enabled(s, AutoFlush(p, n), nxb)
    ensures Inv(Apply(s, AutoFlush(p, n), nxb), nxb)
  {
    var s' := Apply(s, AutoFlush(p, n), nxb);
    FlushOk(s.packs[p], n, nxb);
    OnePackChanges(s.packs, p, FlushBytes(s.packs[p], n), nxb);
    IndexSurvives(s.packs, s'.packs, s.index, s.contents);
    forall u | 0 <= u < |s.tasks| ensures TaskOk(s'.packs, s.tasks[u], nxb) {
      TaskSurvives(s.packs, s'.packs, s.tasks[u], nxb);
    }
  }

  /** A flush empties the buffer, so the range about to be read is on disk. */
  lemma FlushKeeps(s: State, t: nat, nxb: nat)
    requires Inv(s, nxb) && Enabled(s, Flush(t), nxb)
    ensures Inv(Apply(s, Flush(t), nxb), nxb)
  {
    var r := s.tasks[t];
    var p := s.packs[r.loc.pack];
    var mid := Apply(s, AutoFlush(r.loc.pack, |p.buffer|), nxb);
    AutoFlushKeeps(s, r.loc.pack, |p.buffer|, nxb);
    assert TaskOk(mid.packs, mid.tasks[t], nxb);
    InBounds(mid.packs, r.loc, r.seen, nxb);
    assert PackOk(mid.packs[r.loc.pack], nxb);
    TaskMoves(mid, t, Flushed(r.loc, r.seen), nxb);
  }

  /** A read returns the contents at its lookup, whatever was written since. */
  lemma RangeReadKeeps(s: State, t: nat, nxb: nat)
    requires Inv(s, nxb) && Enabled(s, RangeRead(t), nxb)
    ensures Inv(Apply(s, RangeRead(t), nxb), nxb)
    ensures ReadRange(s.packs[s.tasks[t].loc.pack], s.tasks[t].loc, nxb) == Some(s.tasks[t].seen)
  {
    var r := s.tasks[t];
    assert TaskOk(s.packs, r, nxb);
    assert PackOk(s.packs[r.loc.pack], nxb);
    RangeDecodes(s.packs[r.loc.pack], s.packs, r.loc, r.seen, nxb);
    TaskMoves(s, t, Returned(Some(r.seen), r.seen), nxb);
  }

  /** Every step keeps the invariant. */
  lemma StepKeeps(s: State, step: Step, nxb: nat)
    requires Inv(s, nxb) && Enabled(s, step, nxb)
    ensures Inv(Apply(s, step, nxb), nxb)
  {
    match step
    case Serialize(t, key, points, pack) => TaskMoves(s, t, Serialized(key, points, EncodeBatch(points), pack), nxb);
    case Append(t) => AppendKeeps(s, t, nxb);
    case Insert(t) => InsertKeeps(s, t, nxb);
    case Lookup(t, key) => LookupKeeps(s, t, key, nxb);
    case Flush(t) => FlushKeeps(s, t, nxb);
    case AutoFlush(p, n) => AutoFlushKeeps(s, p, n, nxb);
    case RangeRead(t) => RangeReadKeeps(s, t, nxb);
    case Finish(t) => TaskMoves(s, t, Idle, nxb);
  }

  lemma FlushThenRead(packs: seq<Pack>, loc: Location, points: Batch, nxb: nat)
    requires PacksOk(packs, nxb) && LocOk(packs, loc, points)
    ensures var p := packs[loc.pack];
            var flushed := packs[loc.pack := FlushBytes(p, |p.buffer|)];
            PacksOk(flushed, nxb) && Grows(packs, flushed) && ReadRange(flushed[loc.pack], loc, nxb) == Some(points)
  {
    var p := packs[loc.pack];
    var flushed := packs[loc.pack := FlushBytes(p, |p.buffer|)];
    FlushOk(p, |p.buffer|, nxb);
    OnePackChanges(packs, loc.pack, FlushBytes(p, |p.buffer|), nxb);
    LocSurvives(packs, flushed, loc, points);
    InBounds(flushed, loc, points, nxb);
    RangeDecodes(flushed[loc.pack], flushed, loc, points, nxb);
  }

  /** What the bytes say is stored at `k`: nothing for a key without an entry, otherwise the decoding
      of the byte range its entry names, on disk or still in the pack's write buffer. No proof
      history (`log`, `slot`, `contents`) is consulted. */
  function Visible(s: State, k: VoxelKey, nxb: nat): Option<seq<RawPoint>> {
    if k !in s.index then Some([])
    else if s.index[k].pack >= |s.packs| then None
    else
      var p := s.packs[s.index[k].pack];
      ReadRange(FlushBytes(p, |p.buffer|), s.index[k], nxb)
  }

  lemma VisibleIsContents(s: State, k: VoxelKey, nxb: nat)
    requires Inv(s, nxb)
    ensures Visible(s, k, nxb) == Some(Contents(s.contents, k))
  {
    if k in s.index {
      assert LocOk(s.packs, s.index[k], s.contents[k]);
      FlushThenRead(s.packs, s.index[k], s.contents[k], nxb);
    }
  }

  /** Refinement of a plain map: what the bytes say is stored at a key changes only when a writer
      inserts its entry for that key, and then becomes exactly that writer's points. Appends to the
      same pack, flushes, buffer spills and reads leave every key as it was. */
  lemma StepRefines(s: State, step: Step, nxb: nat, k: VoxelKey)
    requires Inv(s, nxb) && Enabled(s, step, nxb)
    ensures Visible(Apply(s, step, nxb), k, nxb) ==
            if step.Insert? && s.tasks[step.task].key == k then Some(s.tasks[step.task].points) else Visible(s, k, nxb)
  {
    StepKeeps(s, step, nxb);
    VisibleIsContents(s, k, nxb);
    VisibleIsContents(Apply(s, step, nxb), k, nxb);
  }

  function Initial(packCount: nat, taskCount: nat): State {
    State(seq(packCount, _ => Pack([], [], 0, [])), map[], seq(taskCount, _ => Idle), map[])
  }

  lemma InitialOk(packCount: nat, taskCount: nat, nxb: nat)
    ensures Inv(Initial(packCount, taskCount), nxb)
  {
  }

  /** A run: each step enabled where it is taken. */
  ghost predicate Runs(s: State, steps: seq<Step>, nxb: nat)
    decreases |steps|
  {
    steps == [] || (Enabled(s, steps[0], nxb) && Runs(Apply(s, steps[0], nxb), steps[1..], nxb))
  }

  ghost function After(s: State, steps: seq<Step>, nxb: nat): State
    requires Runs(s, steps, nxb)
    decreases |steps|
  {
    if steps == [] then s else After(Apply(s, steps[0], nxb), steps[1..], nxb)
  }

  /** The invariant holds after any run, however its steps interleave. */
  lemma {:induction false} RunKeeps(s: State, steps: seq<Step>, nxb: nat)
    requires Inv(s, nxb) && Runs(s, steps, nxb)
    ensures Inv(After(s, steps, nxb), nxb)
    decreases |steps|
  {
    if steps != [] {
      StepKeeps(s, steps[0], nxb);
      RunKeeps(Apply(s, steps[0], nxb), steps[1..], nxb);
    }
  }

  /** The points of the last insert at `k` during a run, `v` when there is none. */
  ghost function LastInserted(s: State, steps: seq<Step>, nxb: nat, k: VoxelKey, v: Batch): Batch
    requires Runs(s, steps, nxb)
    decreases |steps|
  {
    if steps == [] then v
    else
      var step := steps[0];
      LastInserted(Apply(s, step, nxb), steps[1..], nxb, k,
                   if step.Insert? && s.tasks[step.task].key == k then s.tasks[step.task].points else v)
  }

  /** Over a whole run, whatever its interleaving, the bytes at a key are those of its last insert. */
  lemma {:induction false} RunRefines(s: State, steps: seq<Step>, nxb: nat, k: VoxelKey, v: Batch)
    requires Inv(s, nxb) && Runs(s, steps, nxb) && Visible(s, k, nxb) == Some(v)
    ensures Visible(After(s, steps, nxb), k, nxb) == Some(LastInserted(s, steps, nxb, k, v))
    decreases |steps|
  {
    if steps != [] {
      var step := steps[0];
      StepKeeps(s, step, nxb);
      StepRefines(s, step, nxb, k);
      RunRefines(Apply(s, step, nxb), steps[1..], nxb, k,
                 if step.Insert? && s.tasks[step.task].key == k then s.tasks[step.task].points else v);
    }
  }

  /** Over a whole run from the empty store: a read that has returned gave what its lookup saw, and
      every key reads, from the bytes, as many points as its entry counts. */
  lemma RunIsMap(packCount: nat, taskCount: nat, steps: seq<Step>, nxb: nat, t: nat, k: VoxelKey)
    requires Runs(Initial(packCount, taskCount), steps, nxb)
    ensures var s := After(Initial(packCount, taskCount), steps, nxb);
            (t < |s.tasks| && s.tasks[t].Returned? ==> s.tasks[t].result == Some(s.tasks[t].seen)) &&
            Visible(s, k, nxb) == Some(LastInserted(Initial(packCount, taskCount), steps, nxb, k, [])) &&
            (if k in s.index then s.index[k].pointCount else 0) == |Visible(s, k, nxb).value|
  {
    InitialOk(packCount, taskCount, nxb);
    RunKeeps(Initial(packCount, taskCount), steps, nxb);
    RunRefines(Initial(packCount, taskCount), steps, nxb, k, []);
    var s := After(Initial(packCount, taskCount), steps, nxb);
    CountIsLength(s, nxb, k);
    VisibleIsContents(s, k, nxb);
    if t < |s.tasks| {
      assert TaskOk(s.packs, s.tasks[t], nxb);
    }
  }

  /** The task is a write of `points` to `key`, not yet in the index. */
  ghost predicate Writing(task: Task, key: VoxelKey, points: Batch) {
    (task.Serialized? || task.Appended?) && task.key == key && task.points == points
  }

  lemma WritingStep(s: State, step: Step, nxb: nat, t: nat, key: VoxelKey, points: Batch)
    requires Enabled(s, step, nxb) && t < |s.tasks| && Writing(s.tasks[t], key, points) && step != Insert(t)
    ensures t < |Apply(s, step, nxb).tasks| && Writing(Apply(s, step, nxb).tasks[t], key, points)
  {
  }

  lemma {:induction false} WritingRun(s: State, steps: seq<Step>, nxb: nat, t: nat, key: VoxelKey, points: Batch)
    requires Runs(s, steps, nxb) && t < |s.tasks| && Writing(s.tasks[t], key, points) && Insert(t) !in steps
    ensures t < |After(s, steps, nxb).tasks| && Writing(After(s, steps, nxb).tasks[t], key, points)
    decreases |steps|
  {
    if steps != [] {
      WritingStep(s, steps[0], nxb, t, key, points);
      WritingRun(Apply(s, steps[0], nxb), steps[1..], nxb, t, key, points);
    }
  }

  /** A write lands: once a task that began writing `points` to `key` inserts its entry, the bytes at
      `key` are exactly `points` and every other key reads as before the insert, whatever steps of
      other tasks came between. */
  lemma WriteLands(s: State, t: nat, key: VoxelKey, points: Batch, pack: nat, steps: seq<Step>, nxb: nat, k: VoxelKey)
    requires Inv(s, nxb) && Enabled(s, Serialize(t, key, points, pack), nxb)
    requires Runs(Apply(s, Serialize(t, key, points, pack), nxb), steps, nxb) && Insert(t) !in steps
    requires Enabled(After(Apply(s, Serialize(t, key, points, pack), nxb), steps, nxb), Insert(t), nxb)
    ensures var before := After(Apply(s, Serialize(t, key, points, pack), nxb), steps, nxb);
            Visible(Apply(before, Insert(t), nxb), k, nxb) == if k == key then Some(points) else Visible(before, k, nxb)
  {
    var s1 := Apply(s, Serialize(t, key, points, pack), nxb);
    StepKeeps(s, Serialize(t, key, points, pack), nxb);
    WritingRun(s1, steps, nxb, t, key, points);
    RunKeeps(s1, steps, nxb);
    StepRefines(After(s1, steps, nxb), Insert(t), nxb, k);
  }

  lemma GrowsStep(s: State, step: Step, nxb: nat)
    requires Enabled(s, step, nxb)
    ensures Grows(s.packs, Apply(s, step, nxb).packs)
  {
    forall p | 0 <= p < |s.packs| ensures s.packs[p].log[..|s.packs[p].log|] == s.packs[p].log {
    }
    match step
    case Append(t) =>
      var p := s.packs[s.tasks[t].pack];
      assert (p.log + [s.tasks[t].points])[..|p.log|] == p.log;
    case _ =>
  }

  /** A range that was indexed at any time of a run still holds the same append at its end. */
  lemma {:induction false} RangeNeverAltered(s: State, steps: seq<Step>, nxb: nat, loc: Location, points: Batch)
    requires Runs(s, steps, nxb) && LocOk(s.packs, loc, points)
    ensures LocOk(After(s, steps, nxb).packs, loc, points)
    decreases |steps|
  {
    if steps != [] {
      GrowsStep(s, steps[0], nxb);
      LocSurvives(s.packs, Apply(s, steps[0], nxb).packs, loc, points);
      RangeNeverAltered(Apply(s, steps[0], nxb), steps[1..], nxb, loc, points);
    }
  }

  /** The task is a read that saw `v`. */
  ghost predicate Saw(task: Task, v: Batch) {
    (task.Located? || task.Flushed? || task.Returned?) && task.seen == v
  }

  lemma SawStep(s: State, step: Step, nxb: nat, t: nat, v: Batch)
    requires Enabled(s, step, nxb) && t < |s.tasks| && Saw(s.tasks[t], v) && step != Finish(t)
    ensures t < |Apply(s, step, nxb).tasks| && Saw(Apply(s, step, nxb).tasks[t], v)
  {
  }

  lemma {:induction false} SawRun(s: State, steps: seq<Step>, nxb: nat, t: nat, v: Batch)
    requires Runs(s, steps, nxb) && t < |s.tasks| && Saw(s.tasks[t], v) && Finish(t) !in steps
    ensures t < |After(s, steps, nxb).tasks| && Saw(After(s, steps, nxb).tasks[t], v)
    decreases |steps|
  {
    if steps != [] {
      SawStep(s, steps[0], nxb, t, v);
      SawRun(Apply(s, steps[0], nxb), steps[1..], nxb, t, v);
    }
  }

  /** Linearisation of reads: whatever steps of other tasks come between the lookup of a read and
      its return, among them overwrites of the same key, the read returns what the bytes said at
      the lookup. */
  lemma ReadReturnsLookup(s: State, t: nat, key: VoxelKey, steps: seq<Step>, nxb: nat)
    requires Inv(s, nxb) && Enabled(s, Lookup(t, key), nxb)
    requires Runs(Apply(s, Lookup(t, key), nxb), steps, nxb) && Finish(t) !in steps
    ensures var s' := After(Apply(s, Lookup(t, key), nxb), steps, nxb);
            t < |s'.tasks| && (s'.tasks[t].Returned? ==> s'.tasks[t].result == Visible(s, key, nxb))
  {
    var s1 := Apply(s, Lookup(t, key), nxb);
    StepKeeps(s, Lookup(t, key), nxb);
    VisibleIsContents(s, key, nxb);
    SawRun(s1, steps, nxb, t, Contents(s.contents, key));
    RunKeeps(s1, steps, nxb);
    ReturnedSaw(After(s1, steps, nxb), nxb, t, Contents(s.contents, key));
  }

  /** A finished read returns what it saw. */
  lemma ReturnedSaw(s: State, nxb: nat, t: nat, v: Batch)
    requires Inv(s, nxb) && t < |s.tasks| && Saw(s.tasks[t], v)
    ensures s.tasks[t].Returned? ==> s.tasks[t].result == Some(v)
  {
    assert TaskOk(s.packs, s.tasks[t], nxb);
  }

  /** Flush the entry's pack, then read and decode its byte range. */
  method ReadLocation(packs: seq<Pack>, loc: Location, nxb: nat, ghost points: Batch)
    returns (flushed: seq<Pack>, found: Option<seq<RawPoint>>)
    requires PacksOk(packs, nxb) && LocOk(packs, loc, points)
    ensures PacksOk(flushed, nxb) && Grows(packs, flushed) && found == Some(points)
  {
    FlushThenRead(packs, loc, points, nxb);
    var p := packs[loc.pack];
    flushed := packs[loc.pack := FlushBytes(p, |p.buffer|)];
    found := ReadRange(flushed[loc.pack], loc, nxb);
  }

  /** Look the key up and read its entry; a missing key reads as empty. */
  method ReadKey(packs: seq<Pack>, index: map<VoxelKey, Location>, key: VoxelKey, nxb: nat, ghost contents: map<VoxelKey, Batch>)
    returns (flushed: seq<Pack>, found: Option<seq<RawPoint>>)
    requires PacksOk(packs, nxb) && IndexOk(packs, index, contents)
    ensures PacksOk(flushed, nxb) && IndexOk(flushed, index, contents) && |flushed| == |packs|
    ensures found == Some(Contents(contents, key))
  {
    if key !in index {
      return packs, Some([]);
    }
    assert LocOk(packs, index[key], contents[key]);
    flushed, found := ReadLocation(packs, index[key], nxb, contents[key]);
    IndexSurvives(packs, flushed, index, contents);
  }

  /** The store as one caller sees it: each operation runs its steps without interruption, and the
      class keeps the contract of `NodeStorage.NodeStore`. */
  class PackedNodeStore {
    var packs: seq<Pack>
    var index: map<VoxelKey, Location>
    const nxb: nat
    ghost var contents: map<VoxelKey, Batch>

    ghost predicate Valid()
      reads this
    {
      PacksOk(packs, nxb) && IndexOk(packs, index, contents)
    }

    constructor (packCount: nat, nxb: nat)
      ensures Valid() && |packs| == packCount && contents == map[] && this.nxb == nxb
    {
      packs := seq(packCount, _ => Pack([], [], 0, []));
      index, contents := map[], map[];
      this.nxb := nxb;
    }

    /** `write`: serialize, append to the thread's pack, point the index at the new range. */
    method Write(key: VoxelKey, points: Batch, pack: nat)
      requires Valid() && Uniform(points, nxb) && pack < |packs|
      modifies this
      ensures Valid() && |packs| == |old(packs)| && contents == old(contents)[key := points]
    {
      var buf := EncodeBatch(points);
      var p := packs[pack];
      var loc := Location(pack, p.cursor, |buf|, |points|, |p.log|);
      AppendOk(p, points, nxb);
      assert (p.log + [points])[..|p.log|] == p.log;
      OnePackChanges(packs, pack, AppendTo(p, points, buf), nxb);
      AppendLoc(packs, pack, points, buf, nxb);
      IndexSurvives(packs, packs[pack := AppendTo(p, points, buf)], index, contents);
      InsertIndex(packs[pack := AppendTo(p, points, buf)], index, contents, key, loc, points);
      packs := packs[pack := AppendTo(p, points, buf)];
      index, contents := index[key := loc], contents[key := points];
    }

    /** `read`: look up, flush the pack, read and decode the byte range. */
    method Read(key: VoxelKey) returns (points: Option<seq<RawPoint>>)
      requires Valid()
      modifies this`packs
      ensures Valid() && |packs| == |old(packs)| && points == Some(Contents(contents, key))
    {
      var flushed, found := ReadKey(packs, index, key, nxb, contents);
      packs, points := flushed, found;
    }

    method Count(key: VoxelKey) returns (n: nat)
      requires Valid()
      ensures n == |Contents(contents, key)|
    {
      if key in index {
        assert LocOk(packs, index[key], contents[key]);
      }
      n := if key in index then index[key].pointCount else 0;
    }
  }
}
