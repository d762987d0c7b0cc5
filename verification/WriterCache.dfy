/** The bounded LRU cache of append-mode chunk writers and the shard merge (src/octree.rs):
    whatever is evicted and reopened, every chunk file is the log of its appended batches. */
module WriterCache {
  import opened Bytes
  import opened Framing
  import opened Levels

  /** Chunk files of one directory. */
  class Directory {
    var files: map<nat, seq<U8>>

    constructor ()
      ensures files == map[]
    {
      files := map[];
    }
  }

  function BytesOf(m: map<nat, seq<U8>>, c: nat): seq<U8> {
    if c in m then m[c] else []
  }

  type Log = map<nat, seq<Batch>>

  function Batches(log: Log, c: nat): seq<Batch> {
    if c in log then log[c] else []
  }

  function Without(order: seq<nat>, c: nat): seq<nat> {
    if order == [] then []
    else if order[0] == c then order[1..] else [order[0]] + Without(order[1..], c)
  }

  function KeepLast(order: seq<nat>, n: nat): seq<nat> {
    if |order| <= n then order else order[|order| - n..]
  }

  /** The access order after touching a chunk: it becomes the most recent; opening it may drop
      the least recent ones to stay within the capacity. */
  function Touch(order: seq<nat>, capacity: nat, c: nat): seq<nat> {
    if c in order then Without(order, c) + [c]
    else KeepLast(order, Spare(capacity)) + [c]
  }

  lemma {:induction false} WithoutFacts(order: seq<nat>, c: nat)
    requires Distinct(order)
    ensures Distinct(Without(order, c)) && Elems(Without(order, c)) == Elems(order) - {c}
    ensures |Without(order, c)| == if c in order then |order| - 1 else |order|
  {
    if order != [] && order[0] != c {
      WithoutFacts(order[1..], c);
      var rest := Without(order[1..], c);
      assert Elems(rest) == Elems(order[1..]) - {c};
      assert order[0] !in Elems(rest);
      assert Elems([order[0]] + rest) == {order[0]} + Elems(rest);
      assert Elems(order) == {order[0]} + Elems(order[1..]);
    } else if order != [] {
      assert Elems(order) == {c} + Elems(order[1..]);
    }
  }

  /** Chunks by most recent access, over a whole history of accesses. */
  function Recency(history: seq<nat>): seq<nat> {
    if history == [] then []
    else
      var n := |history| - 1;
      Without(Recency(history[..n]), history[n]) + [history[n]]
  }

  lemma {:induction false} WithoutConcat(a: seq<nat>, b: seq<nat>, c: nat)
    ensures Without(a + b, c) == if c in a then Without(a, c) + b else a + Without(b, c)
  {
    if a == [] {
      assert a + b == b;
    } else if a[0] == c {
      assert (a + b)[1..] == a[1..] + b;
    } else {
      WithoutConcat(a[1..], b, c);
      assert (a + b)[1..] == a[1..] + b;
      assert a == [a[0]] + a[1..];
      Regroup([a[0]], Without(a[1..], c), b);
      Regroup([a[0]], a[1..], Without(b, c));
    }
  }

  lemma {:induction false} RecencyDistinct(history: seq<nat>)
    ensures Distinct(Recency(history))
  {
    if history != [] {
      var n := |history| - 1;
      RecencyDistinct(history[..n]);
      WithoutFacts(Recency(history[..n]), history[n]);
      assert history[n] !in Elems(Without(Recency(history[..n]), history[n]));
    }
  }

  lemma RecencyStep(history: seq<nat>, c: nat)
    ensures Recency(history + [c]) == Without(Recency(history), c) + [c]
  {
    assert (history + [c])[..|history|] == history;
  }

  /** The cache order is always the tail of the recency list, so evictions take the least
      recently used chunks. `cold` are the chunks accessed before but closed since. */
  lemma TouchIsLru(history: seq<nat>, cold: seq<nat>, order: seq<nat>, capacity: nat, c: nat)
    returns (cold': seq<nat>)
    requires Recency(history) == cold + order
    ensures Recency(history + [c]) == cold' + Touch(order, capacity, c)
  {
    RecencyStep(history, c);
    if c in order {
      RecencyDistinct(history);
      DistinctParts(cold, order, c);
      WithoutConcat(cold, order, c);
      cold' := cold;
      Regroup(cold, Without(order, c), [c]);
    } else {
      cold' := ColdAfterMiss(cold, order, Spare(capacity), c);
    }
  }

  lemma ColdAfterMiss(cold: seq<nat>, order: seq<nat>, keep: nat, c: nat) returns (cold': seq<nat>)
    requires c !in order
    ensures Without(cold + order, c) + [c] == cold' + (KeepLast(order, keep) + [c])
  {
    WithoutConcat(cold, order, c);
    WithoutAbsent(order, c);
    var older := if c in cold then Without(cold, c) else cold;
    var kept := KeepLast(order, keep);
    var dropped := order[..|order| - |kept|];
    cold' := older + dropped;
    assert order == dropped + kept;
    Regroup(older, dropped, kept);
    Regroup(cold', kept, [c]);
  }

  lemma DistinctParts(a: seq<nat>, b: seq<nat>, c: nat)
    requires Distinct(a + b) && c in b
    ensures c !in a
  {
    var j :| 0 <= j < |b| && b[j] == c;
    assert (a + b)[|a| + j] == c;
    forall i | 0 <= i < |a| ensures a[i] != c {
      assert (a + b)[i] == a[i];
    }
  }

  lemma {:induction false} WithoutAbsent(order: seq<nat>, c: nat)
    requires c !in order
    ensures Without(order, c) == order
  {
    if order != [] {
      WithoutAbsent(order[1..], c);
    }
  }

  lemma {:induction false} WithoutIsRemoval(order: seq<nat>, c: nat, pos: nat)
    requires pos < |order| && order[pos] == c && c !in order[..pos]
    ensures Without(order, c) == order[..pos] + order[pos + 1..]
  {
    if pos > 0 {
      assert order[1..][..pos - 1] == order[..pos][1..];
      assert order[0] == order[..pos][0];
      WithoutIsRemoval(order[1..], c, pos - 1);
      assert order[..pos] == [order[0]] + order[1..][..pos - 1];
    }
  }

  type Files = map<nat, seq<U8>>

  /** What a chunk's file will hold once its writer is flushed. */
  function Content(files: Files, writers: Files, c: nat): seq<U8> {
    BytesOf(files, c) + BytesOf(writers, c)
  }

  /** Every chunk written so far has a file, and file plus buffer are the bytes appended to it. */
  ghost predicate Stored(files: Files, writers: Files, bytes: Files) {
    files.Keys == bytes.Keys && writers.Keys <= bytes.Keys &&
    forall c :: c in bytes ==> Content(files, writers, c) == bytes[c]
  }

  lemma FlushKeeps(files: Files, writers: Files, bytes: Files, v: nat)
    requires Stored(files, writers, bytes) && v in writers
    ensures Stored(files[v := BytesOf(files, v) + writers[v]], writers - {v}, bytes)
  {
    var files', writers' := files[v := BytesOf(files, v) + writers[v]], writers - {v};
    forall c | c in bytes ensures Content(files', writers', c) == bytes[c] {
      assert Content(files, writers, c) == bytes[c];
    }
  }

  /** Open for append: creates the file on first use, with an empty buffer. */
  lemma OpenKeeps(files: Files, writers: Files, bytes: Files, c: nat)
    requires Stored(files, writers, bytes) && c !in writers
    ensures Stored(files[c := BytesOf(files, c)], writers[c := []], bytes[c := BytesOf(bytes, c)])
  {
    var files', writers' := files[c := BytesOf(files, c)], writers[c := []];
    var bytes' := bytes[c := BytesOf(bytes, c)];
    forall d | d in bytes' ensures Content(files', writers', d) == bytes'[d] {
      assert d in bytes ==> Content(files, writers, d) == bytes[d];
    }
  }

  /** Append through the buffer, any part of which may reach the file at once. */
  lemma WriteKeeps(files: Files, writers: Files, bytes: Files, c: nat, w: seq<U8>, data: seq<U8>, cut: nat)
    requires Stored(files, writers, bytes) && c in writers && w == writers[c] + data && cut <= |w|
    ensures Stored(files[c := BytesOf(files, c) + w[..cut]], writers[c := w[cut..]], bytes[c := bytes[c] + data])
  {
    var files', writers' := files[c := BytesOf(files, c) + w[..cut]], writers[c := w[cut..]];
    var bytes' := bytes[c := bytes[c] + data];
    BufferCut(BytesOf(files, c), w, writers[c], data, cut);
    forall d | d in bytes' ensures Content(files', writers', d) == bytes'[d] {
      assert Content(files, writers, d) == bytes[d];
    }
  }

  lemma BufferCut(f: seq<U8>, w: seq<U8>, b: seq<U8>, data: seq<U8>, cut: nat)
    requires w == b + data && cut <= |w|
    ensures (f + w[..cut]) + w[cut..] == (f + b) + data
  {
    assert w[..cut] + w[cut..] == w;
  }

  lemma ListedRest(order: seq<nat>)
    requires order != [] && Distinct(order)
    ensures Distinct(order[1..]) && Elems(order[1..]) == Elems(order) - {order[0]}
  {
    assert order == [order[0]] + order[1..];
  }

  /** `order` is what is left of `order0` after evicting from the front, never below `keep`. */
  predicate Evicted(order0: seq<nat>, order: seq<nat>, keep: nat) {
    |order| <= |order0| && order0[|order0| - |order|..] == order && (|order| >= keep || order == order0)
  }

  lemma EvictedStep(order0: seq<nat>, order: seq<nat>, keep: nat)
    requires Evicted(order0, order, keep) && |order| > keep
    ensures Evicted(order0, order[1..], keep)
  {
  }

  lemma EvictedEnough(order0: seq<nat>, order: seq<nat>, keep: nat)
    requires Evicted(order0, order, keep) && |order| <= keep
    ensures order == KeepLast(order0, keep)
  {
  }

  /** The access list, the open writers and the files of one cache agree. */
  ghost predicate Agree(order: seq<nat>, writers: Files, files: Files, bytes: Files) {
    Distinct(order) && Elems(order) == writers.Keys && Stored(files, writers, bytes)
  }

  lemma OpenCount(order: seq<nat>, writers: Files)
    requires Distinct(order) && Elems(order) == writers.Keys
    ensures |writers| == |order|
  {
    DistinctCount(order);
    assert |writers| == |writers.Keys|;
  }

  /** Flushing and closing the least recently used writer. */
  lemma EvictKeeps(order: seq<nat>, writers: Files, files: Files, bytes: Files, victim: nat)
    requires Agree(order, writers, files, bytes) && order != [] && victim == order[0]
    ensures victim in writers
    ensures Agree(order[1..], writers - {victim}, files[victim := BytesOf(files, victim) + writers[victim]], bytes)
  {
    assert victim in Elems(order);
    FlushKeeps(files, writers, bytes, victim);
    ListedRest(order);
  }

  /** The access list after a whole history of appends. */
  function OrderAfter(history: seq<nat>, capacity: nat): seq<nat> {
    if history == [] then []
    else Touch(OrderAfter(history[..|history| - 1], capacity), capacity, history[|history| - 1])
  }

  /** Over every history the open writers are the most recently used chunks, and there are never
      more than `capacity` of them (or one, when the capacity is 0). */
  lemma {:induction false} OpenWritersAreRecent(history: seq<nat>, capacity: nat) returns (cold: seq<nat>)
    ensures Recency(history) == cold + OrderAfter(history, capacity)
    ensures |OrderAfter(history, capacity)| <= capacity || |OrderAfter(history, capacity)| <= 1
  {
    if history == [] {
      cold := [];
    } else {
      var n := |history| - 1;
      var cold0 := OpenWritersAreRecent(history[..n], capacity);
      var order := OrderAfter(history[..n], capacity);
      cold := TouchIsLru(history[..n], cold0, order, capacity, history[n]);
      assert history[..n] + [history[n]] == history;
      RecentAreFew(history[..n], cold0, order, capacity, history[n]);
    }
  }

  lemma RecentAreFew(history: seq<nat>, cold: seq<nat>, order: seq<nat>, capacity: nat, next: nat)
    requires Recency(history) == cold + order && (|order| <= capacity || |order| <= 1)
    ensures |Touch(order, capacity, next)| <= capacity || |Touch(order, capacity, next)| <= 1
  {
    RecencyDistinct(history);
    DistinctTail(cold, order);
    TouchLength(order, capacity, next);
  }

  lemma DistinctTail(a: seq<nat>, b: seq<nat>)
    requires Distinct(a + b)
    ensures Distinct(b)
  {
    forall i, j | 0 <= i < j < |b| ensures b[i] != b[j] {
      assert (a + b)[|a| + i] == b[i] && (a + b)[|a| + j] == b[j];
    }
  }

  /** Every file holds exactly the batches appended to its chunk. */
  ghost predicate FilesHold(files: Files, log: Log) {
    files.Keys == log.Keys && forall c :: c in log ==> files[c] == EncodeBatches(log[c])
  }

  /** The lists agree and count the same writers. */
  ghost predicate Open(order: seq<nat>, writers: Files, files: Files, bytes: Files, all: set<nat>) {
    Agree(order, writers, files, bytes) && |writers| == |order| && writers.Keys <= all
  }

  /** Flush and close the least recently used writer. */
  method EvictOne(order: seq<nat>, writers: Files, files: Files, ghost bytes: Files, ghost all: set<nat>)
    returns (o: seq<nat>, w: Files, f: Files)
    requires Open(order, writers, files, bytes, all) && order != []
    ensures Open(o, w, f, bytes, all) && o == order[1..]
  {
    var victim := order[0];
    EvictKeeps(order, writers, files, bytes, victim);
    o, w, f := order[1..], writers - {victim}, files[victim := BytesOf(files, victim) + writers[victim]];
    OpenCount(o, w);
  }

  /** The eviction loop, on the cache's lists and files. */
  method EvictDown(order: seq<nat>, writers: Files, files: Files, capacity: nat, ghost bytes: Files)
    returns (o: seq<nat>, w: Files, f: Files)
    requires Agree(order, writers, files, bytes)
    ensures Agree(o, w, f, bytes) && w.Keys <= writers.Keys
    ensures o == KeepLast(order, Spare(capacity))
  {
    o, w, f := order, writers, files;
    OpenCount(o, w);
    while |w| >= capacity
      invariant Open(o, w, f, bytes, writers.Keys) && Evicted(order, o, Spare(capacity))
      decreases |o|
    {
      if o == [] {
        break;
      }
      EvictedStep(order, o, Spare(capacity));
      o, w, f := EvictOne(o, w, f, bytes, writers.Keys);
    }
    EvictedEnough(order, o, Spare(capacity));
  }

  /** Flush every open writer, in any order. */
  method FlushWriters(writers: Files, files: Files, ghost bytes: Files) returns (f: Files)
    requires Stored(files, writers, bytes)
    ensures Stored(f, map[], bytes)
  {
    var w := writers;
    f := files;
    while w != map[]
      invariant Stored(f, w, bytes)
      decreases |w|
    {
      var c :| c in w.Keys;
      FlushKeeps(f, w, bytes, c);
      w, f := w - {c}, f[c := BytesOf(f, c) + w[c]];
    }
  }

  method IndexOf(order: seq<nat>, c: nat) returns (pos: nat)
    requires c in order
    ensures pos < |order| && order[pos] == c && c !in order[..pos]
  {
    pos := 0;
    while order[pos] != c
      invariant pos < |order| && c !in order[..pos]
      invariant exists j :: pos <= j < |order| && order[j] == c
      decreases |order| - pos
    {
      assert order[..pos + 1] == order[..pos] + [order[pos]];
      pos := pos + 1;
    }
  }

  lemma TouchLength(order: seq<nat>, capacity: nat, c: nat)
    requires Distinct(order) && (|order| <= capacity || |order| <= 1)
    ensures |Touch(order, capacity, c)| <= capacity || |Touch(order, capacity, c)| <= 1
  {
    if c in order {
      WithoutFacts(order, c);
    }
  }

  /** Writers that stay open when a new one is opened. */
  function Spare(capacity: nat): nat {
    if capacity == 0 then 0 else capacity - 1
  }

  /** The recorded bytes are the encodings of the recorded batches. */
  ghost predicate Encodes(bytes: Files, log: Log) {
    bytes.Keys == log.Keys && forall c :: c in log ==> bytes[c] == EncodeBatches(log[c])
  }

  lemma EncodesSnoc(bytes: Files, log: Log, c: nat, b: Batch)
    requires Encodes(bytes, log)
    ensures Encodes(bytes[c := BytesOf(bytes, c) + EncodeBatch(b)], log[c := Batches(log, c) + [b]])
  {
    EncodeBatchesSnoc(Batches(log, c), b);
    assert BytesOf(bytes, c) == EncodeBatches(Batches(log, c));
  }

  /** The bounded cache. The ghost fields record the bytes and the batches appended per chunk. */
  class ChunkWriterCache {
    var writers: Files
    var order: seq<nat>
    const capacity: nat
    const dir: Directory
    ghost var bytes: Files
    ghost var log: Log

    constructor (capacity: nat, dir: Directory)
      requires dir.files == map[]
      ensures this.capacity == capacity && this.dir == dir && Valid() && log == map[]
    {
      writers, order := map[], [];
      this.capacity := capacity;
      this.dir := dir;
      bytes, log := map[], map[];
    }

    ghost predicate Valid()
      reads this, dir
    {
      Consistent() && Encodes(bytes, log) && (|order| <= capacity || |order| <= 1)
    }

    /** The lists and the files agree; the part of `Valid` that eviction keeps. */
    ghost predicate Consistent()
      reads this, dir
    {
      Agree(order, writers, dir.files, bytes)
    }

    /** Evict least recently used writers until one more fits. */
    method MakeRoom()
      requires Consistent()
      modifies this`writers, this`order, dir
      ensures Consistent() && writers.Keys <= old(writers.Keys)
      ensures order == KeepLast(old(order), Spare(capacity))
    {
      var o, w, f := EvictDown(order, writers, dir.files, capacity, bytes);
      order, writers, dir.files := o, w, f;
    }

    /** Move an open chunk to the back, or open it (evicting others if needed). */
    method Use(c: nat)
      requires Consistent()
      modifies this`writers, this`order, this`bytes, dir
      ensures Consistent() && c in writers && order == Touch(old(order), capacity, c)
      ensures bytes == old(bytes)[c := BytesOf(old(bytes), c)]
    {
      if c in writers {
        MoveToBack(c);
      } else {
        MakeRoom();
        OpenKeeps(dir.files, writers, bytes, c);
        ListedSnoc(order, c);
        dir.files := dir.files[c := BytesOf(dir.files, c)];
        writers, order := writers[c := []], order + [c];
        bytes := bytes[c := BytesOf(bytes, c)];
      }
    }

    method MoveToBack(c: nat)
      requires Consistent() && c in writers
      modifies this`order
      ensures Consistent() && order == Without(old(order), c) + [c]
    {
      assert c in Elems(order);
      var pos := IndexOf(order, c);
      WithoutIsRemoval(order, c, pos);
      WithoutFacts(order, c);
      ListedSnoc(Without(order, c), c);
      order := order[..pos] + order[pos + 1..] + [c];
    }

    /** Write a batch through the open writer; any part of the buffer may reach the file. */
    method WriteBuffered(c: nat, data: seq<U8>)
      requires Consistent() && c in writers
      modifies this`writers, this`bytes, dir
      ensures Consistent() && bytes == old(bytes)[c := BytesOf(old(bytes), c) + data]
      ensures writers.Keys == old(writers.Keys)
    {
      var w := writers[c] + data;
      var cut: nat :| cut <= |w|;
      WriteKeeps(dir.files, writers, bytes, c, w, data, cut);
      dir.files := dir.files[c := BytesOf(dir.files, c) + w[..cut]];
      writers := writers[c := w[cut..]];
      bytes := bytes[c := bytes[c] + data];
    }

    /** Use the chunk's writer and write through it. */
    method WriteTo(c: nat, data: seq<U8>)
      requires Consistent()
      modifies this`writers, this`order, this`bytes, dir
      ensures Consistent() && order == Touch(old(order), capacity, c)
      ensures bytes == old(bytes)[c := BytesOf(old(bytes), c) + data]
    {
      ghost var bytes0 := bytes;
      Use(c);
      WriteBuffered(c, data);
      PutTwice(bytes0, c, data);
    }

    /** `append`: one more batch in the chunk's log, whatever had to be evicted or reopened. */
    method Append(c: nat, points: Batch)
      requires Valid()
      modifies this, dir
      ensures Valid()
      ensures points == [] ==> log == old(log) && order == old(order)
      ensures points != [] ==> log == old(log)[c := Batches(old(log), c) + [points]] &&
                               order == Touch(old(order), capacity, c)
    {
      if points == [] {
        return;
      }
      EncodesSnoc(bytes, log, c, points);
      OrderDistinct(order, writers, dir.files, bytes);
      TouchLength(order, capacity, c);
      ghost var log' := log[c := Batches(log, c) + [points]];
      WriteTo(c, EncodeBatch(points));
      log := log';
    }

    /** `flush_all`: every file now holds exactly its appended batches. */
    method FlushAll()
      requires Valid()
      modifies this, dir
      ensures Valid() && order == [] && writers == map[] && log == old(log)
      ensures FilesHold(dir.files, log)
    {
      var f := FlushWriters(writers, dir.files, bytes);
      FlushedFiles(f, bytes, log);
      NothingOpen(f, bytes);
      writers, order, dir.files := map[], [], f;
    }
  }

  lemma NothingOpen(files: Files, bytes: Files)
    requires Stored(files, map[], bytes)
    ensures Agree([], map[], files, bytes)
  {
    var none: Files := map[];
    assert Elems<nat>([]) == none.Keys;
  }

  lemma OrderDistinct(order: seq<nat>, writers: Files, files: Files, bytes: Files)
    requires Agree(order, writers, files, bytes)
    ensures Distinct(order)
  {
  }

  lemma PutTwice(bytes: Files, c: nat, data: seq<U8>)
    ensures var m := bytes[c := BytesOf(bytes, c)];
            m[c := BytesOf(m, c) + data] == bytes[c := BytesOf(bytes, c) + data]
  {
  }

  lemma FlushedFiles(files: Files, bytes: Files, log: Log)
    requires Stored(files, map[], bytes) && Encodes(bytes, log)
    ensures FilesHold(files, log)
  {
    forall c | c in log ensures files[c] == EncodeBatches(log[c]) {
      assert Content(files, map[], c) == bytes[c];
    }
  }

  lemma ListedSnoc(order: seq<nat>, c: nat)
    requires Distinct(order) && c !in order
    ensures Distinct(order + [c]) && Elems(order + [c]) == Elems(order) + {c}
  {
  }
}
