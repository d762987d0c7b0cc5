/** The tasks that run in parallel on the node store: subtree builds, which only write below their
    own root, and merge groups, which read and write one family. Each keeps to the keys below its
    root, so whatever the schedule the store ends as if they had run one after another. */
module ParallelTasks {
  import opened Voxel
  import opened Points
  import opened NodeMap
  import opened Levels
  import opened Merge
  import opened Interleaving

  /** One store access of a task. The last two write what the task computes from all it has loaded:
      the list left to one child, or the parent's points, if there are any. */
  datatype Instr =
    | Write(key: VoxelKey, points: seq<RawPoint>)
    | Load(key: VoxelKey)
    | EmitChild(key: VoxelKey, ci: nat)
    | EmitParent(key: VoxelKey)

  /** How loaded lists are redistributed: the parent's points and the children's lists. */
  type Sampler = seq<seq<RawPoint>> -> (seq<RawPoint>, seq<seq<RawPoint>>)

  datatype Task = Task(script: seq<Instr>, sample: Sampler)

  datatype Local = Local(pc: nat, loaded: seq<seq<RawPoint>>)

  type TaskState = State<Local, seq<RawPoint>>

  type TaskProgram = Program<Local, seq<RawPoint>>

  /** Every access of the script is at or below `root`. */
  ghost predicate Scoped(script: seq<Instr>, root: VoxelKey) {
    forall j :: 0 <= j < |script| ==> Under(script[j].key, root)
  }

  /** No root is at or below another. */
  ghost predicate Separate(roots: seq<VoxelKey>) {
    forall i, j :: 0 <= i < |roots| && 0 <= j < |roots| && i != j ==> !Under(roots[i], roots[j])
  }

  /** The task below whose root a key lies. */
  function OwnerOf(roots: seq<VoxelKey>, k: VoxelKey, i: nat): nat
    requires i <= |roots|
    decreases |roots| - i
  {
    if i == |roots| then i else if Under(k, roots[i]) then i else OwnerOf(roots, k, i + 1)
  }

  lemma {:induction false} OwnerIs(roots: seq<VoxelKey>, k: VoxelKey, from: nat, i: nat)
    requires Separate(roots) && from <= i < |roots| && Under(k, roots[i])
    ensures OwnerOf(roots, k, from) == i
    decreases |roots| - from
  {
    if from < i {
      NotBoth(roots, k, i, from);
      OwnerIs(roots, k, from + 1, i);
    }
  }

  lemma NotBoth(roots: seq<VoxelKey>, k: VoxelKey, i: nat, j: nat)
    requires Separate(roots) && i < |roots| && j < |roots| && i != j && Under(k, roots[i])
    ensures !Under(k, roots[j])
  {
    if Under(k, roots[j]) {
      if roots[i].level <= roots[j].level {
        AncestorsComparable(k, roots[j], roots[i]);
      } else {
        AncestorsComparable(k, roots[i], roots[j]);
      }
    }
  }

  /** Any tasks, whatever they compute, that stay below un-nested roots keep to keys of their own. */
  lemma ScopedKeepsToOwn<L(!new)>(roots: seq<VoxelKey>, p: Program<L, seq<RawPoint>>)
    requires Separate(roots) && forall k :: p.owner(k) == OwnerOf(roots, k, 0)
    requires forall i: nat, l: L :: p.next(i, l).Get? || p.next(i, l).Put? ==>
               i < |roots| && Under(p.next(i, l).key, roots[i])
    ensures KeepsToOwn(p)
  {
    forall i: nat, l: L | p.next(i, l).Get? || p.next(i, l).Put? ensures p.owner(p.next(i, l).key) == i {
      OwnerIs(roots, p.next(i, l).key, 0, i);
    }
  }

  /** The request of one access, given what has been loaded. */
  function RequestOf(t: Task, ins: Instr, loaded: seq<seq<RawPoint>>): Request<seq<RawPoint>> {
    match ins
    case Write(k, points) => Put(k, points)
    case Load(k) => Request.Get(k)
    case EmitChild(k, ci) => if ci < |t.sample(loaded).1| then Put(k, t.sample(loaded).1[ci]) else Skip
    case EmitParent(k) => if t.sample(loaded).0 == [] then Skip else Put(k, t.sample(loaded).0)
  }

  function NextOf(tasks: seq<Task>, i: nat, l: Local): Request<seq<RawPoint>> {
    if i >= |tasks| || l.pc >= |tasks[i].script| then Halt else RequestOf(tasks[i], tasks[i].script[l.pc], l.loaded)
  }

  /** A node that was never written loads as empty. */
  function ResumeOf(tasks: seq<Task>, i: nat, l: Local, found: Option<seq<RawPoint>>): Local {
    if i >= |tasks| || l.pc >= |tasks[i].script| then l
    else if tasks[i].script[l.pc].Load? then Local(l.pc + 1, l.loaded + [if found.Some? then found.value else []])
    else Local(l.pc + 1, l.loaded)
  }

  function ProgramOf(roots: seq<VoxelKey>, tasks: seq<Task>): TaskProgram {
    Program((i: nat, l: Local) => NextOf(tasks, i, l),
            (i: nat, l: Local, found: Option<seq<RawPoint>>) => ResumeOf(tasks, i, l, found),
            (k: VoxelKey) => OwnerOf(roots, k, 0))
  }

  /** Tasks on un-nested regions. */
  ghost predicate OnRegions(roots: seq<VoxelKey>, tasks: seq<Task>) {
    |tasks| == |roots| && Separate(roots) && forall i :: 0 <= i < |tasks| ==> Scoped(tasks[i].script, roots[i])
  }

  /** Such tasks request only keys they own, reads included. */
  lemma TasksKeepToOwn(roots: seq<VoxelKey>, tasks: seq<Task>)
    requires OnRegions(roots, tasks)
    ensures KeepsToOwn(ProgramOf(roots, tasks))
  {
    var p := ProgramOf(roots, tasks);
    forall i: nat, l: Local | p.next(i, l).Get? || p.next(i, l).Put?
      ensures i < |roots| && Under(p.next(i, l).key, roots[i])
    {
      assert Scoped(tasks[i].script, roots[i]);
    }
    ScopedKeepsToOwn(roots, p);
  }

  function Begin(m: Nodes, n: nat): (s: TaskState)
    ensures |s.locals| == n && forall i :: 0 <= i < n ==> s.locals[i] == Local(0, [])
  {
    State(m, seq(n, _ => Local(0, [])))
  }

  /** Every task has had enough turns to finish. */
  ghost predicate AllDone(tasks: seq<Task>, schedule: seq<nat>) {
    forall i: nat :: i < |tasks| ==> Turns(schedule, i) >= |tasks[i].script|
  }

  /** Task `i` of any program, alone, before its access number `pc`: the store and the loads so far. */
  ghost predicate Stands(p: TaskProgram, s: TaskState, i: nat, pc: nat, m: Nodes, loaded: seq<seq<RawPoint>>) {
    i < |s.locals| && Solo(p, s, i, pc).store == m && Solo(p, s, i, pc).locals[i] == Local(pc, loaded)
  }

  ghost predicate Puts(p: TaskProgram, i: nat, pc: nat, loaded: seq<seq<RawPoint>>, k: VoxelKey, v: seq<RawPoint>) {
    p.next(i, Local(pc, loaded)) == Put(k, v) && p.resume(i, Local(pc, loaded), None) == Local(pc + 1, loaded)
  }

  ghost predicate Skips(p: TaskProgram, i: nat, pc: nat, loaded: seq<seq<RawPoint>>) {
    p.next(i, Local(pc, loaded)) == Skip && p.resume(i, Local(pc, loaded), None) == Local(pc + 1, loaded)
  }

  /** Loading key `k`, which the store `m` reads as its node or as empty. */
  ghost predicate Loads(p: TaskProgram, i: nat, pc: nat, loaded: seq<seq<RawPoint>>, k: VoxelKey, m: Nodes) {
    p.next(i, Local(pc, loaded)) == Request.Get(k) &&
    p.resume(i, Local(pc, loaded), Lookup(m, k)) == Local(pc + 1, loaded + [NodeMap.Get(m, k)])
  }

  lemma TakePut(p: TaskProgram, s: TaskState, i: nat, pc: nat, m: Nodes, loaded: seq<seq<RawPoint>>, k: VoxelKey, v: seq<RawPoint>)
    requires Stands(p, s, i, pc, m, loaded) && Puts(p, i, pc, loaded, k, v)
    ensures Stands(p, s, i, pc + 1, m[k := v], loaded)
  {
    assert Solo(p, s, i, pc + 1) == Step(p, Solo(p, s, i, pc), i);
  }

  lemma TakeSkip(p: TaskProgram, s: TaskState, i: nat, pc: nat, m: Nodes, loaded: seq<seq<RawPoint>>)
    requires Stands(p, s, i, pc, m, loaded) && Skips(p, i, pc, loaded)
    ensures Stands(p, s, i, pc + 1, m, loaded)
  {
    assert Solo(p, s, i, pc + 1) == Step(p, Solo(p, s, i, pc), i);
  }

  lemma TakeLoad(p: TaskProgram, s: TaskState, i: nat, pc: nat, m: Nodes, loaded: seq<seq<RawPoint>>, k: VoxelKey)
    requires Stands(p, s, i, pc, m, loaded) && Loads(p, i, pc, loaded, k, m)
    ensures Stands(p, s, i, pc + 1, m, loaded + [NodeMap.Get(m, k)])
  {
    assert Solo(p, s, i, pc + 1) == Step(p, Solo(p, s, i, pc), i);
  }

  lemma {:induction false} CountsUp(roots: seq<VoxelKey>, tasks: seq<Task>, s: TaskState, i: nat, n: nat)
    requires i < |s.locals| == |tasks| && s.locals[i].pc == 0 && n <= |tasks[i].script|
    ensures Solo(ProgramOf(roots, tasks), s, i, n).locals[i].pc == n
  {
    if n > 0 {
      CountsUp(roots, tasks, s, i, n - 1);
    }
  }

  /** A finished task does nothing more. */
  lemma {:induction false} DoneAlone(roots: seq<VoxelKey>, tasks: seq<Task>, s: TaskState, i: nat, n: nat)
    requires i < |s.locals| == |tasks| && s.locals[i].pc == 0 && n >= |tasks[i].script|
    ensures Solo(ProgramOf(roots, tasks), s, i, n) == Solo(ProgramOf(roots, tasks), s, i, |tasks[i].script|)
  {
    if n > |tasks[i].script| {
      DoneAlone(roots, tasks, s, i, n - 1);
      CountsUp(roots, tasks, s, i, |tasks[i].script|);
    }
  }

  lemma {:induction false} NoSuchTask(p: TaskProgram, s: TaskState, i: nat, n: nat)
    requires i >= |s.locals|
    ensures Solo(p, s, i, n) == s
  {
    if n > 0 {
      NoSuchTask(p, s, i, n - 1);
    }
  }

  /** What task `i` leaves when it runs alone; a key below no task's root keeps what it had. */
  ghost function AloneStore(roots: seq<VoxelKey>, tasks: seq<Task>, m: Nodes, i: nat): Nodes {
    if i < |tasks| then Solo(ProgramOf(roots, tasks), Begin(m, |tasks|), i, |tasks[i].script|).store else m
  }

  /** After any complete schedule a key reads as its owner alone would have left it. */
  lemma ReadsAsAlone(roots: seq<VoxelKey>, tasks: seq<Task>, m: Nodes, schedule: seq<nat>, k: VoxelKey)
    requires OnRegions(roots, tasks) && AllDone(tasks, schedule)
    ensures Lookup(Run(ProgramOf(roots, tasks), Begin(m, |tasks|), schedule).store, k) ==
            Lookup(AloneStore(roots, tasks, m, OwnerOf(roots, k, 0)), k)
  {
    var p, s, i := ProgramOf(roots, tasks), Begin(m, |tasks|), OwnerOf(roots, k, 0);
    TasksKeepToOwn(roots, tasks);
    RunsAsAlone(p, s, schedule, i);
    assert p.owner(k) == i;
    if i < |tasks| {
      DoneAlone(roots, tasks, s, i, Turns(schedule, i));
    } else {
      NoSuchTask(p, s, i, Turns(schedule, i));
    }
  }

  /** Whatever the interleaving of their accesses, complete schedules leave the same store. */
  lemma AnySchedule(roots: seq<VoxelKey>, tasks: seq<Task>, m: Nodes, a: seq<nat>, b: seq<nat>)
    requires OnRegions(roots, tasks) && AllDone(tasks, a) && AllDone(tasks, b)
    ensures var p, s := ProgramOf(roots, tasks), Begin(m, |tasks|); Run(p, s, a).store == Run(p, s, b).store
  {
    var p, s := ProgramOf(roots, tasks), Begin(m, |tasks|);
    var x, y := Run(p, s, a).store, Run(p, s, b).store;
    forall k ensures Lookup(x, k) == Lookup(y, k) {
      ReadsAsAlone(roots, tasks, m, a, k);
      ReadsAsAlone(roots, tasks, m, b, k);
    }
    SameLookups(x, y);
  }

  lemma SameLookups(x: Nodes, y: Nodes)
    requires forall k :: Lookup(x, k) == Lookup(y, k)
    ensures x == y
  {
    forall k ensures (k in x <==> k in y) && (k in x ==> x[k] == y[k]) {
      assert Lookup(x, k) == Lookup(y, k);
    }
  }

  /** A subtree build as its store accesses: it writes every node of the finished subtree. */
  ghost predicate WritesOut(script: seq<Instr>, built: Nodes) {
    (forall j :: 0 <= j < |script| ==> script[j].Write? && script[j].key in built && script[j].points == built[script[j].key]) &&
    (forall k :: k in built ==> exists j :: 0 <= j < |script| && script[j].key == k)
  }

  /** The nodes written by the first `n` accesses. */
  function Written(script: seq<Instr>, n: nat, m: Nodes): Nodes
    requires n <= |script|
  {
    if n == 0 then m
    else if script[n - 1].Write? then Written(script, n - 1, m)[script[n - 1].key := script[n - 1].points]
    else Written(script, n - 1, m)
  }

  lemma {:induction false} WritesAlone(p: TaskProgram, s: TaskState, i: nat, script: seq<Instr>, m: Nodes, n: nat)
    requires Stands(p, s, i, 0, m, []) && n <= |script|
    requires forall j :: 0 <= j < |script| ==> script[j].Write? && Puts(p, i, j, [], script[j].key, script[j].points)
    ensures Stands(p, s, i, n, Written(script, n, m), [])
  {
    if n > 0 {
      WritesAlone(p, s, i, script, m, n - 1);
      TakePut(p, s, i, n - 1, Written(script, n - 1, m), [], script[n - 1].key, script[n - 1].points);
    }
  }

  lemma SubtreeAlone(roots: seq<VoxelKey>, tasks: seq<Task>, m: Nodes, i: nat, built: Nodes)
    requires i < |tasks| && WritesOut(tasks[i].script, built)
    ensures AloneStore(roots, tasks, m, i) == Written(tasks[i].script, |tasks[i].script|, m)
  {
    var p := ProgramOf(roots, tasks);
    forall j: nat | j < |tasks[i].script| ensures Puts(p, i, j, [], tasks[i].script[j].key, tasks[i].script[j].points) {
    }
    WritesAlone(p, Begin(m, |tasks|), i, tasks[i].script, m, |tasks[i].script|);
  }

  lemma {:induction false} WrittenReads(script: seq<Instr>, n: nat, m: Nodes, built: Nodes, k: VoxelKey)
    requires n <= |script| && WritesOut(script, built)
    ensures Lookup(Written(script, n, m), k) ==
            if exists j :: 0 <= j < n && script[j].key == k then Lookup(built, k) else Lookup(m, k)
  {
    if n > 0 {
      WrittenReads(script, n - 1, m, built, k);
    }
  }

  /** Parallel subtree builds: after any complete schedule every subtree is in the store exactly as
      its task built it, and nothing else has changed. */
  lemma SubtreesInParallel(roots: seq<VoxelKey>, tasks: seq<Task>, builts: seq<Nodes>, m: Nodes, schedule: seq<nat>, k: VoxelKey)
    requires OnRegions(roots, tasks) && AllDone(tasks, schedule) && |builts| == |tasks|
    requires forall i :: 0 <= i < |tasks| ==> WritesOut(tasks[i].script, builts[i])
    ensures var m', i := Run(ProgramOf(roots, tasks), Begin(m, |tasks|), schedule).store, OwnerOf(roots, k, 0);
            Lookup(m', k) == Lookup(if i < |builts| then m + builts[i] else m, k)
  {
    var i := OwnerOf(roots, k, 0);
    ReadsAsAlone(roots, tasks, m, schedule, k);
    if i < |tasks| {
      var n := |tasks[i].script|;
      SubtreeAlone(roots, tasks, m, i, builts[i]);
      WrittenReads(tasks[i].script, n, m, builts[i], k);
    }
  }

  /** A merge group as its store accesses: read every child, write every child, write the parent. */
  ghost predicate FamilyScript(script: seq<Instr>, parent: VoxelKey, children: seq<VoxelKey>) {
    var n := |children|;
    |script| == n + n + 1 && script[n + n] == EmitParent(parent) &&
    (forall j: nat :: j < n ==> script[j] == Load(children[j])) &&
    (forall j: nat :: j < n ==> script[n + j] == EmitChild(children[j], j))
  }

  lemma FamilyScoped(script: seq<Instr>, parent: VoxelKey, children: seq<VoxelKey>)
    requires FamilyScript(script, parent, children) && Family(parent, children)
    ensures Scoped(script, parent)
  {
    var n := |children|;
    forall j: nat | j < |script| ensures Under(script[j].key, parent) {
      if j < n + n {
        var o: nat := if j < n then j else j - n;
        assert script[o] == Load(children[o]) && script[n + o] == EmitChild(children[o], o);
        assert children[o] in children;
        assert Under(children[o], parent);
      }
    }
  }

  lemma {:induction false} LoadsAlone(p: TaskProgram, s: TaskState, i: nat, children: seq<VoxelKey>, m: Nodes, n: nat)
    requires Stands(p, s, i, 0, m, []) && n <= |children|
    requires forall j: nat :: j < |children| ==> Loads(p, i, j, ChildLists(m, children)[..j], children[j], m)
    ensures Stands(p, s, i, n, m, ChildLists(m, children)[..n])
  {
    var lists := ChildLists(m, children);
    if n > 0 {
      LoadsAlone(p, s, i, children, m, n - 1);
      TakeLoad(p, s, i, n - 1, m, lists[..n - 1], children[n - 1]);
      assert lists[..n] == lists[..n - 1] + [lists[n - 1]];
    }
  }

  /** The sampling of a family's lists, as a result. */
  ghost predicate Samples(t: Task, m: Nodes, r: SampleResult) {
    |r.remaining| == |r.children| && t.sample(ChildLists(m, r.children)) == (r.parentPts, r.remaining) &&
    FamilyScript(t.script, r.parent, r.children)
  }

  lemma OneMore(m: Nodes, r: SampleResult, n: nat)
    requires 0 < n <= |r.children| == |r.remaining|
    ensures Rewritten(m, r, n) == Rewritten(m, r, n - 1)[r.children[n - 1] := r.remaining[n - 1]]
  {
  }

  lemma {:induction false} PutsAlone(p: TaskProgram, s: TaskState, i: nat, from: nat, m: Nodes, r: SampleResult,
                                     loaded: seq<seq<RawPoint>>, n: nat)
    requires Stands(p, s, i, from, m, loaded) && n <= |r.children| == |r.remaining|
    requires forall c: nat :: c < |r.children| ==> Puts(p, i, from + c, loaded, r.children[c], r.remaining[c])
    ensures Stands(p, s, i, from + n, Rewritten(m, r, n), loaded)
  {
    if n > 0 {
      PutsAlone(p, s, i, from, m, r, loaded, n - 1);
      OneMore(m, r, n);
      TakePut(p, s, i, from + (n - 1), Rewritten(m, r, n - 1), loaded, r.children[n - 1], r.remaining[n - 1]);
    }
  }

  /** The accesses of a merge group, in any program that takes them. */
  ghost predicate Merges(p: TaskProgram, i: nat, m: Nodes, r: SampleResult) {
    |r.remaining| == |r.children| &&
    var lists, n := ChildLists(m, r.children), |r.children|;
    (forall j: nat :: j < n ==> Loads(p, i, j, lists[..j], r.children[j], m)) &&
    (forall c: nat :: c < n ==> Puts(p, i, n + c, lists, r.children[c], r.remaining[c])) &&
    if r.parentPts == [] then Skips(p, i, n + n, lists) else Puts(p, i, n + n, lists, r.parent, r.parentPts)
  }

  lemma MergesAlone(p: TaskProgram, s: TaskState, i: nat, m: Nodes, r: SampleResult)
    requires Stands(p, s, i, 0, m, []) && Merges(p, i, m, r)
    ensures Stands(p, s, i, |r.children| + |r.children| + 1, AfterWrites(m, r), ChildLists(m, r.children))
  {
    var lists, n := ChildLists(m, r.children), |r.children|;
    LoadsAlone(p, s, i, r.children, m, n);
    assert lists[..n] == lists;
    PutsAlone(p, s, i, n, m, r, lists, n);
    if r.parentPts == [] {
      TakeSkip(p, s, i, n + n, Rewritten(m, r, n), lists);
    } else {
      TakePut(p, s, i, n + n, Rewritten(m, r, n), lists, r.parent, r.parentPts);
    }
  }

  lemma TakesLoad(roots: seq<VoxelKey>, tasks: seq<Task>, i: nat, j: nat, loaded: seq<seq<RawPoint>>, k: VoxelKey, m: Nodes)
    requires i < |tasks| && j < |tasks[i].script| && tasks[i].script[j] == Load(k)
    ensures Loads(ProgramOf(roots, tasks), i, j, loaded, k, m)
  {
  }

  lemma TakesPut(roots: seq<VoxelKey>, tasks: seq<Task>, i: nat, j: nat, loaded: seq<seq<RawPoint>>, k: VoxelKey, v: seq<RawPoint>)
    requires i < |tasks| && j < |tasks[i].script| && RequestOf(tasks[i], tasks[i].script[j], loaded) == Put(k, v)
    ensures Puts(ProgramOf(roots, tasks), i, j, loaded, k, v)
  {
  }

  lemma TakesParent(roots: seq<VoxelKey>, tasks: seq<Task>, i: nat, j: nat, loaded: seq<seq<RawPoint>>, k: VoxelKey, v: seq<RawPoint>)
    requires i < |tasks| && j < |tasks[i].script| && tasks[i].script[j] == EmitParent(k) && tasks[i].sample(loaded).0 == v
    ensures if v == [] then Skips(ProgramOf(roots, tasks), i, j, loaded) else Puts(ProgramOf(roots, tasks), i, j, loaded, k, v)
  {
  }

  lemma FamilyLoads(roots: seq<VoxelKey>, tasks: seq<Task>, m: Nodes, i: nat, r: SampleResult, j: nat)
    requires i < |tasks| && FamilyScript(tasks[i].script, r.parent, r.children) && j < |r.children|
    ensures Loads(ProgramOf(roots, tasks), i, j, ChildLists(m, r.children)[..j], r.children[j], m)
  {
    TakesLoad(roots, tasks, i, j, ChildLists(m, r.children)[..j], r.children[j], m);
  }

  lemma FamilyPuts(roots: seq<VoxelKey>, tasks: seq<Task>, m: Nodes, i: nat, r: SampleResult, c: nat)
    requires i < |tasks| && Samples(tasks[i], m, r) && c < |r.children|
    ensures Puts(ProgramOf(roots, tasks), i, |r.children| + c, ChildLists(m, r.children), r.children[c], r.remaining[c])
  {
    assert tasks[i].script[|r.children| + c] == EmitChild(r.children[c], c);
    TakesPut(roots, tasks, i, |r.children| + c, ChildLists(m, r.children), r.children[c], r.remaining[c]);
  }

  lemma FamilyTakes(roots: seq<VoxelKey>, tasks: seq<Task>, m: Nodes, i: nat, r: SampleResult, p: TaskProgram)
    requires i < |tasks| && Samples(tasks[i], m, r) && p == ProgramOf(roots, tasks)
    ensures Merges(p, i, m, r)
  {
    var lists, n := ChildLists(m, r.children), |r.children|;
    forall j: nat | j < n ensures Loads(p, i, j, lists[..j], r.children[j], m) {
      FamilyLoads(roots, tasks, m, i, r, j);
    }
    forall c: nat | c < n ensures Puts(p, i, n + c, lists, r.children[c], r.remaining[c]) {
      FamilyPuts(roots, tasks, m, i, r, c);
    }
    TakesParent(roots, tasks, i, n + n, lists, r.parent, r.parentPts);
  }

  /** A merge group alone does what `Merge.WriteResult` does with its sampling. */
  lemma FamilyAlone(roots: seq<VoxelKey>, tasks: seq<Task>, m: Nodes, i: nat, r: SampleResult)
    requires i < |tasks| && Samples(tasks[i], m, r)
    ensures AloneStore(roots, tasks, m, i) == AfterWrites(m, r)
  {
    var p, s := ProgramOf(roots, tasks), Begin(m, |tasks|);
    FamilyTakes(roots, tasks, m, i, r, p);
    MergesAlone(p, s, i, m, r);
  }

  /** Parallel merge groups: after any complete schedule every family reads as if its group had run
      alone on the store the level started from. */
  lemma FamiliesInParallel(parents: seq<VoxelKey>, tasks: seq<Task>, results: seq<SampleResult>, m: Nodes, schedule: seq<nat>,
                           i: nat, k: VoxelKey)
    requires |results| == |tasks| == |parents| && Separate(parents) && AllDone(tasks, schedule)
    requires forall j :: 0 <= j < |parents| ==>
               results[j].parent == parents[j] && Family(parents[j], results[j].children) && Samples(tasks[j], m, results[j])
    requires i < |parents| && Under(k, parents[i]) && |results[i].remaining| == |results[i].children|
    ensures Lookup(Run(ProgramOf(parents, tasks), Begin(m, |tasks|), schedule).store, k) == Lookup(AfterWrites(m, results[i]), k)
  {
    forall j | 0 <= j < |tasks| ensures Scoped(tasks[j].script, parents[j]) {
      FamilyScoped(tasks[j].script, parents[j], results[j].children);
    }
    OwnerIs(parents, k, 0, i);
    ReadsAsAlone(parents, tasks, m, schedule, k);
    FamilyAlone(parents, tasks, m, i, results[i]);
  }
}
