/** Parallel tasks on one store, each touching only keys it owns: whatever the schedule, every task
    sees what it would see alone. `ParallelTasks` shows that the subtree builds and the merge groups
    are such tasks. */
module Interleaving {
  import opened Voxel

  /** What a task does next; `Skip` is a step on its own state only. */
  datatype Request<V> = Get(key: VoxelKey) | Put(key: VoxelKey, value: V) | Skip | Halt

  /** A deterministic task program: its next request, and its state after the request (with the
      value found, for a read). `owner` says which task may touch a key. */
  datatype Program<!L, !V> = Program(next: (nat, L) -> Request<V>, resume: (nat, L, Option<V>) -> L, owner: VoxelKey -> nat)

  datatype State<L, V> = State(store: map<VoxelKey, V>, locals: seq<L>)

  /** Tasks request only keys they own. */
  ghost predicate KeepsToOwn<L(!new), V>(p: Program<L, V>) {
    forall i: nat, l: L :: p.next(i, l).Get? || p.next(i, l).Put? ==> p.owner(p.next(i, l).key) == i
  }

  function Lookup<V>(m: map<VoxelKey, V>, k: VoxelKey): Option<V> {
    if k in m then Some(m[k]) else None
  }

  /** One atomic step of task `i`. */
  function Step<L, V>(p: Program<L, V>, s: State<L, V>, i: nat): (s': State<L, V>)
    ensures |s'.locals| == |s.locals|
  {
    if i >= |s.locals| then s
    else
      var l := s.locals[i];
      match p.next(i, l)
      case Halt => s
      case Skip => State(s.store, s.locals[i := p.resume(i, l, None)])
      case Get(k) => State(s.store, s.locals[i := p.resume(i, l, Lookup(s.store, k))])
      case Put(k, v) => State(s.store[k := v], s.locals[i := p.resume(i, l, None)])
  }

  function Run<L, V>(p: Program<L, V>, s: State<L, V>, schedule: seq<nat>): (s': State<L, V>)
    ensures |s'.locals| == |s.locals|
  {
    if schedule == [] then s
    else Step(p, Run(p, s, schedule[..|schedule| - 1]), schedule[|schedule| - 1])
  }

  /** Task `i` alone, for `n` steps. */
  function Solo<L, V>(p: Program<L, V>, s: State<L, V>, i: nat, n: nat): (s': State<L, V>)
    ensures |s'.locals| == |s.locals|
  {
    if n == 0 then s else Step(p, Solo(p, s, i, n - 1), i)
  }

  function Turns(schedule: seq<nat>, i: nat): nat {
    if schedule == [] then 0
    else Turns(schedule[..|schedule| - 1], i) + if schedule[|schedule| - 1] == i then 1 else 0
  }

  /** The two states look alike to task `i`: its own state and the keys it owns. */
  ghost predicate AlikeTo<L(!new), V(!new)>(p: Program<L, V>, a: State<L, V>, b: State<L, V>, i: nat) {
    |a.locals| == |b.locals| && (i < |a.locals| ==> a.locals[i] == b.locals[i]) &&
    forall k :: p.owner(k) == i ==> Lookup(a.store, k) == Lookup(b.store, k)
  }

  lemma OwnStep<L(!new), V(!new)>(p: Program<L, V>, a: State<L, V>, b: State<L, V>, i: nat)
    requires KeepsToOwn(p) && AlikeTo(p, a, b, i)
    ensures AlikeTo(p, Step(p, a, i), Step(p, b, i), i)
  {
  }

  lemma OtherStep<L(!new), V(!new)>(p: Program<L, V>, a: State<L, V>, b: State<L, V>, i: nat, j: nat)
    requires KeepsToOwn(p) && AlikeTo(p, a, b, i) && j != i
    ensures AlikeTo(p, Step(p, a, j), b, i)
  {
  }

  /** After any schedule, task `i` and the keys it owns are as if it had run alone for its number
      of turns. */
  lemma {:induction false} RunsAsAlone<L(!new), V(!new)>(p: Program<L, V>, s: State<L, V>, schedule: seq<nat>, i: nat)
    requires KeepsToOwn(p)
    ensures AlikeTo(p, Run(p, s, schedule), Solo(p, s, i, Turns(schedule, i)), i)
  {
    if schedule != [] {
      var n := |schedule| - 1;
      RunsAsAlone(p, s, schedule[..n], i);
      var before := Run(p, s, schedule[..n]);
      if schedule[n] == i {
        OwnStep(p, before, Solo(p, s, i, Turns(schedule[..n], i)), i);
      } else {
        OtherStep(p, before, Solo(p, s, i, Turns(schedule[..n], i)), i, schedule[n]);
      }
    }
  }
}
