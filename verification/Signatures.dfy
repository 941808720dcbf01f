/** Which definitions `resume` takes for the same: what a signature tells apart, and what it does not. */
module Signatures {
  import opened Types
  import opened Wrappers
  import opened Workflows
  import opened Runtime
  import opened RuntimeHistory

  // ------------------------------------------------------------------ bags

  /** `p` says which element of one sequence is which of the other. */
  predicate Pairing(p: seq<nat>, n: nat) {
    && |p| == n && (forall i :: 0 <= i < n ==> p[i] < n)
    && forall i, j :: 0 <= i < j < n ==> p[i] != p[j]
  }

  predicate Paired<T(==)>(a: seq<T>, b: seq<T>, p: seq<nat>) {
    |a| == |b| && Pairing(p, |a|) && forall i :: 0 <= i < |a| ==> a[i] == b[p[i]]
  }

  function Without<T>(b: seq<T>, k: nat): seq<T>
    requires k < |b|
  {
    b[..k] + b[k + 1..]
  }

  lemma WithoutBag<T>(b: seq<T>, k: nat)
    requires k < |b|
    ensures multiset(b) == multiset(Without(b, k)) + multiset{b[k]}
  {
    assert b == b[..k] + [b[k]] + b[k + 1..];
  }

  lemma BagCancels<T>(x: multiset<T>, y: multiset<T>, z: T)
    requires x + multiset{z} == y + multiset{z}
    ensures x == y
  {
    assert x == (x + multiset{z}) - multiset{z} && y == (y + multiset{z}) - multiset{z};
  }

  lemma {:induction false} PairedBags<T>(a: seq<T>, b: seq<T>, p: seq<nat>)
    requires Paired(a, b, p)
    ensures multiset(a) == multiset(b)
    decreases |a|
  {
    if a != [] {
      var n := |a| - 1;
      var k := p[n];
      var q: seq<nat> := seq(n, i requires 0 <= i < n => if p[i] > k then p[i] - 1 else p[i]);
      forall i | 0 <= i < n ensures q[i] < n && a[..n][i] == Without(b, k)[q[i]] {
        assert p[i] != p[n];
      }
      forall i, j | 0 <= i < j < n ensures q[i] != q[j] { assert p[i] != p[n] && p[j] != p[n]; }
      PairedBags(a[..n], Without(b, k), q);
      WithoutBag(b, k);
      assert a == a[..n] + [a[n]];
    }
  }

  lemma Extended<T>(a: seq<T>, b: seq<T>, k: nat, q: seq<nat>) returns (p: seq<nat>)
    requires a != [] && k < |b| && b[k] == a[|a| - 1] && Paired(a[..|a| - 1], Without(b, k), q)
    ensures Paired(a, b, p)
  {
    var n := |a| - 1;
    p := seq(n, i requires 0 <= i < n => if q[i] >= k then q[i] + 1 else q[i]) + [k];
    forall i | 0 <= i < n ensures a[i] == b[p[i]] { assert a[..n][i] == Without(b, k)[q[i]]; }
  }

  lemma {:induction false} BagsPaired<T>(a: seq<T>, b: seq<T>) returns (p: seq<nat>)
    requires multiset(a) == multiset(b)
    ensures Paired(a, b, p)
    decreases |a|
  {
    assert |a| == |multiset(a)| == |multiset(b)| == |b|;
    if a == [] {
      p := [];
    } else {
      var n := |a| - 1;
      assert a == a[..n] + [a[n]];
      assert a[n] in multiset(b);
      var k :| 0 <= k < |b| && b[k] == a[n];
      WithoutBag(b, k);
      BagCancels(multiset(a[..n]), multiset(Without(b, k)), a[n]);
      var q := BagsPaired(a[..n], Without(b, k));
      p := Extended(a, b, k, q);
    }
  }

  // ------------------------------------------------------------------ the same definition

  /** Same constructors, names, node ids, keys and limits, steps and nodes in order, branches in any order. A
      router's targets, and a gate's id and policy, do not matter. */
  ghost predicate Same(e: Executable, f: Executable)
    decreases e
  {
    match (e, f)
    case (Task(x), Task(y)) => x == y
    case (Sequence(xs), Sequence(ys)) => |xs| == |ys| && forall i :: 0 <= i < |xs| ==> Same(xs[i], ys[i])
    case (Parallel(x, xs), Parallel(y, ys)) =>
      && x == y && |xs| == |ys|
      && exists p :: Pairing(p, |xs|) && forall i :: 0 <= i < |xs| ==> Same(xs[i], ys[p[i]])
    case (Router(x, xs, _), Router(y, ys, _)) =>
      x == y && forall key :: HasKey(xs, key) <==> HasKey(ys, key)
    case (Loop(x, a, m), Loop(y, b, n)) => x == y && m == n && Same(a, b)
    case (Approval(x, _, a, _), Approval(y, _, b, _)) =>
      x == y && (a.Some? <==> b.Some?) && (a.Some? && b.Some? ==> Same(a.value, b.value))
    case (Workflow(x, xs), Workflow(y, ys)) =>
      x == y && |xs| == |ys| && forall i :: 0 <= i < |xs| ==> xs[i].id == ys[i].id && Same(xs[i].work, ys[i].work)
    case _ => false
  }

  predicate HasKey(routes: seq<Route>, key: string) { exists i :: 0 <= i < |routes| && routes[i].key == key }

  function Signed(xs: seq<Executable>): (r: seq<Signature>)
    ensures |r| == |xs| && forall i :: 0 <= i < |xs| ==> r[i] == Sign(xs[i])
  {
    seq(|xs|, i requires 0 <= i < |xs| => Sign(xs[i]))
  }

  /** Two definitions have one signature exactly if they are the same in this sense. */
  lemma {:induction false} SignatureTells(e: Executable, f: Executable)
    ensures Sign(e) == Sign(f) <==> Same(e, f)
    decreases e
  {
    match (e, f)
    case (Sequence(xs), Sequence(ys)) => SequenceTells(e, f);
    case (Parallel(_, _), Parallel(_, _)) => ParallelTells(e, f);
    case (Router(_, _, _), Router(_, _, _)) => RouterTells(e, f);
    case (Loop(_, a, _), Loop(_, b, _)) => SignatureTells(a, b);
    case (Approval(_, _, a, _), Approval(_, _, b, _)) => if a.Some? && b.Some? { SignatureTells(a.value, b.value); }
    case (Workflow(_, _), Workflow(_, _)) => WorkflowTells(e, f);
    case _ =>
  }

  lemma {:induction false} SequenceTells(e: Executable, f: Executable)
    requires e.Sequence? && f.Sequence?
    ensures Sign(e) == Sign(f) <==> Same(e, f)
    decreases e, 0
  {
    forall i | 0 <= i < |e.steps| && i < |f.steps|
      ensures Sign(e.steps[i]) == Sign(f.steps[i]) <==> Same(e.steps[i], f.steps[i])
    {
      SignatureTells(e.steps[i], f.steps[i]);
    }
    assert Sign(e).steps == Signed(e.steps) && Sign(f).steps == Signed(f.steps);
    if Sign(e) == Sign(f) {
      forall i | 0 <= i < |e.steps| ensures Same(e.steps[i], f.steps[i]) {
        assert Signed(e.steps)[i] == Signed(f.steps)[i];
      }
    }
  }

  lemma {:induction false} WorkflowTells(e: Executable, f: Executable)
    requires e.Workflow? && f.Workflow?
    ensures Sign(e) == Sign(f) <==> Same(e, f)
    decreases e, 0
  {
    forall i | 0 <= i < |e.nodes| && i < |f.nodes|
      ensures Sign(e.nodes[i].work) == Sign(f.nodes[i].work) <==> Same(e.nodes[i].work, f.nodes[i].work)
    {
      SignatureTells(e.nodes[i].work, f.nodes[i].work);
    }
    var (s, t) := (Sign(e), Sign(f));
    assert |s.ids| == |e.nodes| == |s.works| && |t.ids| == |f.nodes| == |t.works|;
    if s == t {
      forall i | 0 <= i < |e.nodes|
        ensures e.nodes[i].id == f.nodes[i].id && Same(e.nodes[i].work, f.nodes[i].work)
      {
        assert s.ids[i] == t.ids[i] && s.works[i] == t.works[i];
      }
    }
    if Same(e, f) { assert s.ids == t.ids && s.works == t.works; }
  }

  lemma {:induction false} RouterTells(e: Executable, f: Executable)
    requires e.Router? && f.Router?
    ensures Sign(e) == Sign(f) <==> Same(e, f)
  {
    forall key ensures key in Sign(e).keys <==> HasKey(e.routes, key) { }
    forall key ensures key in Sign(f).keys <==> HasKey(f.routes, key) { }
    assert Same(e, f) <==> e.name == f.name && Sign(e).keys == Sign(f).keys;
  }

  lemma {:induction false} ParallelTells(e: Executable, f: Executable)
    requires e.Parallel? && f.Parallel?
    ensures Sign(e) == Sign(f) <==> Same(e, f)
    decreases e, 0
  {
    var (xs, ys) := (e.branches, f.branches);
    forall i, j | 0 <= i < |xs| && 0 <= j < |ys| ensures Sign(xs[i]) == Sign(ys[j]) <==> Same(xs[i], ys[j]) {
      SignatureTells(xs[i], ys[j]);
    }
    assert Sign(e).branches == multiset(Signed(xs)) && Sign(f).branches == multiset(Signed(ys));
    if Sign(e) == Sign(f) {
      var p := BagsPaired(Signed(xs), Signed(ys));
      forall i | 0 <= i < |xs| ensures Same(xs[i], ys[p[i]]) { assert Signed(xs)[i] == Signed(ys)[p[i]]; }
      assert Pairing(p, |xs|);
    }
    if Same(e, f) {
      var p :| Pairing(p, |xs|) && forall i :: 0 <= i < |xs| ==> Same(xs[i], ys[p[i]]);
      assert Paired(Signed(xs), Signed(ys), p);
      PairedBags(Signed(xs), Signed(ys), p);
    }
  }

  // ------------------------------------------------------------------ what resume makes of it

  /** At every point of every history, a workflow gets past `resume` exactly if status and log allow it and it is
      the same definition as the one that was started; any other changes nothing. */
  lemma {:induction false} ResumesOnlyTheSame(o: Oracle, root: Executable, input: Value, fates: seq<Fate>, ops: seq<Op>,
                                              target: Executable, more: seq<Fate>)
    requires Runnable(root) && OnlyWorkflows(ops) && target.Workflow?
    ensures var x := After(o, root, input, fates, ops);
      && (Resumes(x, target) <==>
            x.status in {Created, Running, Waiting, WaitingForApproval, Retrying, Failed} && x.log != []
            && Same(target, root))
      && (!Same(target, root) ==> After(o, root, input, fates, ops + [ResumeWith(target, more)]) == x)
  {
    ChangedWorkflowRefused(o, root, input, fates, ops, target, more);
    SignatureTells(target, root);
  }

  /** For instance, a task that calls another function is another definition. */
  lemma ChangedTaskRefused(name: string, id: string, a: string, b: string, x: Execution)
    requires a != b && x.log != [] && Latest(x).rootHash == Some(Sign(Workflow(name, [Node(id, Task(a))])))
    ensures !Resumes(x, Workflow(name, [Node(id, Task(b))]))
  {
    SignatureTells(Workflow(name, [Node(id, Task(b))]), Workflow(name, [Node(id, Task(a))]));
    assert [Node(id, Task(b))][0].work == Task(b) && [Node(id, Task(a))][0].work == Task(a);
  }
}
