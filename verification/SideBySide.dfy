/** Coroutines that run side by side on one dictionary. A node is started some time after the test that
    it is not completed; if no two branches share a workflow name, nobody completes it in between. */
module SideBySide {
  import opened Types
  import opened Wrappers
  import opened Workflows
  import opened WorkflowNames
  import opened Interleaving

  /** Branches of one parallel node share no workflow name. */
  predicate Apart(e: Executable) {
    match e
    case Task(_) => true
    case Sequence(steps) => forall i :: 0 <= i < |steps| ==> Apart(steps[i])
    case Parallel(_, branches) =>
      && (forall i :: 0 <= i < |branches| ==> Apart(branches[i]))
      && (forall i, j :: 0 <= i < j < |branches| ==> Flows(branches[i]) !! Flows(branches[j]))
    case Router(_, routes, default) =>
      (forall i :: 0 <= i < |routes| ==> Apart(routes[i].target)) && (default.Some? ==> Apart(default.value))
    case Loop(_, body, _) => Apart(body)
    case Approval(_, _, action, _) => action.Some? ==> Apart(action.value)
    case Workflow(_, nodes) => forall i :: 0 <= i < |nodes| ==> Apart(nodes[i].work)
  }

  lemma {:induction false} NoFlowsApart(e: Executable)
    requires Flows(e) == {}
    ensures Apart(e)
  {
    match e
    case Task(_) =>
    case Sequence(steps) =>
      forall i | 0 <= i < |steps| ensures Apart(steps[i]) { NoFlows(steps[i], e); NoFlowsApart(steps[i]); }
    case Parallel(_, branches) =>
      forall i | 0 <= i < |branches| ensures Apart(branches[i]) && Flows(branches[i]) == {} {
        NoFlows(branches[i], e);
        NoFlowsApart(branches[i]);
      }
    case Router(_, routes, default) =>
      forall i | 0 <= i < |routes| ensures Apart(routes[i].target) {
        NoFlows(routes[i].target, e);
        NoFlowsApart(routes[i].target);
      }
      if default.Some? { NoFlowsApart(default.value); }
    case Loop(_, body, _) => NoFlowsApart(body);
    case Approval(_, _, action, _) => if action.Some? { NoFlowsApart(action.value); }
    case Workflow(_, _) => assert false;
  }

  lemma NoFlows(part: Executable, e: Executable)
    requires Flows(e) == {} && forall f :: f in Flows(part) ==> f in Flows(e)
    ensures Flows(part) == {}
  {
  }

  /** A tidy tree has no such branches. */
  lemma {:induction false} TidyApart(e: Executable)
    requires Tidy(e)
    ensures Apart(e)
  {
    match e
    case Task(_) =>
    case Sequence(steps) => forall i | 0 <= i < |steps| ensures Apart(steps[i]) { TidyApart(steps[i]); }
    case Parallel(_, branches) => forall i | 0 <= i < |branches| ensures Apart(branches[i]) { TidyApart(branches[i]); }
    case Router(_, routes, default) =>
      forall i | 0 <= i < |routes| ensures Apart(routes[i].target) { TidyApart(routes[i].target); }
      if default.Some? { TidyApart(default.value); }
    case Loop(_, body, _) => NoFlowsApart(body);
    case Approval(_, _, action, _) => if action.Some? { TidyApart(action.value); }
    case Workflow(_, nodes) => forall i | 0 <= i < |nodes| ensures Apart(nodes[i].work) { TidyApart(nodes[i].work); }
  }

  // ------------------------------------------------------------------ what a coroutine can complete

  /** Whatever is left to do belongs to the workflows `fs`. */
  ghost predicate Inside(c: Config, fs: set<string>) {
    match c
    case Start(e, _) => Flows(e) <= fs
    case InSteps(e, _, _, inner) => Flows(e) <= fs && Inside(inner, fs)
    case InTurns(e, _, _, inner) => Flows(e) <= fs && Inside(inner, fs)
    case InBranches(e, _, inners) => Flows(e) <= fs && forall k :: 0 <= k < |inners| ==> Inside(inners[k], fs)
    case AtNode(e, _, _, _) => Flows(e) <= fs
    case Entering(e, _, _, _) => Flows(e) <= fs
    case InNode(e, _, _, inner) => Flows(e) <= fs && Inside(inner, fs)
    case Recorded(e, _, _, _) => Flows(e) <= fs
    case Storing(_, next) => Inside(next, fs)
    case _ => true
  }

  /** From `s` to `s'` only nodes of `fs` are completed. */
  ghost predicate Completes(s: State, s': State, fs: set<string>) {
    forall key :: key in s'.completed && key !in s.completed ==> key.flow in fs
  }

  lemma {:induction false} MoveInside(o: Oracle, prompt: bool, c: Config, w: World, pick: seq<nat>, fs: set<string>)
    requires Shaped(c) && Inside(c, fs)
    ensures var r := Move(o, prompt, c, w, pick); Inside(r.0, fs) && Completes(w.state, r.1.state, fs)
  {
    if c.Start? {
      BeginInside(o, c.e, c.v, w, fs);
    } else if c.InBranches? {
      if !AllReturned(c.inners) && pick != [] && pick[0] < |c.inners| {
        MoveInside(o, prompt, c.inners[pick[0]], w, pick[1..], fs);
      }
    } else if (c.InSteps? || c.InTurns? || c.InNode?) && !c.inner.Returned? {
      MoveInside(o, prompt, c.inner, w, pick, fs);
    } else if c.InNode? {
      assert KeyOf(c.e, c.i).flow in Flows(c.e);
    } else if c.Entering? {
      assert Flows(c.e.nodes[c.i].work) <= Flows(c.e);
    } else if c.InSteps? {
      forall i | 0 <= i < |c.e.steps| ensures Flows(c.e.steps[i]) <= Flows(c.e) { }
    }
  }

  lemma BeginInside(o: Oracle, e: Executable, v: Value, w: World, fs: set<string>)
    requires Flows(e) <= fs
    ensures var r := Begin(o, e, v, w); Inside(r.0, fs) && r.1.state.completed == w.state.completed
  {
    match e
    case Sequence(steps) => if steps != [] { assert Flows(steps[0]) <= Flows(e); }
    case Parallel(_, branches) =>
      forall k | 0 <= k < |branches| ensures Flows(branches[k]) <= Flows(e) { }
    case Router(name, routes, default) => RouteFlows(routes, default, o.choose(name, v), Flows(e));
    case _ =>
  }

  lemma {:induction false} RouteFlows(routes: seq<Route>, default: Option<Executable>, key: string, fs: set<string>)
    requires forall i :: 0 <= i < |routes| ==> Flows(routes[i].target) <= fs
    requires default.Some? ==> Flows(default.value) <= fs
    ensures Lookup(routes, default, key).Some? ==> Flows(Lookup(routes, default, key).value) <= fs
  {
    if routes != [] { RouteFlows(routes[1..], default, key, fs); }
  }

  // ------------------------------------------------------------------ nobody gets in between

  /** Coroutines side by side belong to different branches. */
  ghost predicate Separate(c: Config)
    requires Shaped(c)
  {
    match c
    case Start(e, _) => Apart(e)
    case InSteps(e, _, _, inner) => Apart(e) && Separate(inner)
    case InTurns(e, _, _, inner) => Apart(e) && Separate(inner)
    case InBranches(e, _, inners) =>
      Apart(e) && forall k :: 0 <= k < |inners| ==> Separate(inners[k]) && Inside(inners[k], Flows(e.branches[k]))
    case AtNode(e, _, _, _) => Apart(e)
    case Entering(e, _, _, _) => Apart(e)
    case InNode(e, _, _, inner) => Apart(e) && Separate(inner)
    case Recorded(e, _, _, _) => Apart(e)
    case Storing(_, next) => Separate(next)
    case _ => true
  }

  /** No node about to be started is completed. */
  ghost predicate Untouched(c: Config, s: State)
    requires Shaped(c)
  {
    match c
    case InSteps(_, _, _, inner) => Untouched(inner, s)
    case InTurns(_, _, _, inner) => Untouched(inner, s)
    case InBranches(_, _, inners) => forall k :: 0 <= k < |inners| ==> Untouched(inners[k], s)
    case Entering(e, i, _, _) => KeyOf(e, i) !in s.completed
    case InNode(_, _, _, inner) => Untouched(inner, s)
    case Storing(_, next) => Untouched(next, s)
    case _ => true
  }

  ghost predicate Exclusive(c: Config, s: State)
    requires Shaped(c)
  {
    Separate(c) && Untouched(c, s)
  }

  /** What other workflows complete does not touch a coroutine. */
  lemma {:induction false} UntouchedBeside(c: Config, s: State, s': State, fs: set<string>, gs: set<string>)
    requires Shaped(c) && Untouched(c, s) && Inside(c, fs) && Completes(s, s', gs) && fs !! gs
    ensures Untouched(c, s')
  {
    match c
    case InSteps(_, _, _, inner) => UntouchedBeside(inner, s, s', fs, gs);
    case InTurns(_, _, _, inner) => UntouchedBeside(inner, s, s', fs, gs);
    case InNode(_, _, _, inner) => UntouchedBeside(inner, s, s', fs, gs);
    case InBranches(_, _, inners) =>
      forall k | 0 <= k < |inners| ensures Untouched(inners[k], s') { UntouchedBeside(inners[k], s, s', fs, gs); }
    case Entering(e, i, _, _) => assert KeyOf(e, i).flow in Flows(e);
    case Storing(_, next) => UntouchedBeside(next, s, s', fs, gs);
    case _ =>
  }

  lemma BeginExclusive(o: Oracle, e: Executable, v: Value, w: World)
    requires Apart(e)
    ensures var r := Begin(o, e, v, w); Exclusive(r.0, r.1.state)
  {
    if e.Router? { RouteApart(e.routes, e.default, o.choose(e.name, v)); }
  }

  lemma {:induction false} RouteApart(routes: seq<Route>, default: Option<Executable>, key: string)
    requires forall i :: 0 <= i < |routes| ==> Apart(routes[i].target)
    requires default.Some? ==> Apart(default.value)
    ensures Lookup(routes, default, key).Some? ==> Apart(Lookup(routes, default, key).value)
  {
    if routes != [] { RouteApart(routes[1..], default, key); }
  }

  /** Whoever moves, nobody completes a node that another is about to start. */
  lemma {:induction false} MoveExclusive(o: Oracle, prompt: bool, c: Config, w: World, pick: seq<nat>)
    requires Shaped(c) && Exclusive(c, w.state)
    ensures var r := Move(o, prompt, c, w, pick); Exclusive(r.0, r.1.state)
    decreases c, 1
  {
    if c.Start? {
      BeginExclusive(o, c.e, c.v, w);
    } else if c.InBranches? {
      if !AllReturned(c.inners) && pick != [] && pick[0] < |c.inners| {
        BranchExclusive(o, prompt, c, w, pick);
      }
    } else if (c.InSteps? || c.InTurns? || c.InNode?) && !c.inner.Returned? {
      MoveExclusive(o, prompt, c.inner, w, pick);
    }
  }

  lemma {:induction false} BranchExclusive(o: Oracle, prompt: bool, c: Config, w: World, pick: seq<nat>)
    requires Shaped(c) && c.InBranches? && Exclusive(c, w.state) && !AllReturned(c.inners)
    requires pick != [] && pick[0] < |c.inners|
    ensures var r := Move(o, prompt, c, w, pick); Exclusive(r.0, r.1.state)
    decreases c, 0
  {
    var j := pick[0];
    var (x, w1) := Move(o, prompt, c.inners[j], w, pick[1..]);
    MoveExclusive(o, prompt, c.inners[j], w, pick[1..]);
    MoveInside(o, prompt, c.inners[j], w, pick[1..], Flows(c.e.branches[j]));
    forall k | 0 <= k < |c.inners| && k != j ensures Untouched(c.inners[k], w1.state) {
      assert Flows(c.e.branches[k]) !! Flows(c.e.branches[j]);
      UntouchedBeside(c.inners[k], w.state, w1.state, Flows(c.e.branches[k]), Flows(c.e.branches[j]));
    }
  }
}
