/** What an attempt leaves behind when its branches interleave, with any store: every completed node has
    begun, after its `before_node` checkpoint, and is stored with its output or still has that store ahead. */
module InterleavedDurability {
  import opened Types
  import opened Workflows
  import opened Interleaving
  import opened Durability

  /** A coroutine is about to store `x` as the output of `key`. */
  ghost predicate Owed(c: Config, key: Key, x: Value)
    requires Shaped(c)
  {
    match c
    case InSteps(_, _, _, inner) => Owed(inner, key, x)
    case InTurns(_, _, _, inner) => Owed(inner, key, x)
    case InBranches(_, _, inners) => exists k :: 0 <= k < |inners| && Owed(inners[k], key, x)
    case InNode(_, _, _, inner) => Owed(inner, key, x)
    case Recorded(e, i, _, _) => KeyOf(e, i) == key
    case Storing(checkpoint, next) =>
      || (checkpoint.reason == AfterNode(key) && key in checkpoint.state.completed
          && checkpoint.state.completed[key] == x)
      || Owed(next, key, x)
    case _ => false
  }

  /** The `before_node` checkpoint is stored. */
  ghost predicate Foretold(b: World, w: World, key: Key) {
    exists i :: |b.log| <= i < |w.log| && w.log[i].reason == BeforeNode(key)
  }

  ghost predicate Reported(b: World, w: World, task: string, v: Value) {
    exists m :: |b.trace| <= m < |w.trace| && w.trace[m] == Ran(task, v, w.trace[m].at)
  }

  /** What a coroutine is doing was stored and reported, since `b`, before it could do it. */
  ghost predicate Backed(c: Config, b: World, w: World)
    requires Shaped(c)
  {
    match c
    case Performing(task, v) => Reported(b, w, task, v)
    case InSteps(_, _, _, inner) => Backed(inner, b, w)
    case InTurns(_, _, _, inner) => Backed(inner, b, w)
    case InBranches(_, _, inners) => forall k :: 0 <= k < |inners| ==> Backed(inners[k], b, w)
    case Entering(e, i, _, _) => Foretold(b, w, KeyOf(e, i))
    case InNode(e, i, _, inner) => Begun(b, w, KeyOf(e, i)) && Backed(inner, b, w)
    case Recorded(e, i, _, _) => Begun(b, w, KeyOf(e, i))
    case Storing(checkpoint, next) =>
      assert Shaped(next);
      if next.Entering? then checkpoint.reason == BeforeNode(KeyOf(next.e, next.i)) else Backed(next, b, w)
    case _ => true
  }

  /** A node begins after its `before_node` checkpoint. */
  ghost predicate InTime(b: World, w: World, ev: Event) {
    ev.Began? ==> exists i :: |b.log| <= i < ev.at <= |w.log| && w.log[i].reason == BeforeNode(ev.key)
  }

  ghost predicate Onwards(b: World, w: World) {
    && b.log <= w.log && b.trace <= w.trace
    && (forall m :: |b.trace| <= m < |w.trace| ==> InTime(b, w, w.trace[m]))
    && (forall key :: Changed(b, w, key) ==> Begun(b, w, key))
  }

  ghost predicate Kept(c: Config, b: World, w: World)
    requires Shaped(c)
  {
    && Onwards(b, w) && Backed(c, b, w)
    && forall key :: Changed(b, w, key) ==> Persisted(b, w, key) || Owed(c, key, w.state.completed[key])
  }

  lemma {:induction false} BackedOn(c: Config, b: World, w: World, w': World)
    requires Shaped(c) && Backed(c, b, w) && w.log <= w'.log && w.trace <= w'.trace
    ensures Backed(c, b, w')
  {
    match c
    case Performing(task, v) => ReportedOn(b, w, w', task, v);
    case InSteps(_, _, _, inner) => BackedOn(inner, b, w, w');
    case InTurns(_, _, _, inner) => BackedOn(inner, b, w, w');
    case InNode(e, i, _, inner) => BegunOn(b, w, w', KeyOf(e, i)); BackedOn(inner, b, w, w');
    case InBranches(_, _, inners) =>
      forall k | 0 <= k < |inners| ensures Backed(inners[k], b, w') { BackedOn(inners[k], b, w, w'); }
    case Entering(e, i, _, _) => ForetoldOn(b, w, w', KeyOf(e, i));
    case Recorded(e, i, _, _) => BegunOn(b, w, w', KeyOf(e, i));
    case Storing(_, next) => if !next.Entering? { BackedOn(next, b, w, w'); }
    case _ =>
  }

  lemma ReportedOn(b: World, w: World, w': World, task: string, v: Value)
    requires Reported(b, w, task, v) && w.trace <= w'.trace
    ensures Reported(b, w', task, v)
  {
    var m :| |b.trace| <= m < |w.trace| && w.trace[m] == Ran(task, v, w.trace[m].at);
    assert w'.trace[m] == w.trace[m];
  }

  lemma BegunOn(b: World, w: World, w': World, key: Key)
    requires Begun(b, w, key) && w.trace <= w'.trace
    ensures Begun(b, w', key)
  {
    var m :| |b.trace| <= m < |w.trace| && w.trace[m].Began? && w.trace[m].key == key;
    assert w'.trace[m] == w.trace[m];
  }

  lemma ForetoldOn(b: World, w: World, w': World, key: Key)
    requires Foretold(b, w, key) && w.log <= w'.log
    ensures Foretold(b, w', key)
  {
    var i :| |b.log| <= i < |w.log| && w.log[i].reason == BeforeNode(key);
    assert w'.log[i] == w.log[i];
  }

  /** What a move does to the world. */
  ghost predicate MovedOn(b: World, w: World, w1: World) {
    w.log <= w1.log && w.trace <= w1.trace && Onwards(b, w1)
  }

  lemma OnwardsStore(b: World, w: World, checkpoint: Checkpoint)
    requires Onwards(b, w)
    ensures Onwards(b, w.(log := w.log + [checkpoint]))
  {
    var w1 := w.(log := w.log + [checkpoint]);
    forall m | |b.trace| <= m < |w1.trace| ensures InTime(b, w1, w1.trace[m]) {
      assert InTime(b, w, w.trace[m]);
      if w.trace[m].Began? {
        var i :| |b.log| <= i < w.trace[m].at <= |w.log| && w.log[i].reason == BeforeNode(w.trace[m].key);
        assert w1.log[i] == w.log[i];
      }
    }
    forall key | Changed(b, w1, key) ensures Begun(b, w1, key) { assert Changed(b, w, key); }
  }

  lemma OnwardsEmit(b: World, w: World, ev: Event)
    requires Onwards(b, w) && (ev.Began? ==> ev.at == |w.log| && Foretold(b, w, ev.key))
    ensures Onwards(b, Emit(w, ev))
  {
    var w1 := Emit(w, ev);
    forall m | |b.trace| <= m < |w1.trace| ensures InTime(b, w1, w1.trace[m]) {
      if m < |w.trace| {
        assert InTime(b, w, w.trace[m]);
      } else if ev.Began? {
        var i :| |b.log| <= i < |w.log| && w.log[i].reason == BeforeNode(ev.key);
      }
    }
    forall key | Changed(b, w1, key) ensures Begun(b, w1, key) {
      assert Changed(b, w, key);
      BegunOn(b, w, w1, key);
    }
  }

  lemma OnwardsState(b: World, w: World, s: State)
    requires Onwards(b, w) && s.completed == w.state.completed
    ensures Onwards(b, w.(state := s))
  {
    var w1 := w.(state := s);
    forall m | |b.trace| <= m < |w1.trace| ensures InTime(b, w1, w1.trace[m]) { assert InTime(b, w, w.trace[m]); }
    forall key | Changed(b, w1, key) ensures Begun(b, w1, key) { assert Changed(b, w, key); }
  }

  lemma OnwardsRecord(b: World, w: World, key: Key, x: Value)
    requires Onwards(b, w) && Begun(b, w, key)
    ensures Onwards(b, Record(w, key, x))
  {
    var w1 := Record(w, key, x);
    forall m | |b.trace| <= m < |w1.trace| ensures InTime(b, w1, w1.trace[m]) { assert InTime(b, w, w.trace[m]); }
    forall k | Changed(b, w1, k) ensures Begun(b, w1, k) { if k != key { assert Changed(b, w, k); } }
  }

  lemma BeginBacked(o: Oracle, e: Executable, v: Value, b: World, w: World)
    requires Onwards(b, w)
    ensures var r := Begin(o, e, v, w); MovedOn(b, w, r.1) && Backed(r.0, b, r.1)
    ensures Begin(o, e, v, w).1.state.completed == w.state.completed && Begin(o, e, v, w).1.log == w.log
  {
    var r := Begin(o, e, v, w);
    match e
    case Task(name) =>
      OnwardsEmit(b, w, Ran(name, v, |w.log|));
      assert r.1.trace[|w.trace|] == Ran(name, v, |w.log|);
    case Approval(_, id, _, _) =>
      OnwardsState(b, w, Ask(w, id).state);
      OnwardsEmit(b, w, Acted(id, |w.log|));
    case Workflow(name, _) => OnwardsState(b, w, Register(w, name, e).state);
    case _ =>
  }

  /** One move: what it changes is begun, and stored or owed. */
  lemma {:induction false} MoveBacked(o: Oracle, prompt: bool, c: Config, b: World, w: World, pick: seq<nat>)
    requires Shaped(c) && Onwards(b, w) && Backed(c, b, w)
    ensures var r := Move(o, prompt, c, w, pick); MovedOn(b, w, r.1) && Backed(r.0, b, r.1)
  {
    if c.Start? {
      BeginBacked(o, c.e, c.v, b, w);
    } else if c.InBranches? {
      if !AllReturned(c.inners) && pick != [] && pick[0] < |c.inners| {
        MoveBacked(o, prompt, c.inners[pick[0]], b, w, pick[1..]);
        var w1 := Move(o, prompt, c, w, pick).1;
        forall k | 0 <= k < |c.inners| && k != pick[0] ensures Backed(c.inners[k], b, w1) {
          BackedOn(c.inners[k], b, w, w1);
        }
      }
    } else if (c.InSteps? || c.InTurns? || c.InNode?) && !c.inner.Returned? {
      MoveBacked(o, prompt, c.inner, b, w, pick);
      if c.InNode? { BegunOn(b, w, Move(o, prompt, c, w, pick).1, KeyOf(c.e, c.i)); }
    } else if c.InNode? {
      OnwardsRecord(b, w, KeyOf(c.e, c.i), c.inner.x);
    } else {
      LeafBacked(o, prompt, c, b, w);
    }
  }

  lemma LeafBacked(o: Oracle, prompt: bool, c: Config, b: World, w: World)
    requires Shaped(c) && Onwards(b, w) && Backed(c, b, w)
    requires !c.Start? && !c.InBranches? && !c.InNode?
    requires c.InSteps? || c.InTurns? ==> c.inner.Returned?
    ensures var r := Move(o, prompt, c, w, []); MovedOn(b, w, r.1) && Backed(r.0, b, r.1)
  {
    if c.AtNode? && c.i < |c.e.nodes| && KeyOf(c.e, c.i) !in w.state.completed {
      var before := Checkpoint(BeforeNode(KeyOf(c.e, c.i)), w.state);
      OnwardsStore(b, w, before);
      assert (w.log + [before])[|w.log|] == before;
    } else if c.Entering? {
      OnwardsEmit(b, w, Began(KeyOf(c.e, c.i), |w.log|));
      assert Emit(w, Began(KeyOf(c.e, c.i), |w.log|)).trace[|w.trace|] == Began(KeyOf(c.e, c.i), |w.log|);
    } else if c.Recorded? {
      OnwardsStore(b, w, Checkpoint(AfterNode(KeyOf(c.e, c.i)), w.state));
    } else if c.Storing? {
      StoringBacked(c, b, w);
    }
  }

  lemma StoringBacked(c: Config, b: World, w: World)
    requires c.Storing? && Shaped(c) && Onwards(b, w) && Backed(c, b, w)
    ensures var w1 := w.(log := w.log + [c.checkpoint]); Onwards(b, w1) && Backed(c.next, b, w1)
  {
    var w1 := w.(log := w.log + [c.checkpoint]);
    OnwardsStore(b, w, c.checkpoint);
    assert w1.log[|w.log|] == c.checkpoint;
    if !c.next.Entering? { BackedOn(c.next, b, w, w1); }
  }

  // ------------------------------------------------------------------ stored, or still owed

  /** The output that `w` has for `key` is stored since `b`, or owed. */
  ghost predicate Safe(c: Config, b: World, w: World, key: Key)
    requires Shaped(c) && key in w.state.completed
  {
    Persisted(b, w, key) || Owed(c, key, w.state.completed[key])
  }

  lemma PersistedOn(b: World, w: World, w1: World, key: Key)
    requires key in w.state.completed && Persisted(b, w, key) && w.log <= w1.log
    requires key in w1.state.completed && w1.state.completed[key] == w.state.completed[key]
    ensures Persisted(b, w1, key)
  {
    var i :| |b.log| <= i < |w.log| && w.log[i].reason == AfterNode(key)
      && key in w.log[i].state.completed && w.log[i].state.completed[key] == w.state.completed[key];
    assert w1.log[i] == w.log[i];
  }

  /** A coroutine that owes a store still does after its move, or has stored. A recorded node's output is the one
      the dictionary has when it is copied. */
  lemma {:induction false} OwedMove(o: Oracle, prompt: bool, c: Config, b: World, w: World, pick: seq<nat>, key: Key)
    requires Shaped(c) && b.log <= w.log && key in w.state.completed && Owed(c, key, w.state.completed[key])
    ensures var r := Move(o, prompt, c, w, pick);
      key in r.1.state.completed && (r.1.state.completed[key] == w.state.completed[key] ==> Safe(r.0, b, r.1, key))
  {
    if c.InBranches? {
      if !AllReturned(c.inners) && pick != [] && pick[0] < |c.inners| {
        var j := pick[0];
        var (x, w1) := Move(o, prompt, c.inners[j], w, pick[1..]);
        var inners := c.inners[j := x];
        MoveCompletes(o, prompt, c.inners[j], w, pick[1..]);
        if Owed(c.inners[j], key, w.state.completed[key]) {
          OwedMove(o, prompt, c.inners[j], b, w, pick[1..], key);
          if Owed(x, key, w1.state.completed[key]) { assert Owed(inners[j], key, w1.state.completed[key]); }
        } else {
          var k :| 0 <= k < |c.inners| && Owed(c.inners[k], key, w.state.completed[key]);
          assert inners[k] == c.inners[k];
        }
      }
    } else if (c.InSteps? || c.InTurns? || c.InNode?) && !c.inner.Returned? {
      OwedMove(o, prompt, c.inner, b, w, pick, key);
    } else if c.Recorded? {
      assert (w.log + [Checkpoint(AfterNode(key), w.state)])[|w.log|] == Checkpoint(AfterNode(key), w.state);
    } else if c.Storing? {
      assert (w.log + [c.checkpoint])[|w.log|] == c.checkpoint;
    }
  }

  /** Completed nodes stay, and one that changes is owed. */
  lemma {:induction false} MoveCompletes(o: Oracle, prompt: bool, c: Config, w: World, pick: seq<nat>)
    requires Shaped(c)
    ensures var r := Move(o, prompt, c, w, pick);
      && w.log <= r.1.log
      && (forall key :: key in w.state.completed ==> key in r.1.state.completed)
      && (forall key :: Changed(w, r.1, key) ==> Owed(r.0, key, r.1.state.completed[key]))
  {
    if c.InBranches? {
      if !AllReturned(c.inners) && pick != [] && pick[0] < |c.inners| {
        var j := pick[0];
        var (x, w1) := Move(o, prompt, c.inners[j], w, pick[1..]);
        MoveCompletes(o, prompt, c.inners[j], w, pick[1..]);
        forall key | Changed(w, w1, key)
          ensures Owed(InBranches(c.e, c.own, c.inners[j := x]), key, w1.state.completed[key])
        {
          assert c.inners[j := x][j] == x;
        }
      }
    } else if (c.InSteps? || c.InTurns? || c.InNode?) && !c.inner.Returned? {
      MoveCompletes(o, prompt, c.inner, w, pick);
    }
  }

  lemma MoveKept(o: Oracle, prompt: bool, c: Config, b: World, w: World, pick: seq<nat>)
    requires Shaped(c) && Kept(c, b, w)
    ensures var r := Move(o, prompt, c, w, pick); Kept(r.0, b, r.1)
  {
    var r := Move(o, prompt, c, w, pick);
    MoveBacked(o, prompt, c, b, w, pick);
    MoveCompletes(o, prompt, c, w, pick);
    forall key | Changed(b, r.1, key) ensures Safe(r.0, b, r.1, key) {
      if !Changed(w, r.1, key) {
        assert Changed(b, w, key);
        if Persisted(b, w, key) { PersistedOn(b, w, r.1, key); } else { OwedMove(o, prompt, c, b, w, pick, key); }
      }
    }
  }

  /** At every moment of every attempt, with any interleaving and any store: every node that got an output has
      begun after its `before_node` checkpoint, and is stored with that output or about to be. Once the attempt
      has returned, all are stored. */
  lemma {:induction false} InterleavedDurable(o: Oracle, prompt: bool, c: Config, b: World, w: World,
                                              picks: seq<seq<nat>>)
    requires Shaped(c) && Kept(c, b, w)
    ensures var r := Moves(o, prompt, c, w, picks); Kept(r.0, b, r.1)
    decreases |picks|
  {
    if picks != [] {
      var r := Move(o, prompt, c, w, picks[0]);
      MoveKept(o, prompt, c, b, w, picks[0]);
      InterleavedDurable(o, prompt, r.0, b, r.1, picks[1..]);
    }
  }

  lemma {:induction false} ReturnedIsStored(o: Oracle, prompt: bool, root: Executable, input: Value, w: World,
                                            picks: seq<seq<nat>>, key: Key)
    requires var r := Moves(o, prompt, Start(root, input), w, picks); r.0.Returned? && Changed(w, r.1, key)
    ensures var r := Moves(o, prompt, Start(root, input), w, picks); Begun(w, r.1, key) && Persisted(w, r.1, key)
  {
    InterleavedDurable(o, prompt, Start(root, input), w, w, picks);
  }
}
