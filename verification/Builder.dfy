/** The fluent workflow builder: fresh node ids and the graph it hands to the compiler. */
module Builder {
  import opened Wrappers
  import opened Numbers
  import opened Compiler

  // ------------------------------------------------------------------ ids

  predicate IsAlnum(c: char) { 'a' <= c <= 'z' || 'A' <= c <= 'Z' || '0' <= c <= '9' }

  function Lower(c: char): char { if 'A' <= c <= 'Z' then c - 'A' + 'a' else c }

  function TrimLeft(s: string): string {
    if s != [] && s[0] == '_' then TrimLeft(s[1..]) else s
  }

  function TrimRight(s: string): string {
    if s != [] && s[|s| - 1] == '_' then TrimRight(s[..|s| - 1]) else s
  }

  /** What becomes of one character: lower case, or `_` if it is no letter and no digit. */
  predicate Rendered(c: char, x: char) {
    if 'A' <= c <= 'Z' then x == c - 'A' + 'a'
    else if 'a' <= c <= 'z' || '0' <= c <= '9' then x == c
    else x == '_'
  }

  function Marked(name: string): (s: string)
    ensures |s| == |name| && forall k :: 0 <= k < |s| ==> Rendered(name[k], s[k])
  {
    seq(|name|, i requires 0 <= i < |name| => if IsAlnum(name[i]) then Lower(name[i]) else '_')
  }

  function Slug(name: string): string {
    var base := TrimRight(TrimLeft(Marked(name)));
    if base == "" then "node" else base
  }

  /** The part of `s` that `TrimLeft` leaves starts where the first other character stands. */
  lemma {:induction false} TrimmedLeft(s: string) returns (i: nat)
    ensures i <= |s| && TrimLeft(s) == s[i..] && (i < |s| ==> s[i] != '_') && forall k :: 0 <= k < i ==> s[k] == '_'
  {
    if s != [] && s[0] == '_' {
      i := TrimmedLeft(s[1..]);
      i := i + 1;
      forall k | 0 <= k < i ensures s[k] == '_' { if k > 0 { assert s[1..][k - 1] == s[k]; } }
    } else {
      i := 0;
    }
  }

  lemma {:induction false} TrimmedRight(s: string) returns (j: nat)
    ensures j <= |s| && TrimRight(s) == s[..j] && (j > 0 ==> s[j - 1] != '_')
    ensures forall k :: j <= k < |s| ==> s[k] == '_'
  {
    if s != [] && s[|s| - 1] == '_' {
      j := TrimmedRight(s[..|s| - 1]);
    } else {
      j := |s|;
      assert s[..j] == s;
    }
  }

  /** A slug is the part of the name from its first to its last letter or digit, character by character in lower case
      or `_`; a name without any gives `node`. */
  lemma SlugOf(name: string) returns (i: nat, j: nat)
    ensures i <= j <= |name| && forall k :: 0 <= k < i || j <= k < |name| ==> !IsAlnum(name[k])
    ensures i == j ==> Slug(name) == "node"
    ensures i < j ==> IsAlnum(name[i]) && IsAlnum(name[j - 1]) && |Slug(name)| == j - i
    ensures i < j ==> forall k :: 0 <= k < j - i ==> Rendered(name[i + k], Slug(name)[k])
  {
    i, j := Between(Marked(name));
    assert forall k :: 0 <= k < |name| ==> (Marked(name)[k] == '_' <==> !IsAlnum(name[k]));
    assert Slug(name) == if i == j then "node" else Marked(name)[i..j];
    assert forall k :: 0 <= k < j - i ==> Marked(name)[i..j][k] == Marked(name)[i + k];
  }

  lemma Between(s: string) returns (i: nat, j: nat)
    ensures i <= j <= |s| && TrimRight(TrimLeft(s)) == s[i..j]
    ensures forall k :: 0 <= k < i || j <= k < |s| ==> s[k] == '_'
    ensures i < j ==> s[i] != '_' && s[j - 1] != '_'
  {
    i := TrimmedLeft(s);
    var n := TrimmedRight(s[i..]);
    j := i + n;
    assert s[i..][..n] == s[i..j];
    forall k | j <= k < |s| ensures s[k] == '_' { assert s[i..][k - i] == s[k]; }
  }

  function Numbered(base: string, index: nat): string { base + "_" + Decimal(index) }

  /** The number that a string of digits denotes. */
  function ValueOf(s: string): int {
    if s == [] then 0 else 10 * ValueOf(s[..|s| - 1]) + (s[|s| - 1] as int - '0' as int)
  }

  /** Decimal notation: digits, no leading zero, read back as the number. */
  lemma {:induction false} DecimalReads(n: nat)
    ensures ValueOf(Decimal(n)) == n && (forall c :: c in Decimal(n) ==> '0' <= c <= '9')
    ensures n > 0 ==> Decimal(n)[0] != '0'
  {
    var digit := ['0' + (n % 10) as char];
    if n < 10 {
      assert digit[..0] == [];
    } else {
      DecimalReads(n / 10);
      assert (Decimal(n / 10) + digit)[..|Decimal(n / 10)|] == Decimal(n / 10);
    }
  }

  lemma {:induction false} DecimalInjective(a: nat, b: nat)
    requires Decimal(a) == Decimal(b)
    ensures a == b
    decreases a
  {
    var (s, t) := (Decimal(a), Decimal(b));
    assert s[|s| - 1] == '0' + (a % 10) as char && t[|t| - 1] == '0' + (b % 10) as char;
    assert a % 10 == b % 10;
    if a >= 10 && b >= 10 {
      assert Decimal(a / 10) == s[..|s| - 1] == t[..|t| - 1] == Decimal(b / 10);
      DecimalInjective(a / 10, b / 10);
    }
  }

  lemma NumberedInjective(base: string, i: nat, j: nat)
    requires Numbered(base, i) == Numbered(base, j)
    ensures i == j
  {
    var prefix := base + "_";
    assert Decimal(i) == Numbered(base, i)[|prefix|..] == Numbered(base, j)[|prefix|..] == Decimal(j);
    DecimalInjective(i, j);
  }

  lemma {:induction false} SubsetSize<T>(a: set<T>, b: set<T>)
    requires a <= b
    ensures |a| <= |b|
  {
    if a != {} {
      var x :| x in a;
      SubsetSize(a - {x}, b - {x});
    }
  }

  /** `_unique_id`: the plain slug if it is free, else the first free numbered one. The loop stops
      because the names it has rejected are distinct members of `existing`. */
  method UniqueId(name: string, existing: set<string>) returns (id: string)
    ensures id !in existing
    ensures Slug(name) !in existing ==> id == Slug(name)
    ensures Slug(name) in existing ==>
      exists k: nat :: k >= 2 && id == Numbered(Slug(name), k) == Slug(name) + "_" + Decimal(k)
        && forall i: nat :: 2 <= i < k ==> Numbered(Slug(name), i) in existing
  {
    var base := Slug(name);
    if base !in existing { return base; }
    var index: nat := 2;
    ghost var rejected: set<string> := {};
    while Numbered(base, index) in existing
      invariant index >= 2 && rejected <= existing && |rejected| == index - 2 <= |existing|
      invariant forall i: nat :: 2 <= i < index ==> Numbered(base, i) in existing
      invariant forall s :: s in rejected ==> exists i: nat :: 2 <= i < index && s == Numbered(base, i)
      decreases |existing| + 2 - index
    {
      if Numbered(base, index) in rejected {
        var i: nat :| 2 <= i < index && Numbered(base, index) == Numbered(base, i);
        NumberedInjective(base, index, i);
      }
      rejected := rejected + {Numbered(base, index)};
      SubsetSize(rejected, existing);
      index := index + 1;
    }
    id := Numbered(base, index);
  }

  // ------------------------------------------------------------------ the builder

  function Ids(nodes: seq<GraphNode>): set<string> { set n | n in nodes :: n.id }

  function LinearEdges(nodes: seq<GraphNode>): (edges: seq<Edge>)
    ensures |edges| == if nodes == [] then 0 else |nodes| - 1
    ensures forall i :: 0 <= i < |nodes| - 1 ==> edges[i] == Edge(nodes[i].id, nodes[i + 1].id)
  {
    if |nodes| <= 1 then [] else [Edge(nodes[0].id, nodes[1].id)] + LinearEdges(nodes[1..])
  }

  class Workflow {
    var nodes: seq<GraphNode>
    var graph: Option<seq<Edge>>

    /** Ids never repeat, and a cached graph is the graph of the present nodes. */
    ghost predicate Valid()
      reads this
    {
      && (nodes != [] ==> NodesFine(nodes))
      && (graph.Some? ==> graph.value == LinearEdges(nodes) && WellFormed(nodes, graph.value))
    }

    constructor ()
      ensures Valid() && nodes == []
    {
      nodes, graph := [], None;
    }

    method Add(name: string)
      requires Valid()
      modifies this
      ensures Valid() && |nodes| == |old(nodes)| + 1 && nodes[..|old(nodes)|] == old(nodes)
      ensures nodes[|old(nodes)|].id !in Ids(old(nodes)) && graph == None
      ensures nodes[|old(nodes)|].hasExecutable
      ensures Slug(name) !in Ids(old(nodes)) ==> nodes[|old(nodes)|].id == Slug(name)
      ensures Slug(name) in Ids(old(nodes)) ==>
        exists k: nat :: k >= 2 && nodes[|old(nodes)|].id == Numbered(Slug(name), k) == Slug(name) + "_" + Decimal(k)
          && forall i: nat :: 2 <= i < k ==> Numbered(Slug(name), i) in Ids(old(nodes))
    {
      var id := UniqueId(name, Ids(nodes));
      forall i | 0 <= i < |nodes| ensures nodes[i].id != id { assert nodes[i] in nodes; }
      nodes, graph := nodes + [GraphNode(id, true)], None;
    }

    /** `start`: refused once there is a node. */
    method Start(name: string) returns (refused: bool)
      requires Valid()
      modifies this
      ensures Valid() && refused == (old(nodes) != [])
      ensures refused ==> nodes == old(nodes) && graph == old(graph)
      ensures !refused ==> nodes == [GraphNode(Slug(name), true)]
    {
      refused := nodes != [];
      if !refused { Add(name); }
    }

    /** Every non-empty workflow built this way passes the structural checks; an empty one fails. */
    method CompileGraph(force: bool) returns (error: Option<CompilationError>)
      requires Valid()
      modifies this`graph
      ensures Valid() && error == if nodes == [] then Some(NoNodes) else None
      ensures error.None? ==> graph == Some(LinearEdges(nodes))
    {
      if graph.Some? && !force { return None; }
      var edges := LinearEdges(nodes);
      error := Compile(nodes, edges);
      if nodes != [] { LinearIsWellFormed(nodes); }
      if error.None? { graph := Some(edges); }
    }
  }

  lemma {:induction false} LinearIsWellFormed(nodes: seq<GraphNode>)
    requires NodesFine(nodes)
    ensures WellFormed(nodes, LinearEdges(nodes))
  {
    var edges := LinearEdges(nodes);
    forall e | e in edges ensures Known(nodes, e.source) && Known(nodes, e.target) {
      var k := EdgePosition(nodes, e);
    }
    forall i | 0 <= i < |nodes| ensures Reaches(edges, nodes[0].id, nodes[i].id) { LinearReaches(nodes, i); }
    LinearAcyclic(nodes);
  }

  lemma {:induction false} LinearReaches(nodes: seq<GraphNode>, i: nat)
    requires i < |nodes|
    ensures Reaches(LinearEdges(nodes), nodes[0].id, nodes[i].id)
  {
    if i == 0 {
      ReachesItself(LinearEdges(nodes), nodes[0].id);
    } else {
      LinearReaches(nodes, i - 1);
      assert LinearEdges(nodes)[i - 1] == Edge(nodes[i - 1].id, nodes[i].id);
      ReachesFurther(LinearEdges(nodes), nodes[0].id, Edge(nodes[i - 1].id, nodes[i].id));
    }
  }

  /** A walk along the line only moves forward. */
  lemma {:induction false} WalkAdvances(nodes: seq<GraphNode>, p: seq<string>, k: nat)
    requires NodesFine(nodes) && Walk(LinearEdges(nodes), p) && k < |nodes| && p[0] == nodes[k].id
    ensures k + |p| <= |nodes| && p[|p| - 1] == nodes[k + |p| - 1].id
    decreases |p|
  {
    if |p| >= 2 {
      var j := EdgePosition(nodes, Edge(p[0], p[1]));
      assert Walk(LinearEdges(nodes), p[1..]);
      WalkAdvances(nodes, p[1..], k + 1);
    }
  }

  lemma {:induction false} LinearAcyclic(nodes: seq<GraphNode>)
    requires NodesFine(nodes)
    ensures !Cyclic(LinearEdges(nodes))
  {
    if Cyclic(LinearEdges(nodes)) {
      var p :| Walk(LinearEdges(nodes), p) && |p| >= 2 && p[0] == p[|p| - 1];
      var k := EdgePosition(nodes, Edge(p[0], p[1]));
      WalkAdvances(nodes, p, k);
    }
  }

  lemma EdgePosition(nodes: seq<GraphNode>, e: Edge) returns (k: nat)
    requires NodesFine(nodes) && e in LinearEdges(nodes)
    ensures k < |nodes| - 1 && e == Edge(nodes[k].id, nodes[k + 1].id)
    ensures forall j :: 0 <= j < |nodes| && nodes[j].id == e.source ==> j == k
  {
    k :| 0 <= k < |LinearEdges(nodes)| && LinearEdges(nodes)[k] == e;
  }
}
