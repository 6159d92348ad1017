/** The workflow-graph abstraction both agents are built on: a graph of named
    steps over a dictionary state, built by successive `add_node` / `add_edge` /
    `add_conditional_edges` calls, and an executor that runs one step at a time,
    merges each step's partial update into the state by key-wise overwrite (the
    default when no reducers are declared), follows direct edges or asks a
    router for a label, and stops at END or at the step limit. */
module Workflow {
  import opened Wrappers
  import opened Values

  /** Where an edge starts: the START sentinel or a node. */
  datatype Source<N> = Start | At(node: N)

  /** Where an edge leads: a node or the END sentinel. */
  datatype Target<N> = Go(node: N) | End

  datatype Edge<N, R> =
    | Direct(from: Source<N>, to: Target<N>)
    | Conditional(from: Source<N>, router: R, branches: map<string, Target<N>>)

  /** The label under which a path map names END. */
  const EndLabel: string := "__end__"

  /** A graph: its nodes in declaration order, its edges in declaration order,
      and the keys of its input and output schemas. */
  datatype Graph<N, R, K> = Graph(nodes: seq<N>, edges: seq<Edge<N, R>>,
                                  inputKeys: set<K>, outputKeys: set<K>)

  /** One streamed event: the node that ran and the partial update it returned. */
  datatype Event<N, K> = Event(node: N, update: map<K, Value>)

  datatype RunError<N> =
    | NoEdge(from: Source<N>)
    | RouterLabelError(returned: string)
    | StepLimitExceeded
    | StepFailed(node: N, error: string)

  datatype RunResult<N, K> =
    | Completed(output: map<K, Value>, final: map<K, Value>, events: seq<Event<N, K>>)
    | Aborted(error: RunError<N>)

  /** Key-wise overwrite: the update's keys win, every other key is untouched. */
  function Merge<K(==)>(s: map<K, Value>, u: map<K, Value>): (r: map<K, Value>)
    ensures r.Keys == s.Keys + u.Keys
    ensures forall k :: k in u ==> r[k] == u[k]
    ensures forall k :: k in s && k !in u ==> r[k] == s[k]
  {
    s + u
  }

  /** The restriction of a state to a schema's keys. */
  function Project<K(==)>(s: map<K, Value>, keys: set<K>): (r: map<K, Value>)
    ensures r.Keys == s.Keys * keys
    ensures forall k :: k in r ==> r[k] == s[k]
  {
    map k | k in s && k in keys :: s[k]
  }

  /** The index of the first edge leaving `src`, or -1. */
  function FindEdge<N(==), R>(edges: seq<Edge<N, R>>, src: Source<N>): (i: int)
    ensures -1 <= i < |edges|
    ensures i >= 0 ==> edges[i].from == src
  {
    if edges == [] then -1
    else if edges[0].from == src then 0
    else
      var i := FindEdge(edges[1..], src);
      if i == -1 then -1 else i + 1
  }

  /** The edge found is the first one leaving `src`, and none is found exactly
      when no edge leaves `src`. */
  lemma {:induction false} FindEdgeFirst<N, R>(edges: seq<Edge<N, R>>, src: Source<N>)
    ensures FindEdge(edges, src) == -1 <==> forall j :: 0 <= j < |edges| ==> edges[j].from != src
    ensures FindEdge(edges, src) >= 0 ==> forall j :: 0 <= j < FindEdge(edges, src) ==> edges[j].from != src
  {
    if edges != [] && edges[0].from != src {
      FindEdgeFirst(edges[1..], src);
      assert forall j :: 1 <= j < |edges| ==> edges[j] == edges[1..][j - 1];
    }
  }

  /** An edge leaving `src` with none before it is the one found. */
  lemma FindEdgeAt<N, R>(edges: seq<Edge<N, R>>, src: Source<N>, i: int)
    requires 0 <= i < |edges| && edges[i].from == src
    requires forall j :: 0 <= j < i ==> edges[j].from != src
    ensures FindEdge(edges, src) == i
  {
    FindEdgeFirst(edges, src);
  }

  /** `e` can lead to `t`. */
  predicate CanLeadTo<N(==), R>(e: Edge<N, R>, t: Target<N>) {
    match e
    case Direct(_, to) => t == to
    case Conditional(_, _, branches) => t in branches.Values
  }

  /** Resolve the edge leaving `src` in state `s`: a direct edge gives its target,
      a conditional edge asks its router and looks the label up. */
  function Resolve<N(==), R, K(==)>(edges: seq<Edge<N, R>>, src: Source<N>,
                            route: (R, map<K, Value>) -> string,
                            s: map<K, Value>): (r: Result<Target<N>, RunError<N>>)
    ensures r.Success? ==> FindEdge(edges, src) >= 0 && CanLeadTo(edges[FindEdge(edges, src)], r.value)
    ensures r.Failure? && r.error.NoEdge? <==> FindEdge(edges, src) == -1
    ensures r.Failure? ==> r.error.NoEdge? || r.error.RouterLabelError?
  {
    var i := FindEdge(edges, src);
    if i == -1 then Failure(NoEdge(src))
    else
      match edges[i]
      case Direct(_, to) => Success(to)
      case Conditional(_, router, branches) =>
        var got := route(router, s);
        if got in branches then Success(branches[got]) else Failure(RouterLabelError(got))
  }

  /** The run from `cur` in state `s` with `budget` steps left: the final state
      and the streamed events, or the error that aborts it. */
  function RunFrom<N(==), R, K(==)>(g: Graph<N, R, K>, route: (R, map<K, Value>) -> string,
                            step: (N, map<K, Value>) -> Outcome<map<K, Value>>,
                            cur: Target<N>, s: map<K, Value>, budget: nat)
    : Result<(map<K, Value>, seq<Event<N, K>>), RunError<N>>
    decreases budget
  {
    match cur
    case End => Success((s, []))
    case Go(n) =>
      if budget == 0 then Failure(StepLimitExceeded)
      else
        match step(n, s)
        case Raise(e) => Failure(StepFailed(n, e))
        case Ok(u) =>
          var s' := Merge(s, u);
          match Resolve(g.edges, At(n), route, s')
          case Failure(err) => Failure(err)
          case Success(next) =>
            Prepend([Event(n, u)], RunFrom(g, route, step, next, s', budget - 1))
  }

  function Prepend<N(==), K(==)>(evs: seq<Event<N, K>>, r: Result<(map<K, Value>, seq<Event<N, K>>), RunError<N>>)
    : Result<(map<K, Value>, seq<Event<N, K>>), RunError<N>>
  {
    match r
    case Failure(err) => Failure(err)
    case Success((f, rest)) => Success((f, evs + rest))
  }

  lemma PrependNothing<N, K>(r: Result<(map<K, Value>, seq<Event<N, K>>), RunError<N>>)
    ensures Prepend([], r) == r
  {
    if r.Success? {
      assert [] + r.value.1 == r.value.1;
    }
  }

  lemma PrependTwice<N, K>(a: seq<Event<N, K>>, b: seq<Event<N, K>>,
                           r: Result<(map<K, Value>, seq<Event<N, K>>), RunError<N>>)
    ensures Prepend(a, Prepend(b, r)) == Prepend(a + b, r)
  {
    if r.Success? {
      assert a + (b + r.value.1) == (a + b) + r.value.1;
    }
  }

  /** A whole run: restrict the input to the input schema, resolve the entry
      edge, run, and restrict the final state to the output schema. */
  function RunSpec<N(==), R, K(==)>(g: Graph<N, R, K>, route: (R, map<K, Value>) -> string,
                            step: (N, map<K, Value>) -> Outcome<map<K, Value>>,
                            input: map<K, Value>, limit: nat): RunResult<N, K>
  {
    var s0 := Project(input, g.inputKeys);
    match Resolve(g.edges, Start, route, s0)
    case Failure(err) => Aborted(err)
    case Success(t) =>
      match RunFrom(g, route, step, t, s0, limit)
      case Failure(err) => Aborted(err)
      case Success((f, evs)) => Completed(Project(f, g.outputKeys), f, evs)
  }

  /** The executor: one step at a time until END, an error, or the step limit. */
  method Run<N(==), R, K(==)>(g: Graph<N, R, K>, route: (R, map<K, Value>) -> string,
                      step: (N, map<K, Value>) -> Outcome<map<K, Value>>,
                      input: map<K, Value>, limit: nat) returns (r: RunResult<N, K>)
    ensures r == RunSpec(g, route, step, input, limit)
  {
    var s := Project(input, g.inputKeys);
    var first := Resolve(g.edges, Start, route, s);
    if first.Failure? {
      return Aborted(first.error);
    }
    ghost var s0 := s;
    var cur := first.value;
    var events: seq<Event<N, K>> := [];
    var budget := limit;
    PrependNothing(RunFrom(g, route, step, cur, s, budget));
    while cur.Go?
      invariant RunFrom(g, route, step, first.value, s0, limit)
                == Prepend(events, RunFrom(g, route, step, cur, s, budget))
      decreases budget
    {
      if budget == 0 {
        return Aborted(StepLimitExceeded);
      }
      var n := cur.node;
      var out := step(n, s);
      if out.Raise? {
        return Aborted(StepFailed(n, out.error));
      }
      var u := out.value;
      s := Merge(s, u);
      var next := Resolve(g.edges, At(n), route, s);
      if next.Failure? {
        return Aborted(next.error);
      }
      PrependTwice(events, [Event(n, u)], RunFrom(g, route, step, next.value, s, budget - 1));
      events := events + [Event(n, u)];
      cur := next.value;
      budget := budget - 1;
    }
    r := Completed(Project(s, g.outputKeys), s, events);
  }

  /** Replaying the streamed updates, in order, on a state. */
  function Replay<N(==), K(==)>(s: map<K, Value>, evs: seq<Event<N, K>>): map<K, Value>
    decreases |evs|
  {
    if evs == [] then s else Replay(Merge(s, evs[0].update), evs[1..])
  }

  lemma {:induction false} RunFromReplays<N, R, K>(g: Graph<N, R, K>, route: (R, map<K, Value>) -> string,
                                                   step: (N, map<K, Value>) -> Outcome<map<K, Value>>,
                                                   cur: Target<N>, s: map<K, Value>, budget: nat)
    ensures var r := RunFrom(g, route, step, cur, s, budget);
            r.Success? ==> r.value.0 == Replay(s, r.value.1) && |r.value.1| <= budget
    decreases budget
  {
    if cur.Go? && budget > 0 && step(cur.node, s).Ok? {
      var s' := Merge(s, step(cur.node, s).value);
      var next := Resolve(g.edges, At(cur.node), route, s');
      if next.Success? {
        RunFromReplays(g, route, step, next.value, s', budget - 1);
      }
    }
  }

  /** Stream consistency: a completed run's final state is the input, restricted
      to the input schema, with the streamed updates applied in stream order; its
      output is that state restricted to the output schema; and it took at most
      `limit` steps. */
  lemma CompletedRunReplaysStream<N, R, K>(g: Graph<N, R, K>, route: (R, map<K, Value>) -> string,
                                           step: (N, map<K, Value>) -> Outcome<map<K, Value>>,
                                           input: map<K, Value>, limit: nat)
    ensures var r := RunSpec(g, route, step, input, limit);
            r.Completed? ==> r.final == Replay(Project(input, g.inputKeys), r.events)
                             && r.output == Project(r.final, g.outputKeys)
                             && |r.events| <= limit
  {
    var s0 := Project(input, g.inputKeys);
    var first := Resolve(g.edges, Start, route, s0);
    if first.Success? {
      RunFromReplays(g, route, step, first.value, s0, limit);
    }
  }

  /** The fields a sequence of steps writes, when step `n` always writes `writes(n)`. */
  function Written<N, K>(writes: N -> set<K>, ns: seq<N>): set<K> {
    if ns == [] then {} else writes(ns[0]) + Written(writes, ns[1..])
  }

  lemma {:induction false} WrittenAppend<N, K>(writes: N -> set<K>, a: seq<N>, b: seq<N>)
    ensures Written(writes, a + b) == Written(writes, a) + Written(writes, b)
  {
    if a != [] {
      WrittenAppend(writes, a[1..], b);
      assert (a + b)[1..] == a[1..] + b;
    } else {
      assert a + b == b;
    }
  }

  /** Every step that succeeds writes exactly the fields `writes` gives it. */
  ghost predicate WritesExactly<N(!new), K(!new)>(step: (N, map<K, Value>) -> Outcome<map<K, Value>>, writes: N -> set<K>) {
    forall n, s :: step(n, s).Ok? ==> step(n, s).value.Keys == writes(n)
  }

  lemma PrependEvent<N, K>(e: Event<N, K>, rest: Result<(map<K, Value>, seq<Event<N, K>>), RunError<N>>)
    ensures var r := Prepend([e], rest);
            r.Success? <==> rest.Success?
    ensures var r := Prepend([e], rest);
            r.Success? ==> r.value.0 == rest.value.0 && Nodes(r.value.1) == [e.node] + Nodes(rest.value.1)
  {
    if rest.Success? {
      var evs := [e] + rest.value.1;
      assert forall i :: 0 < i < |evs| ==> evs[i] == rest.value.1[i - 1];
    }
  }

  lemma KeysStep<N, K>(writes: N -> set<K>, before: set<K>, written: set<K>, n: N, after: set<K>, tail: seq<N>)
    requires written == writes(n)
    requires after == (before + written) + Written(writes, tail)
    ensures after == before + Written(writes, [n] + tail)
  {
    assert ([n] + tail)[1..] == tail;
  }

  lemma {:induction false} RunFromWrites<N(!new), R, K(!new)>(g: Graph<N, R, K>, route: (R, map<K, Value>) -> string,
                                                 step: (N, map<K, Value>) -> Outcome<map<K, Value>>,
                                                 writes: N -> set<K>,
                                                 cur: Target<N>, s: map<K, Value>, budget: nat)
    requires WritesExactly(step, writes)
    ensures var r := RunFrom(g, route, step, cur, s, budget);
            r.Success? ==> r.value.0.Keys == s.Keys + Written(writes, Nodes(r.value.1))
    decreases budget
  {
    if cur.Go? && budget > 0 && step(cur.node, s).Ok? {
      var n := cur.node;
      var u := step(n, s).value;
      var s' := Merge(s, u);
      var next := Resolve(g.edges, At(n), route, s');
      if next.Success? {
        var rest := RunFrom(g, route, step, next.value, s', budget - 1);
        RunFromWrites(g, route, step, writes, next.value, s', budget - 1);
        PrependEvent(Event(n, u), rest);
        if rest.Success? {
          KeysStep(writes, s.Keys, u.Keys, n, rest.value.0.Keys, Nodes(rest.value.1));
        }
      }
    }
  }

  /** A completed run's final state holds exactly the input fields of the
      input schema and the fields its steps wrote, when every step writes a
      fixed set of fields. */
  lemma CompletedRunWrites<N(!new), R, K(!new)>(g: Graph<N, R, K>, route: (R, map<K, Value>) -> string,
                                          step: (N, map<K, Value>) -> Outcome<map<K, Value>>,
                                          writes: N -> set<K>, input: map<K, Value>, limit: nat)
    requires WritesExactly(step, writes)
    ensures var r := RunSpec(g, route, step, input, limit);
            r.Completed? ==> r.final.Keys == (input.Keys * g.inputKeys) + Written(writes, Nodes(r.events))
  {
    var s0 := Project(input, g.inputKeys);
    var first := Resolve(g.edges, Start, route, s0);
    if first.Success? {
      RunFromWrites(g, route, step, writes, first.value, s0, limit);
    }
  }

  // ---------------------------------------------------------------------------
  // Validity of a topology

  /** An edge leaves a declared node (or START), leads only to declared nodes
      (or END), and, when conditional, maps every label its router can return. */
  predicate EdgeWellFormed<N(==), R>(nodes: seq<N>, labels: R -> set<string>, e: Edge<N, R>) {
    (e.from.At? ==> e.from.node in nodes)
    && match e
       case Direct(_, to) => to.Go? ==> to.node in nodes
       case Conditional(_, router, branches) =>
         labels(router) <= branches.Keys
         && forall l :: l in branches && branches[l].Go? ==> branches[l].node in nodes
  }

  /** START and every node have an outgoing edge, and every edge is well formed. */
  predicate WellFormed<N(==), R, K(==)>(g: Graph<N, R, K>, labels: R -> set<string>) {
    FindEdge(g.edges, Start) >= 0
    && (forall n :: n in g.nodes ==> FindEdge(g.edges, At(n)) >= 0)
    && (forall i :: 0 <= i < |g.edges| ==> EdgeWellFormed(g.nodes, labels, g.edges[i]))
  }

  /** Every label a router returns belongs to its declared label set. */
  ghost predicate RoutesWithin<R(!new), K(!new)>(route: (R, map<K, Value>) -> string, labels: R -> set<string>) {
    forall r, s :: route(r, s) in labels(r)
  }

  lemma ResolveInWellFormed<N, R(!new), K(!new)>(g: Graph<N, R, K>, labels: R -> set<string>,
                                     route: (R, map<K, Value>) -> string,
                                     src: Source<N>, s: map<K, Value>)
    requires WellFormed(g, labels) && RoutesWithin(route, labels)
    requires src.At? ==> src.node in g.nodes
    ensures var r := Resolve(g.edges, src, route, s);
            r.Success? && (r.value.Go? ==> r.value.node in g.nodes)
  {
    var i := FindEdge(g.edges, src);
    assert EdgeWellFormed(g.nodes, labels, g.edges[i]);
    if g.edges[i].Conditional? {
      assert route(g.edges[i].router, s) in labels(g.edges[i].router);
    }
  }

  lemma {:induction false} RunFromWellFormed<N, R(!new), K(!new)>(g: Graph<N, R, K>, labels: R -> set<string>,
                                                      route: (R, map<K, Value>) -> string,
                                                      step: (N, map<K, Value>) -> Outcome<map<K, Value>>,
                                                      cur: Target<N>, s: map<K, Value>, budget: nat)
    requires WellFormed(g, labels) && RoutesWithin(route, labels)
    requires cur.Go? ==> cur.node in g.nodes
    ensures var r := RunFrom(g, route, step, cur, s, budget);
            r.Failure? ==> r.error.StepLimitExceeded? || r.error.StepFailed?
    decreases budget
  {
    if cur.Go? && budget > 0 && step(cur.node, s).Ok? {
      var n := cur.node;
      var u := step(n, s).value;
      var s' := Merge(s, u);
      ResolveInWellFormed(g, labels, route, At(n), s');
      var next := Resolve(g.edges, At(n), route, s');
      RunFromWellFormed(g, labels, route, step, next.value, s', budget - 1);
      assert RunFrom(g, route, step, cur, s, budget)
          == Prepend([Event(n, u)], RunFrom(g, route, step, next.value, s', budget - 1));
    }
  }

  /** In a well-formed graph whose routers keep to their declared labels, a run
      never fails for a missing edge or an unmapped label: it can only run out
      of steps or be aborted by a step that raises. */
  lemma WellFormedRunsNeverMisroute<N, R(!new), K(!new)>(g: Graph<N, R, K>, labels: R -> set<string>,
                                             route: (R, map<K, Value>) -> string,
                                             step: (N, map<K, Value>) -> Outcome<map<K, Value>>,
                                             input: map<K, Value>, limit: nat)
    requires WellFormed(g, labels) && RoutesWithin(route, labels)
    ensures var r := RunSpec(g, route, step, input, limit);
            r.Aborted? ==> r.error.StepLimitExceeded? || r.error.StepFailed?
  {
    var s0 := Project(input, g.inputKeys);
    ResolveInWellFormed(g, labels, route, Start, s0);
    RunFromWellFormed(g, labels, route, step, Resolve(g.edges, Start, route, s0).value, s0, limit);
  }

  // ---------------------------------------------------------------------------
  // Acyclicity

  /** Every edge leads to a node of rank 1..bound, strictly above its source's. */
  predicate EdgeRanked<N(==), R>(e: Edge<N, R>, rank: N -> nat, bound: nat) {
    match e
    case Direct(from, to) => to.Go? ==> RankedStep(from, to.node, rank, bound)
    case Conditional(from, _, branches) =>
      forall l :: l in branches && branches[l].Go? ==> RankedStep(from, branches[l].node, rank, bound)
  }

  predicate RankedStep<N(==)>(from: Source<N>, to: N, rank: N -> nat, bound: nat) {
    1 <= rank(to) <= bound && (from.At? ==> rank(from.node) < rank(to))
  }

  predicate Ranked<N(==), R, K(==)>(g: Graph<N, R, K>, rank: N -> nat, bound: nat) {
    forall i :: 0 <= i < |g.edges| ==> EdgeRanked(g.edges[i], rank, bound)
  }

  /** The nodes of a stream of events. */
  function Nodes<N(==), K(==)>(evs: seq<Event<N, K>>): (ns: seq<N>)
    ensures |ns| == |evs|
    ensures forall i :: 0 <= i < |evs| ==> ns[i] == evs[i].node
  {
    if evs == [] then [] else [evs[0].node] + Nodes(evs[1..])
  }

  predicate RanksIncrease<N(==)>(ns: seq<N>, rank: N -> nat) {
    forall i, j :: 0 <= i < j < |ns| ==> rank(ns[i]) < rank(ns[j])
  }

  lemma {:induction false} RankedRunFrom<N, R, K>(g: Graph<N, R, K>, rank: N -> nat, bound: nat,
                                                  route: (R, map<K, Value>) -> string,
                                                  step: (N, map<K, Value>) -> Outcome<map<K, Value>>,
                                                  n: N, s: map<K, Value>, budget: nat)
    requires Ranked(g, rank, bound)
    requires 1 <= rank(n) <= bound && budget >= bound - rank(n) + 1
    ensures var r := RunFrom(g, route, step, Go(n), s, budget);
            (r.Failure? ==> !r.error.StepLimitExceeded?)
            && (r.Success? ==> 1 <= |r.value.1| <= bound - rank(n) + 1
                               && RanksIncrease(Nodes(r.value.1), rank)
                               && r.value.1[0].node == n
                               && forall i :: 0 <= i < |r.value.1| ==> rank(n) <= rank(r.value.1[i].node))
    decreases budget
  {
    if step(n, s).Ok? {
      var u := step(n, s).value;
      var s' := Merge(s, u);
      var next := Resolve(g.edges, At(n), route, s');
      if next.Success? && next.value.Go? {
        var i := FindEdge(g.edges, At(n));
        assert EdgeRanked(g.edges[i], rank, bound);
        var m := next.value.node;
        RankedRunFrom(g, rank, bound, route, step, m, s', budget - 1);
        var rest := RunFrom(g, route, step, next.value, s', budget - 1);
        if rest.Success? {
          var evs := [Event(n, u)] + rest.value.1;
          assert forall i :: 1 <= i < |evs| ==> evs[i] == rest.value.1[i - 1];
        }
      }
    }
  }

  /** In a graph whose edges strictly increase a rank bounded by `bound`, a run
      with a step limit of at least `bound` never exceeds it, visits nodes in
      strictly increasing rank (so no node runs twice) and runs at most `bound`
      steps. */
  lemma RankedRunsTerminate<N, R, K>(g: Graph<N, R, K>, rank: N -> nat, bound: nat,
                                     route: (R, map<K, Value>) -> string,
                                     step: (N, map<K, Value>) -> Outcome<map<K, Value>>,
                                     input: map<K, Value>, limit: nat)
    requires Ranked(g, rank, bound) && bound <= limit
    ensures var r := RunSpec(g, route, step, input, limit);
            (r.Aborted? ==> !r.error.StepLimitExceeded?)
            && (r.Completed? ==> |r.events| <= bound && RanksIncrease(Nodes(r.events), rank))
  {
    var s0 := Project(input, g.inputKeys);
    var first := Resolve(g.edges, Start, route, s0);
    if first.Success? && first.value.Go? {
      var i := FindEdge(g.edges, Start);
      assert EdgeRanked(g.edges[i], rank, bound);
      RankedRunFrom(g, rank, bound, route, step, first.value.node, s0, limit);
    }
  }

  // ---------------------------------------------------------------------------
  // The builder

  /** A graph under construction: each `add_*` call appends to its tables. */
  class StateGraph<N(==), R, K(==)> {
    var nodes: seq<N>
    var edges: seq<Edge<N, R>>
    const inputKeys: set<K>
    const outputKeys: set<K>

    constructor (inputKeys: set<K>, outputKeys: set<K>)
      ensures this.nodes == [] && this.edges == []
      ensures this.inputKeys == inputKeys && this.outputKeys == outputKeys
    {
      this.nodes := [];
      this.edges := [];
      this.inputKeys := inputKeys;
      this.outputKeys := outputKeys;
    }

    /** The topology built so far. */
    function Snapshot(): Graph<N, R, K>
      reads this
    {
      Graph(nodes, edges, inputKeys, outputKeys)
    }

    method AddNode(n: N)
      modifies this
      ensures nodes == old(nodes) + [n] && edges == old(edges)
    {
      nodes := nodes + [n];
    }

    method AddEdge(from: Source<N>, to: Target<N>)
      modifies this
      ensures edges == old(edges) + [Direct(from, to)] && nodes == old(nodes)
    {
      edges := edges + [Direct(from, to)];
    }

    method AddConditionalEdges(from: Source<N>, router: R, branches: map<string, Target<N>>)
      modifies this
      ensures edges == old(edges) + [Conditional(from, router, branches)] && nodes == old(nodes)
    {
      edges := edges + [Conditional(from, router, branches)];
    }
  }
}
