/** Building rules from decoded configuration records, and rejecting rule lists whose
    prerequisites form a cycle. */
module ConfigLoader {
  import opened Domain

  // ---------------------------------------------------------------- the rule graph

  /** Some rule makes `b` the prerequisite of `a`. */
  ghost predicate DependsOn(rules: seq<Rule>, a: ToolName, b: ToolName) {
    exists i :: 0 <= i < |rules| && rules[i].tool == a && rules[i].prerequisite == b
  }

  /** Each tool of `p` depends on the next one. */
  ghost predicate Walk(rules: seq<Rule>, p: seq<ToolName>) {
    |p| > 0 && forall i :: 0 <= i < |p| - 1 ==> DependsOn(rules, p[i], p[i + 1])
  }

  ghost predicate ClosedWalk(rules: seq<Rule>, p: seq<ToolName>) {
    |p| > 1 && Walk(rules, p) && p[0] == p[|p| - 1]
  }

  ghost predicate Cyclic(rules: seq<Rule>) {
    exists p: seq<ToolName> :: ClosedWalk(rules, p)
  }

  /** Every dependency leads to a smaller rank. */
  ghost predicate Ranks(rules: seq<Rule>, rank: map<ToolName, nat>) {
    forall a, b :: DependsOn(rules, a, b) ==> a in rank && b in rank && rank[b] < rank[a]
  }

  lemma {:induction false} RankFallsAlongWalk(rules: seq<Rule>, rank: map<ToolName, nat>, p: seq<ToolName>)
    requires Ranks(rules, rank) && Walk(rules, p) && |p| > 1
    ensures p[0] in rank && p[|p| - 1] in rank && rank[p[|p| - 1]] < rank[p[0]]
  {
    assert DependsOn(rules, p[|p| - 2], p[|p| - 1]);
    if |p| > 2 {
      RankFallsAlongWalk(rules, rank, p[..|p| - 1]);
    }
  }

  lemma RankedIsAcyclic(rules: seq<Rule>, rank: map<ToolName, nat>)
    requires Ranks(rules, rank)
    ensures !Cyclic(rules)
  {
    forall p: seq<ToolName> ensures !ClosedWalk(rules, p) {
      if ClosedWalk(rules, p) {
        RankFallsAlongWalk(rules, rank, p);
      }
    }
  }

  // ---------------------------------------------------------------- the search

  type Graph = map<ToolName, seq<ToolName>>

  function Successors(adj: Graph, tool: ToolName): seq<ToolName> {
    if tool in adj then adj[tool] else []
  }

  ghost predicate Represents(adj: Graph, rules: seq<Rule>) {
    forall a, b :: b in Successors(adj, a) <==> DependsOn(rules, a, b)
  }

  type Flags = map<ToolName, bool>

  /** A missing flag is off, as in a Go map of booleans. */
  predicate On(flags: Flags, t: ToolName) {
    t in flags && flags[t]
  }

  /** Tools on the recursion stack form a walk; every other visited tool is finished, and
      all that a finished tool depends on finished before it. */
  ghost predicate Progress(
    rules: seq<Rule>, stack: seq<ToolName>, visited: Flags, onStack: Flags, rank: map<ToolName, nat>)
  {
    && (forall t :: On(onStack, t) <==> t in stack)
    && (forall t :: On(visited, t) <==> t in stack || t in rank)
    && (forall t :: t in stack ==> t !in rank)
    && (stack != [] ==> Walk(rules, stack))
    && (forall v, w :: v in rank && DependsOn(rules, v, w) ==> w in rank && rank[w] < rank[v])
    && (forall v :: v in rank ==> rank[v] < |rank|)
  }

  lemma EnterTool(
    rules: seq<Rule>, stack: seq<ToolName>, visited: Flags, onStack: Flags, rank: map<ToolName, nat>, tool: ToolName)
    requires Progress(rules, stack, visited, onStack, rank) && !On(visited, tool)
    requires stack != [] ==> DependsOn(rules, stack[|stack| - 1], tool)
    ensures Progress(rules, stack + [tool], visited[tool := true], onStack[tool := true], rank)
    ensures tool !in stack
  {
    var path := stack + [tool];
    forall i | 0 <= i < |path| - 1 ensures DependsOn(rules, path[i], path[i + 1]) {
      if i < |stack| - 1 {
        assert DependsOn(rules, stack[i], stack[i + 1]);
      }
    }
  }

  /** What the two tests of the search say about a visited tool. */
  lemma VisitedTool(
    rules: seq<Rule>, stack: seq<ToolName>, visited: Flags, onStack: Flags, rank: map<ToolName, nat>, tool: ToolName)
    requires Progress(rules, stack, visited, onStack, rank) && On(visited, tool)
    ensures if On(onStack, tool) then tool in stack && Walk(rules, stack) else tool in rank
  {
  }

  lemma LeaveTool(
    rules: seq<Rule>, adj: Graph, nodes: set<ToolName>, stack: seq<ToolName>, visited: Flags, onStack: Flags,
    rank: map<ToolName, nat>, tool: ToolName)
    requires Progress(rules, stack + [tool], visited, onStack, rank) && tool !in stack
    requires WellPosed(adj, rules, nodes)
    requires forall i :: 0 <= i < |Successors(adj, tool)| ==> Successors(adj, tool)[i] in rank
    ensures Progress(rules, stack, visited, onStack[tool := false], rank[tool := |rank|])
  {
    var path := stack + [tool];
    assert tool in path;
    assert forall t :: t in path <==> t in stack || t == tool;
    forall i | 0 <= i < |stack| - 1 ensures DependsOn(rules, stack[i], stack[i + 1]) {
      assert DependsOn(rules, path[i], path[i + 1]);
    }
    forall w | DependsOn(rules, tool, w) ensures w in rank {
      assert w in Successors(adj, tool);
    }
    assert |rank[tool := |rank|]| == |rank| + 1;
  }

  /** The tools not visited yet. */
  ghost function Unvisited(nodes: set<ToolName>, visited: Flags): set<ToolName> {
    set t | t in nodes && !On(visited, t)
  }

  lemma UnvisitedShrinks(
    nodes: set<ToolName>, rules: seq<Rule>, stack: seq<ToolName>, tool: ToolName,
    visited0: Flags, onStack0: Flags, rank0: map<ToolName, nat>,
    visited: Flags, onStack: Flags, rank: map<ToolName, nat>)
    requires Progress(rules, stack, visited0, onStack0, rank0)
    requires Progress(rules, stack + [tool], visited, onStack, rank)
    requires tool in nodes && !On(visited0, tool) && rank0.Keys <= rank.Keys
    ensures Unvisited(nodes, visited) < Unvisited(nodes, visited0)
  {
    assert tool in stack + [tool];
    assert tool in Unvisited(nodes, visited0);
    forall t | t in stack ensures t in stack + [tool] {
    }
  }

  /** A dependency back into the recursion stack closes a cycle. */
  lemma CycleThroughStack(rules: seq<Rule>, stack: seq<ToolName>, next: ToolName)
    requires next in stack && Walk(rules, stack)
    requires DependsOn(rules, stack[|stack| - 1], next)
    ensures Cyclic(rules)
  {
    var k :| 0 <= k < |stack| && stack[k] == next;
    var p := stack[k..] + [next];
    forall i | 0 <= i < |p| - 1 ensures DependsOn(rules, p[i], p[i + 1]) {
      if i < |p| - 2 {
        assert DependsOn(rules, stack[k + i], stack[k + i + 1]);
      }
    }
    assert ClosedWalk(rules, p);
  }

  /** The search runs on the graph of `rules`, and `nodes` holds all that is depended on. */
  ghost predicate WellPosed(adj: Graph, rules: seq<Rule>, nodes: set<ToolName>) {
    && Represents(adj, rules)
    && (forall a, b :: b in Successors(adj, a) ==> b in nodes)
  }

  lemma SuccessorIsDependency(adj: Graph, rules: seq<Rule>, nodes: set<ToolName>, a: ToolName, b: ToolName)
    requires WellPosed(adj, rules, nodes) && b in Successors(adj, a)
    ensures DependsOn(rules, a, b) && b in nodes
  {
  }

  /** The depth-first search, with the two maps its closure shares. */
  class CycleSearch {
    const adj: Graph
    ghost const rules: seq<Rule>
    ghost const nodes: set<ToolName>
    var visited: Flags
    var recursionStack: Flags
    // Finished tools, ranked in the order in which they finished.
    ghost var rank: map<ToolName, nat>

    constructor (rules: seq<Rule>, adj: Graph, ghost nodes: set<ToolName>)
      ensures this.rules == rules && this.adj == adj && this.nodes == nodes
      ensures Valid([]) && rank == map[]
    {
      this.rules, this.adj, this.nodes := rules, adj, nodes;
      visited, recursionStack := map[], map[];
      rank := map[];
    }

    ghost predicate Valid(stack: seq<ToolName>)
      reads this
    {
      Progress(rules, stack, visited, recursionStack, rank)
    }

    /** Explores `tool`; `stack` is the path of unfinished calls that led here. */
    method HasCycle(tool: ToolName, ghost stack: seq<ToolName>) returns (found: bool)
      requires WellPosed(adj, rules, nodes) && Valid(stack) && tool in nodes && !On(visited, tool)
      requires stack != [] ==> DependsOn(rules, stack[|stack| - 1], tool)
      modifies this
      ensures found ==> Cyclic(rules)
      ensures !found ==> Valid(stack) && tool in rank && old(rank.Keys) <= rank.Keys
      decreases Unvisited(nodes, visited)
    {
      hide Progress, Walk, DependsOn, WellPosed, Represents, Unvisited;
      EnterTool(rules, stack, visited, recursionStack, rank, tool);
      visited := visited[tool := true];
      recursionStack := recursionStack[tool := true];
      ghost var path := stack + [tool];
      var prereqs := Successors(adj, tool);
      for i := 0 to |prereqs|
        invariant Valid(path)
        invariant old(rank.Keys) <= rank.Keys
        invariant forall j :: 0 <= j < i ==> prereqs[j] in rank
      {
        var prereq := prereqs[i];
        SuccessorIsDependency(adj, rules, nodes, tool, prereq);
        if !On(visited, prereq) {
          UnvisitedShrinks(nodes, rules, stack, tool, old(visited), old(recursionStack), old(rank),
                           visited, recursionStack, rank);
          found := HasCycle(prereq, path);
          if found {
            return true;
          }
        } else {
          VisitedTool(rules, path, visited, recursionStack, rank, prereq);
          if On(recursionStack, prereq) {
            CycleThroughStack(rules, path, prereq);
            return true;
          }
        }
      }
      LeaveTool(rules, adj, nodes, stack, visited, recursionStack, rank, tool);
      recursionStack := recursionStack[tool := false];
      rank := rank[tool := |rank|];
      return false;
    }
  }

  /** Reports a circular dependency exactly when the rules contain one, whatever order the
      tools are started in. */
  method Validate(rules: seq<Rule>) returns (err: Option<Error>)
    ensures err == if Cyclic(rules) then Some(CircularDependency) else None
  {
    var adj: Graph := map[];
    ghost var nodes: set<ToolName> := {};
    for i := 0 to |rules|
      invariant Represents(adj, rules[..i])
      invariant forall a, b :: b in Successors(adj, a) ==> a in nodes && b in nodes
      invariant adj.Keys <= nodes
    {
      var rule := rules[i];
      ghost var before := adj;
      adj := adj[rule.tool := Successors(adj, rule.tool) + [rule.prerequisite]];
      nodes := nodes + {rule.tool, rule.prerequisite};
      OneMoreRule(before, adj, rules, i);
    }
    assert rules[..|rules|] == rules;

    var search := new CycleSearch(rules, adj, nodes);
    var pending := adj.Keys;
    while pending != {}
      invariant WellPosed(adj, rules, nodes) && search.Valid([])
      invariant search.adj == adj && search.rules == rules && search.nodes == nodes
      invariant pending <= adj.Keys
      invariant adj.Keys - pending <= search.rank.Keys
      invariant fresh(search)
      decreases pending
    {
      var tool :| tool in pending;
      pending := pending - {tool};
      if !On(search.visited, tool) {
        var found := search.HasCycle(tool, []);
        if found {
          return Some(CircularDependency);
        }
      }
    }
    assert Ranks(rules, search.rank) by {
      forall a, b | DependsOn(rules, a, b)
        ensures a in search.rank && b in search.rank && search.rank[b] < search.rank[a]
      {
        assert b in Successors(adj, a);
      }
    }
    RankedIsAcyclic(rules, search.rank);
    return None;
  }

  lemma OneMoreRule(before: Graph, after: Graph, rules: seq<Rule>, i: nat)
    requires i < |rules| && Represents(before, rules[..i])
    requires after == before[rules[i].tool := Successors(before, rules[i].tool) + [rules[i].prerequisite]]
    ensures Represents(after, rules[..i + 1])
  {
    forall a, b ensures b in Successors(after, a) <==> DependsOn(rules[..i + 1], a, b) {
      assert b in Successors(before, a) <==> DependsOn(rules[..i], a, b);
      if DependsOn(rules[..i], a, b) {
        var j :| 0 <= j < i && rules[..i][j].tool == a && rules[..i][j].prerequisite == b;
        assert rules[..i + 1][j].tool == a;
      }
      if a == rules[i].tool && b == rules[i].prerequisite {
        assert rules[..i + 1][i].tool == a;
      }
      if DependsOn(rules[..i + 1], a, b) {
        var j :| 0 <= j < i + 1 && rules[..i + 1][j].tool == a && rules[..i + 1][j].prerequisite == b;
        if j < i {
          assert rules[..i][j].tool == a;
        }
      }
    }
  }

  // ---------------------------------------------------------------- building rules

  /** The expiry field of a record: left out, a duration, or text that is none. */
  datatype ExpiryField = Absent | Duration(length: Time) | Malformed

  datatype RuleConfig = RuleConfig(
    tool: ToolName,
    prerequisite: ToolName,
    expiry: ExpiryField,
    errorMessage: string,
    oneTimeUse: bool)

  /** What is wrong with a record, looking at its expiry first. */
  ghost function Defect(rc: RuleConfig): Option<Error> {
    if rc.expiry.Malformed? then Some(InvalidExpiry(rc.tool))
    else if rc.tool == "" then Some(EmptyToolName)
    else if rc.tool == rc.prerequisite then Some(SelfDependency)
    else None
  }

  ghost predicate Acceptable(rc: RuleConfig) {
    Defect(rc).None?
  }

  /** `rule` carries the record's fields, with the default lifetime where none was given. */
  ghost predicate BuiltFrom(rule: Rule, rc: RuleConfig) {
    && rule.tool == rc.tool && rule.prerequisite == rc.prerequisite
    && rule.errorMessage == rc.errorMessage && rule.oneTimeUse == rc.oneTimeUse
    && rule.expiry == (if rc.expiry.Duration? then rc.expiry.length else DEFAULT_EXPIRY)
  }

  /** Builds one rule per record, in order, with five minutes where no expiry is given; the first
      record with a defect fails the load. */
  method Load(records: seq<RuleConfig>) returns (r: Result<seq<Rule>>)
    ensures r.Ok? <==> forall i :: 0 <= i < |records| ==>
                         && !records[i].expiry.Malformed? && records[i].tool != ""
                         && records[i].tool != records[i].prerequisite
    ensures r.Ok? ==> |r.value| == |records| && forall i :: 0 <= i < |records| ==>
                        r.value[i] == Rule(
                          records[i].tool, records[i].prerequisite,
                          if records[i].expiry.Duration? then records[i].expiry.length else 300_000_000_000,
                          records[i].errorMessage, records[i].oneTimeUse)
    ensures r.Err? ==>
              exists i :: && 0 <= i < |records| && (forall j :: 0 <= j < i ==> Acceptable(records[j]))
                          && (records[i].expiry.Malformed? || records[i].tool == ""
                              || records[i].tool == records[i].prerequisite)
                          && r.error == (if records[i].expiry.Malformed? then InvalidExpiry(records[i].tool)
                                         else if records[i].tool == "" then EmptyToolName
                                         else SelfDependency)
  {
    var rules: seq<Rule> := [];
    for i := 0 to |records|
      invariant |rules| == i
      invariant forall j :: 0 <= j < i ==> Acceptable(records[j]) && BuiltFrom(rules[j], records[j])
    {
      var rc := records[i];
      var expiry := DEFAULT_EXPIRY;
      match rc.expiry {
        case Absent =>
        case Duration(length) => expiry := length;
        case Malformed => return Err(InvalidExpiry(rc.tool));
      }
      var rule := Rule(rc.tool, rc.prerequisite, expiry, rc.errorMessage, rc.oneTimeUse);
      var err := rule.Validate();
      if err.Some? {
        return Err(err.value);
      }
      rules := rules + [rule];
    }
    return Ok(rules);
  }
}
