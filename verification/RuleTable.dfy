/** What the service's rule list says about one tool. Validation looks at every rule
    of the tool; lifetime, reported and consumed prerequisite use only the first. */
module RuleTable {
  import opened Domain

  /** The rules registered for `tool`, in registration order. */
  function FindRules(rules: seq<Rule>, tool: ToolName): seq<Rule> {
    if rules == [] then []
    else
      var rest := FindRules(rules[..|rules| - 1], tool);
      var last := rules[|rules| - 1];
      if last.tool == tool then rest + [last] else rest
  }

  /** The first rule registered for `tool`. */
  function FindRule(rules: seq<Rule>, tool: ToolName): Option<Rule> {
    var matched := FindRules(rules, tool);
    if matched == [] then None else Some(matched[0])
  }

  /** How long a token issued for `tool` stays usable. */
  function Lifetime(rules: seq<Rule>, tool: ToolName): (lifetime: Time)
    ensures lifetime > 0
  {
    match FindRule(rules, tool)
    case Some(rule) => if rule.expiry > 0 then rule.expiry else DEFAULT_EXPIRY
    case None => DEFAULT_EXPIRY
  }

  /** The prerequisite whose token a run of `tool` uses up, if it uses one up. */
  function ConsumedPrerequisite(rules: seq<Rule>, tool: ToolName): Option<ToolName> {
    match FindRule(rules, tool)
    case Some(rule) =>
      if rule.prerequisite == "" || !rule.oneTimeUse then None else Some(rule.prerequisite)
    case None => None
  }

  /** `tool` may always be called: it has no rule, or a rule without prerequisite. */
  ghost predicate Ungated(rules: seq<Rule>, tool: ToolName) {
    var matched := FindRules(rules, tool);
    matched == [] || exists i :: 0 <= i < |matched| && matched[i].prerequisite == ""
  }

  // ------------------------------------------------------------ read off the rule list

  /** No rule before rule `i` is for its tool. */
  ghost predicate IsFirst(rules: seq<Rule>, i: int, tool: ToolName) {
    0 <= i < |rules| && rules[i].tool == tool && forall j :: 0 <= j < i ==> rules[j].tool != tool
  }

  /** No rule after rule `i` is for its tool. */
  ghost predicate IsLast(rules: seq<Rule>, i: int, tool: ToolName) {
    0 <= i < |rules| && rules[i].tool == tool && forall j :: i < j < |rules| ==> rules[j].tool != tool
  }

  ghost predicate HasRule(rules: seq<Rule>, tool: ToolName) {
    exists r :: r in rules && r.tool == tool
  }

  /** The first rule of `tool` is one-time and names `p`. */
  ghost predicate UsesUp(rules: seq<Rule>, tool: ToolName, p: ToolName) {
    p != "" && exists i :: IsFirst(rules, i, tool) && rules[i].oneTimeUse && rules[i].prerequisite == p
  }

  /** `tool` can only run on a token of `p`: it has rules, and all of them name `p`. */
  ghost predicate NeedsOnly(rules: seq<Rule>, tool: ToolName, p: ToolName) {
    HasRule(rules, tool) && forall r :: r in rules && r.tool == tool ==> r.prerequisite == p
  }

  /** Moreover, running `tool` uses the token up. */
  ghost predicate SpendsOnly(rules: seq<Rule>, tool: ToolName, p: ToolName) {
    NeedsOnly(rules, tool, p) && UsesUp(rules, tool, p)
  }

  /** The rules found for a tool, if any, begin with its first and end with its last rule. */
  lemma {:induction false} FirstAndLastFound(rules: seq<Rule>, tool: ToolName) returns (first: nat, last: nat)
    requires FindRules(rules, tool) != []
    ensures IsFirst(rules, first, tool) && FindRules(rules, tool)[0] == rules[first]
    ensures IsLast(rules, last, tool) && FindRules(rules, tool)[|FindRules(rules, tool)| - 1] == rules[last]
  {
    var n := |rules| - 1;
    var before := FindRules(rules[..n], tool);
    if before != [] {
      first, last := FirstAndLastFound(rules[..n], tool);
    } else {
      NoneFound(rules[..n], tool);
      first := n;
    }
    if rules[n].tool == tool {
      last := n;
    }
  }

  lemma {:induction false} NoneFound(rules: seq<Rule>, tool: ToolName)
    ensures FindRules(rules, tool) == [] <==> !HasRule(rules, tool)
    ensures !HasRule(rules, tool) ==> forall j :: 0 <= j < |rules| ==> rules[j].tool != tool
  {
    if FindRules(rules, tool) != [] {
      FindRulesMembers(rules, tool, FindRules(rules, tool)[0]);
    }
    forall r | r in rules && r.tool == tool ensures r in FindRules(rules, tool) {
      FindRulesMembers(rules, tool, r);
    }
    if j :| 0 <= j < |rules| && rules[j].tool == tool {
      assert rules[j] in rules;
    }
  }

  lemma FirstIsFound(rules: seq<Rule>, i: int, tool: ToolName)
    requires IsFirst(rules, i, tool)
    ensures FindRule(rules, tool) == Some(rules[i])
  {
    assert rules[i] in rules;
    NoneFound(rules, tool);
    var first, _ := FirstAndLastFound(rules, tool);
  }

  /** The lifetime of a token is the expiry of the first rule of its tool when that is positive,
      otherwise five minutes. */
  lemma LifetimeOfFirstRule(rules: seq<Rule>, tool: ToolName)
    ensures forall i :: IsFirst(rules, i, tool) ==>
              Lifetime(rules, tool) == if rules[i].expiry > 0 then rules[i].expiry else 300_000_000_000
    ensures !HasRule(rules, tool) ==> Lifetime(rules, tool) == 300_000_000_000
  {
    forall i | IsFirst(rules, i, tool)
      ensures Lifetime(rules, tool) == if rules[i].expiry > 0 then rules[i].expiry else 300_000_000_000
    {
      FirstIsFound(rules, i, tool);
    }
    NoneFound(rules, tool);
  }

  /** A tool uses up tokens of `p` exactly when its first rule is one-time and names `p`. */
  lemma ConsumedPrerequisiteIff(rules: seq<Rule>, tool: ToolName, p: ToolName)
    ensures ConsumedPrerequisite(rules, tool) == Some(p) <==> UsesUp(rules, tool, p)
  {
    if i :| IsFirst(rules, i, tool) {
      FirstIsFound(rules, i, tool);
      forall j | IsFirst(rules, j, tool) ensures rules[j] == rules[i] {
        FirstIsFound(rules, j, tool);
      }
    } else if FindRules(rules, tool) != [] {
      var first, _ := FirstAndLastFound(rules, tool);
      assert false;
    }
  }

  lemma {:induction false} NeedsOnlyMatched(rules: seq<Rule>, tool: ToolName, p: ToolName)
    ensures NeedsOnly(rules, tool, p) <==>
            && FindRules(rules, tool) != []
            && forall i :: 0 <= i < |FindRules(rules, tool)| ==> FindRules(rules, tool)[i].prerequisite == p
  {
    NoneFound(rules, tool);
    var matched := FindRules(rules, tool);
    forall r ensures r in matched <==> r in rules && r.tool == tool {
      FindRulesMembers(rules, tool, r);
    }
    forall i | 0 <= i < |matched| ensures matched[i] in rules && matched[i].tool == tool {
      assert matched[i] in matched;
    }
  }

  /** What the consume step of a tool that spends tokens of `p` looks for. */
  lemma {:induction false} SpenderNamesItsToken(rules: seq<Rule>, tool: ToolName, p: ToolName)
    requires SpendsOnly(rules, tool, p)
    ensures ConsumedPrerequisite(rules, tool) == Some(p) && p != "" && !Ungated(rules, tool)
    ensures forall i :: 0 <= i < |FindRules(rules, tool)| ==> FindRules(rules, tool)[i].prerequisite == p
  {
    ConsumedPrerequisiteIff(rules, tool, p);
    NeedsOnlyMatched(rules, tool, p);
    hide FindRules, NeedsOnly;
  }

  // ------------------------------------------------------------ finding rules

  lemma {:induction false} FindRulesAppend(a: seq<Rule>, b: seq<Rule>, tool: ToolName)
    ensures FindRules(a + b, tool) == FindRules(a, tool) + FindRules(b, tool)
  {
    if b == [] {
      assert a + b == a;
    } else {
      assert (a + b)[..|a + b| - 1] == a + b[..|b| - 1];
      FindRulesAppend(a, b[..|b| - 1], tool);
    }
  }

  lemma {:induction false} FindRulesSingle(r: Rule, tool: ToolName)
    ensures FindRules([r], tool) == if r.tool == tool then [r] else []
  {
    assert [r][..0] == [];
  }

  /** A rule is found exactly when it is registered and names the tool. */
  lemma {:induction false} FindRulesMembers(rules: seq<Rule>, tool: ToolName, r: Rule)
    ensures r in FindRules(rules, tool) <==> r in rules && r.tool == tool
  {
    if rules != [] {
      FindRulesMembers(rules[..|rules| - 1], tool, r);
      assert rules == rules[..|rules| - 1] + [rules[|rules| - 1]];
    }
  }

  /** Once a tool has a rule, later registrations change neither its token lifetime,
      nor its reported prerequisite, nor the prerequisite it uses up. */
  lemma FirstRuleWins(rules: seq<Rule>, later: seq<Rule>, tool: ToolName)
    requires FindRule(rules, tool).Some?
    ensures FindRule(rules + later, tool) == FindRule(rules, tool)
    ensures Lifetime(rules + later, tool) == Lifetime(rules, tool)
    ensures ConsumedPrerequisite(rules + later, tool) == ConsumedPrerequisite(rules, tool)
  {
    FindRulesAppend(rules, later, tool);
  }
}
