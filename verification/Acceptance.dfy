/** When a call is accepted: what the decision depends on, and what it does not. */
module Acceptance {
  import opened Domain
  import opened RuleTable
  import opened TokenStore
  import opened Machine

  /** The prerequisite was called in the session and has a token there that has not expired. */
  ghost predicate Fulfilled(c: Core, sid: SessionID, prerequisite: ToolName, at: Time)
    requires sid in c.sessions
  {
    && prerequisite in c.sessions[sid].history
    && var es := Entries(c.stored, sid, prerequisite); exists i :: 0 <= i < |es| && at < es[i].expires
  }

  /** Accepted at one instant: ungated, or in an existing session some rule's prerequisite was
      called and has a live token. Neither rule order nor a presented token occurs in it. */
  ghost predicate AcceptableAt(c: Core, sid: SessionID, tool: ToolName, at: Time) {
    || (forall r :: r in c.rules ==> r.tool != tool)
    || (exists r :: r in c.rules && r.tool == tool && r.prerequisite == "")
    || (sid != "" && sid in c.sessions
        && exists r :: r in c.rules && r.tool == tool && Fulfilled(c, sid, r.prerequisite, at))
  }

  lemma SatisfiedMeans(c: Core, sid: SessionID, r: Rule, at: Time)
    requires sid in c.sessions
    ensures Satisfied(c, sid, r, at) <==> Fulfilled(c, sid, r.prerequisite, at)
  {
    hide ValidValues, Entries;
    var es := Entries(c.stored, sid, r.prerequisite);
    if ValidValues(es, at) != [] {
      ValidValuesMembers(es, at, ValidValues(es, at)[0]);
    }
    if i :| 0 <= i < |es| && at < es[i].expires {
      ValidValuesMembers(es, at, es[i].value);
    }
  }

  lemma UngatedMeans(rules: seq<Rule>, tool: ToolName)
    ensures Ungated(rules, tool) <==>
            || (forall r :: r in rules ==> r.tool != tool)
            || (exists r :: r in rules && r.tool == tool && r.prerequisite == "")
  {
    forall r ensures r in FindRules(rules, tool) <==> r in rules && r.tool == tool {
      FindRulesMembers(rules, tool, r);
    }
    var matched := FindRules(rules, tool);
    if matched != [] {
      assert matched[0] in rules && matched[0].tool == tool;
    }
    if r :| r in rules && r.tool == tool && r.prerequisite == "" {
      assert r in matched;
    }
    if i :| 0 <= i < |matched| && matched[i].prerequisite == "" {
      assert matched[i] in matched;
    }
  }

  ghost predicate Within(now: Clock, low: Time, high: Time) {
    forall i: nat :: low <= now(i) <= high
  }

  lemma SatisfactionFades(c: Core, sid: SessionID, r: Rule, early: Time, late: Time)
    requires sid in c.sessions && early <= late && Satisfied(c, sid, r, late)
    ensures Satisfied(c, sid, r, early)
  {
    ValidityFades(Entries(c.stored, sid, r.prerequisite), early, late);
  }

  /** The rules are checked one after the other while time passes: what is acceptable at the
      end is accepted, what is accepted was acceptable at the beginning. */
  lemma ValidateAcceptsWhatIsAcceptable(
    c: Core, sid: SessionID, tool: ToolName, token: TokenValue, now: Clock, low: Time, high: Time)
    requires Within(now, low, high)
    ensures AcceptableAt(c, sid, tool, high) ==> ValidateToolCall(c, sid, tool, token, now).err == None
    ensures ValidateToolCall(c, sid, tool, token, now).err == None ==> AcceptableAt(c, sid, tool, low)
  {
    UngatedMeans(c.rules, tool);
    hide Ungated, Satisfied, Fulfilled, FindRules;
    var matched := FindRules(c.rules, tool);
    if sid != "" && sid in c.sessions {
      if r :| r in c.rules && r.tool == tool && Fulfilled(c, sid, r.prerequisite, high) {
        SatisfiedMeans(c, sid, r, high);
        FindRulesMembers(c.rules, tool, r);
        var i :| 0 <= i < |matched| && matched[i] == r;
        SatisfactionFades(c, sid, r, now(i + 1), high);
      }
      if i :| 0 <= i < |matched| && Satisfied(c, sid, matched[i], now(i + 1)) {
        FindRulesMembers(c.rules, tool, matched[i]);
        SatisfactionFades(c, sid, matched[i], low, now(i + 1));
        SatisfiedMeans(c, sid, matched[i], low);
      }
    }
  }

  /** With the clock standing still the decision is exactly acceptability at that instant, so
      it is the same for every order of the rules and every token presented. */
  lemma OrderAndTokenDoNotMatter(
    c: Core, d: Core, sid: SessionID, tool: ToolName, token: TokenValue, other: TokenValue, now: Clock, at: Time)
    requires Within(now, at, at)
    requires multiset(c.rules) == multiset(d.rules) && c.stored == d.stored && c.sessions == d.sessions
    ensures ValidateToolCall(c, sid, tool, token, now).err == None <==> AcceptableAt(c, sid, tool, at)
    ensures ValidateToolCall(c, sid, tool, token, now).err == None <==>
            ValidateToolCall(d, sid, tool, other, now).err == None
  {
    ValidateAcceptsWhatIsAcceptable(c, sid, tool, token, now, at, at);
    ValidateAcceptsWhatIsAcceptable(d, sid, tool, other, now, at, at);
    hide ValidateToolCall;
    forall r ensures r in c.rules <==> r in d.rules {
      assert r in c.rules <==> r in multiset(c.rules);
      assert r in d.rules <==> r in multiset(d.rules);
    }
  }

  /** Once a tool has a rule, registering more rules never turns an accepted call on the same
      state into a rejected one. */
  lemma MoreRulesNeverRevoke(c: Core, later: seq<Rule>, sid: SessionID, tool: ToolName, now: Clock)
    requires FindRule(c.rules, tool).Some? && Allowed(c, sid, tool, now)
    ensures Allowed(c.(rules := c.rules + later), sid, tool, now)
  {
    FindRulesAppend(c.rules, later, tool);
    var d := c.(rules := c.rules + later);
    var before, after := FindRules(c.rules, tool), FindRules(d.rules, tool);
    if Ungated(c.rules, tool) {
      var i :| 0 <= i < |before| && before[i].prerequisite == "";
      assert after[i].prerequisite == "";
    } else {
      var i :| 0 <= i < |before| && Satisfied(c, sid, before[i], now(i + 1));
      assert Satisfied(d, sid, after[i], now(i + 1));
    }
  }

  /** For a tool without rules, which is always accepted, registration revokes exactly when the
      new rules alone reject the call. */
  lemma FirstRulesDecideAlone(c: Core, later: seq<Rule>, sid: SessionID, tool: ToolName, now: Clock)
    requires FindRule(c.rules, tool).None?
    ensures Allowed(c, sid, tool, now)
    ensures Allowed(c.(rules := c.rules + later), sid, tool, now) <==> Allowed(c.(rules := later), sid, tool, now)
  {
    FindRulesAppend(c.rules, later, tool);
    var d, e := c.(rules := c.rules + later), c.(rules := later);
    assert FindRules(d.rules, tool) == FindRules(e.rules, tool);
    forall r, at ensures sid in c.sessions ==> (Satisfied(d, sid, r, at) <==> Satisfied(e, sid, r, at)) {
    }
  }

  /** What a rejected call reports. Without a session id its first rule speaks: with its message,
      or that a session is required. An unknown session is not found. Otherwise its last rule
      speaks: with its message, or that its prerequisite must be called first, or, when that was
      called, that there is no valid token. */
  lemma RejectionReports(c: Core, sid: SessionID, tool: ToolName, token: TokenValue, now: Clock)
    returns (first: nat, last: nat)
    requires ValidateToolCall(c, sid, tool, token, now).err.Some?
    ensures IsFirst(c.rules, first, tool) && IsLast(c.rules, last, tool)
    ensures ValidateToolCall(c, sid, tool, token, now).err == Some(
              if sid == "" then
                if c.rules[first].errorMessage != "" then Message(c.rules[first].errorMessage)
                else SessionRequired(tool)
              else if sid !in c.sessions then SessionNotFound
              else if c.rules[last].errorMessage != "" then Message(c.rules[last].errorMessage)
              else if c.rules[last].prerequisite !in c.sessions[sid].history then
                PrerequisiteNotCalled(c.rules[last].prerequisite)
              else InvalidToken)
  {
    assert FindRules(c.rules, tool) != [];
    hide FindRules, Satisfied;
    first, last := FirstAndLastFound(c.rules, tool);
  }

  /** When all rules of the tool carry their own message, a rejection reports one of them,
      unless it names a session that does not exist. */
  lemma OwnMessagesAreReported(c: Core, sid: SessionID, tool: ToolName, token: TokenValue, now: Clock)
    requires ValidateToolCall(c, sid, tool, token, now).err.Some?
    requires forall r :: r in c.rules && r.tool == tool ==> r.errorMessage != ""
    ensures (exists r :: && r in c.rules && r.tool == tool
                         && ValidateToolCall(c, sid, tool, token, now).err == Some(Message(r.errorMessage)))
            <==> sid == "" || sid in c.sessions
  {
    hide ValidateToolCall;
    var first, last := RejectionReports(c, sid, tool, token, now);
    assert c.rules[first] in c.rules && c.rules[last] in c.rules;
  }
}
