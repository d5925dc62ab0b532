/** The in-memory token store: per session and tool, a list of tokens with their expiry.
    Expired entries stay in the list; they are only skipped by reads. */
module TokenStore {
  import opened Domain
  import opened Collections

  datatype Entry = Entry(value: TokenValue, expires: Time)

  type Stored = map<SessionID, map<ToolName, seq<Entry>>>

  function Entries(m: Stored, sid: SessionID, tool: ToolName): seq<Entry> {
    if sid in m && tool in m[sid] then m[sid][tool] else []
  }

  function WithEntries(m: Stored, sid: SessionID, tool: ToolName, es: seq<Entry>): Stored {
    m[sid := (if sid in m then m[sid] else map[])[tool := es]]
  }

  /** Writing one list leaves all others. */
  lemma EntriesElsewhere(m: Stored, sid: SessionID, tool: ToolName, es: seq<Entry>, s: SessionID, t: ToolName)
    ensures Entries(WithEntries(m, sid, tool, es), s, t) == if s == sid && t == tool then es else Entries(m, s, t)
  {
  }

  function Values(es: seq<Entry>): (vs: seq<TokenValue>)
    ensures |vs| == |es|
    ensures forall i :: 0 <= i < |es| ==> vs[i] == es[i].value
  {
    seq(|es|, i requires 0 <= i < |es| => es[i].value)
  }

  /** The values of the live entries, oldest first. */
  function ValidValues(es: seq<Entry>, now: Time): seq<TokenValue> {
    if es == [] then []
    else
      var rest := ValidValues(es[..|es| - 1], now);
      var last := es[|es| - 1];
      if now < last.expires then rest + [last.value] else rest
  }

  /** `es` without the first entry that carries `v`. */
  function RemoveFirst(es: seq<Entry>, v: TokenValue): seq<Entry> {
    if es == [] then []
    else if es[0].value == v then es[1..]
    else [es[0]] + RemoveFirst(es[1..], v)
  }

  lemma {:induction false} RemoveFirstAt(es: seq<Entry>, v: TokenValue, i: nat)
    requires i < |es| && es[i].value == v
    requires forall j :: 0 <= j < i ==> es[j].value != v
    ensures RemoveFirst(es, v) == es[..i] + es[i + 1..]
  {
    if i > 0 {
      RemoveFirstAt(es[1..], v, i - 1);
      assert es[1..][..i - 1] == es[1..i];
      assert es[1..][i..] == es[i + 1..];
    }
  }

  lemma {:induction false} RemoveFirstAbsent(es: seq<Entry>, v: TokenValue)
    requires v !in Values(es)
    ensures RemoveFirst(es, v) == es
  {
    if es != [] {
      assert Values(es)[0] == es[0].value && Values(es)[1..] == Values(es[1..]);
      RemoveFirstAbsent(es[1..], v);
    }
  }

  /** Removing an entry is removing the first occurrence of its value. */
  lemma {:induction false} RemoveFirstValues(es: seq<Entry>, v: TokenValue)
    ensures Values(RemoveFirst(es, v)) == Without(Values(es), v)
  {
    if es != [] {
      assert Values(es)[1..] == Values(es[1..]);
      if es[0].value == v {
        assert RemoveFirst(es, v) == es[1..];
      } else {
        RemoveFirstValues(es[1..], v);
        var rest := RemoveFirst(es[1..], v);
        assert Values([es[0]] + rest) == [es[0].value] + Values(rest);
        assert Without(Values(es), v) == [es[0].value] + Without(Values(es[1..]), v);
      }
    }
  }

  lemma {:induction false} RemoveFirstLength(es: seq<Entry>, v: TokenValue)
    requires v in Values(es)
    ensures |RemoveFirst(es, v)| == |es| - 1
  {
    RemoveFirstValues(es, v);
    WithoutMultiset(Values(es), v);
    assert |multiset(Values(RemoveFirst(es, v)))| == |es| - 1;
  }

  lemma {:induction false} ValidValuesMembers(es: seq<Entry>, now: Time, v: TokenValue)
    ensures v in ValidValues(es, now) <==> exists i :: 0 <= i < |es| && es[i].value == v && now < es[i].expires
  {
    if es != [] {
      var init := es[..|es| - 1];
      ValidValuesMembers(init, now, v);
      if v in ValidValues(es, now) {
        if v in ValidValues(init, now) {
          var i :| 0 <= i < |init| && init[i].value == v && now < init[i].expires;
          assert es[i] == init[i];
        } else {
          assert es[|es| - 1].value == v;
        }
      } else {
        forall i | 0 <= i < |es| && es[i].value == v ensures now >= es[i].expires {
          if i < |init| {
            assert init[i] == es[i];
          }
        }
      }
    }
  }

  /** The valid values are those of the entries not yet expired, in the order of the list: `at` are
      the positions of these entries. */
  lemma {:induction false} ValidValuesAt(es: seq<Entry>, now: Time) returns (at: seq<nat>)
    ensures Increasing(at)
    ensures forall i: nat :: i in at <==> i < |es| && now < es[i].expires
    ensures |ValidValues(es, now)| == |at|
    ensures forall k :: 0 <= k < |at| ==> at[k] < |es| && ValidValues(es, now)[k] == es[at[k]].value
  {
    at := [];
    if es != [] {
      var n := |es| - 1;
      at := ValidValuesAt(es[..n], now);
      AppendPosition(at, n);
      if now < es[n].expires {
        at := at + [n];
      }
    }
  }

  lemma {:induction false} ValidValuesAreValues(es: seq<Entry>, now: Time, v: TokenValue)
    requires v in ValidValues(es, now)
    ensures v in Values(es)
  {
    ValidValuesMembers(es, now, v);
    var i :| 0 <= i < |es| && es[i].value == v;
    assert Values(es)[i] == v;
  }

  lemma {:induction false} ValidValuesAppend(a: seq<Entry>, b: seq<Entry>, now: Time)
    ensures ValidValues(a + b, now) == ValidValues(a, now) + ValidValues(b, now)
  {
    if b == [] {
      assert a + b == a;
    } else {
      assert (a + b)[..|a + b| - 1] == a + b[..|b| - 1];
      ValidValuesAppend(a, b[..|b| - 1], now);
    }
  }

  /** Time only takes validity away. */
  lemma {:induction false} ValidityFades(es: seq<Entry>, early: Time, late: Time)
    requires early <= late
    ensures |ValidValues(es, late)| <= |ValidValues(es, early)|
  {
    if es != [] {
      ValidityFades(es[..|es| - 1], early, late);
    }
  }

  ghost predicate SortedByExpiry(es: seq<Entry>) {
    forall i, j :: 0 <= i < j < |es| ==> es[i].expires <= es[j].expires
  }

  /** In a list sorted by expiry the live entries are a suffix. */
  lemma {:induction false} LiveEntriesAreASuffix(es: seq<Entry>, now: Time) returns (k: nat)
    requires SortedByExpiry(es)
    ensures k <= |es|
    ensures forall i :: 0 <= i < |es| ==> (now < es[i].expires <==> k <= i)
    ensures ValidValues(es, now) == Values(es[k..])
  {
    if es == [] {
      k := 0;
    } else {
      var init := es[..|es| - 1];
      k := LiveEntriesAreASuffix(init, now);
      if now < es[|es| - 1].expires {
        assert es[k..] == init[k..] + [es[|es| - 1]];
        assert Values(es[k..]) == Values(init[k..]) + [es[|es| - 1].value];
      } else {
        assert k == |init|;
        k := |es|;
      }
    }
  }

  /** With sorted expiries and distinct values, removing the last valid token removes the
      last entry of the list. */
  lemma {:induction false} NewestIsRemoved(es: seq<Entry>, now: Time)
    requires SortedByExpiry(es) && Distinct(Values(es))
    requires ValidValues(es, now) != []
    ensures es != []
    ensures ValidValues(es, now)[|ValidValues(es, now)| - 1] == es[|es| - 1].value
    ensures RemoveFirst(es, es[|es| - 1].value) == es[..|es| - 1]
  {
    var k := LiveEntriesAreASuffix(es, now);
    var last := |es| - 1;
    forall j | 0 <= j < last ensures es[j].value != es[last].value {
      assert Values(es)[j] != Values(es)[last];
    }
    RemoveFirstAt(es, es[last].value, last);
    assert es[..last] + es[last + 1..] == es[..last];
  }

  class MemoryTokenStore {
    var tokens: Stored

    constructor ()
      ensures tokens == map[]
    {
      tokens := map[];
    }

    /** Appends the token to the list of its session and tool. */
    method Store(sid: SessionID, tool: ToolName, token: TokenValue, expiry: Time)
      modifies this
      ensures tokens == WithEntries(old(tokens), sid, tool, Entries(old(tokens), sid, tool) + [Entry(token, expiry)])
    {
      if sid !in tokens {
        tokens := tokens[sid := map[]];
      }
      var sessionTokens := tokens[sid];
      var toolTokens := if tool in sessionTokens then sessionTokens[tool] else [];
      tokens := tokens[sid := sessionTokens[tool := toolTokens + [Entry(token, expiry)]]];
    }

    method GetValidTokens(sid: SessionID, tool: ToolName, now: Time) returns (validTokens: seq<TokenValue>)
      ensures validTokens == ValidValues(Entries(tokens, sid, tool), now)
      ensures var es := Entries(tokens, sid, tool);
              forall v :: v in validTokens <==> exists i :: 0 <= i < |es| && es[i].value == v && now < es[i].expires
    {
      forall v {
        ValidValuesMembers(Entries(tokens, sid, tool), now, v);
      }
      validTokens := [];
      if sid !in tokens {
        return;
      }
      var sessionTokens := tokens[sid];
      if tool !in sessionTokens {
        return;
      }
      var toolTokens := sessionTokens[tool];
      for i := 0 to |toolTokens|
        invariant validTokens == ValidValues(toolTokens[..i], now)
      {
        var entry := toolTokens[i];
        assert toolTokens[..i + 1][..i] == toolTokens[..i];
        if now < entry.expires {
          validTokens := validTokens + [entry.value];
        }
      }
      assert toolTokens[..|toolTokens|] == toolTokens;
    }

    /** Removes the first entry with this value; an error, and no change, when there is none. */
    method RemoveToken(sid: SessionID, tool: ToolName, token: TokenValue) returns (err: Option<Error>)
      modifies this
      ensures err.None? <==> token in Values(Entries(old(tokens), sid, tool))
      ensures err.None? ==>
                tokens == WithEntries(old(tokens), sid, tool, RemoveFirst(Entries(old(tokens), sid, tool), token))
      ensures err.Some? ==> err == Some(TokenNotFound) && tokens == old(tokens)
    {
      if sid !in tokens {
        return Some(TokenNotFound);
      }
      var sessionTokens := tokens[sid];
      if tool !in sessionTokens {
        return Some(TokenNotFound);
      }
      var toolTokens := sessionTokens[tool];
      for i := 0 to |toolTokens|
        invariant forall j :: 0 <= j < i ==> toolTokens[j].value != token
        invariant tokens == old(tokens)
      {
        if toolTokens[i].value == token {
          assert Values(toolTokens)[i] == token;
          RemoveFirstAt(toolTokens, token, i);
          tokens := tokens[sid := sessionTokens[tool := toolTokens[..i] + toolTokens[i + 1..]]];
          return None;
        }
      }
      return Some(TokenNotFound);
    }
  }
}
