/** One slot of the token store - a session and a tool - under concurrent use, and how far its
    use can still run ahead of the tokens issued for it. */
module Lanes {
  import opened Domain
  import opened Collections
  import opened TokenStore

  /** The stored entries of the slot; the threads that have validated on it and not yet chosen a
      token; the tokens chosen and not yet removed; finished uses, and tokens issued. */
  datatype Lane = Lane(
    entries: seq<Entry>,
    waiting: set<nat>,
    holding: map<nat, TokenValue>,
    uses: nat,
    issues: nat)

  /** Uses and live tokens stay within the tokens issued. */
  ghost predicate Bound(l: Lane, t: Time) {
    l.uses + |ValidValues(l.entries, t)| <= l.issues
  }

  /** Live entries whose token nobody has chosen. */
  function Unclaimed(es: seq<Entry>, t: Time, claimed: set<TokenValue>): nat {
    if es == [] then 0
    else
      var last := es[|es| - 1];
      Unclaimed(es[..|es| - 1], t, claimed) + if t < last.expires && last.value !in claimed then 1 else 0
  }

  /** The token the next thread would choose is there, and nobody has chosen it. */
  predicate NewestIsFree(es: seq<Entry>, t: Time, claimed: set<TokenValue>) {
    var valid := ValidValues(es, t);
    valid != [] && valid[|valid| - 1] !in claimed
  }

  /** The highest that uses plus live tokens can get without new validations: every thread under
      way becomes a use, each chosen token goes once, and all waiting threads may choose the same. */
  function Risk(l: Lane, t: Time): nat {
    var claimed := l.holding.Values;
    var open := Unclaimed(l.entries, t, claimed);
    var pending := |l.waiting| + |l.holding|;
    if l.waiting != {} && NewestIsFree(l.entries, t, claimed) then l.uses + pending - 1 + open
    else l.uses + pending + open
  }

  // ------------------------------------------------------------ what can happen to a lane

  function Start(l: Lane, thread: nat): Lane {
    l.(waiting := l.waiting + {thread})
  }

  function Leave(l: Lane, thread: nat): Lane {
    l.(waiting := l.waiting - {thread})
  }

  /** The thread chooses the newest live token; with none left its use is finished at once. */
  function Pick(l: Lane, thread: nat, now: Time): Lane {
    var valid := ValidValues(l.entries, now);
    if valid == [] then l.(waiting := l.waiting - {thread}, uses := l.uses + 1)
    else l.(waiting := l.waiting - {thread}, holding := l.holding[thread := valid[|valid| - 1]])
  }

  /** The use is finished, whether or not the chosen token was still there to remove. */
  function Settle(l: Lane, thread: nat): Lane
    requires thread in l.holding
  {
    l.(entries := RemoveFirst(l.entries, l.holding[thread]), holding := l.holding - {thread}, uses := l.uses + 1)
  }

  /** A token is used up by a tool that could also have run without it. */
  function Drop(l: Lane, v: TokenValue): Lane {
    l.(entries := RemoveFirst(l.entries, v))
  }

  function Add(l: Lane, e: Entry): Lane {
    l.(entries := l.entries + [e], issues := l.issues + 1)
  }

  // ------------------------------------------------------------ counting unclaimed tokens

  lemma {:induction false} UnclaimedIgnoresAbsent(es: seq<Entry>, t: Time, claimed: set<TokenValue>, v: TokenValue)
    requires v !in Values(es)
    ensures Unclaimed(es, t, claimed + {v}) == Unclaimed(es, t, claimed)
  {
    if es != [] {
      var init := es[..|es| - 1];
      assert Values(es)[|init|] == es[|init|].value;
      assert Values(init) == Values(es)[..|init|];
      UnclaimedIgnoresAbsent(init, t, claimed, v);
    }
  }

  /** Live tokens are unclaimed, or claimed each by a value of its own. */
  lemma {:induction false} LiveWithinClaims(es: seq<Entry>, t: Time, claimed: set<TokenValue>)
    requires Distinct(Values(es))
    ensures |ValidValues(es, t)| <= Unclaimed(es, t, claimed) + |claimed|
  {
    if es != [] {
      var init, last := es[..|es| - 1], es[|es| - 1];
      assert Values(init) == Values(es)[..|init|];
      if t < last.expires && last.value in claimed {
        LastIsElsewhereAbsent(es);
        UnclaimedIgnoresAbsent(init, t, claimed - {last.value}, last.value);
        assert claimed - {last.value} + {last.value} == claimed;
        LiveWithinClaims(init, t, claimed - {last.value});
      } else {
        LiveWithinClaims(init, t, claimed);
      }
    }
  }

  lemma LastIsElsewhereAbsent(es: seq<Entry>)
    requires Distinct(Values(es)) && es != []
    ensures es[|es| - 1].value !in Values(es[..|es| - 1]) && Distinct(Values(es[..|es| - 1]))
  {
    var init := es[..|es| - 1];
    assert Values(init) == Values(es)[..|init|];
    assert Values(es)[|init|] == es[|init|].value;
  }

  lemma {:induction false} ClaimsWithinHolders(holding: map<nat, TokenValue>)
    ensures |holding.Values| <= |holding|
    decreases |holding|
  {
    if holding != map[] {
      var thread :| thread in holding;
      var rest := holding - {thread};
      assert |rest| == |holding| - 1;
      ClaimsWithinHolders(rest);
      NewValue(rest, thread, holding[thread]);
      assert rest[thread := holding[thread]] == holding;
    }
  }

  /** Risk covers the bound. */
  lemma RiskBounds(l: Lane, t: Time)
    requires Distinct(Values(l.entries)) && Risk(l, t) <= l.issues
    ensures Bound(l, t)
  {
    LiveWithinClaims(l.entries, t, l.holding.Values);
    ClaimsWithinHolders(l.holding);
    assert l.waiting != {} ==> |l.waiting| >= 1;
  }

  // ------------------------------------------------------------ steps that do not add risk

  /** An expired or removed newest token was itself unclaimed. */
  lemma {:induction false} TimeTakesUnclaimed(es: seq<Entry>, early: Time, late: Time, claimed: set<TokenValue>)
    requires early <= late
    ensures Unclaimed(es, late, claimed)
            + (if NewestIsFree(es, early, claimed) && !NewestIsFree(es, late, claimed) then 1 else 0)
            <= Unclaimed(es, early, claimed)
  {
    if es != [] {
      TimeTakesUnclaimed(es[..|es| - 1], early, late, claimed);
    }
  }

  lemma TimeAddsNoRisk(l: Lane, early: Time, late: Time)
    requires early <= late
    ensures Risk(l, late) <= Risk(l, early)
  {
    TimeTakesUnclaimed(l.entries, early, late, l.holding.Values);
  }

  lemma {:induction false} RemoveFirstFromInit(es: seq<Entry>, v: TokenValue)
    requires Distinct(Values(es)) && es != []
    ensures var init, last := es[..|es| - 1], es[|es| - 1];
            RemoveFirst(es, v) == if last.value == v then init else RemoveFirst(init, v) + [last]
  {
    var init, last := es[..|es| - 1], es[|es| - 1];
    LastIsElsewhereAbsent(es);
    if last.value == v {
      assert forall j :: 0 <= j < |init| ==> Values(init)[j] == es[j].value;
      RemoveFirstAt(es, v, |init|);
      assert init + es[|es|..] == init;
    } else if |es| > 1 && es[0].value != v {
      assert Values(es[1..]) == Values(es)[1..];
      RemoveFirstFromInit(es[1..], v);
      assert es[1..][..|es| - 2] == init[1..];
    } else if |es| > 1 {
      assert es[1..] == init[1..] + [last];
    }
  }

  lemma {:induction false} OneMoreEntry(es: seq<Entry>, last: Entry, t: Time, claimed: set<TokenValue>)
    ensures Unclaimed(es + [last], t, claimed) ==
            Unclaimed(es, t, claimed) + if t < last.expires && last.value !in claimed then 1 else 0
    ensures NewestIsFree(es + [last], t, claimed) <==>
            if t < last.expires then last.value !in claimed else NewestIsFree(es, t, claimed)
  {
    assert (es + [last])[..|es|] == es;
  }

  lemma {:induction false} RemovalTakesUnclaimed(es: seq<Entry>, v: TokenValue, t: Time, claimed: set<TokenValue>)
    requires Distinct(Values(es))
    ensures var es' := RemoveFirst(es, v);
            && Unclaimed(es', t, claimed)
               + (if NewestIsFree(es, t, claimed) && !NewestIsFree(es', t, claimed) then 1 else 0)
               <= Unclaimed(es, t, claimed)
            && (v in claimed ==> Unclaimed(es', t, claimed) == Unclaimed(es, t, claimed))
  {
    if es != [] {
      var init, last := es[..|es| - 1], es[|es| - 1];
      LastIsElsewhereAbsent(es);
      RemoveFirstFromInit(es, v);
      OneMoreEntry(init, last, t, claimed);
      assert es == init + [last];
      hide Values, Distinct, RemoveFirst, Unclaimed, NewestIsFree;
      if last.value != v {
        RemovalTakesUnclaimed(init, v, t, claimed);
        OneMoreEntry(RemoveFirst(init, v), last, t, claimed);
      }
    }
  }

  lemma DropAddsNoRisk(l: Lane, v: TokenValue, t: Time)
    requires Distinct(Values(l.entries))
    ensures Risk(Drop(l, v), t) <= Risk(l, t) && Drop(l, v).issues == l.issues
  {
    RemovalTakesUnclaimed(l.entries, v, t, l.holding.Values);
  }

  lemma LeaveAddsNoRisk(l: Lane, thread: nat, t: Time)
    requires thread in l.waiting
    ensures Risk(Leave(l, thread), t) <= Risk(l, t) && Leave(l, thread).issues == l.issues
  {
    assert |l.waiting - {thread}| == |l.waiting| - 1;
  }

  lemma AddKeepsPace(l: Lane, e: Entry, t: Time)
    requires e.value !in l.holding.Values
    ensures Risk(Add(l, e), t) <= Risk(l, t) + 1 && Add(l, e).issues == l.issues + 1
  {
    assert (l.entries + [e])[..|l.entries|] == l.entries;
  }

  lemma {:induction false} ClaimingNewest(es: seq<Entry>, t: Time, claimed: set<TokenValue>)
    requires Distinct(Values(es)) && ValidValues(es, t) != []
    ensures var newest := ValidValues(es, t)[|ValidValues(es, t)| - 1];
            Unclaimed(es, t, claimed + {newest}) == Unclaimed(es, t, claimed) - (if newest in claimed then 0 else 1)
  {
    var init, last := es[..|es| - 1], es[|es| - 1];
    LastIsElsewhereAbsent(es);
    if t < last.expires {
      UnclaimedIgnoresAbsent(init, t, claimed, last.value);
    } else {
      ClaimingNewest(init, t, claimed);
    }
  }

  lemma {:induction false} NothingLiveNothingUnclaimed(es: seq<Entry>, t: Time, claimed: set<TokenValue>)
    requires ValidValues(es, t) == []
    ensures Unclaimed(es, t, claimed) == 0
  {
    if es != [] {
      NothingLiveNothingUnclaimed(es[..|es| - 1], t, claimed);
    }
  }

  /** Choosing a token, or finding none, leaves the risk exactly as it was. */
  lemma PickKeepsRisk(l: Lane, thread: nat, now: Time)
    requires Distinct(Values(l.entries)) && thread in l.waiting && thread !in l.holding
    ensures Risk(Pick(l, thread, now), now) == Risk(l, now) && Pick(l, thread, now).issues == l.issues
  {
    hide ValidValues, Unclaimed, Values;
    var claimed := l.holding.Values;
    var valid := ValidValues(l.entries, now);
    assert |l.waiting - {thread}| == |l.waiting| - 1;
    if valid == [] {
      NothingLiveNothingUnclaimed(l.entries, now, claimed);
    } else {
      var newest := valid[|valid| - 1];
      ClaimingNewest(l.entries, now, claimed);
      NewValue(l.holding, thread, newest);
      assert |l.holding[thread := newest]| == |l.holding| + 1;
    }
  }

  lemma NewValue(m: map<nat, TokenValue>, k: nat, v: TokenValue)
    requires k !in m
    ensures m[k := v].Values == m.Values + {v}
  {
    var n := m[k := v];
    assert n[k] == v;
    forall u | u in m.Values ensures u in n.Values {
      var j :| j in m && m[j] == u;
      assert n[j] == u;
    }
  }

  /** Finishing a use never adds risk, and with nobody waiting leaves it exactly as it was. */
  lemma SettleAddsNoRisk(l: Lane, thread: nat, t: Time)
    requires Distinct(Values(l.entries)) && thread in l.holding
    ensures Risk(Settle(l, thread), t) <= Risk(l, t) && Settle(l, thread).issues == l.issues
    ensures l.waiting == {} ==> Risk(Settle(l, thread), t) == Risk(l, t)
  {
    var v, claimed, rest := l.holding[thread], l.holding.Values, l.holding - {thread};
    var es := RemoveFirst(l.entries, v);
    NewValue(rest, thread, v);
    assert rest[thread := v] == l.holding;
    assert |rest| == |l.holding| - 1;
    RemovalTakesUnclaimed(l.entries, v, t, claimed);
    RemovedIsGone(l.entries, v);
    UnclaimedIgnoresAbsent(es, t, rest.Values, v);
    assert NewestIsFree(l.entries, t, claimed) ==> NewestIsFree(es, t, claimed);
  }

  lemma {:induction false} RemovedIsGone(es: seq<Entry>, v: TokenValue)
    requires Distinct(Values(es))
    ensures v !in Values(RemoveFirst(es, v)) && Distinct(Values(RemoveFirst(es, v)))
    ensures forall u :: u in Values(RemoveFirst(es, v)) ==> u in Values(es)
  {
    RemoveFirstValues(es, v);
    WithoutFromDistinct(Values(es), v);
  }

  lemma {:induction false} WithoutFromDistinct<T>(s: seq<T>, x: T)
    requires Distinct(s)
    ensures x !in Without(s, x) && Distinct(Without(s, x))
    ensures forall y :: y in Without(s, x) ==> y in s
  {
    if s != [] && s[0] != x {
      WithoutFromDistinct(s[1..], x);
      var rest := Without(s[1..], x);
      assert s[0] !in s[1..] && s[0] !in rest;
      assert Without(s, x) == [s[0]] + rest;
    }
  }

  /** Starting on a live token costs nothing when nobody waits and the newest token is free;
      otherwise it raises the risk by one. */
  lemma StartRisk(l: Lane, thread: nat, now: Time)
    requires thread !in l.waiting
    ensures Risk(Start(l, thread), now) ==
            Risk(l, now) + if l.waiting == {} && NewestIsFree(l.entries, now, l.holding.Values) then 0 else 1
  {
    assert |l.waiting + {thread}| == |l.waiting| + 1;
  }
}
