/** Pairing of calls and results in converted chat histories, and calls replayed from the cache. */
module ChatLaws {
  import opened Core
  import opened Caches
  import opened CacheLaws
  import opened Provenance
  import opened Exchange
  import opened Normalize
  import opened Translate
  import opened Pairing
  import opened Chats

  // ----- who set an alias

  predicate IsCall(steps: seq<Step>, j: nat) {
    j < |steps| && steps[j].CallStep? && steps[j].call.id != NO_ID
  }

  predicate Sets(steps: seq<Step>, j: nat, key: Id, cache: Cache) {
    IsCall(steps, j) && (key == steps[j].call.id || (key != NO_ID && key == CachedUpstream(cache, steps[j].call.id)))
  }

  function LastSetter(steps: seq<Step>, n: nat, key: Id, cache: Cache): (r: Option<nat>)
    requires n <= |steps|
    ensures r.Some? ==> r.value < n && Sets(steps, r.value, key, cache)
    ensures forall k :: (if r.Some? then r.value < k < n else 0 <= k < n) ==> !Sets(steps, k, key, cache)
  {
    if n == 0 then None else if Sets(steps, n - 1, key, cache) then Some(n - 1) else LastSetter(steps, n - 1, key, cache)
  }

  /** An alias names the last call that set it. */
  lemma {:induction false} AliasIs(steps: seq<Step>, n: nat, key: Id, cache: Cache)
    requires n <= |steps|
    ensures key in StepAlias(steps[..n], cache) <==> LastSetter(steps, n, key, cache).Some?
    ensures key in StepAlias(steps[..n], cache) ==>
              StepAlias(steps[..n], cache)[key] == steps[LastSetter(steps, n, key, cache).value].call.id
  {
    hide CachedUpstream;
    if n > 0 {
      assert steps[..n][..n - 1] == steps[..n - 1];
      AliasIs(steps, n - 1, key, cache);
    }
  }

  lemma FullAlias(steps: seq<Step>, key: Id, cache: Cache)
    ensures key in StepAlias(steps, cache) <==> LastSetter(steps, |steps|, key, cache).Some?
    ensures key in StepAlias(steps, cache) ==>
              StepAlias(steps, cache)[key] == steps[LastSetter(steps, |steps|, key, cache).value].call.id
              && StepAlias(steps, cache)[key] != NO_ID
  {
    assert steps[..|steps|] == steps;
    AliasIs(steps, |steps|, key, cache);
  }

  // ----- accepted conversations

  /** The walk up to step `n`, with the aliases of the whole conversation. */
  function Walk(steps: seq<Step>, n: nat, cache: Cache): Result<Seen, ValidationError>
    requires n <= |steps|
  {
    PairSteps(steps[..n], StepAlias(steps, cache), StepCalls(steps), cache)
  }

  predicate Accepted(steps: seq<Step>, cache: Cache) {
    PairSteps(steps, StepAlias(steps, cache), StepCalls(steps), cache).Ok?
  }

  function Owner(steps: seq<Step>, cache: Cache, id: Id): Id {
    OwnerOr(StepAlias(steps, cache), id)
  }

  lemma WalkStep(steps: seq<Step>, n: nat, cache: Cache)
    requires 0 < n <= |steps|
    ensures Walk(steps, n, cache) ==
            match Walk(steps, n - 1, cache)
            case Err(e) => Err(e)
            case Ok(seen) => PairStep(seen, steps[n - 1], StepAlias(steps, cache), StepCalls(steps), cache)
  {
    hide PairStep, StepAlias, StepCalls;
    assert steps[..n][..n - 1] == steps[..n - 1];
  }

  lemma {:induction false} WalkOk(steps: seq<Step>, n: nat, cache: Cache)
    requires n <= |steps| && Accepted(steps, cache)
    ensures Walk(steps, n, cache).Ok?
  {
    hide PairStep, StepAlias, StepCalls;
    assert steps[..|steps|] == steps;
    if Walk(steps, n, cache).Err? {
      PairFailsIn(steps, n, StepAlias(steps, cache), StepCalls(steps), cache);
    }
  }

  /** What the walk has seen: the owners of the calls so far, each once, and as many answered calls as results. */
  ghost predicate SeenHolds(steps: seq<Step>, n: nat, cache: Cache, seen: Seen) {
    && (forall j :: 0 <= j < n && IsCall(steps, j) ==> Owner(steps, cache, steps[j].call.id) in seen.calls)
    && (forall x :: x in seen.calls ==> exists j :: 0 <= j < n && IsCall(steps, j) && Owner(steps, cache, steps[j].call.id) == x)
    && (forall i, j :: 0 <= i < j < n && IsCall(steps, i) && IsCall(steps, j) ==>
          Owner(steps, cache, steps[i].call.id) != Owner(steps, cache, steps[j].call.id))
    && seen.results <= seen.calls
  }

  lemma {:induction false} WalkSeen(steps: seq<Step>, n: nat, cache: Cache)
    requires n <= |steps| && Walk(steps, n, cache).Ok?
    ensures SeenHolds(steps, n, cache, Walk(steps, n, cache).value)
  {
    hide StepAlias, StepCalls, ResultOwner, Walk, OwnerOr;
    if n == 0 {
      WalkNothing(steps, cache);
    } else {
      WalkStep(steps, n, cache);
      WalkSeen(steps, n - 1, cache);
      if IsCall(steps, n - 1) {
        SeenCall(steps, n - 1, cache, Walk(steps, n - 1, cache).value, Walk(steps, n, cache).value);
      }
    }
  }

  lemma WalkNothing(steps: seq<Step>, cache: Cache)
    ensures Walk(steps, 0, cache) == Ok(Seen({}, {}))
  {
    hide PairStep, StepAlias, StepCalls;
    assert steps[..0] == [];
  }

  lemma SeenCall(steps: seq<Step>, n: nat, cache: Cache, seen: Seen, seen': Seen)
    requires SeenHolds(steps, n, cache, seen) && IsCall(steps, n) && n < |steps|
    requires Owner(steps, cache, steps[n].call.id) !in seen.calls
    requires seen' == seen.(calls := seen.calls + {Owner(steps, cache, steps[n].call.id)})
    ensures SeenHolds(steps, n + 1, cache, seen')
  {
    hide Owner;
    forall x | x in seen'.calls
      ensures exists j :: 0 <= j < n + 1 && IsCall(steps, j) && Owner(steps, cache, steps[j].call.id) == x
    {
      if x in seen.calls {
        var j :| 0 <= j < n && IsCall(steps, j) && Owner(steps, cache, steps[j].call.id) == x;
      } else {
        assert IsCall(steps, n) && Owner(steps, cache, steps[n].call.id) == x;
      }
    }
  }

  lemma OwnersDistinct(steps: seq<Step>, i: nat, j: nat, cache: Cache)
    requires Accepted(steps, cache) && i < j && IsCall(steps, i) && IsCall(steps, j)
    ensures Owner(steps, cache, steps[i].call.id) != Owner(steps, cache, steps[j].call.id)
  {
    hide StepAlias, StepCalls, Walk, Owner, PairSteps;
    WalkOk(steps, |steps|, cache);
    WalkSeen(steps, |steps|, cache);
  }

  /** In an accepted conversation every call is its own canonical call. */
  lemma {:induction false} CallOwnsItself(steps: seq<Step>, j: nat, cache: Cache)
    requires Accepted(steps, cache) && IsCall(steps, j)
    ensures steps[j].call.id in StepAlias(steps, cache) && StepAlias(steps, cache)[steps[j].call.id] == steps[j].call.id
    ensures Owner(steps, cache, steps[j].call.id) == steps[j].call.id
    decreases |steps| - j
  {
    hide StepAlias, StepCalls, PairSteps, LastSetter, CachedUpstream;
    var id := steps[j].call.id;
    FullAlias(steps, id, cache);
    assert Sets(steps, j, id, cache);
    var k := LastSetter(steps, |steps|, id, cache).value;
    if k != j {
      CallOwnsItself(steps, k, cache);
      OwnersDistinct(steps, j, k, cache);
    }
  }

  lemma SameCallStep(steps: seq<Step>, i: nat, j: nat, cache: Cache)
    requires Accepted(steps, cache) && IsCall(steps, i) && IsCall(steps, j) && steps[i].call.id == steps[j].call.id
    ensures i == j
  {
    hide StepAlias, StepCalls, PairSteps;
    if i < j {
      OwnersDistinct(steps, i, j, cache);
    } else if j < i {
      OwnersDistinct(steps, j, i, cache);
    }
  }

  // ----- what one result answers

  /** Owner of a result in the walk. */
  function ResultTo(steps: seq<Step>, cache: Cache, id: Id): Id {
    ResultOwner(StepAlias(steps, cache), cache, id)
  }

  /** The owner of an accepted result is an earlier call. */
  lemma OwnerIsEarlier(steps: seq<Step>, t: nat, cache: Cache)
    requires Accepted(steps, cache) && t < |steps| && steps[t].ResultStep?
    ensures steps[t].callId != NO_ID
    ensures exists p :: 0 <= p < t && IsCall(steps, p) && steps[p].call.id == ResultTo(steps, cache, steps[t].callId)
  {
    hide StepAlias, StepCalls, PairSteps, Walk, ResultOwner;
    WalkOk(steps, t, cache);
    WalkOk(steps, t + 1, cache);
    WalkStep(steps, t + 1, cache);
    WalkSeen(steps, t, cache);
    var o := ResultTo(steps, cache, steps[t].callId);
    var p :| 0 <= p < t && IsCall(steps, p) && Owner(steps, cache, steps[p].call.id) == o;
    CallOwnsItself(steps, p, cache);
  }

  /** If the id is an alias at all, its setter came before the result and is the owner. */
  lemma AliasBefore(steps: seq<Step>, t: nat, cache: Cache)
    requires Accepted(steps, cache) && t < |steps| && steps[t].ResultStep?
    ensures var id := steps[t].callId;
            && (id in StepAlias(steps, cache) <==> id in StepAlias(steps[..t], cache))
            && (id in StepAlias(steps, cache) ==>
                  StepAlias(steps[..t], cache)[id] == StepAlias(steps, cache)[id]
                  && ResultTo(steps, cache, id) == StepAlias(steps, cache)[id])
  {
    hide StepAlias, StepCalls, PairSteps, Accepted, LastSetter;
    var id := steps[t].callId;
    OwnerIsEarlier(steps, t, cache);
    FullAlias(steps, id, cache);
    AliasIs(steps, t, id, cache);
    if id in StepAlias(steps, cache) {
      var q := LastSetter(steps, |steps|, id, cache).value;
      var p :| 0 <= p < t && IsCall(steps, p) && steps[p].call.id == ResultTo(steps, cache, id);
      SameCallStep(steps, p, q, cache);
      SettersMeet(steps, t, id, cache);
    } else {
      SettersMeet(steps, t, id, cache);
    }
  }

  lemma SettersMeet(steps: seq<Step>, t: nat, id: Id, cache: Cache)
    requires t <= |steps|
    ensures var q, q' := LastSetter(steps, t, id, cache), LastSetter(steps, |steps|, id, cache);
            && (q'.None? ==> q.None?)
            && (q'.Some? && q'.value < t ==> q == q')
  {
    hide Sets;
  }

  lemma CallMember(steps: seq<Step>, x: Id)
    ensures x in StepCalls(steps) <==> exists j: nat :: IsCall(steps, j) && steps[j].call.id == x
  {
    if steps != [] {
      var n := |steps| - 1;
      CallMember(steps[..n], x);
      if x in StepCalls(steps[..n]) {
        var j: nat :| IsCall(steps[..n], j) && steps[..n][j].call.id == x;
        assert IsCall(steps, j) && steps[j].call.id == x;
      }
      if j: nat :| IsCall(steps, j) && steps[j].call.id == x {
        assert j < n ==> IsCall(steps[..n], j) && steps[..n][j].call.id == x;
      }
    }
  }

  lemma OwnAlias(steps: seq<Step>, cache: Cache, x: Id)
    requires Accepted(steps, cache) && x in StepCalls(steps)
    ensures x in StepAlias(steps, cache) && StepAlias(steps, cache)[x] == x && x != NO_ID
  {
    hide StepAlias, StepCalls, Accepted;
    CallMember(steps, x);
    var j: nat :| IsCall(steps, j) && steps[j].call.id == x;
    CallOwnsItself(steps, j, cache);
  }

  // ----- the calls that the converter sends on

  function Named(calls: seq<ToolCall>): seq<ToolCall> {
    if calls == [] then []
    else Named(calls[..|calls| - 1]) + if calls[|calls| - 1].name == "" then [] else [calls[|calls| - 1]]
  }

  /** The calls of assistant messages that have a name. */
  function NamedCalls(messages: seq<Message>): seq<ToolCall> {
    if messages == [] then []
    else
      var last := messages[|messages| - 1];
      NamedCalls(messages[..|messages| - 1]) + if last.role == Assistant then Named(last.calls) else []
  }

  function ToolTexts(messages: seq<Message>): seq<string> {
    if messages == [] then []
    else
      var last := messages[|messages| - 1];
      ToolTexts(messages[..|messages| - 1]) + if last.role == Tool then [last.text] else []
  }

  function Ids(calls: seq<ToolCall>): set<Id> {
    set c | c in calls :: c.id
  }

  /** `calls` are some of the calls of the steps, in their order, and all have a name. */
  predicate Picked(calls: seq<ToolCall>, steps: seq<Step>) {
    if steps == [] then calls == []
    else
      var n, last := |calls| - 1, steps[|steps| - 1];
      || Picked(calls, steps[..|steps| - 1])
      || (calls != [] && last == CallStep(calls[n]) && calls[n].name != "" && Picked(calls[..n], steps[..|steps| - 1]))
  }

  lemma PickedSnoc(calls: seq<ToolCall>, steps: seq<Step>, step: Step)
    requires Picked(calls, steps)
    ensures Picked(calls, steps + [step])
    ensures step.CallStep? && step.call.name != "" ==> Picked(calls + [step.call], steps + [step])
  {
    LastStep(steps, step);
    if step.CallStep? {
      assert (calls + [step.call])[..|calls|] == calls;
    }
  }

  lemma {:induction false} PickedNamed(calls: seq<ToolCall>, steps: seq<Step>, more: seq<ToolCall>)
    requires Picked(calls, steps)
    ensures Picked(calls, steps + CallSteps(more)) && Picked(calls + Named(more), steps + CallSteps(more))
  {
    hide Picked;
    if more == [] {
      assert steps + CallSteps(more) == steps && calls + Named(more) == calls;
    } else {
      var n := |more| - 1;
      PickedNamed(calls, steps, more[..n]);
      var upTo := steps + CallSteps(more[..n]);
      PickedSnoc(calls, upTo, CallStep(more[n]));
      PickedSnoc(calls + Named(more[..n]), upTo, CallStep(more[n]));
      assert steps + CallSteps(more) == upTo + [CallStep(more[n])];
      assert calls + Named(more) == if more[n].name == "" then calls + Named(more[..n]) else calls + Named(more[..n]) + [more[n]];
    }
  }

  lemma {:induction false} NamedArePicked(messages: seq<Message>)
    ensures Picked(NamedCalls(messages), Steps(messages))
  {
    hide Picked, CallSteps;
    if messages == [] {
      assert Picked([], []) by { NothingPicked(); }
    } else {
      var n := |messages| - 1;
      var m, calls, steps := messages[n], NamedCalls(messages[..n]), Steps(messages[..n]);
      NamedArePicked(messages[..n]);
      PickedNamed(calls, steps, m.calls);
      PickedSnoc(calls, steps + CallSteps(m.calls), ResultStep(m.callId));
      PickedSnoc(calls + Named(m.calls), steps + CallSteps(m.calls), ResultStep(m.callId));
      assert steps + StepsOf(m) ==
             if m.role == Tool then steps + CallSteps(m.calls) + [ResultStep(m.callId)] else steps + CallSteps(m.calls);
      assert calls + [] == calls;
    }
  }

  lemma NothingPicked()
    ensures Picked([], [])
  {
  }

  lemma {:induction false} PickedIsStep(calls: seq<ToolCall>, steps: seq<Step>, c: ToolCall)
    requires Picked(calls, steps) && c in calls
    ensures c.name != "" && exists j :: 0 <= j < |steps| && steps[j] == CallStep(c)
  {
    var n, m := |calls| - 1, |steps| - 1;
    if Picked(calls, steps[..m]) {
      PickedIsStep(calls, steps[..m], c);
      var j :| 0 <= j < m && steps[..m][j] == CallStep(c);
      assert steps[j] == CallStep(c);
    } else if c == calls[n] {
      assert steps[m] == CallStep(c);
    } else {
      assert c in calls[..n];
      PickedIsStep(calls[..n], steps[..m], c);
      var j :| 0 <= j < m && steps[..m][j] == CallStep(c);
      assert steps[j] == CallStep(c);
    }
  }

  ghost predicate DistinctSteps(steps: seq<Step>) {
    forall i, j :: 0 <= i < j < |steps| && IsCall(steps, i) && IsCall(steps, j) ==> steps[i].call.id != steps[j].call.id
  }

  lemma StepsDistinct(steps: seq<Step>, cache: Cache)
    requires Accepted(steps, cache)
    ensures DistinctSteps(steps)
  {
    hide Accepted;
    forall i, j | 0 <= i < j < |steps| && IsCall(steps, i) && IsCall(steps, j)
      ensures steps[i].call.id != steps[j].call.id
    {
      if steps[i].call.id == steps[j].call.id {
        SameCallStep(steps, i, j, cache);
      }
    }
  }

  lemma DistinctPrefix(steps: seq<Step>)
    requires DistinctSteps(steps) && steps != []
    ensures DistinctSteps(steps[..|steps| - 1])
  {
    var before := steps[..|steps| - 1];
    assert forall j :: 0 <= j < |before| ==> before[j] == steps[j] && (IsCall(before, j) ==> IsCall(steps, j));
  }

  /** Picked calls with ids are as many as their ids. */
  lemma {:induction false} PickedSize(calls: seq<ToolCall>, steps: seq<Step>)
    requires Picked(calls, steps) && DistinctSteps(steps)
    ensures |Ids(calls)| <= |calls| && (NO_ID !in Ids(calls) ==> |Ids(calls)| == |calls|)
  {
    hide DistinctSteps;
    if steps == [] {
      assert Ids(calls) == {};
    } else {
      DistinctPrefix(steps);
      var n, m := |calls| - 1, |steps| - 1;
      if Picked(calls, steps[..m]) {
        PickedSize(calls, steps[..m]);
      } else {
        PickedSize(calls[..n], steps[..m]);
        assert calls == calls[..n] + [calls[n]];
        IdsSnoc(calls[..n], calls[n]);
        if calls[n].id in Ids(calls[..n]) {
          TwicePicked(calls[..n], steps, calls[n]);
        }
      }
    }
  }

  lemma IdsSnoc(calls: seq<ToolCall>, c: ToolCall)
    ensures Ids(calls + [c]) == Ids(calls) + {c.id}
  {
    assert forall d :: d in calls + [c] <==> d in calls || d == c;
  }

  lemma TwicePicked(calls: seq<ToolCall>, steps: seq<Step>, c: ToolCall)
    requires steps != [] && DistinctSteps(steps) && Picked(calls, steps[..|steps| - 1])
    requires steps[|steps| - 1] == CallStep(c) && c.id in Ids(calls)
    ensures c.id == NO_ID
  {
    hide Picked;
    var m := |steps| - 1;
    var d :| d in calls && d.id == c.id;
    PickedIsStep(calls, steps[..m], d);
    var j :| 0 <= j < m && steps[..m][j] == CallStep(d);
    assert IsCall(steps, j) <==> c.id != NO_ID;
    assert IsCall(steps, m) <==> c.id != NO_ID;
  }

  /** The owner of a result that is among the picked calls is a named step before it. */
  lemma OwnerIsNamed(steps: seq<Step>, t: nat, cache: Cache, calls: seq<ToolCall>)
    requires Accepted(steps, cache) && Picked(calls, steps) && t < |steps| && steps[t].ResultStep?
    requires ResultTo(steps, cache, steps[t].callId) in Ids(calls)
    ensures forall q :: 0 <= q < |steps| && IsCall(steps, q) && steps[q].call.id == ResultTo(steps, cache, steps[t].callId) ==>
              steps[q].call.name != ""
  {
    hide Accepted, Picked, ResultTo;
    OwnerIsEarlier(steps, t, cache);
    var o := ResultTo(steps, cache, steps[t].callId);
    var c :| c in calls && c.id == o;
    PickedIsStep(calls, steps, c);
    var j :| 0 <= j < |steps| && steps[j] == CallStep(c);
    forall q | 0 <= q < |steps| && IsCall(steps, q) && steps[q].call.id == o
      ensures steps[q].call.name != ""
    {
      SameCallStep(steps, q, j, cache);
    }
  }

  // ----- what the converter learns, against what the validator knows

  /** The converter's alias of a key is the validator's, where the last call that set it has a name. */
  lemma {:induction false} LearnedAlias(steps: seq<Step>, n: nat, key: Id, cache: Cache)
    requires n <= |steps|
    ensures var alias, q := LearnAll(steps[..n], cache).alias, LastSetter(steps, n, key, cache);
            && (key in alias ==> q.Some?)
            && (q.Some? && steps[q.value].call.name != "" ==> key in alias && alias[key] == steps[q.value].call.id)
  {
    hide CachedUpstream, LearnAll, LearnResult, LearnCall;
    if n == 0 {
      assert steps[..0] == [];
      NothingLearned(cache);
    } else {
      LearnedAlias(steps, n - 1, key, cache);
      LearnStep(steps, n - 1, cache);
      if steps[n - 1].CallStep? {
        CallLearned(LearnAll(steps[..n - 1], cache), cache, steps, n - 1, key);
      } else {
        ResultLearns(LearnAll(steps[..n - 1], cache), cache, steps[n - 1].callId);
      }
    }
  }

  lemma CallLearned(t: ChatTables, cache: Cache, steps: seq<Step>, j: nat, key: Id)
    requires j < |steps| && steps[j].CallStep?
    ensures var t', c := LearnCall(t, cache, steps[j].call), steps[j].call;
            && t'.answered == t.answered
            && (!Sets(steps, j, key, cache) || c.name == "" ==> (key in t'.alias <==> key in t.alias) && (key in t.alias ==> t'.alias[key] == t.alias[key]))
            && (Sets(steps, j, key, cache) && c.name != "" ==> key in t'.alias && t'.alias[key] == c.id)
  {
    hide CachedUpstream;
  }

  lemma ResultLearns(t: ChatTables, cache: Cache, id: Id)
    ensures LearnResult(t, cache, id).alias == t.alias
    ensures id == NO_ID ==> LearnResult(t, cache, id).answered == t.answered
    ensures id != NO_ID ==> LearnResult(t, cache, id).answered == t.answered + {id} + Marked(t.alias, cache, id)
  {
    hide GetTool;
    if id != NO_ID && id !in t.alias && GetTool(cache, id).None? {
      assert t.answered + {id} + {} == t.answered + {id};
    } else if id != NO_ID {
      assert forall x :: t.answered + {x} + {id} == t.answered + {id} + {x};
    }
  }

  /** The call that a result marks beside its own id. */
  function Marked(alias: map<Id, Id>, cache: Cache, id: Id): set<Id> {
    if id in alias then {alias[id]} else if GetTool(cache, id).Some? then {GetTool(cache, id).value.bridgeId} else {}
  }

  lemma NothingLearned(cache: Cache)
    ensures LearnAll([], cache).answered == {} && LearnAll([], cache).alias == map[]
  {
  }

  lemma LearnStep(steps: seq<Step>, t: nat, cache: Cache)
    requires t < |steps|
    ensures LearnAll(steps[..t + 1], cache) == Learn(LearnAll(steps[..t], cache), cache, steps[t])
  {
    hide Learn;
    assert steps[..t + 1][..t] == steps[..t];
  }

  lemma PickedIsOwn(steps: seq<Step>, cache: Cache, calls: seq<ToolCall>, x: Id)
    requires Accepted(steps, cache) && Picked(calls, steps) && x in Ids(calls) && x != NO_ID
    ensures x in StepCalls(steps) && x in StepAlias(steps, cache) && StepAlias(steps, cache)[x] == x
  {
    hide StepAlias, StepCalls, Accepted, Picked;
    var c :| c in calls && c.id == x;
    PickedIsStep(calls, steps, c);
    var j :| 0 <= j < |steps| && steps[j] == CallStep(c);
    assert IsCall(steps, j) && steps[j].call.id == x;
    CallMember(steps, x);
    OwnAlias(steps, cache, x);
  }

  /** A result that belongs to a picked call marks no other picked call. */
  lemma MarksOwner(steps: seq<Step>, t: nat, cache: Cache, calls: seq<ToolCall>, x: Id)
    requires Accepted(steps, cache) && Picked(calls, steps) && t < |steps| && steps[t].ResultStep?
    requires ResultTo(steps, cache, steps[t].callId) in Ids(calls) && x in Ids(calls) && x != NO_ID
    requires x == steps[t].callId || x in Marked(LearnAll(steps[..t], cache).alias, cache, steps[t].callId)
    ensures x == ResultTo(steps, cache, steps[t].callId)
  {
    hide StepAlias, StepCalls, Accepted, GetTool, LearnAll, Picked, LastSetter, PairSteps;
    var id := steps[t].callId;
    AliasBefore(steps, t, cache);
    PickedIsOwn(steps, cache, calls, x);
    LearnedAlias(steps, t, id, cache);
    AliasIs(steps, t, id, cache);
    OwnerIsNamed(steps, t, cache, calls);
    if x != id && LastSetter(steps, t, id, cache).Some? {
      var q := LastSetter(steps, t, id, cache).value;
      assert IsCall(steps, q) && steps[q].call.id == ResultTo(steps, cache, id);
    } else if x != id {
      OwnerIsEarlier(steps, t, cache);
    }
  }

  /** Every result belongs to one of the calls. */
  ghost predicate ResultsWithin(steps: seq<Step>, cache: Cache, calls: seq<ToolCall>) {
    forall t :: 0 <= t < |steps| && steps[t].ResultStep? ==> ResultTo(steps, cache, steps[t].callId) in Ids(calls)
  }

  /** Of the picked calls, only those are marked as answered that the validator saw answered. */
  lemma {:induction false} AnsweredAreResults(steps: seq<Step>, n: nat, cache: Cache, calls: seq<ToolCall>)
    requires Accepted(steps, cache) && Picked(calls, steps) && ResultsWithin(steps, cache, calls) && n <= |steps|
    ensures Walk(steps, n, cache).Ok?
    ensures forall x :: x in LearnAll(steps[..n], cache).answered && x in Ids(calls) && x != NO_ID ==> x in Walk(steps, n, cache).value.results
  {
    hide StepAlias, StepCalls, Accepted, Walk, LearnAll, LearnResult, LearnCall, Picked, Marked;
    WalkOk(steps, n, cache);
    if n == 0 {
      assert steps[..0] == [];
      NothingLearned(cache);
    } else {
      AnsweredAreResults(steps, n - 1, cache, calls);
      WalkStep(steps, n, cache);
      LearnStep(steps, n - 1, cache);
      var before := LearnAll(steps[..n - 1], cache);
      if steps[n - 1].CallStep? {
        CallAnswersNothing(before, cache, steps[n - 1].call);
        CallKeepsResults(steps, n, cache);
      } else {
        ResultLearns(before, cache, steps[n - 1].callId);
        ResultIsSeen(steps, n, cache);
        forall x | x in LearnAll(steps[..n], cache).answered && x in Ids(calls) && x != NO_ID
          ensures x in Walk(steps, n, cache).value.results
        {
          if x !in before.answered {
            MarksOwner(steps, n - 1, cache, calls, x);
          }
        }
      }
    }
  }

  lemma CallAnswersNothing(t: ChatTables, cache: Cache, call: ToolCall)
    ensures LearnCall(t, cache, call).answered == t.answered
  {
  }

  lemma CallKeepsResults(steps: seq<Step>, n: nat, cache: Cache)
    requires 0 < n <= |steps| && Walk(steps, n, cache).Ok? && steps[n - 1].CallStep?
    ensures Walk(steps, n - 1, cache).Ok? && Walk(steps, n, cache).value.results == Walk(steps, n - 1, cache).value.results
  {
    hide StepAlias, StepCalls, Walk, OwnerOr;
    WalkStep(steps, n, cache);
  }

  lemma ResultIsSeen(steps: seq<Step>, n: nat, cache: Cache)
    requires 0 < n <= |steps| && Walk(steps, n, cache).Ok? && steps[n - 1].ResultStep?
    ensures var id := steps[n - 1].callId;
            && id != NO_ID && Walk(steps, n - 1, cache).Ok?
            && ResultTo(steps, cache, id) !in Walk(steps, n - 1, cache).value.results
            && Walk(steps, n, cache).value.results == Walk(steps, n - 1, cache).value.results + {ResultTo(steps, cache, id)}
  {
    hide StepAlias, StepCalls, Walk, ResultOwner;
    WalkStep(steps, n, cache);
  }

  // ----- counting

  function ResultCount(steps: seq<Step>): nat {
    if steps == [] then 0 else ResultCount(steps[..|steps| - 1]) + if steps[|steps| - 1].ResultStep? then 1 else 0
  }

  lemma CountSnoc(steps: seq<Step>, step: Step)
    ensures ResultCount(steps + [step]) == ResultCount(steps) + if step.ResultStep? then 1 else 0
  {
    LastStep(steps, step);
  }

  lemma {:induction false} CountCalls(steps: seq<Step>, calls: seq<ToolCall>)
    ensures ResultCount(steps + CallSteps(calls)) == ResultCount(steps)
  {
    hide ResultCount;
    if calls == [] {
      assert steps + CallSteps(calls) == steps;
    } else {
      var n := |calls| - 1;
      CountCalls(steps, calls[..n]);
      CountSnoc(steps + CallSteps(calls[..n]), CallStep(calls[n]));
      assert steps + CallSteps(calls) == steps + CallSteps(calls[..n]) + [CallStep(calls[n])];
    }
  }

  lemma {:induction false} ToolsAreResults(messages: seq<Message>)
    ensures |ToolTexts(messages)| == ResultCount(Steps(messages))
  {
    hide ResultCount, CallSteps;
    if messages == [] {
      assert ResultCount([]) == 0 by { NoResults(); }
    } else {
      var n := |messages| - 1;
      var m, steps := messages[n], Steps(messages[..n]);
      ToolsAreResults(messages[..n]);
      CountCalls(steps, m.calls);
      CountSnoc(steps + CallSteps(m.calls), ResultStep(m.callId));
      assert steps + StepsOf(m) ==
             if m.role == Tool then steps + CallSteps(m.calls) + [ResultStep(m.callId)] else steps + CallSteps(m.calls);
    }
  }

  lemma NoResults()
    ensures ResultCount([]) == 0
  {
  }

  lemma {:induction false} WalkCounts(steps: seq<Step>, n: nat, cache: Cache, calls: seq<ToolCall>)
    requires n <= |steps| && Walk(steps, n, cache).Ok?
    ensures |Walk(steps, n, cache).value.results| == ResultCount(steps[..n])
    ensures ResultsWithin(steps, cache, calls) ==> Walk(steps, n, cache).value.results <= Ids(calls)
  {
    hide StepAlias, StepCalls, ResultOwner, Walk, ResultTo;
    if n == 0 {
      WalkNothing(steps, cache);
      assert steps[..0] == [];
    } else {
      WalkBefore(steps, n, cache);
      WalkCounts(steps, n - 1, cache, calls);
      assert steps[..n] == steps[..n - 1] + [steps[n - 1]];
      CountSnoc(steps[..n - 1], steps[n - 1]);
      if steps[n - 1].CallStep? {
        CallKeepsResults(steps, n, cache);
      } else {
        ResultIsSeen(steps, n, cache);
      }
    }
  }

  lemma WalkBefore(steps: seq<Step>, n: nat, cache: Cache)
    requires 0 < n <= |steps| && Walk(steps, n, cache).Ok?
    ensures Walk(steps, n - 1, cache).Ok?
  {
    hide StepAlias, StepCalls, Walk, PairStep;
    WalkStep(steps, n, cache);
  }

  /** A sent call that the first `i` messages hold anyhow is sent by one of them. */
  lemma {:induction false} SentEarly(messages: seq<Message>, i: nat, n: nat, x: Id)
    requires i <= n <= |messages| && DistinctSteps(Steps(messages)) && x != NO_ID
    requires x in Ids(NamedCalls(messages[..n])) && x in StepCalls(Steps(messages[..i]))
    ensures x in Ids(NamedCalls(messages[..i]))
    decreases n
  {
    hide DistinctSteps, Steps, StepCalls, Picked, Named;
    if i < n {
      assert messages[..n][..n - 1] == messages[..n - 1];
      if x in Ids(NamedCalls(messages[..n - 1])) {
        SentEarly(messages, i, n - 1, x);
      } else {
        var c :| c in NamedCalls(messages[..n]) && c.id == x;
        assert c in Named(messages[n - 1].calls) && messages[n - 1].role == Assistant;
        SentTwice(messages, i, n - 1, c);
      }
    }
  }

  lemma SentTwice(messages: seq<Message>, i: nat, n: nat, c: ToolCall)
    requires i <= n < |messages| && c in Named(messages[n].calls) && c.id in StepCalls(Steps(messages[..i]))
    ensures !DistinctSteps(Steps(messages))
  {
    hide StepCalls, Steps, Named, DistinctSteps;
    var before := Steps(messages[..i]);
    CallMember(before, c.id);
    var p: nat :| IsCall(before, p) && before[p].call.id == c.id;
    NamedIsCall(messages[n].calls, c);
    var k :| 0 <= k < |messages[n].calls| && messages[n].calls[k] == c;
    StepsPrefix(messages, i);
    StepsPrefix(messages[..n], i);
    assert messages[..n][..i] == messages[..i];
    StepsPrefix(messages, n + 1);
    assert messages[..n + 1][..n] == messages[..n];
    MessageSteps(messages[..n + 1], k);
    var q := |Steps(messages[..n])| + k;
    assert Steps(messages)[q] == Steps(messages[..n + 1])[q] == CallStep(c);
    assert Steps(messages)[p] == before[p];
    TwoCalls(Steps(messages), p, q);
  }

  lemma TwoCalls(steps: seq<Step>, p: nat, q: nat)
    requires p < q < |steps| && IsCall(steps, p) && IsCall(steps, q) && steps[p].call.id == steps[q].call.id
    ensures !DistinctSteps(steps)
  {
  }

  lemma MessageSteps(messages: seq<Message>, k: nat)
    requires messages != [] && k < |messages[|messages| - 1].calls|
    ensures var n := |messages| - 1;
            var q := |Steps(messages[..n])| + k;
            q < |Steps(messages)| && Steps(messages)[q] == CallStep(messages[n].calls[k])
  {
  }

  lemma {:induction false} NamedIsCall(calls: seq<ToolCall>, c: ToolCall)
    requires c in Named(calls)
    ensures exists k :: 0 <= k < |calls| && calls[k] == c
  {
    var n := |calls| - 1;
    if c in Named(calls[..n]) {
      NamedIsCall(calls[..n], c);
      var k :| 0 <= k < n && calls[..n][k] == c;
      assert calls[k] == c;
    } else {
      assert calls[n] == c;
    }
  }

  // ----- emission

  /** The signature the client claims for a call: its own, or its message's when it is the only call. */
  function ClaimedSig(m: Message, call: ToolCall, cache: Cache): string {
    if call.sig != "" then call.sig else if |m.calls| == 1 then DetailsSig(m.details, cache) else ""
  }

  predicate SignedCall(p: Part) {
    p.call.Some? && p.response.None? && p.sig != "" && Substantial(p)
  }

  /** Name and arguments of the calls among the parts. */
  function SentCalls(f: seq<(string, Part)>): seq<(string, Args)> {
    if f == [] then []
    else
      var last := f[|f| - 1].1;
      SentCalls(f[..|f| - 1]) + if last.call.Some? then [(last.call.value.name, last.call.value.args)] else []
  }

  /** Texts of the responses among the parts. */
  function SentTexts(f: seq<(string, Part)>): seq<string> {
    if f == [] then []
    else
      var last := f[|f| - 1].1;
      SentTexts(f[..|f| - 1]) + if last.response.Some? then [last.response.value.response] else []
  }

  function Shown(calls: seq<ToolCall>): seq<(string, Args)> {
    seq(|calls|, i requires 0 <= i < |calls| => (calls[i].name, calls[i].args))
  }

  lemma SentSnoc(f: seq<(string, Part)>, x: (string, Part))
    ensures SentCalls(f + [x]) == SentCalls(f) + if x.1.call.Some? then [(x.1.call.value.name, x.1.call.value.args)] else []
    ensures SentTexts(f + [x]) == SentTexts(f) + if x.1.response.Some? then [x.1.response.value.response] else []
  {
    assert (f + [x])[..|f|] == f && (f + [x])[|f|] == x;
  }

  lemma OneChatCall(m: Message, call: ToolCall, answered: set<Id>, cache: Cache)
    requires EmitChatCall(m, call, answered, cache).Ok?
    ensures var p := EmitChatCall(m, call, answered, cache).value;
            SignedCall(p) && p.call.value.name == call.name && p.call.value.args == call.args && call.id in answered
  {
    hide ChatOwnEvidence, SiblingScan, ClassifyToolCall, NativeSig;
    AnsweredEvidence(m, call, answered, cache);
  }

  lemma AnsweredEvidence(m: Message, call: ToolCall, answered: set<Id>, cache: Cache)
    ensures ChatEvidence(m, call, answered, cache).hasMatchingOutput == (call.id in answered)
  {
    hide SiblingScan, GetTool, DetailsSig;
  }

  /** Signed parts for exactly these calls. */
  predicate PartsFor(ps: seq<Part>, calls: seq<ToolCall>) {
    |ps| == |calls| &&
    forall k :: 0 <= k < |ps| ==> SignedCall(ps[k]) && ps[k].call.value.name == calls[k].name && ps[k].call.value.args == calls[k].args
  }

  lemma {:induction false} EmittedCalls(m: Message, n: nat, answered: set<Id>, cache: Cache)
    requires n <= |m.calls| && EmitCalls(m, n, answered, cache).Ok?
    ensures PartsFor(EmitCalls(m, n, answered, cache).value, Named(m.calls[..n])) && Ids(Named(m.calls[..n])) <= answered
  {
    hide EmitChatCall, SignedCall;
    if n > 0 {
      EmittedCalls(m, n - 1, answered, cache);
      assert m.calls[..n][..n - 1] == m.calls[..n - 1];
      if m.calls[n - 1].name != "" {
        OneChatCall(m, m.calls[n - 1], answered, cache);
        IdsSnoc(Named(m.calls[..n - 1]), m.calls[n - 1]);
      }
    }
  }

  /** The parts are signed calls for `calls`, responses with `texts`, and other substantial parts. */
  ghost predicate Sends(f: seq<(string, Part)>, calls: seq<ToolCall>, texts: seq<string>) {
    && SentCalls(f) == Shown(calls) && SentTexts(f) == texts && Calls(f) == |calls| && Responses(f) == |texts| && AllSigned(f)
    && forall i :: 0 <= i < |f| ==> Substantial(f[i].1)
  }

  lemma AppendCall(f: seq<(string, Part)>, role: string, p: Part, calls: seq<ToolCall>, texts: seq<string>, c: ToolCall)
    requires Sends(f, calls, texts) && SignedCall(p) && p.call.value.name == c.name && p.call.value.args == c.args
    ensures Sends(f + [(role, p)], calls + [c], texts) && (Balanced(f + [(role, p)]) <==> Balanced(f))
  {
    hide SentCalls, SentTexts, Calls, Responses, AllSigned, Balanced;
    PartSnoc(f, (role, p));
    SentSnoc(f, (role, p));
    assert Shown(calls + [c]) == Shown(calls) + [(c.name, c.args)];
    BalancedEnds(f);
  }

  lemma BalancedEnds(f: seq<(string, Part)>)
    ensures Balanced(f) ==> Responses(f) <= Calls(f)
  {
  }

  lemma AppendText(f: seq<(string, Part)>, x: (string, Part), calls: seq<ToolCall>, texts: seq<string>)
    requires Sends(f, calls, texts) && Substantial(x.1) && x.1.call.None? && x.1.response.None?
    ensures Sends(f + [x], calls, texts) && (Balanced(f + [x]) <==> Balanced(f))
  {
    hide SentCalls, SentTexts, Calls, Responses, AllSigned, Balanced;
    PartSnoc(f, x);
    SentSnoc(f, x);
    BalancedEnds(f);
  }

  lemma AppendResult(f: seq<(string, Part)>, x: (string, Part), calls: seq<ToolCall>, texts: seq<string>)
    requires Sends(f, calls, texts) && Substantial(x.1) && x.1.call.None? && x.1.response.Some?
    ensures Sends(f + [x], calls, texts + [x.1.response.value.response])
    ensures Balanced(f + [x]) <==> Balanced(f) && |texts| + 1 <= |calls|
  {
    hide SentCalls, SentTexts, Calls, Responses, AllSigned, Balanced;
    PartSnoc(f, x);
    SentSnoc(f, x);
  }

  lemma {:induction false} AppendCalls(f: seq<(string, Part)>, role: string, ps: seq<Part>, calls: seq<ToolCall>, texts: seq<string>, more: seq<ToolCall>)
    requires Sends(f, calls, texts) && PartsFor(ps, more)
    ensures Sends(f + Tagged(role, ps), calls + more, texts) && (Balanced(f + Tagged(role, ps)) <==> Balanced(f))
  {
    hide Sends, Balanced, SignedCall;
    if ps == [] {
      assert f + Tagged(role, ps) == f && calls + more == calls;
    } else {
      var n := |ps| - 1;
      AppendCalls(f, role, ps[..n], calls, texts, more[..n]);
      AppendCall(f + Tagged(role, ps[..n]), role, ps[n], calls + more[..n], texts, more[n]);
      assert f + Tagged(role, ps) == f + Tagged(role, ps[..n]) + [(role, ps[n])];
      assert calls + more == calls + more[..n] + [more[n]];
    }
  }

  /** One message adds its named calls or its response. */
  lemma OneMessage(t: ChatTables, cache: Cache, messages: seq<Message>, i: nat, hash: seq<Message> -> string, before: seq<Content>)
    requires i < |messages| && EmitMessage(t, cache, messages, i, hash).Ok?
    requires Sends(Flatten(before), NamedCalls(messages[..i]), ToolTexts(messages[..i]))
    ensures var f := Flatten(before + EmitMessage(t, cache, messages, i, hash).value);
            var calls, texts := NamedCalls(messages[..i + 1]), ToolTexts(messages[..i + 1]);
            && Sends(f, calls, texts) && (Balanced(f) <==> Balanced(Flatten(before)) && |texts| <= |calls|)
            && (Ids(NamedCalls(messages[..i])) <= t.answered ==> Ids(calls) <= t.answered)
  {
    hide Sends, Balanced, EmitCalls, ChatTextSig, Flatten, Substantial, EmitToolResult, Named;
    var m, calls, texts := messages[i], NamedCalls(messages[..i]), ToolTexts(messages[..i]);
    assert messages[..i + 1][..i] == messages[..i];
    assert calls + [] == calls && texts + [] == texts;
    SendsCounts(Flatten(before), calls, texts);
    match m.role
    case System => assert before + [] == before;
    case Tool =>
      var p := EmitToolResult(t, cache, m);
      ResponsePartIs(t, cache, m);
      FlattenOne(before, Content("user", [p]));
      AppendResult(Flatten(before), ("user", p), calls, texts);
    case User =>
      assert before + [] == before;
      TextIsSubstantial(m.text, "");
      FlattenOne(before, Content("user", [TextPart(m.text, "")]));
      if m.text != "" {
        AppendText(Flatten(before), ("user", TextPart(m.text, "")), calls, texts);
      }
    case Assistant =>
      AssistantMessage(t, cache, messages, i, hash, before);
      IdsConcat(calls, Named(m.calls));
  }

  lemma IdsConcat(a: seq<ToolCall>, b: seq<ToolCall>)
    ensures Ids(a + b) == Ids(a) + Ids(b)
  {
    assert forall c :: c in a + b <==> c in a || c in b;
  }

  lemma SendsCounts(f: seq<(string, Part)>, calls: seq<ToolCall>, texts: seq<string>)
    requires Sends(f, calls, texts)
    ensures Balanced(f) ==> |texts| <= |calls|
  {
    hide SentCalls, SentTexts, Calls, Responses, AllSigned;
  }

  lemma ResponsePartIs(t: ChatTables, cache: Cache, m: Message)
    ensures var p := EmitToolResult(t, cache, m); p.response.Some? && p.response.value.response == m.text && p.call.None? && Substantial(p)
  {
    hide ChatResponseName, CachedUpstream;
  }

  lemma TextIsSubstantial(text: string, sig: string)
    ensures var p := TextPart(text, sig); p.call.None? && p.response.None? && (text != "" ==> Substantial(p))
  {
  }

  lemma AssistantMessage(t: ChatTables, cache: Cache, messages: seq<Message>, i: nat, hash: seq<Message> -> string, before: seq<Content>)
    requires i < |messages| && EmitMessage(t, cache, messages, i, hash).Ok? && messages[i].role == Assistant
    requires Sends(Flatten(before), NamedCalls(messages[..i]), ToolTexts(messages[..i]))
    ensures var m := messages[i];
            var f := Flatten(before + EmitMessage(t, cache, messages, i, hash).value);
            && Sends(f, NamedCalls(messages[..i]) + Named(m.calls), ToolTexts(messages[..i])) && (Balanced(f) <==> Balanced(Flatten(before)))
            && Ids(Named(m.calls)) <= t.answered
  {
    hide Sends, Balanced, EmitCalls, ChatTextSig, Flatten, Substantial, SignedCall, PartsFor, Named, NamedCalls, ToolTexts;
    var m, calls, texts := messages[i], NamedCalls(messages[..i]), ToolTexts(messages[..i]);
    var called := EmitCalls(m, |m.calls|, t.answered, cache).value;
    EmittedCalls(m, |m.calls|, t.answered, cache);
    assert m.calls[..|m.calls|] == m.calls;
    var sig := ChatTextSig(m, cache, hash(messages[..i]));
    TextIsSubstantial(m.text, sig);
    var f := Flatten(before);
    if m.text == "" {
      assert [] + called == called;
      FlattenSnoc(before, Content("model", called));
      AppendCalls(f, "model", called, calls, texts, Named(m.calls));
      assert before + [] == before && f + Tagged("model", []) == f;
    } else {
      var text := ("model", TextPart(m.text, sig));
      FlattenSnoc(before, Content("model", [TextPart(m.text, sig)] + called));
      assert f + Tagged("model", [TextPart(m.text, sig)] + called) == f + [text] + Tagged("model", called);
      AppendText(f, text, calls, texts);
      AppendCalls(f + [text], "model", called, calls, texts, Named(m.calls));
    }
  }

  /** No prefix of the messages holds more results than named calls. */
  predicate AnswersFollow(messages: seq<Message>) {
    forall n :: 0 <= n <= |messages| ==> |ToolTexts(messages[..n])| <= |NamedCalls(messages[..n])|
  }

  lemma FollowSnoc(messages: seq<Message>, n: nat)
    requires n < |messages|
    ensures AnswersFollow(messages[..n + 1]) <==>
            AnswersFollow(messages[..n]) && |ToolTexts(messages[..n + 1])| <= |NamedCalls(messages[..n + 1])|
  {
    hide ToolTexts, NamedCalls;
    var a, b := messages[..n], messages[..n + 1];
    assert forall k :: 0 <= k <= n ==> b[..k] == a[..k];
    assert b[..n + 1] == b && a[..n] == a;
  }

  lemma {:induction false} EmittedMessages(t: ChatTables, cache: Cache, messages: seq<Message>, n: nat, hash: seq<Message> -> string)
    requires n <= |messages| && EmitMessages(t, cache, messages, n, hash).Ok?
    ensures var f := Flatten(EmitMessages(t, cache, messages, n, hash).value);
            && Sends(f, NamedCalls(messages[..n]), ToolTexts(messages[..n]))
            && (Balanced(f) <==> AnswersFollow(messages[..n]))
            && Ids(NamedCalls(messages[..n])) <= t.answered
  {
    hide EmitMessage, Flatten, Sends, Balanced, AnswersFollow, NamedCalls, ToolTexts;
    if n == 0 {
      NothingSent(messages);
    } else {
      EmittedMessages(t, cache, messages, n - 1, hash);
      OneMessage(t, cache, messages, n - 1, hash, EmitMessages(t, cache, messages, n - 1, hash).value);
      FollowSnoc(messages, n - 1);
    }
  }

  lemma NothingSent(messages: seq<Message>)
    ensures NamedCalls(messages[..0]) == [] && ToolTexts(messages[..0]) == [] && AnswersFollow(messages[..0])
    ensures Flatten([]) == [] && Sends([], [], []) && Balanced([]) && Ids([]) == {}
  {
  }

  lemma RawChat(messages: seq<Message>, cache: Cache, hash: seq<Message> -> string)
    requires ConvertChat(messages, cache, hash).Ok?
    ensures var f := Flatten(ConvertChat(messages, cache, hash).value);
            && Sends(f, NamedCalls(messages), ToolTexts(messages)) && (Balanced(f) <==> AnswersFollow(messages))
            && Ids(NamedCalls(messages)) <= LearnAll(Steps(messages), cache).answered
            && Accepted(Steps(messages), cache)
  {
    hide PairSteps, LearnAll, Steps, EmitMessages, Flatten, Normalized, Balanced, Calls, Responses, AllSigned, StepAlias, StepCalls,
         NamedCalls, ToolTexts, AnswersFollow, Alternating, SentCalls, SentTexts;
    var t := LearnAll(Steps(messages), cache);
    EmittedMessages(t, cache, messages, |messages|, hash);
    assert messages[..|messages|] == messages;
    var raw := EmitMessages(t, cache, messages, |messages|, hash).value;
    NormalizedKeeps(raw);
    KeepAll(Flatten(raw));
  }

  /**
   * A successful chat conversion sends exactly the named calls of assistant messages, in order,
   * with their names and arguments and each signed, and exactly one response with the text of each
   * tool message. So calls and responses are as many if and only if the messages hold as many, and
   * no prefix holds more responses than calls if and only if no prefix of the messages does.
   */
  lemma ChatConversionIsExact(messages: seq<Message>, cache: Cache, hash: seq<Message> -> string)
    requires ConvertChat(messages, cache, hash).Ok?
    ensures var f := Flatten(ConvertChat(messages, cache, hash).value);
            && SentCalls(f) == Shown(NamedCalls(messages)) && SentTexts(f) == ToolTexts(messages) && AllSigned(f)
            && (Calls(f) == Responses(f) <==> |NamedCalls(messages)| == |ToolTexts(messages)|)
            && (Balanced(f) <==> AnswersFollow(messages))
  {
    hide ConvertChat, Flatten, Balanced, Calls, Responses, AllSigned, NamedCalls, ToolTexts, AnswersFollow, SentCalls, SentTexts,
         LearnAll, Steps, Accepted;
    RawChat(messages, cache, hash);
  }

  // ----- when the counts agree

  lemma {:induction false} NothingAnswersNoId(steps: seq<Step>, cache: Cache)
    requires RecordInv(cache)
    ensures NO_ID !in LearnAll(steps, cache).answered
    ensures forall k :: k in LearnAll(steps, cache).alias ==> LearnAll(steps, cache).alias[k] != NO_ID
  {
    hide CachedUpstream;
    if steps != [] {
      NothingAnswersNoId(steps[..|steps| - 1], cache);
    }
  }

  /** As many results as calls when every call is answered and every result belongs to a call. */
  lemma ChatCountsMeet(steps: seq<Step>, cache: Cache, calls: seq<ToolCall>)
    requires Accepted(steps, cache) && RecordInv(cache) && Picked(calls, steps) && ResultsWithin(steps, cache, calls)
    requires Ids(calls) <= LearnAll(steps, cache).answered
    ensures |calls| == ResultCount(steps)
  {
    hide StepAlias, StepCalls, Accepted, Walk, LearnAll, ResultCount, RecordInv, Picked, ResultsWithin;
    NothingAnswersNoId(steps, cache);
    assert steps[..|steps|] == steps;
    AnsweredAreResults(steps, |steps|, cache, calls);
    WalkCounts(steps, |steps|, cache, calls);
    StepsDistinct(steps, cache);
    PickedSize(calls, steps);
    assert Walk(steps, |steps|, cache).value.results == Ids(calls);
  }

  /** At the end of each message the results so far belong to calls sent so far. */
  lemma ResultsFollow(messages: seq<Message>, n: nat, cache: Cache)
    requires n <= |messages| && Accepted(Steps(messages), cache) && ResultsWithin(Steps(messages), cache, NamedCalls(messages))
    ensures |ToolTexts(messages[..n])| <= |NamedCalls(messages[..n])|
  {
    hide StepAlias, StepCalls, Accepted, Walk, NamedCalls, ToolTexts, Steps, ResultsWithin, ResultCount, Picked;
    var steps, upTo := Steps(messages), Steps(messages[..n]);
    StepsPrefix(messages, n);
    assert steps[..|upTo|] == upTo;
    WalkOk(steps, |upTo|, cache);
    WalkCounts(steps, |upTo|, cache, NamedCalls(messages));
    WalkSeen(steps, |upTo|, cache);
    StepsDistinct(steps, cache);
    var results := Walk(steps, |upTo|, cache).value.results;
    forall x | x in results
      ensures x in Ids(NamedCalls(messages[..n]))
    {
      SeenIsEarly(messages, n, cache, x);
    }
    SubsetSize(results, Ids(NamedCalls(messages[..n])));
    NamedArePicked(messages[..n]);
    PrefixDistinct(steps, |upTo|);
    PickedSize(NamedCalls(messages[..n]), upTo);
    ToolsAreResults(messages[..n]);
  }

  lemma PrefixDistinct(steps: seq<Step>, n: nat)
    requires n <= |steps| && DistinctSteps(steps)
    ensures DistinctSteps(steps[..n])
  {
    assert forall j :: 0 <= j < n ==> steps[..n][j] == steps[j] && (IsCall(steps[..n], j) ==> IsCall(steps, j));
  }

  lemma SeenIsEarly(messages: seq<Message>, n: nat, cache: Cache, x: Id)
    requires n <= |messages| && Accepted(Steps(messages), cache) && Steps(messages[..n]) <= Steps(messages)
    requires Walk(Steps(messages), |Steps(messages[..n])|, cache).Ok?
    requires x in Walk(Steps(messages), |Steps(messages[..n])|, cache).value.results && x in Ids(NamedCalls(messages))
    ensures x in Ids(NamedCalls(messages[..n]))
  {
    hide StepAlias, StepCalls, Accepted, Walk, NamedCalls, Steps;
    var steps, upTo := Steps(messages), Steps(messages[..n]);
    WalkSeen(steps, |upTo|, cache);
    var j :| 0 <= j < |upTo| && IsCall(steps, j) && Owner(steps, cache, steps[j].call.id) == x;
    CallOwnsItself(steps, j, cache);
    assert IsCall(upTo, j) && upTo[j].call.id == x;
    CallMember(upTo, x);
    StepsDistinct(steps, cache);
    assert messages[..|messages|] == messages;
    SentEarly(messages, n, |messages|, x);
  }

  /** Every call that some result belongs to is sent: it has a name and an assistant message carries it. */
  ghost predicate AnsweredAreSent(messages: seq<Message>, cache: Cache) {
    ResultsWithin(Steps(messages), cache, NamedCalls(messages))
  }

  /**
   * If every call that a result belongs to has a name and stands in an assistant message, a
   * successful chat conversion holds as many responses as calls, no prefix holds more responses
   * than calls, and every call is signed. Unanswered calls without a name do no harm.
   */
  lemma ChatConversionIsPaired(messages: seq<Message>, cache: Cache, hash: seq<Message> -> string)
    requires ConvertChat(messages, cache, hash).Ok? && AnsweredAreSent(messages, cache) && RecordInv(cache)
    ensures var f := Flatten(ConvertChat(messages, cache, hash).value);
            Calls(f) == Responses(f) && Balanced(f) && AllSigned(f)
  {
    hide ConvertChat, Flatten, Balanced, Calls, Responses, AllSigned, NamedCalls, ToolTexts, SentCalls, SentTexts, LearnAll, Steps,
         Accepted, ResultsWithin, RecordInv, Ids, Picked, ResultCount;
    RawChat(messages, cache, hash);
    NamedArePicked(messages);
    ChatCountsMeet(Steps(messages), cache, NamedCalls(messages));
    ToolsAreResults(messages);
    forall n | 0 <= n <= |messages|
      ensures |ToolTexts(messages[..n])| <= |NamedCalls(messages[..n])|
    {
      ResultsFollow(messages, n, cache);
    }
  }
}
