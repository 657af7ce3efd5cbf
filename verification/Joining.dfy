/** Item lists joined where a message begins the second one: runs end there, so each part converts by itself. */
module Joining {
  import opened Core
  import opened Caches
  import opened Exchange
  import opened Translate

  /** The second list is empty or begins with an item that ends every run. */
  predicate Breaks(b: seq<Item>) {
    b == [] || !InRun(b[0])
  }

  // ----- runs and leads

  lemma {:induction false} StartLeft(a: seq<Item>, b: seq<Item>, idx: nat)
    requires idx < |a|
    ensures RunStart(a + b, idx) == RunStart(a, idx)
  {
    if idx > 0 && InRun(a[idx - 1]) {
      StartLeft(a, b, idx - 1);
    }
  }

  lemma {:induction false} EndLeft(a: seq<Item>, b: seq<Item>, idx: nat)
    requires idx <= |a| && Breaks(b)
    ensures RunEnd(a + b, idx) == RunEnd(a, idx)
    decreases |a| - idx
  {
    if idx < |a| && InRun(a[idx]) {
      EndLeft(a, b, idx + 1);
    } else if idx == |a| && b != [] {
      assert (a + b)[idx] == b[0];
    }
  }

  lemma {:induction false} StartRight(a: seq<Item>, b: seq<Item>, idx: nat)
    requires 0 < idx < |b| && Breaks(b)
    ensures RunStart(a + b, |a| + idx) == |a| + RunStart(b, idx)
  {
    assert (a + b)[|a| + idx - 1] == b[idx - 1];
    if InRun(b[idx - 1]) {
      StartRight(a, b, idx - 1);
    }
  }

  lemma {:induction false} EndRight(a: seq<Item>, b: seq<Item>, idx: nat)
    requires idx <= |b|
    ensures RunEnd(a + b, |a| + idx) == |a| + RunEnd(b, idx)
    decreases |b| - idx
  {
    if idx < |b| {
      assert (a + b)[|a| + idx] == b[idx];
      if InRun(b[idx]) {
        EndRight(a, b, idx + 1);
      }
    }
  }

  lemma {:induction false} LeadLeft(t: Tables, cache: Cache, a: seq<Item>, b: seq<Item>, lo: nat, hi: nat)
    requires lo <= hi <= |a|
    ensures LeadIn(t, cache, a + b, lo, hi) == LeadIn(t, cache, a, lo, hi)
    decreases hi - lo
  {
    hide GroupSig;
    if lo < hi {
      assert (a + b)[lo] == a[lo];
      LeadLeft(t, cache, a, b, lo + 1, hi);
    }
  }

  lemma {:induction false} LeadRight(t: Tables, cache: Cache, a: seq<Item>, b: seq<Item>, lo: nat, hi: nat)
    requires lo <= hi <= |b|
    ensures LeadIn(t, cache, a + b, |a| + lo, |a| + hi) == LeadIn(t, cache, b, lo, hi)
    decreases hi - lo
  {
    hide GroupSig;
    if lo < hi {
      assert (a + b)[|a| + lo] == b[lo];
      LeadRight(t, cache, a, b, lo + 1, hi);
    }
  }

  // ----- emission

  /** The hash of a prefix, seen from the second list. */
  function After(hash: seq<Item> -> string, before: seq<Item>): seq<Item> -> string {
    (s: seq<Item>) => hash(before + s)
  }

  lemma EmitLeft(t: Tables, cache: Cache, answered: set<Id>, a: seq<Item>, b: seq<Item>, idx: nat, hash: seq<Item> -> string)
    requires idx < |a| && Breaks(b)
    ensures EmitItem(t, cache, answered, a + b, idx, hash) == EmitItem(t, cache, answered, a, idx, hash)
  {
    hide EmitCall, EmitResult, TextSig, LeadIn, RunStart, RunEnd;
    StartLeft(a, b, idx);
    EndLeft(a, b, idx);
    LeadLeft(t, cache, a, b, RunStart(a, idx), RunEnd(a, idx));
    assert (a + b)[idx] == a[idx] && (a + b)[..idx] == a[..idx];
  }

  lemma EmitRight(t: Tables, cache: Cache, answered: set<Id>, a: seq<Item>, b: seq<Item>, idx: nat, hash: seq<Item> -> string)
    requires idx < |b| && Breaks(b)
    ensures EmitItem(t, cache, answered, a + b, |a| + idx, hash) == EmitItem(t, cache, answered, b, idx, After(hash, a))
  {
    hide EmitCall, EmitResult, TextSig, LeadIn, RunStart, RunEnd;
    assert (a + b)[|a| + idx] == b[idx] && (a + b)[..|a| + idx] == a + b[..idx];
    if idx > 0 {
      StartRight(a, b, idx);
      EndRight(a, b, idx);
      LeadRight(t, cache, a, b, RunStart(b, idx), RunEnd(b, idx));
    }
  }

  lemma {:induction false} EmitAllLeft(t: Tables, cache: Cache, answered: set<Id>, a: seq<Item>, b: seq<Item>, n: nat, hash: seq<Item> -> string)
    requires n <= |a| && Breaks(b)
    ensures EmitAll(t, cache, answered, a + b, n, hash) == EmitAll(t, cache, answered, a, n, hash)
  {
    hide EmitItem;
    if n > 0 {
      EmitAllLeft(t, cache, answered, a, b, n - 1, hash);
      EmitLeft(t, cache, answered, a, b, n - 1, hash);
    }
  }

  function Both(x: Result<seq<Content>, ConvertError>, y: Result<seq<Content>, ConvertError>): Result<seq<Content>, ConvertError> {
    match x
    case Err(e) => Err(e)
    case Ok(cs) => match y case Err(e) => Err(e) case Ok(more) => Ok(cs + more)
  }

  /** The joined list emits what the first list emits and then what the second one does. */
  lemma {:induction false} EmitAllRight(t: Tables, cache: Cache, answered: set<Id>, a: seq<Item>, b: seq<Item>, n: nat, hash: seq<Item> -> string)
    requires n <= |b| && Breaks(b)
    ensures EmitAll(t, cache, answered, a + b, |a| + n, hash) ==
            Both(EmitAll(t, cache, answered, a, |a|, hash), EmitAll(t, cache, answered, b, n, After(hash, a)))
  {
    hide EmitItem, After;
    if n == 0 {
      EmitAllLeft(t, cache, answered, a, b, |a|, hash);
      assert forall cs: seq<Content> :: cs + [] == cs;
    } else {
      EmitAllRight(t, cache, answered, a, b, n - 1, hash);
      EmitRight(t, cache, answered, a, b, n - 1, hash);
      assert forall x: seq<Content>, y: seq<Content>, z: seq<Content> {:trigger x + y + z} :: x + y + z == x + (y + z);
    }
  }

  // ----- pairing

  predicate Disjoint(a: seq<Item>, b: seq<Item>) {
    forall i, j :: 0 <= i < |a| && 0 <= j < |b| && a[i].CallItem? && b[j].CallItem? ==> IdsOf(a[i]) !! IdsOf(b[j])
  }

  lemma NamedConcat(a: seq<Item>, b: seq<Item>)
    requires CallsNamed(a) && CallsNamed(b) && Disjoint(a, b)
    ensures CallsNamed(a + b)
  {
    var all := a + b;
    assert (forall i :: 0 <= i < |a| ==> all[i] == a[i]) && forall i :: |a| <= i < |all| ==> all[i] == b[i - |a|];
    forall i, j {:trigger Apart(all, i, j)} | 0 <= i < j < |all|
      ensures Apart(all, i, j)
    {
      if j < |a| {
        assert Apart(a, i, j);
      } else if |a| <= i {
        assert Apart(b, i - |a|, j - |a|);
      }
    }
  }

  lemma OwnedLeft(a: seq<Item>, b: seq<Item>, k: nat, i: nat)
    requires k < |a| && i < |a|
    ensures OwnedBy(a + b, k, i) <==> OwnedBy(a, k, i)
  {
  }

  lemma OwnedRight(a: seq<Item>, b: seq<Item>, k: nat, i: nat)
    requires k < |b| && i < |b|
    ensures OwnedBy(a + b, |a| + k, |a| + i) <==> OwnedBy(b, k, i)
  {
  }

  /** Every result belongs to a call of its own list. */
  lemma OwnedWithin(a: seq<Item>, b: seq<Item>, k: nat, i: nat)
    requires WellPaired(a) && WellPaired(b) && Disjoint(a, b) && k < |a + b| && i < |a + b| && OwnedBy(a + b, k, i)
    ensures k < |a| <==> i < |a|
  {
    hide CallsNamed;
    assert if i < |a| then (a + b)[i] == a[i] else (a + b)[i] == b[i - |a|];
    if k < |a| {
      var j :| 0 <= j < k && OwnedBy(a, k, j);
    } else {
      var j :| 0 <= j < k - |a| && OwnedBy(b, k - |a|, j);
    }
  }

  lemma WellPairedConcat(a: seq<Item>, b: seq<Item>)
    requires WellPaired(a) && WellPaired(b) && Disjoint(a, b)
    ensures WellPaired(a + b)
  {
    hide CallsNamed, OwnedBy, Disjoint;
    var all := a + b;
    NamedConcat(a, b);
    forall k | 0 <= k < |all| && all[k].ResultItem?
      ensures exists i :: 0 <= i < k && OwnedBy(all, k, i)
    {
      if k < |a| {
        var i :| 0 <= i < k && OwnedBy(a, k, i);
        OwnedLeft(a, b, k, i);
      } else {
        var i :| 0 <= i < k - |a| && OwnedBy(b, k - |a|, i);
        OwnedRight(a, b, k - |a|, i);
      }
    }
    forall k, l, i | 0 <= k < l < |all| && 0 <= i < |all|
      ensures !(OwnedBy(all, k, i) && OwnedBy(all, l, i))
    {
      if OwnedBy(all, k, i) && OwnedBy(all, l, i) {
        OwnedWithin(a, b, k, i);
        OwnedWithin(a, b, l, i);
        if i < |a| {
          OwnedLeft(a, b, k, i);
          OwnedLeft(a, b, l, i);
        } else {
          OwnedRight(a, b, k - |a|, i - |a|);
          OwnedRight(a, b, l - |a|, i - |a|);
        }
      }
    }
  }
}
