/** Searching a sequence: the model of `Array.prototype.find` and of the
    ordered "first tier that succeeds" chains of the request handlers. */
module Seqs {
  import opened Wrappers

  /** Index of the first element satisfying `p`, as `findIndex` computes it. */
  function FirstIndex<T>(s: seq<T>, p: T -> bool): (r: Option<nat>)
    ensures r.Some? ==> r.value < |s| && p(s[r.value])
    ensures r.Some? ==> forall j :: 0 <= j < r.value ==> !p(s[j])
    ensures r.None? <==> forall j :: 0 <= j < |s| ==> !p(s[j])
  {
    if s == [] then None
    else if p(s[0]) then Some(0)
    else match FirstIndex(s[1..], p)
      case None => None
      case Some(k) => Some(k + 1)
  }

  /** `s.find(p)`: the first element satisfying `p`, if any. */
  function Find<T>(s: seq<T>, p: T -> bool): (r: Option<T>)
    ensures r.Some? ==> r.value in s && p(r.value)
    ensures r.None? <==> forall j :: 0 <= j < |s| ==> !p(s[j])
  {
    match FirstIndex(s, p)
    case None => None
    case Some(i) => Some(s[i])
  }

  /** The element `Find` returns is the one at the first index that satisfies `p`. */
  lemma FindIsFirst<T>(s: seq<T>, p: T -> bool, i: nat)
    requires i < |s| && p(s[i])
    requires forall j :: 0 <= j < i ==> !p(s[j])
    ensures Find(s, p) == Some(s[i])
  {
  }

  /** `s.some(p)`. */
  predicate Any<T>(s: seq<T>, p: T -> bool)
  {
    exists j :: 0 <= j < |s| && p(s[j])
  }

  /** Every attempt before index `i` failed. */
  predicate NoneBefore<T>(attempts: seq<Option<T>>, i: nat)
  {
    forall j :: 0 <= j < i && j < |attempts| ==> attempts[j].None?
  }

  /** An ordered fallback chain: the value of the first attempt that did not
      fail (`None` stands for a thrown exception), else `fallback`. */
  function FirstSuccess<T>(attempts: seq<Option<T>>, fallback: T): (r: T)
    ensures (forall j :: 0 <= j < |attempts| ==> attempts[j].None?) ==> r == fallback
    ensures forall i :: 0 <= i < |attempts| && attempts[i].Some? && NoneBefore(attempts, i) ==>
                          r == attempts[i].value
    ensures (forall j :: 0 <= j < |attempts| ==> attempts[j].None?) ||
            exists i :: 0 <= i < |attempts| && attempts[i] == Some(r)
  {
    match FirstIndex(attempts, (a: Option<T>) => a.Some?)
    case None => fallback
    case Some(i) => attempts[i].value
  }

  /** The fold is the nested try/catch it replaces: the head attempt wins when
      it succeeds, otherwise the rest of the chain decides. */
  lemma {:induction false} FirstSuccessCons<T>(a: Option<T>, rest: seq<Option<T>>, fallback: T)
    ensures FirstSuccess([a] + rest, fallback) == if a.Some? then a.value else FirstSuccess(rest, fallback)
  {
    var s := [a] + rest;
    if a.None? {
      assert s[1..] == rest;
      var p := (o: Option<T>) => o.Some?;
      match FirstIndex(rest, p)
      case None =>
        assert forall j :: 0 <= j < |s| ==> s[j].None? by {
          forall j | 0 <= j < |s| ensures s[j].None? {
            if j > 0 { assert s[j] == rest[j - 1]; }
          }
        }
      case Some(k) =>
        assert s[k + 1] == rest[k];
        forall j | 0 <= j < k + 1 ensures s[j].None? {
          if j > 0 { assert s[j] == rest[j - 1]; }
        }
    }
  }

  /** A chain of three tiers unfolds into the three nested try/catch blocks. */
  lemma ThreeTiers<T>(a: Option<T>, b: Option<T>, c: Option<T>, fallback: T)
    ensures FirstSuccess([a, b, c], fallback) ==
              if a.Some? then a.value else if b.Some? then b.value else if c.Some? then c.value else fallback
  {
    FirstSuccessCons(a, [b, c], fallback);
    FirstSuccessCons(b, [c], fallback);
    FirstSuccessCons(c, [], fallback);
    assert [a] + [b, c] == [a, b, c];
    assert [b] + [c] == [b, c];
    assert [c] + [] == [c];
  }

  /** Attempts after the first success never influence the outcome. */
  lemma LaterAttemptsIrrelevant<T>(attempts: seq<Option<T>>, i: nat, other: seq<Option<T>>, fallback: T)
    requires i < |attempts| && attempts[i].Some?
    requires NoneBefore(attempts, i)
    ensures FirstSuccess(attempts[..i + 1] + other, fallback) == FirstSuccess(attempts, fallback)
  {
    var s := attempts[..i + 1] + other;
    assert s[i] == attempts[i];
    assert forall j :: 0 <= j < i ==> s[j] == attempts[j];
  }
}
