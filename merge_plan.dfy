/** The writes of a merge as a plan (backend/merge_execute.go). Every decision
    `executeMerge` and its helpers take is made from rows read before the writes begin, so
    what they write is a sequence of steps fixed in advance; the store then performs the
    steps in order and the merge stops at the first one that fails. Writes that already
    succeeded stay: the merge is not atomic. */
module MergePlan {
  import opened Wrappers
  import opened Store

  /** Why a merge stopped. */
  datatype MergeError =
    | MissingResolution(conflictId: string)
    | InvalidResolution(resolution: string, conflictId: string)
    | WriteFailed(message: string)

  /** A write and the error reported when it fails, or an immediate stop. */
  datatype Step = Do(write: Write, onFail: MergeError) | Abort(error: MergeError)

  /** The store after performing `steps` in order, and the error of the step that stopped
      them, if any. */
  function Run(d: Db, steps: seq<Step>): (Db, Option<MergeError>)
    decreases |steps|
  {
    if steps == [] then (d, None)
    else
      match steps[0]
      case Abort(e) => (d, Some(e))
      case Do(w, e) =>
        var (d1, ok) := d.Apply(w);
        if ok then Run(d1, steps[1..]) else (d1, Some(e))
  }

  /** Running two plans one after the other is running the first and, unless it stopped,
      the second from where the first left the store. */
  lemma {:induction false} RunAppend(d: Db, a: seq<Step>, b: seq<Step>)
    ensures Run(d, a + b) == if Run(d, a).1.Some? then Run(d, a) else Run(Run(d, a).0, b)
    decreases |a|
  {
    if a != [] {
      assert (a + b)[0] == a[0];
      assert (a + b)[1..] == a[1..] + b;
      match a[0]
      case Abort(e) =>
      case Do(w, e) =>
        var (d1, ok) := d.Apply(w);
        if ok {
          RunAppend(d1, a[1..], b);
        }
    } else {
      assert a + b == b;
    }
  }

  /** A plan writes only sheets, columns and cells: branches and permissions stay. */
  lemma {:induction false} RunKeepsBranches(d: Db, steps: seq<Step>)
    ensures Run(d, steps).0.branches == d.branches
    ensures Run(d, steps).0.userTables == d.userTables
    decreases |steps|
  {
    if steps != [] {
      match steps[0]
      case Abort(e) =>
      case Do(w, e) =>
        var (d1, ok) := d.Apply(w);
        if ok {
          RunKeepsBranches(d1, steps[1..]);
        }
    }
  }

  /** Performs one step. */
  method PerformStep(db: Database, s: Step) returns (err: Option<MergeError>)
    modifies db
    ensures (db.Snapshot(), err) == Run(old(db.Snapshot()), [s])
  {
    match s
    case Abort(e) =>
      err := Some(e);
    case Do(w, e) =>
      var ok := db.Apply(w);
      err := if ok then None else Some(e);
  }

  /** A `for ... range` loop that stops at the first element satisfying `p`. */
  method FindFirst<T(!new)>(s: seq<T>, p: T -> bool) returns (r: Option<T>)
    ensures r == Find(s, p)
  {
    var i := 0;
    while i < |s|
      invariant 0 <= i <= |s|
      invariant Find(s, p) == Find(s[i..], p)
    {
      assert s[i..][1..] == s[i + 1..];
      if p(s[i]) {
        return Some(s[i]);
      }
      i := i + 1;
    }
    return None;
  }

  /** `order` lists the elements of `keys`, each once: one possible iteration order of a
      Go map with those keys. */
  ghost predicate IsEnumeration<K(!new)>(order: seq<K>, keys: set<K>)
  {
    (forall k :: k in order <==> k in keys)
    && forall i, j :: 0 <= i < j < |order| ==> order[i] != order[j]
  }

  /** Some order of the elements of a finite set. */
  ghost function Enumerate<K(!new)>(keys: set<K>): (order: seq<K>)
    ensures IsEnumeration(order, keys)
    decreases |keys|
  {
    if keys == {} then []
    else
      var k :| k in keys;
      var rest := Enumerate(keys - {k});
      var order := [k] + rest;
      assert forall i :: 0 <= i < |rest| ==> order[i + 1] == rest[i];
      assert forall x :: x in order <==> x == k || x in rest;
      order
  }

  /** The steps of each key of `order` in turn. */
  function PlanOf<K>(order: seq<K>, f: K -> seq<Step>): seq<Step>
    decreases |order|
  {
    if order == [] then [] else f(order[0]) + PlanOf(order[1..], f)
  }

  lemma {:induction false} PlanOfAppend<K>(a: seq<K>, b: seq<K>, f: K -> seq<Step>)
    ensures PlanOf(a + b, f) == PlanOf(a, f) + PlanOf(b, f)
    decreases |a|
  {
    if a == [] {
      assert a + b == b;
    } else {
      assert (a + b)[0] == a[0];
      assert (a + b)[1..] == a[1..] + b;
      PlanOfAppend(a[1..], b, f);
    }
  }

  /** A step is in the plan exactly when some key of the order yields it. */
  lemma {:induction false} PlanOfMembers<K>(order: seq<K>, f: K -> seq<Step>, s: Step)
    ensures s in PlanOf(order, f) <==> exists k :: k in order && s in f(k)
    decreases |order|
  {
    if order != [] {
      PlanOfMembers(order[1..], f, s);
      assert forall k :: k in order <==> k == order[0] || k in order[1..];
    }
  }

  /** Every step of the plan carries the tag of a key of the order. */
  lemma {:induction false} PlanOfTags<K>(order: seq<K>, f: K -> seq<Step>, tag: Step -> Option<K>)
    requires forall k :: k in order ==> forall s :: s in f(k) ==> tag(s) == Some(k)
    ensures forall s :: s in PlanOf(order, f) ==> tag(s).Some? && tag(s).value in order
  {
    forall s | s in PlanOf(order, f)
      ensures tag(s).Some? && tag(s).value in order
    {
      PlanOfMembers(order, f, s);
    }
  }

  /** No two steps of the plan carry the same tag. */
  predicate DistinctTags<K(==)>(plan: seq<Step>, tag: Step -> Option<K>)
  {
    forall i, j :: 0 <= i < j < |plan| ==> tag(plan[i]) != tag(plan[j])
  }

  /** When each key yields at most one step, tagged with that key, a plan along an order
      without repeats has no two steps with the same tag. */
  lemma {:induction false} PlanOfDistinct<K>(order: seq<K>, f: K -> seq<Step>, tag: Step -> Option<K>)
    requires forall i, j :: 0 <= i < j < |order| ==> order[i] != order[j]
    requires forall k :: k in order ==> |f(k)| <= 1 && forall s :: s in f(k) ==> tag(s) == Some(k)
    ensures DistinctTags(PlanOf(order, f), tag)
    decreases |order|
  {
    if order != [] {
      var rest := order[1..];
      PlanOfDistinct(rest, f, tag);
      PlanOfTags(rest, f, tag);
      var tail := PlanOf(rest, f);
      var head := f(order[0]);
      assert order[0] !in rest;
      assert forall s :: s in tail ==> tag(s) != Some(order[0]);
      assert PlanOf(order, f) == head + tail;
      if head != [] {
        assert order[0] in order;
        assert |head| == 1 && head[0] in head;
        var plan := head + tail;
        assert plan[0] == head[0];
        assert tag(plan[0]) == Some(order[0]);
        forall i, j | 0 <= i < j < |plan|
          ensures tag(plan[i]) != tag(plan[j])
        {
          assert plan[j] == tail[j - 1] && plan[j] in tail;
          if i > 0 {
            assert plan[i] == tail[i - 1];
            assert tag(tail[i - 1]) != tag(tail[j - 1]);
          } else {
            assert tag(plan[j]) != Some(order[0]);
          }
        }
      }
    }
  }

  /** The body of such a loop: the key's at most one write. */
  method PerformSteps(db: Database, steps: seq<Step>) returns (err: Option<MergeError>)
    requires |steps| <= 1
    modifies db
    ensures (db.Snapshot(), err) == Run(old(db.Snapshot()), steps)
  {
    err := None;
    if steps != [] {
      assert steps == [steps[0]];
      err := PerformStep(db, steps[0]);
    }
  }

  /** A `for ... range` over a Go map whose body performs the at most one write `f` gives for
      the key: the keys come in some order, each once, and the loop stops at the first write
      that fails. */
  method RunEach<K(!new)>(db: Database, keys: set<K>, f: K -> seq<Step>) returns (err: Option<MergeError>, ghost order: seq<K>)
    requires forall k :: k in keys ==> |f(k)| <= 1
    modifies db
    ensures IsEnumeration(order, keys)
    ensures (db.Snapshot(), err) == Run(old(db.Snapshot()), PlanOf(order, f))
  {
    ghost var d0 := db.Snapshot();
    var rest := keys;
    order := [];
    while rest != {}
      invariant rest <= keys
      invariant IsEnumeration(order, keys - rest)
      invariant Run(d0, PlanOf(order, f)) == (db.Snapshot(), None)
      decreases |rest|
    {
      var k :| k in rest;
      Extend(d0, order, k, f);
      err := PerformSteps(db, f(k));
      EnumerationSnoc(order, keys - rest, k);
      assert (keys - rest) + {k} == keys - (rest - {k});
      order := order + [k];
      rest := rest - {k};
      if err.Some? {
        StopEarly(d0, order, keys, rest, f);
        order := order + Enumerate(rest);
        return;
      }
    }
    err := None;
  }

  /** One more key at the end of an enumeration enumerates one more element. */
  lemma EnumerationSnoc<K(!new)>(order: seq<K>, done: set<K>, k: K)
    requires IsEnumeration(order, done) && k !in done
    ensures IsEnumeration(order + [k], done + {k})
  {
    assert forall x :: x in order + [k] <==> x in order || x == k;
  }

  /** Enumerations of two disjoint sets, one after the other, enumerate their union. */
  lemma EnumerationAppend<K(!new)>(a: seq<K>, sa: set<K>, b: seq<K>, sb: set<K>)
    requires IsEnumeration(a, sa) && IsEnumeration(b, sb) && sa !! sb
    ensures IsEnumeration(a + b, sa + sb)
  {
    forall i, j | 0 <= i < j < |a + b|
      ensures (a + b)[i] != (a + b)[j]
    {
      if i < |a| <= j {
        assert (a + b)[i] == a[i] && a[i] in sa;
        assert (a + b)[j] == b[j - |a|] && b[j - |a|] in sb;
      }
    }
  }

  /** A loop that stops after the keys of `order` runs the same writes as the whole plan
      over `order` followed by the keys not yet visited, in any order. */
  lemma StopEarly<K(!new)>(d0: Db, order: seq<K>, keys: set<K>, rest: set<K>, f: K -> seq<Step>)
    requires rest <= keys && IsEnumeration(order, keys - rest)
    requires Run(d0, PlanOf(order, f)).1.Some?
    ensures IsEnumeration(order + Enumerate(rest), keys)
    ensures Run(d0, PlanOf(order + Enumerate(rest), f)) == Run(d0, PlanOf(order, f))
  {
    var tail := Enumerate(rest);
    EnumerationAppend(order, keys - rest, tail, rest);
    assert (keys - rest) + rest == keys;
    PlanOfAppend(order, tail, f);
    RunAppend(d0, PlanOf(order, f), PlanOf(tail, f));
  }

  lemma Extend<K>(d0: Db, order: seq<K>, k: K, f: K -> seq<Step>)
    requires Run(d0, PlanOf(order, f)).1.None?
    ensures Run(d0, PlanOf(order + [k], f)) == Run(Run(d0, PlanOf(order, f)).0, f(k))
  {
    PlanOfAppend(order, [k], f);
    assert PlanOf([k], f) == f(k) by {
      assert [k][1..] == [];
    }
    RunAppend(d0, PlanOf(order, f), f(k));
  }
}
