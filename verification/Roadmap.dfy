/** Merging a guest's roadmap progress into an account: an ordered union and its algebra. */
module Roadmap {
  import opened Wrappers

  /** `inProgress` may be missing on the guest's side, which reads as the empty list. */
  datatype Progress = Progress(roadmapId: string, completed: seq<string>, inProgress: seq<string>)

  const NOTHING := Progress("", [], [])

  /** Array.from(new Set(nodes)): each node once, where it first occurs. */
  function Unique(nodes: seq<string>): (r: seq<string>)
    ensures forall x :: x in r <==> x in nodes
  {
    if nodes == [] then []
    else
      var before, x := Unique(nodes[..|nodes| - 1]), nodes[|nodes| - 1];
      assert nodes == nodes[..|nodes| - 1] + [x];
      if x in before then before else before + [x]
  }

  /** nodes.filter(x => !done.includes(x)). */
  function Without(nodes: seq<string>, done: seq<string>): (r: seq<string>)
    ensures forall x :: x in r <==> x in nodes && x !in done
  {
    if nodes == [] then []
    else
      var before, x := Without(nodes[..|nodes| - 1], done), nodes[|nodes| - 1];
      assert nodes == nodes[..|nodes| - 1] + [x];
      if x in done then before else before + [x]
  }

  function Merge(account: Option<Progress>, guest: Progress): Progress {
    var a := if account.Some? then account.value else NOTHING;
    var completed := Unique(a.completed + guest.completed);
    Progress(a.roadmapId, completed, Without(Unique(a.inProgress + guest.inProgress), completed))
  }

  // ---------------------------------------------------------------- what the union is

  predicate Distinct(nodes: seq<string>) { forall i, j :: 0 <= i < j < |nodes| ==> nodes[i] != nodes[j] }

  /** Where `x` first occurs. */
  function First(nodes: seq<string>, x: string): (i: nat)
    requires x in nodes
    ensures i < |nodes| && nodes[i] == x && x !in nodes[..i]
  {
    if nodes[0] == x then 0 else 1 + First(nodes[1..], x)
  }

  /** `r` lists the nodes without repetition, in the order of their first occurrences. */
  ghost predicate FirstOccurrences(r: seq<string>, nodes: seq<string>) {
    && (forall x :: x in r <==> x in nodes)
    && forall i, j :: 0 <= i < j < |r| ==> First(nodes, r[i]) < First(nodes, r[j])
  }

  lemma {:induction false} FirstInPrefix(nodes: seq<string>, more: seq<string>, x: string)
    requires x in nodes
    ensures First(nodes + more, x) == First(nodes, x)
  {
    if nodes[0] != x {
      FirstInPrefix(nodes[1..], more, x);
      assert (nodes + more)[1..] == nodes[1..] + more;
    }
  }

  lemma {:induction false} UniqueIsFirstOccurrences(nodes: seq<string>)
    ensures FirstOccurrences(Unique(nodes), nodes) && Distinct(Unique(nodes))
  {
    if nodes != [] {
      var init, x := nodes[..|nodes| - 1], nodes[|nodes| - 1];
      assert nodes == init + [x];
      UniqueIsFirstOccurrences(init);
      forall y | y in init ensures First(nodes, y) == First(init, y) { FirstInPrefix(init, [x], y); }
    }
  }

  lemma NotBefore(r: seq<string>, q: seq<string>, nodes: seq<string>, n: nat)
    requires FirstOccurrences(r, nodes) && FirstOccurrences(q, nodes) && n < |r| && n <= |q| && r[..n] == q[..n]
    ensures n < |q| && First(nodes, q[n]) <= First(nodes, r[n])
  {
    assert r[n] in r && r[n] in nodes && r[n] in q;
    var j :| 0 <= j < |q| && q[j] == r[n];
    assert j < n ==> r[..n][j] == q[..n][j];
  }

  /** Nothing else satisfies that description. */
  lemma {:induction false} FirstOccurrencesAreUnique(r: seq<string>, q: seq<string>, nodes: seq<string>)
    requires FirstOccurrences(r, nodes) && FirstOccurrences(q, nodes)
    ensures r == q
  {
    var n := 0;
    while n < |r|
      invariant n <= |r| && n <= |q| && r[..n] == q[..n]
    {
      NotBefore(r, q, nodes, n);
      NotBefore(q, r, nodes, n);
      assert r[..n + 1] == r[..n] + [r[n]] && q[..n + 1] == q[..n] + [q[n]];
      n := n + 1;
    }
    if n < |q| { NotBefore(q, r, nodes, n); }
  }

  // ---------------------------------------------------------------- laws of the union

  lemma UniqueAppend(a: seq<string>, x: string)
    ensures Unique(a + [x]) == if x in a then Unique(a) else Unique(a) + [x]
  {
    assert (a + [x])[..|a|] == a;
  }

  lemma UniqueAppendAlike(a: seq<string>, b: seq<string>, x: string)
    requires Unique(a) == Unique(b)
    ensures Unique(a + [x]) == Unique(b + [x])
  {
    UniqueAppend(a, x);
    UniqueAppend(b, x);
    assert x in Unique(a) <==> x in Unique(b);
  }

  lemma LastApart(a: seq<string>, b: seq<string>)
    requires b != []
    ensures a + b == (a + b[..|b| - 1]) + [b[|b| - 1]]
  {}

  lemma {:induction false} UniqueLeft(a: seq<string>, b: seq<string>)
    ensures Unique(Unique(a) + b) == Unique(a + b)
  {
    if b == [] {
      assert Unique(a) + b == Unique(a) && a + b == a;
      UniqueAgain(a);
    } else {
      var init, x := b[..|b| - 1], b[|b| - 1];
      UniqueLeft(a, init);
      UniqueAppendAlike(Unique(a) + init, a + init, x);
      LastApart(a, b);
      LastApart(Unique(a), b);
    }
  }

  lemma {:induction false} UniqueAgain(a: seq<string>)
    ensures Unique(Unique(a)) == Unique(a)
  {
    if a != [] {
      var init, x := a[..|a| - 1], a[|a| - 1];
      assert a == init + [x];
      UniqueAgain(init);
      UniqueAppend(Unique(init), x);
    }
  }

  lemma {:induction false} UniqueRight(a: seq<string>, b: seq<string>)
    ensures Unique(a + Unique(b)) == Unique(a + b)
  {
    if b != [] {
      var init, x := b[..|b| - 1], b[|b| - 1];
      assert b == init + [x] && a + b == (a + init) + [x];
      UniqueRight(a, init);
      UniqueAppend(a + init, x);
      if x !in init {
        assert a + Unique(b) == (a + Unique(init)) + [x];
        UniqueAppend(a + Unique(init), x);
      }
    }
  }

  lemma WithoutAppend(a: seq<string>, x: string, done: seq<string>)
    ensures Without(a + [x], done) == if x in done then Without(a, done) else Without(a, done) + [x]
  {
    assert (a + [x])[..|a|] == a;
  }

  lemma {:induction false} UniqueWithout(a: seq<string>, done: seq<string>)
    ensures Without(Unique(a), done) == Unique(Without(a, done))
  {
    if a != [] {
      var init, x := a[..|a| - 1], a[|a| - 1];
      assert a == init + [x];
      UniqueWithout(init, done);
      WithoutAppend(Unique(init), x, done);
      UniqueAppend(Without(init, done), x);
    }
  }

  lemma {:induction false} WithoutConcat(a: seq<string>, b: seq<string>, done: seq<string>)
    ensures Without(a + b, done) == Without(a, done) + Without(b, done)
  {
    if b == [] {
      assert a + b == a;
    } else {
      var init, x := b[..|b| - 1], b[|b| - 1];
      assert b == init + [x] && a + b == (a + init) + [x];
      WithoutConcat(a, init, done);
      WithoutAppend(a + init, x, done);
    }
  }

  lemma {:induction false} WithoutTwice(a: seq<string>, some: seq<string>, all: seq<string>)
    requires forall x :: x in some ==> x in all
    ensures Without(Without(a, some), all) == Without(a, all)
  {
    if a != [] {
      var init, x := a[..|a| - 1], a[|a| - 1];
      WithoutTwice(init, some, all);
      if x !in some { WithoutAppend(Without(init, some), x, all); }
    }
  }

  /** Filtering one part early by fewer nodes makes no difference to the ordered union. */
  lemma EarlyFilterLeft(a: seq<string>, b: seq<string>, some: seq<string>, all: seq<string>)
    requires forall x :: x in some ==> x in all
    ensures Without(Unique(Without(Unique(a), some) + b), all) == Without(Unique(a + b), all)
  {
    UniqueWithout(Without(Unique(a), some) + b, all);
    WithoutConcat(Without(Unique(a), some), b, all);
    WithoutTwice(Unique(a), some, all);
    UniqueWithout(a, all);
    UniqueLeft(Without(a, all), Without(b, all));
    WithoutConcat(a, b, all);
    UniqueWithout(a + b, all);
  }

  lemma EarlyFilterRight(a: seq<string>, b: seq<string>, some: seq<string>, all: seq<string>)
    requires forall x :: x in some ==> x in all
    ensures Without(Unique(a + Without(Unique(b), some)), all) == Without(Unique(a + b), all)
  {
    UniqueWithout(a + Without(Unique(b), some), all);
    WithoutConcat(a, Without(Unique(b), some), all);
    WithoutTwice(Unique(b), some, all);
    UniqueWithout(b, all);
    UniqueRight(Without(a, all), Without(b, all));
    WithoutConcat(a, b, all);
    UniqueWithout(a + b, all);
  }

  // ---------------------------------------------------------------- laws of the merge

  /**
    No list repeats a node; nothing completed on either side is lost; progress survives exactly when not
    completed.  An account without any progress counts as one with empty lists.
    */
  lemma MergeIsUnion(account: Option<Progress>, g: Progress)
    ensures
      var m := Merge(account, g);
      var (completed, inProgress) :=
        if account.Some? then (account.value.completed, account.value.inProgress) else ([], []);
      && m.roadmapId == (if account.Some? then account.value.roadmapId else "")
      && Distinct(m.completed) && Distinct(m.inProgress)
      && (forall x :: x in m.completed <==> x in completed || x in g.completed)
      && (forall x :: x in m.inProgress <==>
            (x in inProgress || x in g.inProgress) && x !in completed && x !in g.completed)
      && FirstOccurrences(m.completed, completed + g.completed)
      && FirstOccurrences(m.inProgress, Without(inProgress + g.inProgress, m.completed))
      && Unique(completed) <= m.completed
  {
    var a := if account.Some? then account.value else NOTHING;
    UniqueIsFirstOccurrences(a.completed + g.completed);
    var done := Unique(a.completed + g.completed);
    UniqueWithout(a.inProgress + g.inProgress, done);
    UniqueIsFirstOccurrences(Without(a.inProgress + g.inProgress, done));
    UniqueKeepsPrefix(a.completed, g.completed);
  }

  lemma {:induction false} UniqueKeepsPrefix(a: seq<string>, b: seq<string>)
    ensures Unique(a) <= Unique(a + b)
  {
    if b == [] {
      assert a + b == a;
    } else {
      var init, x := b[..|b| - 1], b[|b| - 1];
      assert a + b == (a + init) + [x];
      UniqueKeepsPrefix(a, init);
      UniqueAppend(a + init, x);
    }
  }

  lemma ConcatAssociative(a: seq<string>, b: seq<string>, c: seq<string>)
    ensures (a + b) + c == a + (b + c)
  {}

  lemma CompletedAssociative(a: seq<string>, b: seq<string>, c: seq<string>)
    ensures Unique(Unique(a + b) + c) == Unique(a + Unique(b + c))
  {
    ConcatAssociative(a, b, c);
    UniqueLeft(a + b, c);
    UniqueRight(a, b + c);
  }

  lemma InProgressAssociative(
    a: seq<string>, b: seq<string>, c: seq<string>, ab: seq<string>, bc: seq<string>, all: seq<string>)
    requires (forall x :: x in ab ==> x in all) && (forall x :: x in bc ==> x in all)
    ensures Without(Unique(Without(Unique(a + b), ab) + c), all) == Without(Unique(a + Without(Unique(b + c), bc)), all)
  {
    ConcatAssociative(a, b, c);
    EarlyFilterLeft(a + b, c, ab, all);
    EarlyFilterRight(a, b + c, bc, all);
  }

  /** Merging one guest after another is merging them first, lists and their order included. */
  lemma MergeIsAssociative(a: Option<Progress>, g: Progress, h: Progress)
    ensures Merge(Some(Merge(a, g)), h) == Merge(a, Merge(Some(g), h))
  {
    var p := if a.Some? then a.value else NOTHING;
    CompletedAssociative(p.completed, g.completed, h.completed);
    var ab, bc := Unique(p.completed + g.completed), Unique(g.completed + h.completed);
    InProgressAssociative(p.inProgress, g.inProgress, h.inProgress, ab, bc, Unique(ab + h.completed));
  }

  lemma {:induction false} UniqueAbsorbs(a: seq<string>, b: seq<string>)
    requires forall x :: x in b ==> x in a
    ensures Unique(a + b) == Unique(a)
  {
    if b == [] {
      assert a + b == a;
    } else {
      var init, x := b[..|b| - 1], b[|b| - 1];
      assert b == init + [x] && a + b == (a + init) + [x];
      UniqueAbsorbs(a, init);
      UniqueAppend(a + init, x);
    }
  }

  /** Merging the same guest progress twice changes nothing. */
  lemma MergeIsIdempotent(a: Option<Progress>, g: Progress)
    ensures Merge(Some(Merge(a, g)), g) == Merge(a, g)
  {
    var p := if a.Some? then a.value else NOTHING;
    var done := Unique(p.completed + g.completed);
    UniqueAbsorbs(done, g.completed);
    UniqueAgain(p.completed + g.completed);
    EarlyFilterLeft(p.inProgress + g.inProgress, g.inProgress, done, done);
    UniqueAbsorbs(p.inProgress + g.inProgress, g.inProgress);
  }
}
