/** Lists filtered and mapped in one pass, as loops with `continue` and `append` do. */
module Lists {
  import opened Api

  function FilterMap<A, B>(f: A -> Option<B>, s: seq<A>): seq<B> {
    if s == [] then []
    else
      var rest := FilterMap(f, s[..|s| - 1]);
      match f(s[|s| - 1])
      case None => rest
      case Some(y) => rest + [y]
  }

  lemma FilterMapPrefix<A, B>(f: A -> Option<B>, s: seq<A>, i: nat)
    requires i < |s|
    ensures
      FilterMap(f, s[..i + 1]) == match f(s[i])
                                  case None => FilterMap(f, s[..i])
                                  case Some(y) => FilterMap(f, s[..i]) + [y]
  {
    assert s[..i + 1][..i] == s[..i];
  }

  lemma {:induction false} FilterMapConcat<A, B>(f: A -> Option<B>, s: seq<A>, t: seq<A>)
    ensures FilterMap(f, s + t) == FilterMap(f, s) + FilterMap(f, t)
  {
    if t == [] {
      assert s + t == s;
    } else {
      var n := |t| - 1;
      FilterMapConcat(f, s, t[..n]);
      assert (s + t)[..|s + t| - 1] == s + t[..n];
    }
  }

  lemma FilterMapOne<A, B>(f: A -> Option<B>, x: A)
    ensures FilterMap(f, [x]) == match f(x) case None => [] case Some(y) => [y]
  {
    assert [x][..0] == [];
  }

  /** A permutation of the input only permutes the output. */
  lemma {:induction false} FilterMapPermutes<A, B>(f: A -> Option<B>, s: seq<A>, t: seq<A>)
    requires multiset(s) == multiset(t)
    ensures multiset(FilterMap(f, s)) == multiset(FilterMap(f, t))
    decreases |s|
  {
    if s == [] {
      assert |t| == |multiset(t)| == 0;
    } else {
      var n := |s| - 1;
      assert s[n] in multiset(t);
      var j :| 0 <= j < |t| && t[j] == s[n];
      var rest := t[..j] + t[j + 1..];
      assert t == t[..j] + [t[j]] + t[j + 1..];
      assert s == s[..n] + [s[n]];
      assert multiset(rest) == multiset(t) - multiset{s[n]};
      FilterMapPermutes(f, s[..n], rest);
      FilterMapWithout(f, t[..j], t[j], t[j + 1..]);
      FilterMapConcat(f, s[..n], [s[n]]);
    }
  }

  lemma FilterMapWithout<A, B>(f: A -> Option<B>, before: seq<A>, x: A, after: seq<A>)
    ensures
      multiset(FilterMap(f, before + [x] + after))
      == multiset(FilterMap(f, before + after)) + multiset(FilterMap(f, [x]))
  {
    FilterMapConcat(f, before, after);
    FilterMapConcat(f, before + [x], after);
    FilterMapConcat(f, before, [x]);
  }

  /** Nothing is made up, and nothing is lost. */
  lemma {:induction false} FilterMapOrigin<A, B>(f: A -> Option<B>, s: seq<A>, y: B)
    ensures y in FilterMap(f, s) <==> exists i :: 0 <= i < |s| && f(s[i]) == Some(y)
  {
    if s != [] {
      var n := |s| - 1;
      FilterMapOrigin(f, s[..n], y);
      if i :| 0 <= i < n && f(s[..n][i]) == Some(y) {
        assert f(s[i]) == Some(y);
      }
      if i :| 0 <= i < |s| && f(s[i]) == Some(y) {
        assert i < n ==> f(s[..n][i]) == Some(y);
      }
    }
  }

  ghost predicate TellsApart<A(!new), B(!new)>(f: A -> Option<B>, s: seq<A>) {
    forall i, j | 0 <= i < j < |s| && f(s[i]).Some? :: f(s[i]) != f(s[j])
  }

  /** If the outputs tell the inputs apart, every input that is let through is there just once. */
  lemma {:induction false} FilterMapOnce<A(!new), B(!new)>(f: A -> Option<B>, s: seq<A>, y: B)
    requires TellsApart(f, s)
    ensures
      multiset(FilterMap(f, s))[y] == if exists i :: 0 <= i < |s| && f(s[i]) == Some(y) then 1 else 0
  {
    if s != [] {
      var n := |s| - 1;
      FilterMapOnce(f, s[..n], y);
      FilterMapOrigin(f, s[..n], y);
      FilterMapOrigin(f, s, y);
      if f(s[n]) == Some(y) {
        assert forall i | 0 <= i < n :: f(s[..n][i]) == f(s[i]) != Some(y);
      }
    }
  }
}
