/** Sequence helpers shared by the feed reader and the importer. */
module Collections {

  datatype Option<+T> = None | Some(value: T)

  /** The values `f` produces, in the order of `s`, dropping the elements for
      which it produces None: the list a Python loop builds when it appends
      `f(x)` for each `x` and skips with `continue` otherwise. */
  function Select<T, U>(s: seq<T>, f: T -> Option<U>): seq<U>
    decreases |s|
  {
    if s == [] then []
    else
      var init := Select(s[..|s| - 1], f);
      match f(s[|s| - 1])
      case None => init
      case Some(u) => init + [u]
  }

  /** Selection extended by one element. */
  lemma SelectSnoc<T, U>(s: seq<T>, x: T, f: T -> Option<U>)
    ensures Select(s + [x], f) == Select(s, f) + (if f(x).Some? then [f(x).value] else [])
  {
    assert (s + [x])[..|s|] == s;
  }

  /** The positions in `s` of the elements that `Select(s, f)` keeps. */
  function SelectedIndices<T, U>(s: seq<T>, f: T -> Option<U>): seq<nat>
    decreases |s|
  {
    if s == [] then []
    else SelectedIndices(s[..|s| - 1], f) + (if f(s[|s| - 1]).Some? then [|s| - 1] else [])
  }

  /** `r` is the ordered selection of `s` under `f`, witnessed by the
      strictly increasing positions `idx`: every kept element is `f` of its
      source element, and every element `f` keeps has its position in `idx`. */
  ghost predicate Selects<T, U>(s: seq<T>, f: T -> Option<U>, r: seq<U>, idx: seq<nat>)
  {
    && |idx| == |r|
    && (forall j :: 0 <= j < |idx| ==> idx[j] < |s| && f(s[idx[j]]) == Some(r[j]))
    && (forall j, j' :: 0 <= j < j' < |idx| ==> idx[j] < idx[j'])
    && (forall k :: 0 <= k < |s| && f(s[k]).Some? ==> k in idx)
  }

  lemma {:induction false} SelectSpec<T, U>(s: seq<T>, f: T -> Option<U>)
    ensures Selects(s, f, Select(s, f), SelectedIndices(s, f))
    decreases |s|
  {
    if s != [] {
      var n := |s| - 1;
      var init := s[..n];
      SelectSpec(init, f);
      var r0, idx0 := Select(init, f), SelectedIndices(init, f);
      var r, idx := Select(s, f), SelectedIndices(s, f);
      assert forall j :: 0 <= j < |idx0| ==> idx0[j] < n && s[idx0[j]] == init[idx0[j]];
      if f(s[n]).Some? {
        assert r == r0 + [f(s[n]).value];
        assert idx == idx0 + [n];
      } else {
        assert r == r0 && idx == idx0;
      }
      forall k | 0 <= k < |s| && f(s[k]).Some?
        ensures k in idx
      {
        if k < n {
          assert s[k] == init[k];
          assert k in idx0;
        }
      }
    }
  }

  /** Selection depends only on the values `f` takes. */
  lemma {:induction false} SelectExtensional<T, U>(s: seq<T>, f: T -> Option<U>, g: T -> Option<U>)
    requires forall x :: f(x) == g(x)
    ensures Select(s, f) == Select(s, g)
    decreases |s|
  {
    if s != [] {
      SelectExtensional(s[..|s| - 1], f, g);
    }
  }

  /** A selection that keeps elements unchanged holds exactly the elements
      of `s` that `f` keeps. */
  lemma {:induction false} SelectMembership<T>(s: seq<T>, f: T -> Option<T>, x: T)
    requires forall y :: f(y) == None || f(y) == Some(y)
    ensures x in Select(s, f) <==> x in s && f(x).Some?
    decreases |s|
  {
    if s != [] {
      var n := |s| - 1;
      SelectMembership(s[..n], f, x);
      assert s == s[..n] + [s[n]];
    }
  }

  /** Selecting with `f` and with a complementary `g` partitions `s`. */
  lemma {:induction false} SelectComplement<T, U, V>(s: seq<T>, f: T -> Option<U>, g: T -> Option<V>)
    requires forall x :: f(x).Some? <==> g(x).None?
    ensures |Select(s, f)| + |Select(s, g)| == |s|
    decreases |s|
  {
    if s != [] {
      SelectComplement(s[..|s| - 1], f, g);
    }
  }
}
