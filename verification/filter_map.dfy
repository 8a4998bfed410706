/** The shape shared by the loops that build a new list by walking an old one
    and appending what passes a test (`update_rules`, `_validate_rules`):
    a filter-map, with its characterisation as an order-preserving selection. */
module FilterMaps {
  import opened Values

  /** The one-element list for `Some(b)`, the empty list for `None`. */
  function Kept<B>(o: Option<B>): seq<B> {
    match o
    case None => []
    case Some(b) => [b]
  }

  /** The images under `f` of the elements of `s` that `f` keeps, in the
      order of `s`. Defined on the last element so that a loop appending as it
      walks `s` matches it step by step. */
  function FilterMap<A, B>(f: A -> Option<B>, s: seq<A>): (r: seq<B>)
    ensures |r| <= |s|
  {
    if s == [] then [] else FilterMap(f, s[..|s| - 1]) + Kept(f(s[|s| - 1]))
  }

  /** `r` is obtained from `s` by picking, at the strictly increasing positions
      `idx`, exactly the elements `f` keeps, each replaced by its image. */
  ghost predicate Selects<A, B>(f: A -> Option<B>, s: seq<A>, r: seq<B>, idx: seq<nat>) {
    && |idx| == |r|
    && Picks(f, s, r, idx)
    && Increasing(idx)
    && Covers(f, s, idx)
  }

  ghost predicate Picks<A, B>(f: A -> Option<B>, s: seq<A>, r: seq<B>, idx: seq<nat>)
    requires |idx| == |r|
  {
    forall k :: 0 <= k < |idx| ==> idx[k] < |s| && f(s[idx[k]]) == Some(r[k])
  }

  ghost predicate Increasing(idx: seq<nat>) {
    forall k, l :: 0 <= k < l < |idx| ==> idx[k] < idx[l]
  }

  ghost predicate Covers<A, B>(f: A -> Option<B>, s: seq<A>, idx: seq<nat>) {
    forall i :: 0 <= i < |s| && f(s[i]).Some? ==> i in idx
  }

  /** One more element at the end of the input extends a selection. */
  lemma SelectsSnoc<A, B>(f: A -> Option<B>, init: seq<A>, x: A, r: seq<B>, idx: seq<nat>)
    requires Selects(f, init, r, idx)
    ensures f(x).Some? ==> Selects(f, init + [x], r + [f(x).value], idx + [|init|])
    ensures f(x).None? ==> Selects(f, init + [x], r, idx)
  {
    var s := init + [x];
    var n := |init|;
    forall k | 0 <= k < |idx|
      ensures idx[k] < n && s[idx[k]] == init[idx[k]]
    {
    }
    forall i | 0 <= i < n
      ensures s[i] == init[i]
    {
    }
    if f(x).Some? {
      var idx', r' := idx + [n], r + [f(x).value];
      forall k | 0 <= k < |idx'|
        ensures idx'[k] < |s| && f(s[idx'[k]]) == Some(r'[k])
      {
        if k < |idx| {
          assert idx'[k] == idx[k] && r'[k] == r[k];
        }
      }
      assert Picks(f, s, r', idx');
      forall k, l | 0 <= k < l < |idx'|
        ensures idx'[k] < idx'[l]
      {
        if l < |idx| {
          assert idx'[k] == idx[k] && idx'[l] == idx[l];
        }
      }
      assert Increasing(idx');
      forall i | 0 <= i < |s| && f(s[i]).Some?
        ensures i in idx'
      {
        if i < n {
          assert i in idx;
        } else {
          assert idx'[|idx|] == i;
        }
      }
      assert Covers(f, s, idx');
    } else {
      assert Picks(f, s, r, idx);
      forall i | 0 <= i < |s| && f(s[i]).Some?
        ensures i in idx
      {
        assert i < n;
      }
      assert Covers(f, s, idx);
    }
  }

  lemma {:induction false} FilterMapSelects<A, B>(f: A -> Option<B>, s: seq<A>)
    ensures exists idx :: Selects(f, s, FilterMap(f, s), idx)
    decreases |s|
  {
    if s == [] {
      assert FilterMap(f, s) == [];
      assert Selects(f, s, [], []);
    } else {
      var n := |s| - 1;
      var init := s[..n];
      FilterMapSelects(f, init);
      var idx :| Selects(f, init, FilterMap(f, init), idx);
      assert s == init + [s[n]];
      SelectsSnoc(f, init, s[n], FilterMap(f, init), idx);
      if f(s[n]).Some? {
        assert Selects(f, s, FilterMap(f, s), idx + [n]);
      } else {
        assert Selects(f, s, FilterMap(f, s), idx);
      }
    }
  }

  /** Dropping the last input element from a selection. */
  lemma SelectsInit<A, B>(f: A -> Option<B>, s: seq<A>, r: seq<B>, idx: seq<nat>)
    requires s != [] && Selects(f, s, r, idx)
    ensures f(s[|s| - 1]).Some? ==> r != [] && f(s[|s| - 1]) == Some(r[|r| - 1])
                                    && Selects(f, s[..|s| - 1], r[..|r| - 1], idx[..|idx| - 1])
    ensures f(s[|s| - 1]).None? ==> Selects(f, s[..|s| - 1], r, idx)
  {
    var n := |s| - 1;
    var init := s[..n];
    forall i | 0 <= i < n
      ensures init[i] == s[i]
    {
    }
    if f(s[n]).Some? {
      assert n in idx;
      var m := |idx| - 1;
      var j :| 0 <= j < |idx| && idx[j] == n;
      assert forall k :: 0 <= k < m ==> idx[k] < idx[m];
      var idx', r' := idx[..m], r[..m];
      forall k | 0 <= k < m
        ensures idx'[k] < n && f(init[idx'[k]]) == Some(r'[k])
      {
        assert idx[k] < idx[m];
      }
      assert Picks(f, init, r', idx');
      assert Increasing(idx');
      forall i | 0 <= i < n && f(init[i]).Some?
        ensures i in idx'
      {
        assert i in idx;
        var k :| 0 <= k < |idx| && idx[k] == i;
        assert k != m;
        assert idx'[k] == i;
      }
      assert Covers(f, init, idx');
    } else {
      forall k | 0 <= k < |idx|
        ensures idx[k] < n && f(init[idx[k]]) == Some(r[k])
      {
        assert f(s[idx[k]]).Some?;
      }
      assert Picks(f, init, r, idx);
      forall i | 0 <= i < n && f(init[i]).Some?
        ensures i in idx
      {
        assert f(s[i]).Some?;
      }
      assert Covers(f, init, idx);
    }
  }

  lemma {:induction false} SelectsDetermines<A, B>(f: A -> Option<B>, s: seq<A>, r: seq<B>, idx: seq<nat>)
    requires Selects(f, s, r, idx)
    ensures r == FilterMap(f, s)
    decreases |s|
  {
    if s != [] {
      var n := |s| - 1;
      SelectsInit(f, s, r, idx);
      if f(s[n]).Some? {
        var m := |r| - 1;
        SelectsDetermines(f, s[..n], r[..m], idx[..|idx| - 1]);
        assert r == r[..m] + [r[m]];
      } else {
        SelectsDetermines(f, s[..n], r, idx);
      }
    }
  }

  /** `FilterMap` is exactly the order-preserving selection of what `f` keeps. */
  lemma FilterMapCharacterised<A, B>(f: A -> Option<B>, s: seq<A>, r: seq<B>)
    ensures r == FilterMap(f, s) <==> exists idx :: Selects(f, s, r, idx)
  {
    if r == FilterMap(f, s) {
      FilterMapSelects(f, s);
    }
    if idx :| Selects(f, s, r, idx) {
      SelectsDetermines(f, s, r, idx);
    }
  }

  lemma {:induction false} FilterMapAppend<A, B>(f: A -> Option<B>, a: seq<A>, b: seq<A>)
    ensures FilterMap(f, a + b) == FilterMap(f, a) + FilterMap(f, b)
    decreases |b|
  {
    if b == [] {
      assert a + b == a;
    } else {
      var n := |b| - 1;
      assert (a + b)[..|a + b| - 1] == a + b[..n];
      FilterMapAppend(f, a, b[..n]);
    }
  }

  lemma {:induction false} FilterMapNone<A, B>(f: A -> Option<B>, s: seq<A>)
    requires forall i :: 0 <= i < |s| ==> f(s[i]).None?
    ensures FilterMap(f, s) == []
    decreases |s|
  {
    if s != [] {
      FilterMapNone(f, s[..|s| - 1]);
    }
  }
}
