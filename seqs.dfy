/** Generic sequence operations the server relies on:
    `Array.prototype.reverse`, and a `map` whose missing results are
    filtered out. */
module Seqs {
  import opened Wrappers

  // ---------------------------------------------------------------------------
  // reverse
  // ---------------------------------------------------------------------------

  /** `Array.prototype.reverse`, as a value. */
  function Reverse<T>(s: seq<T>): (r: seq<T>)
    ensures |r| == |s|
  {
    if s == [] then [] else Reverse(s[1..]) + [s[0]]
  }

  /** Position `k` of the reversal holds position `|s| - 1 - k` of `s`. */
  lemma {:induction false} ReverseAt<T>(s: seq<T>, k: nat)
    requires k < |s|
    ensures Reverse(s)[k] == s[|s| - 1 - k]
  {
    if k < |s| - 1 {
      ReverseAt(s[1..], k);
    }
  }

  /** Every position of the reversal at once. */
  lemma ReverseEach<T>(s: seq<T>)
    ensures forall k :: 0 <= k < |s| ==> Reverse(s)[k] == s[|s| - 1 - k]
  {
    forall k | 0 <= k < |s| ensures Reverse(s)[k] == s[|s| - 1 - k] {
      ReverseAt(s, k);
    }
  }

  // ---------------------------------------------------------------------------
  // map then drop the missing results
  // ---------------------------------------------------------------------------

  /** `s.map(f).filter(x => x)` for an `f` that either gives a value or
      nothing: the values, in the order of the elements they come from. */
  function FilterMap<A, B>(f: A -> Option<B>, s: seq<A>): (r: seq<B>)
    ensures |r| <= |s|
  {
    if s == [] then []
    else (match f(s[0]) case None => [] case Some(b) => [b]) + FilterMap(f, s[1..])
  }

  /** Mapping works element by element: the values of two runs are those of
      the first run followed by those of the second. */
  lemma {:induction false} FilterMapAppend<A, B>(f: A -> Option<B>, a: seq<A>, b: seq<A>)
    ensures FilterMap(f, a + b) == FilterMap(f, a) + FilterMap(f, b)
  {
    if a == [] {
      assert a + b == b;
    } else {
      assert (a + b)[1..] == a[1..] + b;
      FilterMapAppend(f, a[1..], b);
    }
  }

  /** One more element adds its value, if it has one, at the end. */
  lemma FilterMapSnoc<A, B>(f: A -> Option<B>, s: seq<A>, x: A)
    ensures f(x).None? ==> FilterMap(f, s + [x]) == FilterMap(f, s)
    ensures f(x).Some? ==> FilterMap(f, s + [x]) == FilterMap(f, s) + [f(x).value]
  {
    FilterMapAppend(f, s, [x]);
    assert [x][1..] == [];
  }

  /** Every value comes from some element. */
  lemma {:induction false} FilterMapSound<A, B>(f: A -> Option<B>, s: seq<A>)
    ensures forall b :: b in FilterMap(f, s) ==> exists j :: 0 <= j < |s| && f(s[j]) == Some(b)
  {
    if s != [] {
      var rest := s[1..];
      FilterMapSound(f, rest);
      var head := match f(s[0]) case None => [] case Some(x) => [x];
      assert FilterMap(f, s) == head + FilterMap(f, rest);
      forall b | b in FilterMap(f, s)
        ensures exists j :: 0 <= j < |s| && f(s[j]) == Some(b)
      {
        if b in FilterMap(f, rest) {
          var j :| 0 <= j < |rest| && f(rest[j]) == Some(b);
          assert s[j + 1] == rest[j];
        } else {
          assert f(s[0]) == Some(b);
        }
      }
    }
  }

  /** Every element that gives a value contributes it. */
  lemma {:induction false} FilterMapComplete<A, B>(f: A -> Option<B>, s: seq<A>)
    ensures forall j :: 0 <= j < |s| && f(s[j]).Some? ==> f(s[j]).value in FilterMap(f, s)
  {
    if s != [] {
      var rest := s[1..];
      FilterMapComplete(f, rest);
      forall j | 0 < j < |s| && f(s[j]).Some?
        ensures f(s[j]).value in FilterMap(f, s)
      {
        assert rest[j - 1] == s[j];
      }
    }
  }
}
