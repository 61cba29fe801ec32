/** Small value types and sequence notions shared by every module. */
module Common {

  datatype Option<+T> = None | Some(value: T)

  datatype Result<+T, +E> = Ok(value: T) | Err(error: E)

  /** True when no value occurs twice. */
  ghost predicate Distinct<T>(s: seq<T>) {
    forall i, j :: 0 <= i < j < |s| ==> s[i] != s[j]
  }

  lemma SubsetSize<T>(a: set<T>, b: set<T>)
    requires a <= b
    ensures |a| <= |b|
  {
    assert b == a + (b - a);
  }

  // ── Parts of a sequence ───────────────────────────────────────────────────

  /** `part` is what is left of `whole` at the positions `at`. */
  ghost predicate Picks<T>(part: seq<T>, whole: seq<T>, at: seq<nat>) {
    && |at| == |part|
    && (forall k :: 0 <= k < |at| ==> at[k] < |whole| && part[k] == whole[at[k]])
    && (forall k, l :: 0 <= k < l < |at| ==> at[k] < at[l])
  }

  ghost predicate Subsequence<T>(part: seq<T>, whole: seq<T>) {
    exists at :: Picks(part, whole, at)
  }

  /** The positions `at` are exactly those of the values `keep` accepts. */
  ghost predicate Hits<T>(at: seq<nat>, whole: seq<T>, keep: T -> bool) {
    forall i :: 0 <= i < |whole| ==> (i in at <==> keep(whole[i]))
  }

  /** `part` is what `keep` accepts of `whole`: all of it, in order, and nothing else. */
  ghost predicate Selects<T>(part: seq<T>, whole: seq<T>, keep: T -> bool) {
    exists at :: Picks(part, whole, at) && Hits(at, whole, keep)
  }

  lemma SelectsNothing<T>(keep: T -> bool)
    ensures Selects([], [], keep)
  {
    assert Picks<T>([], [], []);
  }

  lemma SelectsOne<T>(x: T, keep: T -> bool)
    ensures Selects(if keep(x) then [x] else [], [x], keep)
  {
    if keep(x) {
      assert Picks([x], [x], [0]) && 0 in [0];
    } else {
      assert Picks([], [x], []);
    }
  }

  function Shifted(at: seq<nat>, d: nat): (r: seq<nat>)
    ensures |r| == |at| && forall k :: 0 <= k < |at| ==> r[k] == d + at[k]
  {
    seq(|at|, k requires 0 <= k < |at| => d + at[k])
  }

  lemma ShiftedMember(at: seq<nat>, d: nat, i: nat)
    ensures i in Shifted(at, d) <==> i >= d && i - d in at
  {
    if i >= d && i - d in at {
      var k :| 0 <= k < |at| && at[k] == i - d;
      assert Shifted(at, d)[k] == i;
    }
  }

  lemma PicksConcat<T>(p: seq<T>, a: seq<T>, at: seq<nat>, q: seq<T>, b: seq<T>, bt: seq<nat>)
    requires Picks(p, a, at) && Picks(q, b, bt)
    ensures Picks(p + q, a + b, at + Shifted(bt, |a|))
  {
  }

  lemma HitsConcat<T>(at: seq<nat>, a: seq<T>, bt: seq<nat>, b: seq<T>, keep: T -> bool)
    requires Hits(at, a, keep) && Hits(bt, b, keep) && forall k :: 0 <= k < |at| ==> at[k] < |a|
    ensures Hits(at + Shifted(bt, |a|), a + b, keep)
  {
    forall i | 0 <= i < |a + b|
      ensures i in at + Shifted(bt, |a|) <==> keep((a + b)[i])
    {
      ShiftedMember(bt, |a|, i);
      assert i >= |a| ==> i !in at;
    }
  }

  lemma SelectsConcat<T>(p: seq<T>, a: seq<T>, q: seq<T>, b: seq<T>, keep: T -> bool)
    requires Selects(p, a, keep) && Selects(q, b, keep)
    ensures Selects(p + q, a + b, keep)
  {
    hide Hits;
    var at :| Picks(p, a, at) && Hits(at, a, keep);
    var bt :| Picks(q, b, bt) && Hits(bt, b, keep);
    HitsConcat(at, a, bt, b, keep);
    PicksConcat(p, a, at, q, b, bt);
    hide Picks;
  }

  lemma SelectsPrepend<T>(x: T, p: seq<T>, a: seq<T>, keep: T -> bool)
    requires Selects(p, a, keep)
    ensures Selects((if keep(x) then [x] else []) + p, [x] + a, keep)
  {
    SelectsOne(x, keep);
    SelectsConcat(if keep(x) then [x] else [], [x], p, a, keep);
  }

  lemma SelectsAppend<T>(p: seq<T>, a: seq<T>, x: T, keep: T -> bool)
    requires Selects(p, a, keep)
    ensures Selects(p + (if keep(x) then [x] else []), a + [x], keep)
  {
    SelectsOne(x, keep);
    SelectsConcat(p, a, if keep(x) then [x] else [], [x], keep);
  }

  // ── Concatenation ─────────────────────────────────────────────────────────

  /** Piece `k` stands in `whole` from its offset to the next. */
  ghost predicate PieceAt<T>(whole: seq<T>, pieces: seq<seq<T>>, at: seq<nat>, k: nat)
    requires k < |pieces| && |at| == |pieces| + 1
  {
    at[k] <= at[k + 1] <= |whole| && whole[at[k]..at[k + 1]] == pieces[k]
  }

  /** The offsets of the pieces in `whole`, and its end. */
  ghost predicate Offsets<T>(whole: seq<T>, pieces: seq<seq<T>>, at: seq<nat>) {
    && |at| == |pieces| + 1 && at[0] == 0 && at[|pieces|] == |whole|
    && forall k :: 0 <= k < |pieces| ==> PieceAt(whole, pieces, at, k)
  }

  /** `whole` is the pieces one after another, each at its own offset, and nothing else. */
  ghost predicate Concatenates<T>(whole: seq<T>, pieces: seq<seq<T>>) {
    exists at: seq<nat> :: Offsets(whole, pieces, at)
  }

  lemma ConcatenatesNothing<T>()
    ensures Concatenates<T>([], [])
  {
    assert Offsets<T>([], [], [0]);
  }

  lemma ConcatenatesNext<T>(whole: seq<T>, pieces: seq<seq<T>>, next: seq<T>)
    requires Concatenates(whole, pieces)
    ensures Concatenates(whole + next, pieces + [next])
  {
    var at: seq<nat> :| Offsets(whole, pieces, at);
    var more := at + [|whole| + |next|];
    forall k | 0 <= k < |pieces + [next]|
      ensures PieceAt(whole + next, pieces + [next], more, k)
    {
      if k < |pieces| { assert PieceAt(whole, pieces, at, k); }
    }
    assert Offsets(whole + next, pieces + [next], more);
  }

  lemma ConcatenatesPrepend<T>(first: seq<T>, whole: seq<T>, pieces: seq<seq<T>>)
    requires Concatenates(whole, pieces)
    ensures Concatenates(first + whole, [first] + pieces)
  {
    var at: seq<nat> :| Offsets(whole, pieces, at);
    var more: seq<nat> := [0] + Shifted(at, |first|);
    var all := first + whole;
    forall k | 0 <= k < |[first] + pieces|
      ensures PieceAt(all, [first] + pieces, more, k)
    {
      if k > 0 {
        assert PieceAt(whole, pieces, at, k - 1);
        SliceBehind(first, whole, at[k - 1], at[k]);
      }
    }
    assert Offsets(all, [first] + pieces, more);
  }

  lemma SliceBehind<T>(first: seq<T>, whole: seq<T>, i: nat, j: nat)
    requires i <= j <= |whole|
    ensures (first + whole)[|first| + i..|first| + j] == whole[i..j]
  {
  }
}
