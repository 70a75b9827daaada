/**
 * The builder that finds where in the native code every value label of a
 * scope is live at once. It starts from the native ranges of the scope,
 * splits them at the boundaries of each label's live ranges, records the
 * label's location on the pieces inside, and finally keeps the pieces that
 * know a location for every label processed.
 */
module DebugValueRanges {
  import opened Base
  import opened DebugExpression

  type ValueLabel = nat

  /** Where a label lives over `[start, end)` of the native code
   *  (`ValueLocRange`). */
  datatype ValueLocRange = ValueLocRange(loc: ValueLoc, start: U32, end: U32)

  /** A native range of a function with the locations known for it
   *  (`CachedValueLabelRange`). */
  datatype CachedRange = CachedRange(funcIndex: nat, start: nat, end: nat, labelLocation: map<ValueLabel, ValueLoc>)

  predicate SortedByStart(rs: seq<CachedRange>)
  {
    forall k, m :: 0 <= k < m < |rs| ==> rs[k].start <= rs[m].start
  }

  /** Non-empty ranges, each ending before the next begins. */
  predicate Disjoint(rs: seq<CachedRange>)
  {
    && (forall k :: 0 <= k < |rs| ==> rs[k].start < rs[k].end)
    && (forall k, m :: 0 <= k < m < |rs| ==> rs[k].end <= rs[m].start)
  }

  /** Whether some range of function `f` covers native offset `p`. */
  predicate Covers(rs: seq<CachedRange>, f: nat, p: nat)
  {
    exists k :: 0 <= k < |rs| && rs[k].funcIndex == f && rs[k].start <= p < rs[k].end
  }

  // ---- building the scope ----

  /** The ranges of a scope: each scope entry translated to native ranges
   *  of one function (or to nothing), in scope order, with no locations. */
  function ScopeRanges(translated: seq<Option<(nat, seq<(nat, nat)>)>>): (r: seq<CachedRange>)
    ensures forall q :: q in r ==> q.labelLocation == map[]
    decreases |translated|
  {
    if translated == [] then []
    else
      var k := |translated| - 1;
      ScopeRanges(translated[..k])
        + match translated[k]
          case None => []
          case Some((f, tr)) => Unlabelled(f, tr)
  }

  /** The native ranges of one function, with no locations yet. */
  function Unlabelled(f: nat, tr: seq<(nat, nat)>): (r: seq<CachedRange>)
    ensures |r| == |tr|
    ensures forall k :: 0 <= k < |r| ==> r[k] == CachedRange(f, tr[k].0, tr[k].1, map[])
  {
    seq(|tr|, i requires 0 <= i < |tr| => CachedRange(f, tr[i].0, tr[i].1, map[]))
  }

  /** Insertion by start into a sorted list. */
  function InsertByStart(r: CachedRange, rs: seq<CachedRange>): (out: seq<CachedRange>)
    requires SortedByStart(rs)
    ensures SortedByStart(out) && multiset(out) == multiset(rs) + multiset{r}
    decreases |rs|
  {
    if rs == [] || r.start <= rs[0].start then
      SortedCons(r, rs);
      [r] + rs
    else
      var rest := InsertByStart(r, rs[1..]);
      InsertBehind(r, rs, rest);
      [rs[0]] + rest
  }

  /** Putting the smallest range in front of the insertion into the others
   *  keeps the list sorted and is the insertion into the whole list. */
  lemma InsertBehind(r: CachedRange, rs: seq<CachedRange>, rest: seq<CachedRange>)
    requires SortedByStart(rs) && rs != [] && rs[0].start < r.start
    requires SortedByStart(rest) && multiset(rest) == multiset(rs[1..]) + multiset{r}
    ensures SortedByStart([rs[0]] + rest) && multiset([rs[0]] + rest) == multiset(rs) + multiset{r}
  {
    var others := rs[1..] + [r];
    assert rs == [rs[0]] + rs[1..];
    assert multiset(others) == multiset(rs[1..]) + multiset{r};
    forall k | 0 <= k < |others| ensures rs[0].start <= others[k].start {
      if k < |rs| - 1 {
        assert others[k] == rs[k + 1];
      }
    }
    LowerBoundOfPermutation(rs[0].start, rest, others);
    SortedCons(rs[0], rest);
    assert multiset([rs[0]] + rest) == multiset{rs[0]} + multiset(rest);
  }

  lemma SortedCons(x: CachedRange, rest: seq<CachedRange>)
    requires SortedByStart(rest)
    requires forall k :: 0 <= k < |rest| ==> x.start <= rest[k].start
    ensures SortedByStart([x] + rest)
  {
    var c := [x] + rest;
    forall k, m | 0 <= k < m < |c| ensures c[k].start <= c[m].start {
      assert c[m] == rest[m - 1];
      if k > 0 {
        assert c[k] == rest[k - 1];
      }
    }
  }

  /** A bound on the starts of a list holds for any permutation of it. */
  lemma LowerBoundOfPermutation(b: nat, xs: seq<CachedRange>, ys: seq<CachedRange>)
    requires multiset(xs) == multiset(ys)
    requires forall k :: 0 <= k < |ys| ==> b <= ys[k].start
    ensures forall k :: 0 <= k < |xs| ==> b <= xs[k].start
  {
    forall k | 0 <= k < |xs| ensures b <= xs[k].start {
      assert xs[k] in multiset(ys);
    }
  }

  /** A sort by start (`sort_unstable_by`): sorted, and a permutation. */
  function SortByStart(rs: seq<CachedRange>): (out: seq<CachedRange>)
    ensures SortedByStart(out) && multiset(out) == multiset(rs)
    decreases |rs|
  {
    if rs == [] then []
    else
      assert rs == [rs[0]] + rs[1..];
      InsertByStart(rs[0], SortByStart(rs[1..]))
  }

  // ---- intersecting with one live range ----

  predicate Intersects(r: CachedRange, s: nat, e: nat)
  {
    !(e <= r.start || r.end <= s)
  }

  /** One stored range cut by the live range `[s, e)`: a range it does not
   *  meet stays whole; otherwise the part before `s`, the part inside with
   *  the label's location recorded, and the part after `e`, the outer
   *  parts present only when not empty. */
  function SplitRange(r: CachedRange, s: nat, e: nat, lbl: ValueLabel, loc: ValueLoc): (out: seq<CachedRange>)
  {
    if !Intersects(r, s, e) then [r]
    else
      (if s > r.start then [r.(end := s)] else [])
      + [r.(start := Max(s, r.start), end := if e < r.end then e else r.end, labelLocation := r.labelLocation[lbl := loc])]
      + (if e < r.end then [r.(start := e)] else [])
  }

  /** Every stored range cut by `[s, e)`, in order. */
  function Apply(rs: seq<CachedRange>, s: nat, e: nat, lbl: ValueLabel, loc: ValueLoc): (out: seq<CachedRange>)
    decreases |rs|
  {
    if rs == [] then [] else SplitRange(rs[0], s, e, lbl, loc) + Apply(rs[1..], s, e, lbl, loc)
  }

  lemma {:induction false} ApplyAppend(a: seq<CachedRange>, b: seq<CachedRange>, s: nat, e: nat, lbl: ValueLabel, loc: ValueLoc)
    ensures Apply(a + b, s, e, lbl, loc) == Apply(a, s, e, lbl, loc) + Apply(b, s, e, lbl, loc)
    decreases |a|
  {
    if a != [] {
      assert (a + b)[0] == a[0] && (a + b)[1..] == a[1..] + b;
      assert Apply(a + b, s, e, lbl, loc) == SplitRange(a[0], s, e, lbl, loc) + Apply(a[1..] + b, s, e, lbl, loc);
      ApplyAppend(a[1..], b, s, e, lbl, loc);
    } else {
      assert a + b == b;
    }
  }

  /** Ranges that `[s, e)` does not meet are left as they are. */
  lemma {:induction false} ApplyUntouched(rs: seq<CachedRange>, s: nat, e: nat, lbl: ValueLabel, loc: ValueLoc)
    requires forall k :: 0 <= k < |rs| ==> !Intersects(rs[k], s, e)
    ensures Apply(rs, s, e, lbl, loc) == rs
    decreases |rs|
  {
    if rs != [] {
      ApplyUntouched(rs[1..], s, e, lbl, loc);
    }
  }

  /** Where a piece produced by a cut comes from: it lies within its
   *  original range, belongs to the same function, and carries the
   *  original's locations, with the label's added exactly when the piece
   *  lies inside `[s, e)`; every other piece lies wholly outside. */
  predicate PieceOf(q: CachedRange, r: CachedRange, s: nat, e: nat, lbl: ValueLabel, loc: ValueLoc)
  {
    && q.funcIndex == r.funcIndex
    && r.start <= q.start < q.end <= r.end
    && ((s <= q.start && q.end <= e && q.labelLocation == r.labelLocation[lbl := loc])
        || ((q.end <= s || e <= q.start) && q.labelLocation == r.labelLocation))
  }

  lemma SplitRangePieces(r: CachedRange, s: nat, e: nat, lbl: ValueLabel, loc: ValueLoc)
    requires r.start < r.end && s < e
    ensures var out := SplitRange(r, s, e, lbl, loc);
      && |out| >= 1 && out[0].start == r.start && out[|out| - 1].end == r.end
      && (forall k :: 0 <= k < |out| ==> PieceOf(out[k], r, s, e, lbl, loc))
      && (forall k :: 0 <= k < |out| - 1 ==> out[k].end == out[k + 1].start)
  {
  }

  /** Every piece of a cut comes from one of the ranges cut. */
  lemma {:induction false} ApplyPieces(rs: seq<CachedRange>, s: nat, e: nat, lbl: ValueLabel, loc: ValueLoc)
    requires Disjoint(rs) && s < e
    ensures forall q :: q in Apply(rs, s, e, lbl, loc) ==>
      exists k :: 0 <= k < |rs| && PieceOf(q, rs[k], s, e, lbl, loc)
    decreases |rs|
  {
    if rs != [] {
      SplitRangePieces(rs[0], s, e, lbl, loc);
      ApplyPieces(rs[1..], s, e, lbl, loc);
      forall q | q in Apply(rs, s, e, lbl, loc) ensures exists k :: 0 <= k < |rs| && PieceOf(q, rs[k], s, e, lbl, loc) {
        if q in SplitRange(rs[0], s, e, lbl, loc) {
          var j :| 0 <= j < |SplitRange(rs[0], s, e, lbl, loc)| && SplitRange(rs[0], s, e, lbl, loc)[j] == q;
          assert PieceOf(q, rs[0], s, e, lbl, loc);
        } else {
          assert q in Apply(rs[1..], s, e, lbl, loc);
          var k :| 0 <= k < |rs[1..]| && PieceOf(q, rs[1..][k], s, e, lbl, loc);
          assert PieceOf(q, rs[k + 1], s, e, lbl, loc);
        }
      }
    }
  }

  /** A cut keeps the ranges disjoint and in order. */
  lemma {:induction false} ApplyDisjoint(rs: seq<CachedRange>, s: nat, e: nat, lbl: ValueLabel, loc: ValueLoc)
    requires Disjoint(rs) && s < e
    ensures Disjoint(Apply(rs, s, e, lbl, loc))
    decreases |rs|
  {
    if rs != [] {
      var head := SplitRange(rs[0], s, e, lbl, loc);
      var tail := Apply(rs[1..], s, e, lbl, loc);
      assert Apply(rs, s, e, lbl, loc) == head + tail;
      SplitDisjoint(rs[0], s, e, lbl, loc);
      ApplyDisjoint(rs[1..], s, e, lbl, loc);
      if tail != [] {
        ApplyBounds(rs[1..], s, e, lbl, loc);
        assert rs[0].end <= rs[1].start;
      }
      DisjointConcat(head, tail);
    }
  }

  /** A cut of disjoint ranges starts where the first range started, ends
   *  where the last one ended, and has at least as many ranges. */
  lemma ApplyBounds(rs: seq<CachedRange>, s: nat, e: nat, lbl: ValueLabel, loc: ValueLoc)
    requires Disjoint(rs) && s < e
    ensures var out := Apply(rs, s, e, lbl, loc);
      && |out| >= |rs|
      && (rs != [] ==> out[0].start == rs[0].start && out[|out| - 1].end == rs[|rs| - 1].end)
  {
    ApplyLength(rs, s, e, lbl, loc);
    if rs != [] {
      SplitDisjoint(rs[0], s, e, lbl, loc);
      ApplyLastEnd(rs, s, e, lbl, loc);
    }
  }

  lemma {:induction false} ApplyLength(rs: seq<CachedRange>, s: nat, e: nat, lbl: ValueLabel, loc: ValueLoc)
    ensures |Apply(rs, s, e, lbl, loc)| >= |rs|
    decreases |rs|
  {
    if rs != [] {
      ApplyLength(rs[1..], s, e, lbl, loc);
    }
  }

  lemma {:induction false} ApplyLastEnd(rs: seq<CachedRange>, s: nat, e: nat, lbl: ValueLabel, loc: ValueLoc)
    requires Disjoint(rs) && s < e && rs != []
    ensures var out := Apply(rs, s, e, lbl, loc);
      out != [] && out[|out| - 1].end == rs[|rs| - 1].end
    decreases |rs|
  {
    var head := SplitRange(rs[0], s, e, lbl, loc);
    var tail := Apply(rs[1..], s, e, lbl, loc);
    var out := head + tail;
    SplitDisjoint(rs[0], s, e, lbl, loc);
    if |rs| == 1 {
      assert tail == [];
      assert out[|out| - 1] == head[|head| - 1];
    } else {
      assert Disjoint(rs[1..]) by {
        assert forall k :: 0 <= k < |rs[1..]| ==> rs[1..][k] == rs[k + 1];
      }
      ApplyLastEnd(rs[1..], s, e, lbl, loc);
      assert out[|out| - 1] == tail[|tail| - 1];
      assert rs[1..][|rs[1..]| - 1] == rs[|rs| - 1];
    }
  }

  lemma SplitDisjoint(r: CachedRange, s: nat, e: nat, lbl: ValueLabel, loc: ValueLoc)
    requires r.start < r.end && s < e
    ensures var out := SplitRange(r, s, e, lbl, loc);
      && Disjoint(out) && |out| >= 1 && out[0].start == r.start && out[|out| - 1].end == r.end
  {
    var out := SplitRange(r, s, e, lbl, loc);
    SplitRangePieces(r, s, e, lbl, loc);
    forall k, m | 0 <= k < m < |out| ensures out[k].end <= out[m].start {
      HeadChain(out, k, m);
    }
  }

  lemma HeadChain(head: seq<CachedRange>, k: nat, m: nat)
    requires forall i :: 0 <= i < |head| ==> head[i].start < head[i].end
    requires forall i :: 0 <= i < |head| - 1 ==> head[i].end == head[i + 1].start
    requires k < m < |head|
    ensures head[k].end <= head[m].start
    decreases m - k
  {
    if k + 1 < m {
      HeadChain(head, k + 1, m);
    }
  }

  lemma DisjointConcat(a: seq<CachedRange>, b: seq<CachedRange>)
    requires Disjoint(a) && Disjoint(b)
    requires a != [] && b != [] ==> a[|a| - 1].end <= b[0].start
    ensures Disjoint(a + b)
  {
    var c := a + b;
    forall k, m | 0 <= k < m < |c| ensures c[k].end <= c[m].start {
      if m < |a| {
        assert c[k] == a[k] && c[m] == a[m];
      } else if k >= |a| {
        assert c[k] == b[k - |a|] && c[m] == b[m - |a|];
      } else {
        assert c[k] == a[k] && c[m] == b[m - |a|];
        assert a[k].end <= a[|a| - 1].end;
        assert b[0].start <= b[m - |a|].start;
      }
    }
  }

  /** A cut covers the same offsets of the same functions. */
  lemma {:induction false} ApplyCovers(rs: seq<CachedRange>, s: nat, e: nat, lbl: ValueLabel, loc: ValueLoc, f: nat, p: nat)
    requires Disjoint(rs) && s < e
    ensures Covers(Apply(rs, s, e, lbl, loc), f, p) <==> Covers(rs, f, p)
    decreases |rs|
  {
    if rs != [] {
      var head := SplitRange(rs[0], s, e, lbl, loc);
      var tail := Apply(rs[1..], s, e, lbl, loc);
      ApplyCovers(rs[1..], s, e, lbl, loc, f, p);
      SplitCovers(rs[0], s, e, lbl, loc, f, p);
      CoversConcat(head, tail, f, p);
      CoversConcat([rs[0]], rs[1..], f, p);
      assert [rs[0]] + rs[1..] == rs;
    }
  }

  lemma SplitCovers(r: CachedRange, s: nat, e: nat, lbl: ValueLabel, loc: ValueLoc, f: nat, p: nat)
    requires r.start < r.end && s < e
    ensures Covers(SplitRange(r, s, e, lbl, loc), f, p) <==> Covers([r], f, p)
  {
    var out := SplitRange(r, s, e, lbl, loc);
    if Covers([r], f, p) {
      assert [r][0] == r;
      if Intersects(r, s, e) {
        if p < s {
          assert out[0].start <= p < out[0].end;
        } else if p < e || e >= r.end {
          var k := if s > r.start then 1 else 0;
          assert out[k].start <= p < out[k].end;
        } else {
          assert out[|out| - 1].start <= p < out[|out| - 1].end;
        }
      } else {
        assert out == [r];
      }
    }
    if Covers(out, f, p) {
      var k :| 0 <= k < |out| && out[k].funcIndex == f && out[k].start <= p < out[k].end;
      SplitRangePieces(r, s, e, lbl, loc);
      assert PieceOf(out[k], r, s, e, lbl, loc);
      assert [r][0] == r;
    }
  }

  lemma CoversConcat(a: seq<CachedRange>, b: seq<CachedRange>, f: nat, p: nat)
    ensures Covers(a + b, f, p) <==> Covers(a, f, p) || Covers(b, f, p)
  {
    var c := a + b;
    if Covers(c, f, p) {
      var k :| 0 <= k < |c| && c[k].funcIndex == f && c[k].start <= p < c[k].end;
      if k >= |a| {
        assert b[k - |a|] == c[k];
      } else {
        assert a[k] == c[k];
      }
    }
    if Covers(b, f, p) {
      var k :| 0 <= k < |b| && b[k].funcIndex == f && b[k].start <= p < b[k].end;
      assert c[|a| + k] == b[k];
    }
    if Covers(a, f, p) {
      var k :| 0 <= k < |a| && a[k].funcIndex == f && a[k].start <= p < a[k].end;
      assert c[k] == a[k];
    }
  }

  // ---- what the recorded locations mean ----

  type Frame = Option<map<ValueLabel, seq<ValueLocRange>>>

  /** Label `l` is at `loc` over all of `[a, b)`: one of its live ranges in
   *  the frame says so. */
  predicate LiveOver(frame: Frame, l: ValueLabel, loc: ValueLoc, a: nat, b: nat)
  {
    && frame.Some? && l in frame.value
    && exists v :: v in frame.value[l] && v.loc == loc && v.start <= a && b <= v.end
  }

  /** Label `l` is live at native offset `p`. */
  predicate LiveAt(frame: Frame, l: ValueLabel, p: nat)
  {
    && frame.Some? && l in frame.value
    && exists v :: v in frame.value[l] && v.start <= p < v.end
  }

  predicate AllLive(frame: Frame, labels: set<ValueLabel>, p: nat)
  {
    forall l :: l in labels ==> LiveAt(frame, l, p)
  }

  /** Every location a range records is one the frame gives over all of it. */
  predicate RangeSound(q: CachedRange, frame: Frame)
  {
    forall l :: l in q.labelLocation ==> LiveOver(frame, l, q.labelLocation[l], q.start, q.end)
  }

  predicate Sound(rs: seq<CachedRange>, frame: Frame)
  {
    forall q :: q in rs ==> RangeSound(q, frame)
  }

  /** Every range records labels of `labels` only. */
  predicate KeysWithin(rs: seq<CachedRange>, labels: set<ValueLabel>)
  {
    forall q :: q in rs ==> q.labelLocation.Keys <= labels
  }

  /** Some range of function `f` covers `p` and records every label of `labels`. */
  predicate CoversWith(rs: seq<CachedRange>, f: nat, p: nat, labels: set<ValueLabel>)
  {
    exists k :: 0 <= k < |rs| && rs[k].funcIndex == f && rs[k].start <= p < rs[k].end
      && labels <= rs[k].labelLocation.Keys
  }

  /** A piece inherits soundness from its original, and the label's new
   *  location is sound when the piece lies in the live range. */
  lemma PieceSound(q: CachedRange, r: CachedRange, s: nat, e: nat, lbl: ValueLabel, loc: ValueLoc, frame: Frame)
    requires PieceOf(q, r, s, e, lbl, loc) && RangeSound(r, frame) && LiveOver(frame, lbl, loc, s, e)
    ensures RangeSound(q, frame)
  {
    forall l | l in q.labelLocation ensures LiveOver(frame, l, q.labelLocation[l], q.start, q.end) {
      if l == lbl && s <= q.start && q.end <= e && q.labelLocation == r.labelLocation[lbl := loc] {
        var v :| v in frame.value[lbl] && v.loc == loc && v.start <= s && e <= v.end;
        assert v.start <= q.start && q.end <= v.end;
      } else {
        assert l in r.labelLocation && q.labelLocation[l] == r.labelLocation[l];
        var v :| v in frame.value[l] && v.loc == r.labelLocation[l] && v.start <= r.start && r.end <= v.end;
        assert v.start <= q.start && q.end <= v.end;
      }
    }
  }

  /** Cutting at a live range of `lbl` keeps every recorded location sound
   *  and adds no label but `lbl`. */
  lemma ApplySound(rs: seq<CachedRange>, s: nat, e: nat, lbl: ValueLabel, loc: ValueLoc, frame: Frame, labels: set<ValueLabel>)
    requires Disjoint(rs) && s < e && LiveOver(frame, lbl, loc, s, e)
    requires Sound(rs, frame) && KeysWithin(rs, labels)
    ensures Sound(Apply(rs, s, e, lbl, loc), frame)
    ensures KeysWithin(Apply(rs, s, e, lbl, loc), labels + {lbl})
  {
    var out := Apply(rs, s, e, lbl, loc);
    ApplyPieces(rs, s, e, lbl, loc);
    forall q | q in out ensures RangeSound(q, frame) && q.labelLocation.Keys <= labels + {lbl} {
      var k :| 0 <= k < |rs| && PieceOf(q, rs[k], s, e, lbl, loc);
      assert rs[k] in rs;
      PieceSound(q, rs[k], s, e, lbl, loc, frame);
    }
  }

  /** The range covering `p` keeps its labels when cut, and gains `lbl`
   *  when `p` lies in the live range. */
  lemma SplitCoversWith(r: CachedRange, s: nat, e: nat, lbl: ValueLabel, loc: ValueLoc, p: nat, labels: set<ValueLabel>)
    requires r.start <= p < r.end && s < e && labels <= r.labelLocation.Keys
    ensures var out := SplitRange(r, s, e, lbl, loc);
      && CoversWith(out, r.funcIndex, p, labels)
      && (s <= p < e ==> CoversWith(out, r.funcIndex, p, labels + {lbl}))
  {
    var out := SplitRange(r, s, e, lbl, loc);
    if !Intersects(r, s, e) {
      assert out[0] == r;
    } else if p < s {
      assert out[0] == r.(end := s);
    } else if p < e || e >= r.end {
      var k := if s > r.start then 1 else 0;
      assert out[k].start <= p < out[k].end;
      assert out[k].labelLocation == r.labelLocation[lbl := loc];
    } else {
      assert out[|out| - 1] == r.(start := e);
    }
  }

  lemma CoversWithConcat(a: seq<CachedRange>, b: seq<CachedRange>, f: nat, p: nat, labels: set<ValueLabel>)
    requires CoversWith(a, f, p, labels) || CoversWith(b, f, p, labels)
    ensures CoversWith(a + b, f, p, labels)
  {
    var c := a + b;
    if CoversWith(a, f, p, labels) {
      var k :| 0 <= k < |a| && a[k].funcIndex == f && a[k].start <= p < a[k].end && labels <= a[k].labelLocation.Keys;
      assert c[k] == a[k];
    } else {
      var k :| 0 <= k < |b| && b[k].funcIndex == f && b[k].start <= p < b[k].end && labels <= b[k].labelLocation.Keys;
      assert c[|a| + k] == b[k];
    }
  }

  /** A point covered with some labels stays covered with them after a cut,
   *  and with `lbl` too when the live range contains it. */
  lemma {:induction false} ApplyCoversWith(rs: seq<CachedRange>, s: nat, e: nat, lbl: ValueLabel, loc: ValueLoc, f: nat, p: nat, labels: set<ValueLabel>)
    requires s < e && CoversWith(rs, f, p, labels)
    ensures CoversWith(Apply(rs, s, e, lbl, loc), f, p, labels)
    ensures s <= p < e ==> CoversWith(Apply(rs, s, e, lbl, loc), f, p, labels + {lbl})
    decreases |rs|
  {
    var k :| 0 <= k < |rs| && rs[k].funcIndex == f && rs[k].start <= p < rs[k].end && labels <= rs[k].labelLocation.Keys;
    var head := SplitRange(rs[0], s, e, lbl, loc);
    var tail := Apply(rs[1..], s, e, lbl, loc);
    assert Apply(rs, s, e, lbl, loc) == head + tail;
    if k == 0 {
      SplitCoversWith(rs[0], s, e, lbl, loc, p, labels);
      CoversWithConcat(head, tail, f, p, labels);
      if s <= p < e {
        CoversWithConcat(head, tail, f, p, labels + {lbl});
      }
    } else {
      assert rs[1..][k - 1] == rs[k];
      ApplyCoversWith(rs[1..], s, e, lbl, loc, f, p, labels);
      CoversWithConcat(head, tail, f, p, labels);
      if s <= p < e {
        CoversWithConcat(head, tail, f, p, labels + {lbl});
      }
    }
  }

  // ---- processing one label ----

  const RANGE_ORDER_PANIC: string := "assertion failed: `(left < right)`"

  /** All live ranges of one label applied in turn: an empty live range is
   *  skipped, a reversed one panics. */
  function ApplyAll(rs: seq<CachedRange>, lbl: ValueLabel, vrs: seq<ValueLocRange>): (r: Exec<seq<CachedRange>>)
    decreases |vrs|
  {
    if vrs == [] then Done(rs)
    else
      match ApplyAll(rs, lbl, vrs[..|vrs| - 1])
      case Panic(m) => Panic(m)
      case Done(cur) =>
        var v := vrs[|vrs| - 1];
        if v.start == v.end then Done(cur)
        else if v.start > v.end then Panic(RANGE_ORDER_PANIC)
        else Done(Apply(cur, v.start, v.end, lbl, v.loc))
  }

  /** Applying the live ranges panics exactly when one of them is reversed. */
  lemma {:induction false} ApplyAllPanics(rs: seq<CachedRange>, lbl: ValueLabel, vrs: seq<ValueLocRange>)
    ensures ApplyAll(rs, lbl, vrs).Panic? <==> exists v :: v in vrs && v.start > v.end
    decreases |vrs|
  {
    if vrs != [] {
      var n := |vrs| - 1;
      ApplyAllPanics(rs, lbl, vrs[..n]);
      assert vrs == vrs[..n] + [vrs[n]];
      assert forall v :: v in vrs <==> v in vrs[..n] || v == vrs[n];
    }
  }

  lemma {:induction false} ApplyAllDisjoint(rs: seq<CachedRange>, lbl: ValueLabel, vrs: seq<ValueLocRange>)
    requires Disjoint(rs)
    ensures ApplyAll(rs, lbl, vrs).Done? ==> Disjoint(ApplyAll(rs, lbl, vrs).value)
    decreases |vrs|
  {
    if vrs != [] {
      var n := |vrs| - 1;
      ApplyAllDisjoint(rs, lbl, vrs[..n]);
      var prev := ApplyAll(rs, lbl, vrs[..n]);
      if prev.Done? && vrs[n].start < vrs[n].end {
        ApplyDisjoint(prev.value, vrs[n].start, vrs[n].end, lbl, vrs[n].loc);
      }
    }
  }

  /** Applying a label's own live ranges keeps every recorded location
   *  sound and adds no label but that one. */
  lemma {:induction false} ApplyAllSound(rs: seq<CachedRange>, lbl: ValueLabel, vrs: seq<ValueLocRange>, frame: Frame, labels: set<ValueLabel>)
    requires Disjoint(rs) && Sound(rs, frame) && KeysWithin(rs, labels)
    requires frame.Some? && lbl in frame.value && forall v :: v in vrs ==> v in frame.value[lbl]
    ensures ApplyAll(rs, lbl, vrs).Done? ==>
      Sound(ApplyAll(rs, lbl, vrs).value, frame) && KeysWithin(ApplyAll(rs, lbl, vrs).value, labels + {lbl})
    decreases |vrs|
  {
    if vrs != [] {
      var n := |vrs| - 1;
      assert forall v :: v in vrs[..n] ==> v in vrs;
      ApplyAllSound(rs, lbl, vrs[..n], frame, labels);
      ApplyAllDisjoint(rs, lbl, vrs[..n]);
      var prev := ApplyAll(rs, lbl, vrs[..n]);
      var v := vrs[n];
      if prev.Done? && v.start < v.end {
        assert v in frame.value[lbl];
        assert LiveOver(frame, lbl, v.loc, v.start, v.end);
        ApplySound(prev.value, v.start, v.end, lbl, v.loc, frame, labels + {lbl});
        assert labels + {lbl} + {lbl} == labels + {lbl};
      }
    }
  }

  lemma {:induction false} ApplyAllCovers(rs: seq<CachedRange>, lbl: ValueLabel, vrs: seq<ValueLocRange>, f: nat, p: nat)
    requires Disjoint(rs)
    ensures ApplyAll(rs, lbl, vrs).Done? ==> (Covers(ApplyAll(rs, lbl, vrs).value, f, p) <==> Covers(rs, f, p))
    decreases |vrs|
  {
    if vrs != [] {
      var n := |vrs| - 1;
      ApplyAllCovers(rs, lbl, vrs[..n], f, p);
      ApplyAllDisjoint(rs, lbl, vrs[..n]);
      var prev := ApplyAll(rs, lbl, vrs[..n]);
      if prev.Done? && vrs[n].start < vrs[n].end {
        ApplyCovers(prev.value, vrs[n].start, vrs[n].end, lbl, vrs[n].loc, f, p);
      }
    }
  }

  /** A covered point keeps its labels, and gains `lbl` when one of the
   *  live ranges contains it. */
  lemma {:induction false} ApplyAllCoversWith(rs: seq<CachedRange>, lbl: ValueLabel, vrs: seq<ValueLocRange>, f: nat, p: nat, labels: set<ValueLabel>)
    requires CoversWith(rs, f, p, labels)
    ensures ApplyAll(rs, lbl, vrs).Done? ==>
      && CoversWith(ApplyAll(rs, lbl, vrs).value, f, p, labels)
      && ((exists v :: v in vrs && v.start <= p < v.end) ==> CoversWith(ApplyAll(rs, lbl, vrs).value, f, p, labels + {lbl}))
    decreases |vrs|
  {
    if vrs != [] {
      var n := |vrs| - 1;
      assert vrs == vrs[..n] + [vrs[n]];
      assert forall v :: v in vrs <==> v in vrs[..n] || v == vrs[n];
      ApplyAllCoversWith(rs, lbl, vrs[..n], f, p, labels);
      var prev := ApplyAll(rs, lbl, vrs[..n]);
      var v := vrs[n];
      if prev.Done? && v.start < v.end {
        ApplyCoversWith(prev.value, v.start, v.end, lbl, v.loc, f, p, labels);
        if exists w :: w in vrs[..n] && w.start <= p < w.end {
          ApplyCoversWith(prev.value, v.start, v.end, lbl, v.loc, f, p, labels + {lbl});
          assert labels + {lbl} + {lbl} == labels + {lbl};
        }
      }
    }
  }

  /** `process_label`: a label already processed changes nothing; otherwise
   *  it becomes processed and, when the frame has live ranges for it, they
   *  are applied. */
  function ProcessLabelSpec(rs: seq<CachedRange>, processed: set<ValueLabel>, frame: Frame, lbl: ValueLabel)
    : (r: Exec<(seq<CachedRange>, set<ValueLabel>)>)
    ensures r.Done? ==> r.value.1 == processed + {lbl}
    ensures lbl in processed ==> r == Done((rs, processed))
    ensures (frame.None? || lbl !in frame.value) ==> r == Done((rs, processed + {lbl}))
  {
    if lbl in processed then Done((rs, processed))
    else if frame.None? || lbl !in frame.value then Done((rs, processed + {lbl}))
    else
      match ApplyAll(rs, lbl, frame.value[lbl])
      case Panic(m) => Panic(m)
      case Done(out) => Done((out, processed + {lbl}))
  }

  /** `process_label` called for each label in turn, stopping at a panic. */
  function ProcessLabels(rs: seq<CachedRange>, processed: set<ValueLabel>, frame: Frame, labels: seq<ValueLabel>)
    : (r: Exec<(seq<CachedRange>, set<ValueLabel>)>)
    decreases |labels|
  {
    if labels == [] then Done((rs, processed))
    else
      match ProcessLabelSpec(rs, processed, frame, labels[0])
      case Panic(m) => Panic(m)
      case Done((rs', processed')) => ProcessLabels(rs', processed', frame, labels[1..])
  }

  // ---- keeping the ranges that know every label ----

  /** `into_ranges`: the ranges recording as many labels as were processed,
   *  in order. */
  function IntoRanges(rs: seq<CachedRange>, processed: set<ValueLabel>): (out: seq<CachedRange>)
    ensures |out| <= |rs|
    ensures forall q :: q in out <==> q in rs && |q.labelLocation| == |processed|
    decreases |rs|
  {
    if rs == [] then []
    else
      var rest := IntoRanges(rs[1..], processed);
      assert forall q :: q in rs <==> q == rs[0] || q in rs[1..];
      if |rs[0].labelLocation| == |processed| then [rs[0]] + rest else rest
  }

  lemma {:induction false} SubsetOfSameSize<T>(a: set<T>, b: set<T>)
    requires a <= b && |a| == |b|
    ensures a == b
    decreases |b|
  {
    if b != {} {
      var x :| x in b;
      if x in a {
        SubsetOfSameSize(a - {x}, b - {x});
        assert a == (a - {x}) + {x} && b == (b - {x}) + {x};
      } else {
        assert a <= b - {x};
        SubsetSize(a, b - {x});
        assert false;
      }
    }
  }

  lemma {:induction false} SubsetSize<T>(a: set<T>, b: set<T>)
    requires a <= b
    ensures |a| <= |b|
    decreases |b|
  {
    if a != {} {
      var x :| x in a;
      SubsetSize(a - {x}, b - {x});
    }
  }

  /** With every recorded label processed, a range is kept exactly when it
   *  records all of them. */
  lemma KeptIffComplete(q: CachedRange, processed: set<ValueLabel>)
    requires q.labelLocation.Keys <= processed
    ensures |q.labelLocation| == |processed| <==> q.labelLocation.Keys == processed
  {
    assert |q.labelLocation| == |q.labelLocation.Keys|;
    if |q.labelLocation| == |processed| {
      SubsetOfSameSize(q.labelLocation.Keys, processed);
    }
  }

  // ---- the builder's invariant and what it yields ----

  /** What holds between the scope's ranges `rs0` and the builder's state:
   *  disjoint ranges, sound locations of processed labels only, the same
   *  coverage, and every covered point where all processed labels are live
   *  covered by a range recording all of them. */
  ghost predicate BuilderInv(rs0: seq<CachedRange>, rs: seq<CachedRange>, processed: set<ValueLabel>, frame: Frame)
  {
    && Disjoint(rs) && Sound(rs, frame) && KeysWithin(rs, processed)
    && (forall f, p :: Covers(rs, f, p) <==> Covers(rs0, f, p))
    && (forall f, p :: Covers(rs0, f, p) && AllLive(frame, processed, p) ==> CoversWith(rs, f, p, processed))
  }

  lemma BuilderInvInit(rs0: seq<CachedRange>, frame: Frame)
    requires Disjoint(rs0) && forall q :: q in rs0 ==> q.labelLocation == map[]
    ensures BuilderInv(rs0, rs0, {}, frame)
  {
    forall f: nat, p: nat | Covers(rs0, f, p) ensures CoversWith(rs0, f, p, {}) {
      var k :| 0 <= k < |rs0| && rs0[k].funcIndex == f && rs0[k].start <= p < rs0[k].end;
    }
  }

  lemma NotLiveWithoutRanges(frame: Frame, lbl: ValueLabel, labels: set<ValueLabel>, p: nat)
    requires (frame.None? || lbl !in frame.value) && lbl in labels
    ensures !AllLive(frame, labels, p)
  {
    assert !LiveAt(frame, lbl, p);
  }

  lemma ProcessLabelKeepsInv(rs0: seq<CachedRange>, rs: seq<CachedRange>, processed: set<ValueLabel>, frame: Frame, lbl: ValueLabel)
    requires BuilderInv(rs0, rs, processed, frame)
    ensures ProcessLabelSpec(rs, processed, frame, lbl).Done? ==>
      var (rs', processed') := ProcessLabelSpec(rs, processed, frame, lbl).value;
      BuilderInv(rs0, rs', processed', frame)
  {
    if lbl in processed {
    } else if frame.None? || lbl !in frame.value {
      var p' := processed + {lbl};
      forall p: nat ensures !AllLive(frame, p', p) {
        NotLiveWithoutRanges(frame, lbl, p', p);
      }
    } else {
      var vrs := frame.value[lbl];
      var r := ApplyAll(rs, lbl, vrs);
      if r.Done? {
        var out := r.value;
        var p' := processed + {lbl};
        ApplyAllDisjoint(rs, lbl, vrs);
        ApplyAllSound(rs, lbl, vrs, frame, processed);
        forall f: nat, p: nat ensures Covers(out, f, p) <==> Covers(rs0, f, p) {
          ApplyAllCovers(rs, lbl, vrs, f, p);
        }
        forall f: nat, p: nat | Covers(rs0, f, p) && AllLive(frame, p', p) ensures CoversWith(out, f, p, p') {
          assert AllLive(frame, processed, p);
          assert LiveAt(frame, lbl, p);
          ApplyAllCoversWith(rs, lbl, vrs, f, p, processed);
        }
      }
    }
  }

  lemma {:induction false} ProcessLabelsKeepInv(rs0: seq<CachedRange>, rs: seq<CachedRange>, processed: set<ValueLabel>, frame: Frame, labels: seq<ValueLabel>)
    requires BuilderInv(rs0, rs, processed, frame)
    ensures ProcessLabels(rs, processed, frame, labels).Done? ==>
      var (rs', processed') := ProcessLabels(rs, processed, frame, labels).value;
      BuilderInv(rs0, rs', processed', frame) && processed' == processed + set l | l in labels
    decreases |labels|
  {
    if labels != [] {
      ProcessLabelKeepsInv(rs0, rs, processed, frame, labels[0]);
      var r := ProcessLabelSpec(rs, processed, frame, labels[0]);
      if r.Done? {
        ProcessLabelsKeepInv(rs0, r.value.0, r.value.1, frame, labels[1..]);
        assert (set l | l in labels) == {labels[0]} + set l | l in labels[1..];
      }
    }
  }

  /** Kept ranges record every processed label and only those, each at a
   *  location the frame gives over the whole range. */
  lemma KeptRecordAll(rs0: seq<CachedRange>, rs: seq<CachedRange>, processed: set<ValueLabel>, frame: Frame)
    requires BuilderInv(rs0, rs, processed, frame)
    ensures forall q :: q in IntoRanges(rs, processed) ==> q.labelLocation.Keys == processed && RangeSound(q, frame)
  {
    forall q | q in IntoRanges(rs, processed) ensures q.labelLocation.Keys == processed && RangeSound(q, frame) {
      KeptIffComplete(q, processed);
    }
  }

  /** A point a kept range covers is covered by the scope, and every
   *  processed label is live there. */
  lemma KeptCoverLive(rs0: seq<CachedRange>, rs: seq<CachedRange>, processed: set<ValueLabel>, frame: Frame, f: nat, p: nat)
    requires BuilderInv(rs0, rs, processed, frame)
    requires Covers(IntoRanges(rs, processed), f, p)
    ensures Covers(rs0, f, p) && AllLive(frame, processed, p)
  {
    var kept := IntoRanges(rs, processed);
    var k :| 0 <= k < |kept| && kept[k].funcIndex == f && kept[k].start <= p < kept[k].end;
    var q := kept[k];
    assert q in kept;
    KeptRecordAll(rs0, rs, processed, frame);
    var m :| 0 <= m < |rs| && rs[m] == q;
    assert Covers(rs, f, p);
    forall l | l in processed ensures LiveAt(frame, l, p) {
      assert l in q.labelLocation;
      var v :| v in frame.value[l] && v.loc == q.labelLocation[l] && v.start <= q.start && q.end <= v.end;
    }
  }

  /** A point the scope covers where every processed label is live is
   *  covered by a kept range. */
  lemma LiveCoverKept(rs0: seq<CachedRange>, rs: seq<CachedRange>, processed: set<ValueLabel>, frame: Frame, f: nat, p: nat)
    requires BuilderInv(rs0, rs, processed, frame)
    requires Covers(rs0, f, p) && AllLive(frame, processed, p)
    ensures Covers(IntoRanges(rs, processed), f, p)
  {
    assert CoversWith(rs, f, p, processed);
    CompleteCoverKept(rs, processed, f, p);
  }

  /** A range that records every processed label, and no other, is kept. */
  lemma CompleteCoverKept(rs: seq<CachedRange>, processed: set<ValueLabel>, f: nat, p: nat)
    requires KeysWithin(rs, processed) && CoversWith(rs, f, p, processed)
    ensures Covers(IntoRanges(rs, processed), f, p)
  {
    var k :| 0 <= k < |rs| && rs[k].funcIndex == f && rs[k].start <= p < rs[k].end
      && processed <= rs[k].labelLocation.Keys;
    var q := rs[k];
    assert q in rs;
    KeptIffComplete(q, processed);
    var kept := IntoRanges(rs, processed);
    assert q in kept;
    var m :| 0 <= m < |kept| && kept[m] == q;
    assert kept[m].funcIndex == f && kept[m].start <= p < kept[m].end;
  }

  /** What the builder yields: after processing some labels, native offset
   *  `p` of function `f` is covered by a kept range exactly when the scope
   *  covers it and every processed label is live there; each kept range
   *  records a location for every processed label. */
  lemma BuilderYield(rs0: seq<CachedRange>, frame: Frame, labels: seq<ValueLabel>, f: nat, p: nat)
    requires Disjoint(rs0) && forall q :: q in rs0 ==> q.labelLocation == map[]
    ensures ProcessLabels(rs0, {}, frame, labels).Done? ==>
      var (rs, processed) := ProcessLabels(rs0, {}, frame, labels).value;
      && processed == (set l | l in labels)
      && (Covers(IntoRanges(rs, processed), f, p) <==> Covers(rs0, f, p) && AllLive(frame, processed, p))
      && (forall q :: q in IntoRanges(rs, processed) ==> q.labelLocation.Keys == processed)
  {
    BuilderInvInit(rs0, frame);
    ProcessLabelsKeepInv(rs0, rs0, {}, frame, labels);
    var r := ProcessLabels(rs0, {}, frame, labels);
    if r.Done? {
      YieldOfInv(rs0, r.value.0, r.value.1, frame, f, p);
    }
  }

  lemma YieldOfInv(rs0: seq<CachedRange>, rs: seq<CachedRange>, processed: set<ValueLabel>, frame: Frame, f: nat, p: nat)
    requires BuilderInv(rs0, rs, processed, frame)
    ensures Covers(IntoRanges(rs, processed), f, p) <==> Covers(rs0, f, p) && AllLive(frame, processed, p)
    ensures forall q :: q in IntoRanges(rs, processed) ==> q.labelLocation.Keys == processed
  {
    KeptRecordAll(rs0, rs, processed, frame);
    if Covers(IntoRanges(rs, processed), f, p) {
      KeptCoverLive(rs0, rs, processed, frame, f, p);
    }
    if Covers(rs0, f, p) && AllLive(frame, processed, p) {
      LiveCoverKept(rs0, rs, processed, frame, f, p);
    }
  }

  // ---- `binary_search_by` on the starts ----

  /** The first range starting at or after `x`. */
  function FirstAtLeast(rs: seq<CachedRange>, x: nat): (i: nat)
    ensures i <= |rs|
    ensures forall k :: 0 <= k < i ==> rs[k].start < x
    ensures i < |rs| ==> rs[i].start >= x
    decreases |rs|
  {
    if rs == [] || rs[0].start >= x then 0 else 1 + FirstAtLeast(rs[1..], x)
  }

  /** `binary_search_by(|r| r.start.cmp(&x))` over ranges sorted by start:
   *  `Ok` with a range starting at `x`, or `Err` with the place `x` would
   *  be inserted. With distinct starts the answer is unique. */
  function SearchStart(rs: seq<CachedRange>, x: nat): (r: Result<nat, nat>)
    ensures r.Ok? ==> r.value < |rs| && rs[r.value].start == x
    ensures r.Err? ==> r.error <= |rs| && (forall k :: 0 <= k < r.error ==> rs[k].start < x)
    ensures r.Err? && SortedByStart(rs) ==> forall k :: r.error <= k < |rs| ==> rs[k].start > x
    ensures r.Ok? ==> forall k :: 0 <= k < r.value ==> rs[k].start < x
  {
    var i := FirstAtLeast(rs, x);
    if i < |rs| && rs[i].start == x then Ok(i) else Err(i)
  }

  lemma FirstAtLeastMonotone(rs: seq<CachedRange>, x: nat, y: nat)
    requires x <= y
    ensures FirstAtLeast(rs, x) <= FirstAtLeast(rs, y)
  {
  }

  lemma DisjointSorted(rs: seq<CachedRange>)
    requires Disjoint(rs)
    ensures SortedByStart(rs)
  {
    forall k, m | 0 <= k < m < |rs| ensures rs[k].start <= rs[m].start {
      assert rs[k].start < rs[k].end <= rs[m].start;
    }
  }

  /** The ranges outside the window the searches pick do not meet `[s, e)`. */
  lemma OutsideWindow(rs: seq<CachedRange>, s: nat, e: nat, i: nat, j: nat)
    requires Disjoint(rs) && s < e
    requires i == match SearchStart(rs, s)
                 case Ok(i0) => i0
                 case Err(i0) => if i0 > 0 && s < rs[i0 - 1].end then i0 - 1 else i0
    requires j == match SearchStart(rs, e) case Ok(j0) => j0 case Err(j0) => j0
    ensures i <= j <= |rs|
    ensures forall k :: 0 <= k < i ==> !Intersects(rs[k], s, e)
    ensures forall k :: j <= k < |rs| ==> !Intersects(rs[k], s, e)
  {
    DisjointSorted(rs);
    FirstAtLeastMonotone(rs, s, e);
    var i0 := FirstAtLeast(rs, s);
    assert i0 - 1 <= i <= i0;
    forall k | 0 <= k < i ensures !Intersects(rs[k], s, e) {
      if k < i0 - 1 {
        assert rs[k].end <= rs[i0 - 1].start;
      }
    }
  }

  /** Cutting a window of ranges is cutting the whole list when the ranges
   *  outside the window are untouched. */
  lemma ApplyWindow(rs: seq<CachedRange>, s: nat, e: nat, lbl: ValueLabel, loc: ValueLoc, i: nat, j: nat)
    requires i <= j <= |rs|
    requires forall k :: 0 <= k < i ==> !Intersects(rs[k], s, e)
    requires forall k :: j <= k < |rs| ==> !Intersects(rs[k], s, e)
    ensures rs[..i] + Apply(rs[i..j], s, e, lbl, loc) + rs[j..] == Apply(rs, s, e, lbl, loc)
  {
    var before, window, after := rs[..i], rs[i..j], rs[j..];
    ApplyUntouched(before, s, e, lbl, loc);
    ApplyUntouched(after, s, e, lbl, loc);
    ApplyAppend(before, window, s, e, lbl, loc);
    ApplyAppend(before + window, after, s, e, lbl, loc);
    ThreeSlices(rs, i, j);
  }

  lemma ThreeSlices<T>(rs: seq<T>, i: nat, j: nat)
    requires i <= j <= |rs|
    ensures rs[..i] + rs[i..j] + rs[j..] == rs
  {
  }

  /** One step of the backward loop: cutting range `k - 1` in place extends
   *  the cut part of the window by one range. */
  lemma WindowStep(rs: seq<CachedRange>, cur: seq<CachedRange>, s: nat, e: nat, lbl: ValueLabel, loc: ValueLoc, k: nat, j: nat)
    requires 0 < k <= j <= |rs|
    requires cur == rs[..k] + Apply(rs[k..j], s, e, lbl, loc) + rs[j..]
    ensures k - 1 < |cur| && cur[k - 1] == rs[k - 1]
    ensures cur[..k - 1] + SplitRange(cur[k - 1], s, e, lbl, loc) + cur[k..]
      == rs[..k - 1] + Apply(rs[k - 1..j], s, e, lbl, loc) + rs[j..]
  {
    var mid := Apply(rs[k..j], s, e, lbl, loc);
    WindowShape(rs, cur, mid, k, j);
    var w := rs[k - 1..j];
    assert w[0] == rs[k - 1] && w[1..] == rs[k..j];
    ApplyHead(w, s, e, lbl, loc);
    Assoc3(rs[..k - 1], SplitRange(rs[k - 1], s, e, lbl, loc), mid, rs[j..]);
  }

  /** A window of a list replaced by `mid`, taken apart at `k - 1`. */
  lemma WindowShape<T>(rs: seq<T>, cur: seq<T>, mid: seq<T>, k: nat, j: nat)
    requires 0 < k <= j <= |rs|
    requires cur == rs[..k] + mid + rs[j..]
    ensures k - 1 < |cur| && cur[k - 1] == rs[k - 1]
    ensures cur[..k - 1] == rs[..k - 1] && cur[k..] == mid + rs[j..]
  {
  }

  lemma Assoc3<T>(a: seq<T>, b: seq<T>, c: seq<T>, d: seq<T>)
    ensures a + b + (c + d) == a + (b + c) + d
  {
  }

  lemma WindowInit(rs: seq<CachedRange>, s: nat, e: nat, lbl: ValueLabel, loc: ValueLoc, j: nat)
    requires j <= |rs|
    ensures rs == rs[..j] + Apply(rs[j..j], s, e, lbl, loc) + rs[j..]
  {
    assert rs[j..j] == [];
  }

  /** The same step when range `k - 1` does not meet the live range. */
  lemma WindowSkip(rs: seq<CachedRange>, cur: seq<CachedRange>, s: nat, e: nat, lbl: ValueLabel, loc: ValueLoc, k: nat, j: nat)
    requires 0 < k <= j <= |rs|
    requires cur == rs[..k] + Apply(rs[k..j], s, e, lbl, loc) + rs[j..]
    requires !Intersects(rs[k - 1], s, e)
    ensures cur == rs[..k - 1] + Apply(rs[k - 1..j], s, e, lbl, loc) + rs[j..]
  {
    WindowStep(rs, cur, s, e, lbl, loc, k, j);
    assert SplitRange(rs[k - 1], s, e, lbl, loc) == [cur[k - 1]];
    Rejoin(cur, k - 1);
  }

  lemma Rejoin<T>(cur: seq<T>, i: nat)
    requires i < |cur|
    ensures cur[..i] + [cur[i]] + cur[i + 1..] == cur
  {
  }

  lemma ApplyHead(rs: seq<CachedRange>, s: nat, e: nat, lbl: ValueLabel, loc: ValueLoc)
    requires rs != []
    ensures Apply(rs, s, e, lbl, loc) == SplitRange(rs[0], s, e, lbl, loc) + Apply(rs[1..], s, e, lbl, loc)
  {
  }

  /** Once a prefix of the live ranges panics, so do all of them. */
  lemma {:induction false} ApplyAllPanicStays(rs: seq<CachedRange>, lbl: ValueLabel, vrs: seq<ValueLocRange>, n: nat)
    requires n <= |vrs| && ApplyAll(rs, lbl, vrs[..n]).Panic?
    ensures ApplyAll(rs, lbl, vrs) == ApplyAll(rs, lbl, vrs[..n])
    decreases |vrs| - n
  {
    if n < |vrs| {
      assert vrs[..n + 1][..n] == vrs[..n];
      ApplyAllPanicStays(rs, lbl, vrs, n + 1);
    } else {
      assert vrs[..n] == vrs;
    }
  }

  /** Replacing the first element of the middle part of a list. */
  lemma SetFirst<T>(rs: seq<T>, pre: seq<T>, mid: seq<T>, post: seq<T>, x: T)
    requires rs == pre + mid + post && |mid| >= 1
    ensures rs[|pre| := x] == pre + ([x] + mid[1..]) + post
  {
  }

  /** Inserting after the first element of the middle part of a list. */
  lemma InsertSecond<T>(rs: seq<T>, pre: seq<T>, mid: seq<T>, post: seq<T>, x: T)
    requires rs == pre + mid + post && |mid| >= 1
    ensures rs[..|pre| + 1] + [x] + rs[|pre| + 1..] == pre + ([mid[0], x] + mid[1..]) + post
  {
    assert rs[..|pre| + 1] == pre + [mid[0]];
    assert rs[|pre| + 1..] == mid[1..] + post;
  }

  // ---- the builder object ----

  /** `ValueLabelRangesBuilder`: the scope's ranges, the labels processed so
   *  far, and the frame's live ranges per label. */
  class ValueLabelRangesBuilder {
    var ranges: seq<CachedRange>
    var processed: set<ValueLabel>
    const frame: Frame

    /** `new`: the native ranges of every scope entry, unlabelled, sorted by
     *  start. */
    constructor(translated: seq<Option<(nat, seq<(nat, nat)>)>>, frame: Frame)
      ensures this.frame == frame && processed == {}
      ensures SortedByStart(ranges) && multiset(ranges) == multiset(ScopeRanges(translated))
      ensures forall q :: q in ranges ==> q.labelLocation == map[]
    {
      var rs: seq<CachedRange> := [];
      var i := 0;
      while i < |translated|
        invariant 0 <= i <= |translated|
        invariant rs == ScopeRanges(translated[..i])
      {
        assert translated[..i + 1][..i] == translated[..i];
        match translated[i] {
          case None =>
          case Some((f, tr)) =>
            rs := rs + Unlabelled(f, tr);
        }
        i := i + 1;
      }
      assert translated[..i] == translated;
      var sorted := SortByStart(rs);
      forall q | q in sorted ensures q.labelLocation == map[] {
        assert q in multiset(rs);
      }
      ranges := sorted;
      this.frame := frame;
      processed := {};
    }

    /** One step of the backward loop of `process_label`: range `k`, which
     *  meets `[s, e)`, is cut where the live range ends and where it
     *  starts, and the piece inside records the label's location. */
    method SplitAt(k: nat, s: nat, e: nat, lbl: ValueLabel, loc: ValueLoc)
      requires k < |ranges| && s < e && Intersects(ranges[k], s, e)
      modifies this
      ensures ranges == old(ranges[..k]) + SplitRange(old(ranges[k]), s, e, lbl, loc) + old(ranges[k + 1..])
      ensures processed == old(processed)
    {
      ghost var pre, post := ranges[..k], ranges[k + 1..];
      ghost var r0 := ranges[k];
      ghost var mid := [r0];
      assert ranges == pre + mid + post;
      if e < ranges[k].end {
        var tail := ranges[k];
        SetFirst(ranges, pre, mid, post, ranges[k].(end := e));
        ranges := ranges[k := ranges[k].(end := e)];
        mid := [r0.(end := e)];
        tail := tail.(start := e);
        InsertSecond(ranges, pre, mid, post, tail);
        ranges := ranges[..k + 1] + [tail] + ranges[k + 1..];
        mid := [r0.(end := e), r0.(start := e)];
      }
      assert ranges[k] == mid[0] && mid[0].end <= e;
      if s <= ranges[k].start {
        SetFirst(ranges, pre, mid, post, ranges[k].(labelLocation := ranges[k].labelLocation[lbl := loc]));
        ranges := ranges[k := ranges[k].(labelLocation := ranges[k].labelLocation[lbl := loc])];
        mid := [mid[0].(labelLocation := mid[0].labelLocation[lbl := loc])] + mid[1..];
        assert mid == SplitRange(r0, s, e, lbl, loc);
        return;
      }
      var tail := ranges[k];
      SetFirst(ranges, pre, mid, post, ranges[k].(end := s));
      ranges := ranges[k := ranges[k].(end := s)];
      mid := [mid[0].(end := s)] + mid[1..];
      tail := tail.(start := s, labelLocation := tail.labelLocation[lbl := loc]);
      InsertSecond(ranges, pre, mid, post, tail);
      ranges := ranges[..k + 1] + [tail] + ranges[k + 1..];
      mid := [mid[0], tail] + mid[1..];
      assert mid == SplitRange(r0, s, e, lbl, loc);
    }

    /** The body of `process_label`'s loop for one non-empty live range:
     *  find the window of ranges that may meet it and cut them, last first. */
    method ApplyValueRange(s: nat, e: nat, lbl: ValueLabel, loc: ValueLoc)
      requires Disjoint(ranges) && s < e
      modifies this
      ensures ranges == Apply(old(ranges), s, e, lbl, loc)
      ensures processed == old(processed)
    {
      ghost var rs := ranges;
      var i: nat;
      match SearchStart(ranges, s) {
        case Ok(i0) =>
          i := i0;
        case Err(i0) =>
          i := if i0 > 0 && s < ranges[i0 - 1].end then i0 - 1 else i0;
      }
      var j := match SearchStart(ranges, e) case Ok(j0) => j0 case Err(j0) => j0;
      OutsideWindow(rs, s, e, i, j);
      CutWindow(i, j, s, e, lbl, loc);
      ApplyWindow(rs, s, e, lbl, loc, i, j);
    }

    /** The backward loop over the window `[i, j)`: each range that meets
     *  `[s, e)` is cut in place, the last one first, so the indices still
     *  to visit do not move. */
    method CutWindow(i: nat, j: nat, s: nat, e: nat, lbl: ValueLabel, loc: ValueLoc)
      requires i <= j <= |ranges| && s < e
      modifies this
      ensures ranges == old(ranges[..i]) + Apply(old(ranges[i..j]), s, e, lbl, loc) + old(ranges[j..])
      ensures processed == old(processed)
    {
      ghost var rs := ranges;
      WindowInit(rs, s, e, lbl, loc, j);
      var k := j;
      while k > i
        invariant i <= k <= j
        invariant ranges == rs[..k] + Apply(rs[k..j], s, e, lbl, loc) + rs[j..]
        invariant processed == old(processed)
        decreases k
      {
        WindowStep(rs, ranges, s, e, lbl, loc, k, j);
        if !(e <= ranges[k - 1].start || ranges[k - 1].end <= s) {
          SplitAt(k - 1, s, e, lbl, loc);
        } else {
          WindowSkip(rs, ranges, s, e, lbl, loc, k, j);
        }
        k := k - 1;
      }
    }

    /** `process_label`. */
    method ProcessLabel(lbl: ValueLabel) returns (r: Exec<()>)
      requires Disjoint(ranges)
      modifies this
      ensures ProcessLabelSpec(old(ranges), old(processed), frame, lbl).Panic? ==>
        r == Panic(ProcessLabelSpec(old(ranges), old(processed), frame, lbl).msg)
      ensures ProcessLabelSpec(old(ranges), old(processed), frame, lbl).Done? ==>
        r == Done(()) && (ranges, processed) == ProcessLabelSpec(old(ranges), old(processed), frame, lbl).value
      ensures r.Done? ==> Disjoint(ranges)
    {
      ghost var rs := ranges;
      if lbl in processed {
        return Done(());
      }
      processed := processed + {lbl};
      if frame.None? || lbl !in frame.value {
        return Done(());
      }
      var vrs := frame.value[lbl];
      var n := 0;
      while n < |vrs|
        invariant 0 <= n <= |vrs|
        invariant processed == old(processed) + {lbl}
        invariant ApplyAll(rs, lbl, vrs[..n]) == Done(ranges)
        invariant Disjoint(ranges)
      {
        var v := vrs[n];
        assert vrs[..n + 1][..n] == vrs[..n];
        if v.start != v.end {
          if v.start > v.end {
            ApplyAllPanicStays(rs, lbl, vrs, n + 1);
            return Panic(RANGE_ORDER_PANIC);
          }
          ghost var before := ranges;
          ApplyValueRange(v.start, v.end, lbl, v.loc);
          ApplyDisjoint(before, v.start, v.end, lbl, v.loc);
        }
        n := n + 1;
      }
      assert vrs[..n] == vrs;
      r := Done(());
    }
  }

  // ---- the builder on the source's own example ----

  /** The frame of the example: label 0 live over [0, 25), label 1 over
   *  [5, 30), label 2 over [0, 10) and [20, 30). */
  function ExampleFrame(): (frame: Frame)
    ensures frame.Some? && frame.value.Keys == {0, 1, 2}
  {
    Some(map[
      0 := [ValueLocRange(Unassigned, 0, 25)],
      1 := [ValueLocRange(Unassigned, 5, 30)],
      2 := [ValueLocRange(Unassigned, 0, 10), ValueLocRange(Unassigned, 20, 30)]])
  }

  /** With no label processed, the whole function range comes through. */
  lemma ExampleNoLabels()
    ensures IntoRanges([CachedRange(0, 0, 30, map[])], {}) == [CachedRange(0, 0, 30, map[])]
  {
  }

  /** Labels 0 and 1 are both live over [5, 25) only. */
  lemma ExampleTwoLabels()
    ensures var r := ProcessLabels([CachedRange(0, 0, 30, map[])], {}, ExampleFrame(), [0, 1]);
      && r.Done?
      && var kept := IntoRanges(r.value.0, r.value.1);
      && |kept| == 1 && kept[0].start == 5 && kept[0].end == 25
  {
    var frame := ExampleFrame();
    var r0 := [CachedRange(0, 0, 30, map[])];
    var m0: map<ValueLabel, ValueLoc> := map[0 := Unassigned];
    var m1: map<ValueLabel, ValueLoc> := map[0 := Unassigned, 1 := Unassigned];
    var r1 := [CachedRange(0, 0, 25, m0), CachedRange(0, 25, 30, map[])];
    var v0 := ValueLocRange(Unassigned, 0, 25);
    assert frame.value[0] == [v0] && [v0][..0] == [];
    assert SplitRange(r0[0], 0, 25, 0, Unassigned) == r1;
    assert Apply(r0, 0, 25, 0, Unassigned) == r1;
    assert ApplyAll(r0, 0, [v0]) == Done(r1);
    var none: set<ValueLabel> := {};
    assert 0 in frame.value && none + {0} == {0};
    assert ProcessLabelSpec(r0, {}, frame, 0) == Done((r1, {0}));
    var r2 := [CachedRange(0, 0, 5, m0), CachedRange(0, 5, 25, m1), CachedRange(0, 25, 30, map[1 := Unassigned])];
    var v1 := ValueLocRange(Unassigned, 5, 30);
    assert frame.value[1] == [v1] && [v1][..0] == [];
    assert SplitRange(r1[0], 5, 30, 1, Unassigned) == r2[..2];
    assert SplitRange(r1[1], 5, 30, 1, Unassigned) == r2[2..];
    assert Apply(r1[1..], 5, 30, 1, Unassigned) == r2[2..];
    assert Apply(r1, 5, 30, 1, Unassigned) == r2;
    assert ApplyAll(r1, 1, [v1]) == Done(r2);
    assert 1 in frame.value && {0} + {1} == {0, 1};
    assert ProcessLabelSpec(r1, {0}, frame, 1) == Done((r2, {0, 1}));
    assert ProcessLabels(r0, {}, frame, [0, 1]) == Done((r2, {0, 1}));
    assert |m0| == 1 && |m1| == 2 && |map[1 := Unassigned]| == 1 && |{0, 1}| == 2;
    assert IntoRanges(r2[2..], {0, 1}) == [];
    assert IntoRanges(r2[1..], {0, 1}) == [r2[1]];
    assert IntoRanges(r2, {0, 1}) == [r2[1]];
  }

  /** Scope [0, 23) of function 0 and all three labels: a kept range covers
   *  exactly [5, 10) and [20, 23). */
  lemma ExampleThreeLabels(p: nat)
    ensures var r := ProcessLabels([CachedRange(0, 0, 23, map[])], {}, ExampleFrame(), [0, 1, 2]);
      && r.Done?
      && (Covers(IntoRanges(r.value.0, r.value.1), 0, p) <==> 5 <= p < 10 || 20 <= p < 23)
      && var kept := IntoRanges(r.value.0, r.value.1);
      && |kept| == 2 && kept[0].start == 5 && kept[0].end == 10 && kept[1].start == 20 && kept[1].end == 23
  {
    ExampleThreeLabelsProcessed();
    ExampleThreeLabelsKept();
    ExampleThreeLabelsLive(p);
  }

  /** The example's kept ranges are where the whole scope and all three
   *  labels are live, by the general builder lemma. */
  lemma ExampleThreeLabelsLive(p: nat)
    ensures var r := ProcessLabels([CachedRange(0, 0, 23, map[])], {}, ExampleFrame(), [0, 1, 2]);
      r.Done? ==> (Covers(IntoRanges(r.value.0, r.value.1), 0, p) <==> 5 <= p < 10 || 20 <= p < 23)
  {
    var frame := ExampleFrame();
    var rs0 := [CachedRange(0, 0, 23, map[])];
    BuilderYield(rs0, frame, [0, 1, 2], 0, p);
    assert (set l | l in [0, 1, 2]) == {0, 1, 2};
    ExampleAllLive(p);
    assert Covers(rs0, 0, p) <==> p < 23 by {
      if p < 23 {
        assert rs0[0].start <= p < rs0[0].end;
      }
    }
  }

  /** The three labels of the example leave four ranges in scope [0, 23). */
  lemma ExampleThreeLabelsProcessed()
    ensures ProcessLabels([CachedRange(0, 0, 23, map[])], {}, ExampleFrame(), [0, 1, 2])
      == Done((ExampleLabelTwoRanges(), {0, 1, 2}))
  {
    var frame := ExampleFrame();
    var r0 := [CachedRange(0, 0, 23, map[])];
    var r1 := [CachedRange(0, 0, 23, map[0 := Unassigned])];
    var r2 := ExampleLabelOneRanges();
    var r4 := ExampleLabelTwoRanges();
    ExampleLabelZero();
    ExampleLabelOne();
    ExampleLabelTwo();
    assert ProcessLabels(r2, {0, 1}, frame, [2]) == Done((r4, {0, 1, 2}));
    assert ProcessLabels(r1, {0}, frame, [1, 2]) == Done((r4, {0, 1, 2}));
  }

  /** Of those four ranges, the two that every label reaches are kept. */
  lemma ExampleThreeLabelsKept()
    ensures var rs := ExampleLabelTwoRanges();
      IntoRanges(rs, {0, 1, 2}) == [rs[1], rs[3]]
  {
    var r4 := ExampleLabelTwoRanges();
    var m01: map<ValueLabel, ValueLoc> := map[0 := Unassigned, 1 := Unassigned];
    var m02: map<ValueLabel, ValueLoc> := map[0 := Unassigned, 2 := Unassigned];
    var m012: map<ValueLabel, ValueLoc> := map[0 := Unassigned, 1 := Unassigned, 2 := Unassigned];
    assert |m01| == 2 && |m02| == 2 && |m012| == 3 && |{0, 1, 2}| == 3;
    assert IntoRanges(r4[3..], {0, 1, 2}) == [r4[3]];
    assert IntoRanges(r4[2..], {0, 1, 2}) == [r4[3]];
    assert IntoRanges(r4[1..], {0, 1, 2}) == [r4[1], r4[3]];
  }

  /** The ranges of scope [0, 23) after labels 0 and 1. */
  function ExampleLabelOneRanges(): (rs: seq<CachedRange>)
    ensures |rs| == 2 && rs[0].end == rs[1].start == 5
  {
    [CachedRange(0, 0, 5, map[0 := Unassigned]), CachedRange(0, 5, 23, map[0 := Unassigned, 1 := Unassigned])]
  }

  /** The ranges of scope [0, 23) after all three labels. */
  function ExampleLabelTwoRanges(): (rs: seq<CachedRange>)
    ensures |rs| == 4 && rs[1].start == 5 && rs[1].end == 10 && rs[3].start == 20 && rs[3].end == 23
  {
    [CachedRange(0, 0, 5, map[0 := Unassigned, 2 := Unassigned]),
     CachedRange(0, 5, 10, map[0 := Unassigned, 1 := Unassigned, 2 := Unassigned]),
     CachedRange(0, 10, 20, map[0 := Unassigned, 1 := Unassigned]),
     CachedRange(0, 20, 23, map[0 := Unassigned, 1 := Unassigned, 2 := Unassigned])]
  }

  /** Label 0 of the example, live over [0, 25), covers all of [0, 23). */
  lemma ExampleLabelZero()
    ensures ProcessLabelSpec([CachedRange(0, 0, 23, map[])], {}, ExampleFrame(), 0)
      == Done(([CachedRange(0, 0, 23, map[0 := Unassigned])], {0}))
  {
    var frame := ExampleFrame();
    var r0 := [CachedRange(0, 0, 23, map[])];
    var r1 := [CachedRange(0, 0, 23, map[0 := Unassigned])];
    var v0 := ValueLocRange(Unassigned, 0, 25);
    assert frame.value[0] == [v0] && [v0][..0] == [];
    assert SplitRange(r0[0], 0, 25, 0, Unassigned) == r1;
    assert Apply(r0, 0, 25, 0, Unassigned) == r1;
    assert ApplyAll(r0, 0, [v0]) == Done(r1);
    var none: set<ValueLabel> := {};
    assert 0 in frame.value && none + {0} == {0};
  }

  /** Label 1 of the example, live over [5, 30), splits the range at 5. */
  lemma ExampleLabelOne()
    ensures ProcessLabelSpec([CachedRange(0, 0, 23, map[0 := Unassigned])], {0}, ExampleFrame(), 1)
      == Done((ExampleLabelOneRanges(), {0, 1}))
  {
    var frame := ExampleFrame();
    var r1 := [CachedRange(0, 0, 23, map[0 := Unassigned])];
    var r2 := ExampleLabelOneRanges();
    var v1 := ValueLocRange(Unassigned, 5, 30);
    assert frame.value[1] == [v1] && [v1][..0] == [];
    assert SplitRange(r1[0], 5, 30, 1, Unassigned) == r2;
    assert Apply(r1, 5, 30, 1, Unassigned) == r2;
    assert ApplyAll(r1, 1, [v1]) == Done(r2);
    assert 1 in frame.value && {0} + {1} == {0, 1};
  }

  /** Label 2 of the example, live over [0, 10) and [20, 30), splits at 10
   *  and at 20. */
  lemma ExampleLabelTwo()
    ensures ProcessLabelSpec(ExampleLabelOneRanges(), {0, 1}, ExampleFrame(), 2)
      == Done((ExampleLabelTwoRanges(), {0, 1, 2}))
  {
    var frame := ExampleFrame();
    var r2 := ExampleLabelOneRanges();
    var m01: map<ValueLabel, ValueLoc> := map[0 := Unassigned, 1 := Unassigned];
    var m02: map<ValueLabel, ValueLoc> := map[0 := Unassigned, 2 := Unassigned];
    var m012: map<ValueLabel, ValueLoc> := map[0 := Unassigned, 1 := Unassigned, 2 := Unassigned];
    var r3 := [CachedRange(0, 0, 5, m02), CachedRange(0, 5, 10, m012), CachedRange(0, 10, 23, m01)];
    var v2 := ValueLocRange(Unassigned, 0, 10);
    var v3 := ValueLocRange(Unassigned, 20, 30);
    assert frame.value[2] == [v2, v3] && [v2, v3][..1] == [v2] && [v2][..0] == [];
    ExampleLabelTwoFirst(r2, r3);
    var r4 := ExampleLabelTwoRanges();
    ExampleLabelTwoSecond(r3, r4);
    assert ApplyAll(r2, 2, [v2, v3]) == Done(r4);
    assert 2 in frame.value && {0, 1} + {2} == {0, 1, 2};
  }

  lemma ExampleLabelTwoFirst(r2: seq<CachedRange>, r3: seq<CachedRange>)
    requires r2 == ExampleLabelOneRanges()
    requires r3 == [CachedRange(0, 0, 5, map[0 := Unassigned, 2 := Unassigned]),
      CachedRange(0, 5, 10, map[0 := Unassigned, 1 := Unassigned, 2 := Unassigned]),
      CachedRange(0, 10, 23, map[0 := Unassigned, 1 := Unassigned])]
    ensures ApplyAll(r2, 2, [ValueLocRange(Unassigned, 0, 10)]) == Done(r3)
  {
    var v2 := ValueLocRange(Unassigned, 0, 10);
    assert [v2][..0] == [];
    assert SplitRange(r2[0], 0, 10, 2, Unassigned) == r3[..1];
    assert SplitRange(r2[1], 0, 10, 2, Unassigned) == r3[1..];
    assert Apply(r2[1..], 0, 10, 2, Unassigned) == r3[1..];
    assert Apply(r2, 0, 10, 2, Unassigned) == r3;
  }

  lemma ExampleLabelTwoSecond(r3: seq<CachedRange>, r4: seq<CachedRange>)
    requires r3 == [CachedRange(0, 0, 5, map[0 := Unassigned, 2 := Unassigned]),
      CachedRange(0, 5, 10, map[0 := Unassigned, 1 := Unassigned, 2 := Unassigned]),
      CachedRange(0, 10, 23, map[0 := Unassigned, 1 := Unassigned])]
    requires r4 == ExampleLabelTwoRanges()
    ensures Apply(r3, 20, 30, 2, Unassigned) == r4
  {
    assert SplitRange(r3[2], 20, 30, 2, Unassigned) == r4[2..];
    assert Apply(r3[2..], 20, 30, 2, Unassigned) == r4[2..];
    assert SplitRange(r3[1], 20, 30, 2, Unassigned) == r4[1..2];
    assert Apply(r3[1..], 20, 30, 2, Unassigned) == r4[1..];
    assert SplitRange(r3[0], 20, 30, 2, Unassigned) == r4[..1];
  }

  lemma ExampleOrdered()
    ensures var frame := ExampleFrame();
      forall l, v :: l in frame.value && v in frame.value[l] ==> v.start <= v.end
  {
  }

  /** Where all three labels of the example are live. */
  lemma ExampleAllLive(p: nat)
    ensures AllLive(ExampleFrame(), {0, 1, 2}, p) <==> 5 <= p < 10 || 20 <= p < 25
  {
    var frame := ExampleFrame();
    assert LiveAt(frame, 0, p) <==> p < 25 by {
      if p < 25 {
        assert frame.value[0][0].start <= p < frame.value[0][0].end;
      }
    }
    assert LiveAt(frame, 1, p) <==> 5 <= p < 30 by {
      if 5 <= p < 30 {
        assert frame.value[1][0].start <= p < frame.value[1][0].end;
      }
    }
    assert LiveAt(frame, 2, p) <==> p < 10 || 20 <= p < 30 by {
      if p < 10 {
        assert frame.value[2][0].start <= p < frame.value[2][0].end;
      } else if 20 <= p < 30 {
        assert frame.value[2][1].start <= p < frame.value[2][1].end;
      }
    }
  }

  /** With no reversed live range in the frame, processing labels never
   *  panics. */
  lemma {:induction false} ProcessLabelsNoPanic(rs: seq<CachedRange>, processed: set<ValueLabel>, frame: Frame, labels: seq<ValueLabel>)
    requires frame.Some? ==> forall l, v :: l in frame.value && v in frame.value[l] ==> v.start <= v.end
    ensures ProcessLabels(rs, processed, frame, labels).Done?
    decreases |labels|
  {
    if labels != [] {
      var lbl := labels[0];
      if lbl !in processed && frame.Some? && lbl in frame.value {
        ApplyAllPanics(rs, lbl, frame.value[lbl]);
      }
      var r := ProcessLabelSpec(rs, processed, frame, lbl);
      ProcessLabelsNoPanic(r.value.0, r.value.1, frame, labels[1..]);
    }
  }
}
