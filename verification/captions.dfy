/**
 * The caption record every component exchanges, the first-match lookup used
 * by both the preview and the exporter, and the order-preserving filter-map
 * that every transcript converter is an instance of.
 */
module Captions {
  import opened Wrappers

  /** One timed subtitle: `{ start, end, text }`, times in seconds. */
  datatype Caption = Caption(start: real, end: real, text: string)

  /** The three caption presets. */
  datatype Style = Bottom | Top | Karaoke

  /** `currentTime >= caption.start && currentTime <= caption.end`: inclusive at both ends. */
  predicate Shows(c: Caption, t: real) {
    c.start <= t <= c.end
  }

  /**
   * `captions.find(c => Shows(c, t))`, as a position: the FIRST caption in
   * list order that shows at `t`, or None when no caption does.
   */
  function Find(cs: seq<Caption>, t: real): (r: Option<nat>)
    ensures r.Some? ==> r.value < |cs| && Shows(cs[r.value], t)
    ensures r.Some? ==> forall j | 0 <= j < r.value :: !Shows(cs[j], t)
    ensures r.None? <==> forall j | 0 <= j < |cs| :: !Shows(cs[j], t)
  {
    if cs == [] then None
    else if Shows(cs[0], t) then Some(0)
    else match Find(cs[1..], t)
      case None => None
      case Some(k) => Some(k + 1)
  }

  /** On overlap the earlier list entry wins, whatever the starts are; an empty list shows nothing. */
  lemma FindPrefersListOrder()
    ensures Find([Caption(2.0, 5.0, "B"), Caption(0.0, 3.0, "A")], 2.5) == Some(0)
    ensures Find([Caption(0.0, 3.0, "A"), Caption(2.0, 5.0, "B")], 2.5) == Some(0)
    ensures Find([], 1.0) == None
  {
    assert Shows(Caption(2.0, 5.0, "B"), 2.5);
    assert Shows(Caption(0.0, 3.0, "A"), 2.5);
  }

  /** The list `o` contributes to a filter-map's output. */
  function Emit<B>(o: Option<B>): seq<B> {
    match o
    case Some(y) => [y]
    case None => []
  }

  /**
   * The loop `for (x of xs) { const y = f(x); if (y) out.push(y) }`: keeps,
   * in order, the images of the elements that `f` maps to Some.
   */
  function FilterMap<A, B>(xs: seq<A>, f: A -> Option<B>): (r: seq<B>)
    ensures |r| <= |xs|
  {
    if xs == [] then [] else FilterMap(xs[..|xs| - 1], f) + Emit(f(xs[|xs| - 1]))
  }

  /** The positions of `xs` that `f` keeps, in ascending order. */
  function Kept<A, B>(xs: seq<A>, f: A -> Option<B>): seq<nat> {
    if xs == [] then []
    else Kept(xs[..|xs| - 1], f) + (if f(xs[|xs| - 1]).Some? then [|xs| - 1] else [])
  }

  /**
   * The kept positions are in bounds, strictly increasing, and are exactly
   * the positions that `f` maps to Some.
   */
  lemma {:induction false} KeptSpec<A, B>(xs: seq<A>, f: A -> Option<B>)
    ensures var ks := Kept(xs, f);
      && (forall k | 0 <= k < |ks| :: ks[k] < |xs|)
      && (forall k, l | 0 <= k < l < |ks| :: ks[k] < ks[l])
      && (forall i | 0 <= i < |xs| :: f(xs[i]).Some? <==> i in ks)
  {
    if xs != [] {
      var n := |xs| - 1;
      var init := xs[..n];
      KeptSpec(init, f);
      var ks0, ks := Kept(init, f), Kept(xs, f);
      assert ks == ks0 + (if f(xs[n]).Some? then [n] else []);
      forall k, l | 0 <= k < l < |ks|
        ensures ks[k] < ks[l]
      {
        assert ks[k] == ks0[k];
      }
      forall i | 0 <= i < |xs|
        ensures f(xs[i]).Some? <==> i in ks
      {
        if i < n {
          assert xs[i] == init[i];
        }
      }
    }
  }

  /**
   * A filter-map is order preserving: output entry k is the image of input
   * position `Kept(xs, f)[k]`, those positions strictly increase, and a
   * position is kept exactly when `f` maps its element to Some.
   */
  lemma {:induction false} FilterMapKeepsOrder<A, B>(xs: seq<A>, f: A -> Option<B>)
    ensures var ks := Kept(xs, f); var r := FilterMap(xs, f);
      && |ks| == |r|
      && (forall k | 0 <= k < |ks| :: ks[k] < |xs| && f(xs[ks[k]]) == Some(r[k]))
      && (forall k, l | 0 <= k < l < |ks| :: ks[k] < ks[l])
      && (forall i | 0 <= i < |xs| :: f(xs[i]).Some? <==> i in ks)
  {
    KeptSpec(xs, f);
    if xs != [] {
      var n := |xs| - 1;
      var init := xs[..n];
      FilterMapKeepsOrder(init, f);
      var ks0, r0 := Kept(init, f), FilterMap(init, f);
      var ks, r := Kept(xs, f), FilterMap(xs, f);
      if f(xs[n]).Some? {
        assert ks == ks0 + [n] && r == r0 + [f(xs[n]).value];
      } else {
        assert ks == ks0 && r == r0;
      }
      forall k | 0 <= k < |ks|
        ensures f(xs[ks[k]]) == Some(r[k])
      {
        if k < |ks0| {
          assert ks[k] == ks0[k] && r[k] == r0[k];
          assert xs[ks0[k]] == init[ks0[k]];
        }
      }
    }
  }

  /** Extending the input prefix by one element extends a filter-map by at most one entry. */
  lemma FilterMapStep<A, B>(xs: seq<A>, i: nat, f: A -> Option<B>)
    requires i < |xs|
    ensures FilterMap(xs[..i + 1], f) == FilterMap(xs[..i], f) + Emit(f(xs[i]))
  {
    assert xs[..i + 1][..i] == xs[..i];
  }

  /** A filter-map that keeps nothing is empty. */
  lemma {:induction false} FilterMapNone<A, B>(xs: seq<A>, f: A -> Option<B>)
    requires forall i | 0 <= i < |xs| :: f(xs[i]).None?
    ensures FilterMap(xs, f) == []
  {
    if xs != [] {
      FilterMapNone(xs[..|xs| - 1], f);
    }
  }

  /**
   * `cs` tiles `[from, to]`: it is non-empty, starts at `from`, ends at `to`,
   * and each caption ends exactly where the next starts.
   */
  ghost predicate Tiles(cs: seq<Caption>, from: real, to: real) {
    && |cs| > 0
    && cs[0].start == from
    && cs[|cs| - 1].end == to
    && forall i | 0 <= i < |cs| - 1 :: cs[i].end == cs[i + 1].start
  }
}
