/**
 * The insertion-ordered pools of the source (resonance events, ripples, droplets) are all updated
 * the same way: a reverse index loop adds the frame time to each element's age and splices out the
 * elements that have expired. `Step` is the value that loop computes, stated front to back.
 */
module Pool {

  /** Age every element with `grow`, keep those that are not `expired` afterwards, in order. */
  function Step<T>(s: seq<T>, grow: T -> T, expired: T -> bool): (r: seq<T>)
    ensures |r| <= |s|
    ensures forall e | e in r :: !expired(e)
    decreases |s|
  {
    if s == [] then []
    else (if expired(grow(s[0])) then [] else [grow(s[0])]) + Step(s[1..], grow, expired)
  }

  /** Splitting the pool splits the result. */
  lemma {:induction false} StepAppend<T>(a: seq<T>, b: seq<T>, grow: T -> T, expired: T -> bool)
    ensures Step(a + b, grow, expired) == Step(a, grow, expired) + Step(b, grow, expired)
    decreases |a|
  {
    if a != [] {
      assert (a + b)[1..] == a[1..] + b;
      StepAppend(a[1..], b, grow, expired);
    } else {
      assert a + b == b;
    }
  }

  /** Every position in `ks`, one further on. */
  function Shift(ks: seq<nat>): (r: seq<nat>)
    ensures |r| == |ks|
    ensures forall i :: 0 <= i < |ks| ==> r[i] == ks[i] + 1
  {
    seq(|ks|, i requires 0 <= i < |ks| => ks[i] + 1)
  }

  /** The positions in `s` of the elements that `Step` keeps, in increasing order. */
  function Kept<T>(s: seq<T>, grow: T -> T, expired: T -> bool): (ks: seq<nat>)
    ensures forall i :: 0 <= i < |ks| ==> ks[i] < |s|
    decreases |s|
  {
    if s == [] then []
    else
      var rest := Shift(Kept(s[1..], grow, expired));
      if expired(grow(s[0])) then rest else [0] + rest
  }

  /** The i-th element of `Step` is the aged copy of the element at position `Kept[i]`. */
  lemma {:induction false} StepAt<T>(s: seq<T>, grow: T -> T, expired: T -> bool)
    ensures var r, ks := Step(s, grow, expired), Kept(s, grow, expired);
      |ks| == |r| && forall i :: 0 <= i < |ks| ==> r[i] == grow(s[ks[i]])
    decreases |s|
  {
    if s != [] {
      StepAt(s[1..], grow, expired);
      var tail, rest := Step(s[1..], grow, expired), Kept(s[1..], grow, expired);
      var r, ks := Step(s, grow, expired), Kept(s, grow, expired);
      if expired(grow(s[0])) {
        assert r == tail && ks == Shift(rest);
        forall i | 0 <= i < |ks| ensures r[i] == grow(s[ks[i]]) {
          assert s[ks[i]] == s[1..][rest[i]];
        }
      } else {
        assert r == [grow(s[0])] + tail && ks == [0] + Shift(rest);
        forall i | 0 <= i < |ks| ensures r[i] == grow(s[ks[i]]) {
          if i > 0 { assert s[ks[i]] == s[1..][rest[i - 1]]; }
        }
      }
    }
  }

  /** Strictly increasing positions. */
  predicate Increasing(ks: seq<nat>)
  {
    forall i, j :: 0 <= i < j < |ks| ==> ks[i] < ks[j]
  }

  /** The kept positions increase strictly, so `Step` preserves the pool's order. */
  lemma {:induction false} KeptIncreasing<T>(s: seq<T>, grow: T -> T, expired: T -> bool)
    ensures Increasing(Kept(s, grow, expired))
    decreases |s|
  {
    if s != [] {
      KeptIncreasing(s[1..], grow, expired);
      var rest := Kept(s[1..], grow, expired);
      var shifted := Shift(rest);
      assert Increasing(shifted) by {
        forall i, j | 0 <= i < j < |shifted| ensures shifted[i] < shifted[j] {
          assert rest[i] < rest[j];
        }
      }
      if !expired(grow(s[0])) {
        assert Kept(s, grow, expired) == [0] + shifted;
        assert forall i :: 0 <= i < |shifted| ==> 0 < shifted[i];
      }
    }
  }

  /** A position is kept iff the aged element there has not expired. */
  lemma {:induction false} KeptExactly<T>(s: seq<T>, grow: T -> T, expired: T -> bool, p: nat)
    requires p < |s|
    ensures p in Kept(s, grow, expired) <==> !expired(grow(s[p]))
    decreases |s|
  {
    var rest := Kept(s[1..], grow, expired);
    var shifted := Shift(rest);
    if p > 0 {
      KeptExactly(s[1..], grow, expired, p - 1);
      assert s[p] == s[1..][p - 1];
      if p in shifted {
        var i :| 0 <= i < |shifted| && shifted[i] == p;
        assert rest[i] == p - 1;
      }
      if p - 1 in rest {
        var i :| 0 <= i < |rest| && rest[i] == p - 1;
        assert shifted[i] == p;
      }
    } else {
      assert 0 !in shifted;
    }
  }

  /** Every survivor is the aged copy of some element of the pool. */
  lemma SurvivorsComeFromPool<T>(s: seq<T>, grow: T -> T, expired: T -> bool, e: T)
    requires e in Step(s, grow, expired)
    ensures exists p :: 0 <= p < |s| && e == grow(s[p]) && !expired(e)
  {
    StepAt(s, grow, expired);
    var r, ks := Step(s, grow, expired), Kept(s, grow, expired);
    var i :| 0 <= i < |r| && r[i] == e;
    assert e == grow(s[ks[i]]);
  }

  /** A property that every element has and that ageing keeps, every survivor has. */
  lemma {:induction false} StepKeeps<T>(s: seq<T>, grow: T -> T, expired: T -> bool, P: T -> bool)
    requires forall i :: 0 <= i < |s| ==> P(s[i])
    requires forall e :: P(e) ==> P(grow(e))
    ensures forall i :: 0 <= i < |Step(s, grow, expired)| ==> P(Step(s, grow, expired)[i])
    decreases |s|
  {
    if s != [] {
      StepKeeps(s[1..], grow, expired, P);
      assert P(grow(s[0]));
    }
  }

  /**
   * One iteration of the reverse loop. With the tail past `i` already stepped, the element at `i`
   * is still the original one; splicing it out when its aged copy has expired, or replacing it by
   * that copy otherwise, leaves the tail from `i` stepped.
   */
  lemma SpliceStep<T>(orig: seq<T>, i: nat, grow: T -> T, expired: T -> bool, cur: seq<T>)
    requires i < |orig| && cur == orig[..i + 1] + Step(orig[i + 1..], grow, expired)
    ensures i < |cur| && cur[i] == orig[i] && cur[..i] == orig[..i]
    ensures cur[i + 1..] == Step(orig[i + 1..], grow, expired)
    ensures Step(orig[i..], grow, expired)
      == (if expired(grow(orig[i])) then [] else [grow(orig[i])]) + Step(orig[i + 1..], grow, expired)
    ensures expired(grow(orig[i])) ==> cur[..i] + cur[i + 1..] == orig[..i] + Step(orig[i..], grow, expired)
    ensures !expired(grow(orig[i])) ==>
      cur[..i] + [grow(orig[i])] + cur[i + 1..] == orig[..i] + Step(orig[i..], grow, expired)
  {
    assert orig[i..][1..] == orig[i + 1..];
    assert orig[..i + 1] == orig[..i] + [orig[i]];
    assert cur[..i] == orig[..i];
    assert cur[i + 1..] == Step(orig[i + 1..], grow, expired);
  }

  /** `Step` on the pool from position `i` on takes the element at `i`, then the rest. */
  lemma StepFrom<T>(s: seq<T>, i: nat, grow: T -> T, expired: T -> bool)
    requires i < |s|
    ensures Step(s[i..], grow, expired)
      == (if expired(grow(s[i])) then [] else [grow(s[i])]) + Step(s[i + 1..], grow, expired)
  {
    assert s[i..][1..] == s[i + 1..];
  }

  /**
   * A pool whose prefix up to `i` is still the original one: it is the prefix before `i`, the
   * element at `i` and the tail, and splicing out the element at `i` leaves the prefix and the tail.
   */
  lemma SpliceAt<T>(orig: seq<T>, i: nat, tail: seq<T>, cur: seq<T>)
    requires i < |orig| && cur == orig[..i + 1] + tail
    ensures i < |cur| && cur[i] == orig[i]
    ensures cur == orig[..i] + ([orig[i]] + tail)
    ensures cur[..i] + cur[i + 1..] == orig[..i] + tail
  {
    assert orig[..i + 1] == orig[..i] + [orig[i]];
    assert cur[..i] == orig[..i];
    assert cur[i + 1..] == tail;
  }

  /** In the same pool, putting `x` in place of the element at `i` puts it between prefix and tail. */
  lemma ReplaceAt<T>(orig: seq<T>, i: nat, tail: seq<T>, cur: seq<T>, x: T)
    requires i < |orig| && cur == orig[..i + 1] + tail
    ensures cur[..i] + [x] + cur[i + 1..] == orig[..i] + ([x] + tail)
  {
    assert cur[..i] == orig[..i];
    assert cur[i + 1..] == tail;
  }
}
