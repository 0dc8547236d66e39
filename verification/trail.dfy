/**
 * The tip trail of the pendulum: a history of points, oldest first, that is
 * appended to once per state change and, when it grows past a cap, loses its
 * oldest entries. Nothing here depends on what a point is, so the points are
 * of a generic type.
 */
module Trail {

  function Min(a: int, b: int): int
  {
    if a <= b then a else b
  }

  /** The newest `cap` entries of `s` (all of `s` when it is not longer). */
  function Newest<T>(s: seq<T>, cap: nat): (r: seq<T>)
    requires cap > 0
    ensures |r| == Min(|s|, cap)
  {
    if |s| > cap then s[|s| - cap..] else s
  }

  /** The kept entries are a suffix of the list: only the oldest are dropped. */
  lemma NewestIsSuffix<T>(s: seq<T>, cap: nat)
    requires cap > 0
    ensures Newest(s, cap) == s[|s| - Min(|s|, cap)..]
  {
  }

  /**
   * One append followed by the cap: the list gets `p` at its end and, if it is
   * now longer than `cap`, is cut down to its newest `cap` entries.
   */
  function Append<T>(h: seq<T>, cap: nat, p: T): seq<T>
    requires cap > 0
  {
    Newest(h + [p], cap)
  }

  /** After an append the list is within the cap and ends with the new point. */
  lemma AppendBounded<T>(h: seq<T>, cap: nat, p: T)
    requires cap > 0
    ensures |Append(h, cap, p)| == Min(|h| + 1, cap) <= cap
    ensures Append(h, cap, p)[|Append(h, cap, p)| - 1] == p
  {
  }

  /**
   * An append drops nothing while there is room; otherwise it drops exactly
   * the oldest entries and keeps the rest in their order.
   */
  lemma AppendDropsOnlyOldest<T>(h: seq<T>, cap: nat, p: T)
    requires cap > 0
    ensures |h| < cap ==> Append(h, cap, p) == h + [p]
    ensures |h| >= cap ==> Append(h, cap, p) == h[|h| - cap + 1..] + [p]
  {
    if |h| >= cap {
      assert (h + [p])[|h| + 1 - cap..] == h[|h| - cap + 1..] + [p];
    }
  }

  /** The history after the points of `ps` are appended one by one, in order. */
  function AppendAll<T>(h: seq<T>, cap: nat, ps: seq<T>): seq<T>
    requires cap > 0
    decreases |ps|
  {
    if ps == [] then h else AppendAll(Append(h, cap, ps[0]), cap, ps[1..])
  }

  /** Capping twice loses nothing that capping once at the end would keep. */
  lemma NewestAbsorbs<T>(s: seq<T>, t: seq<T>, cap: nat)
    requires cap > 0
    ensures Newest(Newest(s, cap) + t, cap) == Newest(s + t, cap)
  {
    if |s| > cap {
      if t == [] {
        AbsorbsNothingAppended(s, t, cap);
      } else {
        AbsorbsSomethingAppended(s, t, cap);
      }
    }
  }

  lemma AbsorbsNothingAppended<T>(s: seq<T>, t: seq<T>, cap: nat)
    requires cap > 0 && |s| > cap && t == []
    ensures Newest(Newest(s, cap) + t, cap) == Newest(s + t, cap)
  {
    var s' := s[|s| - cap..];
    AppendEmpty(s);
    AppendEmpty(s');
    assert Newest(s' + t, cap) == s';
    assert Newest(s + t, cap) == s';
  }

  lemma AbsorbsSomethingAppended<T>(s: seq<T>, t: seq<T>, cap: nat)
    requires cap > 0 && |s| > cap && t != []
    ensures Newest(Newest(s, cap) + t, cap) == Newest(s + t, cap)
  {
    var a, b := |s|, |t|;
    var k := a - cap;
    var s', u := s[k..], s + t;
    assert |s' + t| - cap == b && |u| - cap == k + b;
    NewestOfLonger(s, cap);
    NewestOfLonger(s' + t, cap);
    NewestOfLonger(u, cap);
    DropAppend(s, t, k);
    DropDrop(u, k, b);
  }

  lemma NewestOfLonger<T>(s: seq<T>, cap: nat)
    requires cap > 0 && |s| > cap
    ensures Newest(s, cap) == s[|s| - cap..]
  {
  }

  lemma DropAppend<T>(s: seq<T>, t: seq<T>, i: nat)
    requires i <= |s|
    ensures (s + t)[i..] == s[i..] + t
  {
  }

  lemma DropDrop<T>(s: seq<T>, i: nat, j: nat)
    requires i + j <= |s|
    ensures s[i..][j..] == s[i + j..]
  {
  }

  lemma AppendEmpty<T>(s: seq<T>)
    ensures s + [] == s
  {
  }

  /**
   * Appending a run of points is the same as appending them all at once and
   * then keeping the newest `cap`: the cap only ever drops the oldest entries
   * and never reorders. A history longer than the cap (left by lowering the cap)
   * is cut down at the first append.
   */
  lemma {:induction false} AppendAllKeepsNewest<T>(h: seq<T>, cap: nat, ps: seq<T>)
    requires cap > 0 && ps != []
    ensures AppendAll(h, cap, ps) == Newest(h + ps, cap)
    ensures |AppendAll(h, cap, ps)| == Min(|h| + |ps|, cap)
    decreases |ps|
  {
    var p, rest := ps[0], ps[1..];
    var h1 := Append(h, cap, p);
    assert h + [p] + rest == h + ps by {
      assert ps == [p] + rest;
    }
    if rest == [] {
      assert AppendAll(h1, cap, rest) == h1;
    } else {
      AppendAllKeepsNewest(h1, cap, rest);
      NewestAbsorbs(h + [p], rest, cap);
    }
    assert AppendAll(h, cap, ps) == AppendAll(h1, cap, rest);
  }

  /** While the history stays within the cap, appending keeps every point. */
  lemma {:induction false} AppendAllWithinCap<T>(h: seq<T>, cap: nat, ps: seq<T>)
    requires cap > 0 && |h| + |ps| <= cap
    ensures AppendAll(h, cap, ps) == h + ps
    decreases |ps|
  {
    if ps != [] {
      AppendAllWithinCap(h + [ps[0]], cap, ps[1..]);
      assert h + [ps[0]] + ps[1..] == h + ps;
    }
  }

  /** A run of appends followed by one more is the longer run: the loop form. */
  lemma {:induction false} AppendAllSnoc<T>(h: seq<T>, cap: nat, ps: seq<T>, p: T)
    requires cap > 0
    ensures AppendAll(h, cap, ps + [p]) == Append(AppendAll(h, cap, ps), cap, p)
    decreases |ps|
  {
    if ps == [] {
      assert [] + [p] == [p];
      assert AppendAll(h, cap, [p]) == AppendAll(Append(h, cap, p), cap, []);
    } else {
      var q := ps + [p];
      assert q[0] == ps[0] && q[1..] == ps[1..] + [p];
      AppendAllSnoc(Append(h, cap, ps[0]), cap, ps[1..], p);
    }
  }
}
