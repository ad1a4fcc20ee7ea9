/** The abstract meaning of the scheduler's task queues: a FIFO sequence, and the
    head-to-tail rotation that gives round-robin order. Both linked queues are
    proved against these definitions. */
module QueueSpec {

  /** The sequence after moving its first element to the back. */
  function Rotated<T>(s: seq<T>): (r: seq<T>)
    requires s != []
    ensures |r| == |s|
    ensures multiset(r) == multiset(s)
    ensures r[|r| - 1] == s[0]
    ensures forall i :: 0 <= i < |s| - 1 ==> r[i] == s[i + 1]
  {
    assert s == [s[0]] + s[1..];
    s[1..] + [s[0]]
  }

  /** A one-element queue is left as it is by a rotation. */
  lemma RotatedSingleton<T>(s: seq<T>)
    requires |s| == 1
    ensures Rotated(s) == s
  {
  }

  /** The sequence after k rotations. */
  function RotatedTimes<T>(s: seq<T>, k: nat): (r: seq<T>)
    ensures |r| == |s|
    ensures multiset(r) == multiset(s)
  {
    if s == [] || k == 0 then s else Rotated(RotatedTimes(s, k - 1))
  }

  /** After k <= |s| rotations, the first k elements have moved, in order, behind the rest. */
  lemma {:induction false} RotatedTimesSplits<T>(s: seq<T>, k: nat)
    requires k <= |s|
    ensures RotatedTimes(s, k) == s[k..] + s[..k]
  {
    if s == [] || k == 0 {
      assert s[k..] + s[..k] == s;
    } else {
      RotatedTimesSplits(s, k - 1);
      var prev := s[k - 1..] + s[..k - 1];
      assert RotatedTimes(s, k) == Rotated(prev);
      assert prev[1..] == s[k..] + s[..k - 1];
      assert s[..k] == s[..k - 1] + [s[k - 1]];
    }
  }

  /** Round-robin fairness: after one rotation per queued task, every task is back
      in its original place. */
  lemma FullRoundRestores<T>(s: seq<T>)
    ensures RotatedTimes(s, |s|) == s
  {
    RotatedTimesSplits(s, |s|);
    assert s[|s|..] + s[..|s|] == s;
  }
}
