/** The sound latch seen over a whole run of the face: modes[i] is the
    money mode at the i-th drawEyes call and attempts[i] says whether that
    call invoked playWAVFile. The face starts out of money mode, so the
    first draw counts as following a normal-mode draw. */
module SoundLatch {

  /** Draw i is the first draw of a money-mode episode. */
  predicate EntersMoney(modes: seq<bool>, i: int)
    requires 0 <= i < |modes|
  {
    modes[i] && (i == 0 || !modes[i - 1])
  }

  /** Playback is attempted at exactly the draws that enter money mode. */
  predicate AttemptsAtEntries(modes: seq<bool>, attempts: seq<bool>) {
    |modes| == |attempts| &&
    forall i :: 0 <= i < |attempts| ==> (attempts[i] <==> EntersMoney(modes, i))
  }

  /** Draws lo..hi (inclusive) form one episode: all in money mode, and
      the draw before lo (if any) was not. */
  predicate Episode(modes: seq<bool>, lo: int, hi: int) {
    0 <= lo <= hi < |modes| &&
    (lo == 0 || !modes[lo - 1]) &&
    forall k :: lo <= k <= hi ==> modes[k]
  }

  function Count(s: seq<bool>): nat {
    if s == [] then 0 else Count(s[..|s| - 1]) + (if s[|s| - 1] then 1 else 0)
  }

  /** Within one episode exactly one playback is attempted, however many
      frames the episode lasts: the one at its first draw. */
  lemma {:induction false} OneAttemptPerEpisode(modes: seq<bool>, attempts: seq<bool>, lo: int, hi: int)
    requires AttemptsAtEntries(modes, attempts)
    requires Episode(modes, lo, hi)
    ensures Count(attempts[lo..hi + 1]) == 1
    decreases hi - lo
  {
    if hi == lo {
      assert EntersMoney(modes, lo);
      assert attempts[lo..hi + 1] == [attempts[lo]];
      assert [attempts[lo]][..0] == [];
    } else {
      OneAttemptPerEpisode(modes, attempts, lo, hi - 1);
      assert modes[hi - 1];
      assert !EntersMoney(modes, hi);
      assert attempts[lo..hi + 1][..hi - lo] == attempts[lo..hi];
    }
  }

  /** Two attempts are always separated by a normal-mode draw. */
  lemma AttemptsSeparatedByNormal(modes: seq<bool>, attempts: seq<bool>, i: int, j: int)
    requires AttemptsAtEntries(modes, attempts)
    requires 0 <= i < j < |attempts| && attempts[i] && attempts[j]
    ensures exists k :: i <= k < j && !modes[k]
  {
    assert EntersMoney(modes, j);
    assert !modes[j - 1];
  }

  /** The latch relation survives one more drawEyes: the new draw attempts
      playback exactly when it enters money mode from the previous draw's mode. */
  lemma AppendDraw(modes: seq<bool>, attempts: seq<bool>, money: bool, previous: bool)
    requires AttemptsAtEntries(modes, attempts)
    requires previous == (modes != [] && modes[|modes| - 1])
    ensures AttemptsAtEntries(modes + [money], attempts + [money && !previous])
  {
    var m, a := modes + [money], attempts + [money && !previous];
    forall i | 0 <= i < |a| ensures a[i] <==> EntersMoney(m, i) {
      if i < |modes| {
        assert a[i] == attempts[i] && m[i] == modes[i];
        assert i > 0 ==> m[i - 1] == modes[i - 1];
      }
    }
  }
}
