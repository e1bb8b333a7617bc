/**
 * The per-key edge detector: on every sample of the key, `pressed` reports
 * the sample on which the key went down, `released` the one on which it came
 * up, and `held` whether it is down now.
 */
module KeyObservers {

  /** The key code the default constructor observes. */
  const NoKey: int := -1

  /** The three public flags of an observer. */
  datatype EdgeState = EdgeState(pressed: bool, held: bool, released: bool)

  /** The flags of a freshly constructed observer, and of every observer after focus is lost. */
  const Idle := EdgeState(false, false, false)

  /** The flags after one sample, from the held flag before it and the sample itself. */
  function NextEdge(prevHeld: bool, isKeyDown: bool): EdgeState {
    EdgeState(isKeyDown && !prevHeld, isKeyDown, !isKeyDown && prevHeld)
  }

  /** The flags after a run of samples, starting from a held flag. */
  function Observed(held: bool, samples: seq<bool>): (e: EdgeState)
    requires samples != []
    decreases |samples|
  {
    if |samples| == 1 then NextEdge(held, samples[0])
    else NextEdge(Observed(held, samples[..|samples| - 1]).held, samples[|samples| - 1])
  }

  /** After a sample: held is the sample, and pressed and released are never both set. */
  lemma EdgeFlagsConsistent(prevHeld: bool, isKeyDown: bool)
    ensures NextEdge(prevHeld, isKeyDown).held == isKeyDown
    ensures !(NextEdge(prevHeld, isKeyDown).pressed && NextEdge(prevHeld, isKeyDown).released)
    ensures NextEdge(prevHeld, isKeyDown).pressed ==> NextEdge(prevHeld, isKeyDown).held
    ensures NextEdge(prevHeld, isKeyDown).released ==> !NextEdge(prevHeld, isKeyDown).held
  {
  }

  /**
   * Edge detection in terms of the samples alone: held is the last sample,
   * pressed means the last sample is down and the one before it (or the
   * initial held flag) was up, released the other way round.
   */
  lemma {:induction false} ObservedIsEdgeOfSamples(held: bool, samples: seq<bool>)
    requires samples != []
    ensures var before := if |samples| == 1 then held else samples[|samples| - 2];
            var now := samples[|samples| - 1];
            && Observed(held, samples).held == now
            && (Observed(held, samples).pressed <==> now && !before)
            && (Observed(held, samples).released <==> !now && before)
    decreases |samples|
  {
    if |samples| > 1 {
      var init := samples[..|samples| - 1];
      ObservedIsEdgeOfSamples(held, init);
      assert init[|init| - 1] == samples[|samples| - 2];
    }
  }

  /** A key kept down reports pressed on the first sample of the run only. */
  lemma KeyKeptDownPressedOnce(held: bool, samples: seq<bool>, i: nat)
    requires 0 < i < |samples| && samples[i - 1] && samples[i]
    ensures !Observed(held, samples[..i + 1]).pressed
  {
    ObservedIsEdgeOfSamples(held, samples[..i + 1]);
    assert samples[..i + 1][i - 1] == samples[i - 1];
  }

  /** KeyObserver: one observed key and its three flags. */
  class KeyObserver {
    /** m_key: the key code sampled by Update. */
    const key: int
    var pressed: bool
    var held: bool
    var released: bool

    function Edge(): EdgeState
      reads this
    {
      EdgeState(pressed, held, released)
    }

    /** KeyObserver(): delegates to KeyObserver(-1). */
    constructor ()
      ensures key == NoKey && Edge() == Idle
    {
      key := NoKey;
      pressed := false;
      held := false;
      released := false;
    }

    constructor WithKey(key: int)
      ensures this.key == key && Edge() == Idle
    {
      this.key := key;
      pressed := false;
      held := false;
      released := false;
    }

    /**
     * One sample: isKeyDown is the high bit of the asynchronous key state of
     * `key` at the time of the call. The previous held flag is read before
     * it is overwritten.
     */
    method Update(isKeyDown: bool)
      modifies this
      ensures Edge() == NextEdge(old(held), isKeyDown)
    {
      pressed := isKeyDown && !held;
      released := !isKeyDown && held;
      held := isKeyDown;
    }
  }
}
