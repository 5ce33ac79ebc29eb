/** Replaying the partial linearizations that a check reports. */
module PorcupineVisualization {
  import opened Options
  import opened PorcupineHistory
  import opened PorcupineSearch

  /** The loop of the visualization that panics when a step of a partial linearization is refused. */
  method ReplayPartial<S, V>(m: Model<S, V>, h: seq<Entry<V>>, n: nat, partial: seq<nat>)
    returns (states: seq<S>, panicked: bool)
    requires WellFormed(h, n) && InRange(n, partial)
    ensures panicked <==> !Accepted(m, h, n, partial)
    ensures !panicked ==>
      |states| == |partial| && forall j: nat :: j < |partial| ==> states[j] == After(m, h, n, partial[..j + 1])
  {
    hide WellFormed, Apply, After;
    AfterNothing(m, h, n, partial);
    var state := m.init;
    states, panicked := [], false;
    var j := 0;
    while j < |partial|
      invariant 0 <= j <= |partial| && |states| == j && state == After(m, h, n, partial[..j])
      invariant forall i: nat :: i < j ==> states[i] == After(m, h, n, partial[..i + 1])
      invariant forall i: nat :: i < j ==> Apply(m, h, n, After(m, h, n, partial[..i]), partial[i]).0
    {
      var (ok, next) := Apply(m, h, n, state, partial[j]);
      if !ok {
        return states, true;
      }
      AfterStep(m, h, n, partial, j);
      state := next;
      states := states + [state];
      j := j + 1;
    }
  }

  lemma AfterNothing<S, V>(m: Model<S, V>, h: seq<Entry<V>>, n: nat, path: seq<nat>)
    requires WellFormed(h, n) && InRange(n, path)
    ensures After(m, h, n, path[..0]) == m.init
  {
  }

  lemma AfterStep<S, V>(m: Model<S, V>, h: seq<Entry<V>>, n: nat, path: seq<nat>, j: nat)
    requires WellFormed(h, n) && InRange(n, path) && j < |path|
    ensures After(m, h, n, path[..j + 1]) == Apply(m, h, n, After(m, h, n, path[..j]), path[j]).1
  {
    hide WellFormed, Apply;
    assert path[..j + 1][..j] == path[..j];
  }

  /** All partial linearizations of a check are replayed, and the loop never panics. */
  method ReplayLongest<S, V>(m: Model<S, V>, h: seq<Entry<V>>, n: nat, longest: seq<Option<seq<nat>>>)
    returns (panicked: bool)
    requires WellFormed(h, n) && LongestLegal(m, h, n, longest)
    ensures !panicked
  {
    hide WellFormed, Accepted;
    panicked := false;
    var i := 0;
    while i < n
      invariant 0 <= i <= n == |longest| && !panicked
    {
      if longest[i].Some? {
        LegalRange(m, h, n, longest[i].value);
        var states, bad := ReplayPartial(m, h, n, longest[i].value);
        panicked := bad;
      }
      i := i + 1;
    }
  }
}
