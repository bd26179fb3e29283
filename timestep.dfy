/**
 * `choose_timestep`: without attention, the summary of each example is the
 * encoder output at its last real (unpadded) timestep. Vectors are opaque.
 */
module Timestep {
  import opened Wrappers

  /** A padded batch: every example has the same number of timesteps. */
  predicate Padded<V>(output: seq<seq<V>>)
  {
    forall b :: 0 <= b < |output| ==> |output[b]| == |output[0]|
  }

  /** `(idxs - 1).view(-1, 1).expand(batch, ...)`: a single length is broadcast to the batch. */
  function LengthAt(lengths: seq<int>, b: nat): int
    requires b < |lengths| || |lengths| == 1
  {
    if |lengths| == 1 then lengths[0] else lengths[b]
  }

  /** The shape and index conditions under which `expand` and `gather` succeed. */
  predicate Selectable<V>(output: seq<seq<V>>, lengths: seq<int>)
  {
    (|lengths| == |output| || |lengths| == 1)
    && forall b :: 0 <= b < |output| ==> 1 <= LengthAt(lengths, b) <= |output[b]|
  }

  /**
   * For each example `b`, the vector at position `lengths[b] - 1`; the
   * lengths must fit the batch and lie in `1..max_len`, or torch raises.
   */
  function ChooseTimestep<V>(output: seq<seq<V>>, lengths: seq<int>): (r: Result<seq<V>>)
    requires Padded(output)
    ensures r.Ok? <==> Selectable(output, lengths)
    ensures r.Err? ==> r.error == RuntimeError
    ensures r.Ok? ==> |r.value| == |output|
    ensures r.Ok? ==> forall b :: 0 <= b < |output| ==>
              1 <= LengthAt(lengths, b) <= |output[b]| && r.value[b] == output[b][LengthAt(lengths, b) - 1]
  {
    if !(|lengths| == |output| || |lengths| == 1) then Err(RuntimeError)
    else if exists b :: 0 <= b < |output| && !(1 <= LengthAt(lengths, b) <= |output[b]|) then Err(RuntimeError)
    else Ok(seq(|output|, b requires 0 <= b < |output| => output[b][LengthAt(lengths, b) - 1]))
  }

  /** With one length per example, example `b` gets its own `lengths[b] - 1`. */
  lemma ChooseTimestepPerExample<V>(output: seq<seq<V>>, lengths: seq<int>)
    requires Padded(output) && |lengths| == |output| && ChooseTimestep(output, lengths).Ok?
    ensures forall b :: 0 <= b < |output| ==>
              1 <= lengths[b] <= |output[b]| && ChooseTimestep(output, lengths).value[b] == output[b][lengths[b] - 1]
  {
    forall b | 0 <= b < |output|
      ensures 1 <= lengths[b] <= |output[b]| && ChooseTimestep(output, lengths).value[b] == output[b][lengths[b] - 1]
    {
      assert LengthAt(lengths, b) == lengths[b];
    }
  }

  /**
   * With lengths [3, 5, 2] over five padded timesteps the selector takes
   * positions 2, 4 and 1, not the last padded position 4 throughout.
   */
  lemma ChooseTimestepPicksLastReal()
    ensures var output := seq(3, b => seq(5, t => (b, t)));
            ChooseTimestep(output, [3, 5, 2]) == Ok([(0, 2), (1, 4), (2, 1)])
  {
    var output := seq(3, b => seq(5, t => (b, t)));
    var r := ChooseTimestep(output, [3, 5, 2]);
    assert Selectable(output, [3, 5, 2]);
    assert r.value == [(0, 2), (1, 4), (2, 1)];
  }
}
