/** The playback callback: fills the device's output buffer from the sample queue. */
module Playback {
  import opened Wrappers
  import opened SampleQueue

  /** Slot-by-slot meaning of the callback on values: each output slot in turn
      takes the queue's head if there is one and is otherwise left as it was.
      Gives the new buffer and what is left in the queue. */
  function Drain<T>(out: seq<T>, q: seq<T>): (r: (seq<T>, seq<T>))
    ensures |r.0| == |out| && |r.1| <= |q|
    decreases |out|
  {
    if out == [] then ([], q)
    else
      var slot := if q == [] then out[0] else q[0];
      var rest := Drain(out[1..], if q == [] then q else q[1..]);
      ([slot] + rest.0, rest.1)
  }

  /** On an empty queue the callback leaves every slot as it was. */
  lemma {:induction false} DrainDry<T>(out: seq<T>)
    ensures Drain(out, []) == (out, [])
    decreases |out|
  {
    if out != [] {
      DrainDry(out[1..]);
      assert [out[0]] + out[1..] == out;
    }
  }

  /** With `k` the smaller of the buffer length and the queue length, the
      first `k` slots receive the first `k` queued samples in order, the other
      slots keep their contents, and the queue loses exactly those `k` samples. */
  lemma {:induction false} DrainClosedForm<T>(out: seq<T>, q: seq<T>)
    ensures var k := Min(|out|, |q|);
            Drain(out, q) == (q[..k] + out[k..], q[k..])
    decreases |out|
  {
    var k := Min(|out|, |q|);
    if out == [] {
      assert q[..k] + out[k..] == [] && q[k..] == q;
    } else if q == [] {
      DrainDry(out);
      assert q[..k] + out[k..] == out && q[k..] == [];
    } else {
      DrainClosedForm(out[1..], q[1..]);
      ShiftSlices(out, q, k);
    }
  }

  /** Sequence facts for one step of the closed form: the head of the queue
      followed by the closed form of the tails is the closed form of the whole. */
  lemma ShiftSlices<T>(out: seq<T>, q: seq<T>, k: nat)
    requires 0 < k <= |out| && k <= |q|
    ensures [q[0]] + (q[1..][..k - 1] + out[1..][k - 1..]) == q[..k] + out[k..]
    ensures q[1..][k - 1..] == q[k..]
  {
    assert q[1..][..k - 1] == q[1..k];
    assert out[1..][k - 1..] == out[k..];
    assert [q[0]] + q[1..k] == q[..k];
  }

  /** Nothing is lost or reordered: the samples written, followed by what is
      left in the queue, are exactly the queue before the callback. */
  lemma DrainConserves<T>(out: seq<T>, q: seq<T>)
    ensures var k := Min(|out|, |q|);
            Drain(out, q).0[..k] + Drain(out, q).1 == q
  {
    DrainClosedForm(out, q);
    var k := Min(|out|, |q|);
    assert (q[..k] + out[k..])[..k] == q[..k];
  }

  /** The callback body: one pop per output slot, in order; when the queue runs
      dry the remaining slots are not touched. */
  method WriteAudio<T(0)>(data: array<T>, samples: Queue<T>)
    requires samples.Valid() && data != samples.buf
    modifies data, samples
    ensures samples.Valid()
    ensures (data[..], samples.contents) == Drain(old(data[..]), old(samples.contents))
    ensures var k := Min(data.Length, |old(samples.contents)|);
            && data[..k] == old(samples.contents)[..k]
            && data[k..] == old(data[k..])
            && samples.contents == old(samples.contents)[k..]
  {
    ghost var q := samples.contents;
    for i := 0 to data.Length
      invariant samples.Valid()
      invariant samples.contents == q[Min(i, |q|)..]
      invariant forall j :: 0 <= j < Min(i, |q|) ==> data[j] == q[j]
      invariant forall j :: Min(i, |q|) <= j < data.Length ==> data[j] == old(data[j])
    {
      var next := samples.TryPop();
      match next {
        case Some(sample) => data[i] := sample;
        case None =>
      }
    }
    var k := Min(data.Length, |q|);
    assert data[..k] == q[..k];
    assert data[k..] == old(data[k..]);
    assert data[..] == data[..k] + data[k..];
    DrainClosedForm(old(data[..]), q);
  }
}
