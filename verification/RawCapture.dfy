/**
  The caller's side of a recording: raw IMU packets go to the recorder as they are parsed, and a new
  parser epoch rotates the take. The payload of a Raw record is its epoch.
 */
module RawCapture {
  import opened TakeRecorder
  import opened RecordingSafety

  /** The packets of one stretch of data records: all of one epoch, each with a new sequence. */
  ghost predicate Uniform(rs: seq<Record>) {
    RawsAdvance(rs) && forall i, j | 0 <= i < |rs| && 0 <= j < |rs| && rs[i].Raw? && rs[j].Raw? :: rs[i].payload == rs[j].payload
  }

  /** Every stretch that follows a control record, up to the next one, is uniform. */
  ghost predicate TakesUniform(log: seq<Record>) {
    forall lo, hi | 0 < lo <= hi <= |log| && log[lo - 1].IsControl() && OnlyData(log, lo, hi) :: Uniform(log[lo..hi])
  }

  /** The data records behind the last control record. */
  function Current(log: seq<Record>): (rs: seq<Record>)
    ensures |rs| <= |log| && rs == log[|log| - |rs|..] && OnlyData(log, |log| - |rs|, |log|)
    ensures |rs| < |log| ==> log[|log| - |rs| - 1].IsControl()
  {
    if log == [] || log[|log| - 1].IsControl() then [] else
    var rest := Current(log[..|log| - 1]);
    rest + [log[|log| - 1]]
  }

  lemma CurrentGrows(log: seq<Record>, r: Record)
    ensures Current(log + [r]) == if r.IsControl() then [] else Current(log) + [r]
  {
    assert (log + [r])[..|log|] == log;
  }

  lemma EmptyIsUniform()
    ensures Uniform([])
  {}

  /** What a stretch and its capture have to agree on before another packet may join. */
  ghost predicate InStep(rs: seq<Record>, epoch: nat, lastRaw: nat) {
    LastSequence(rs) == lastRaw && forall i | 0 <= i < |rs| && rs[i].Raw? :: rs[i].payload == epoch
  }

  lemma UniformGrows(rs: seq<Record>, r: Record, epoch: nat, lastRaw: nat)
    requires Uniform(rs) && !r.IsControl()
    requires r.Raw? ==> InStep(rs, epoch, lastRaw) && r.payload == epoch && r.sequence != lastRaw
    ensures Uniform(rs + [r])
    ensures InStep(rs, epoch, lastRaw) ==> InStep(rs + [r], epoch, if r.Raw? then r.sequence else lastRaw)
  {
    var more := rs + [r];
    assert more[..|rs|] == rs;
    AdvanceGrows(rs, r);
    forall i | 0 <= i < |rs| ensures more[i] == rs[i] {}
  }

  lemma AdvanceGrows(rs: seq<Record>, r: Record)
    requires RawsAdvance(rs) && (r.Raw? ==> r.sequence != LastSequence(rs))
    ensures RawsAdvance(rs + [r])
    ensures LastSequence(rs + [r]) == if r.Raw? then r.sequence else LastSequence(rs)
  {
    assert (rs + [r])[..|rs|] == rs;
    var older, raws := Raws(rs), Raws(rs + [r]);
    forall i | 0 <= i < |raws| ensures raws[i].Raw? && raws[i].sequence != Before(raws, i) {
      if i < |older| { assert raws[i] == older[i] && Before(raws, i) == Before(older, i); }
    }
  }

  /** One more record keeps all stretches uniform if it keeps the current one so. */
  lemma TakesGrow(log: seq<Record>, r: Record)
    requires TakesUniform(log) && (!r.IsControl() ==> Uniform(Current(log) + [r]))
    ensures TakesUniform(log + [r])
  {
    var more := log + [r];
    forall lo, hi | 0 < lo <= hi <= |more| && more[lo - 1].IsControl() && OnlyData(more, lo, hi) ensures Uniform(more[lo..hi]) {
      if hi <= |log| {
        StretchStays(log, r, lo, hi);
      } else if lo <= |log| {
        LastStretch(log, r, lo);
        assert more[lo..hi] == more[lo..];
      } else {
        assert more[lo..hi] == [];
        EmptyIsUniform();
      }
    }
  }

  lemma StretchStays(log: seq<Record>, r: Record, lo: int, hi: int)
    requires TakesUniform(log) && 0 < lo <= hi <= |log| && (log + [r])[lo - 1].IsControl() && OnlyData(log + [r], lo, hi)
    ensures Uniform((log + [r])[lo..hi])
  {
    forall k | lo <= k < hi ensures !log[k].IsControl() { assert (log + [r])[k] == log[k]; }
    assert (log + [r])[lo..hi] == log[lo..hi];
  }

  /** Data behind a control record is the current stretch. */
  lemma {:induction false} CurrentStartsAt(log: seq<Record>, lo: int)
    requires 0 < lo <= |log| && log[lo - 1].IsControl() && OnlyData(log, lo, |log|)
    ensures Current(log) == log[lo..]
    decreases |log|
  {
    if lo < |log| {
      var n := |log| - 1;
      CurrentStartsAt(log[..n], lo);
      assert log[..n][lo..] + [log[n]] == log[lo..];
    }
  }

  lemma LastStretch(log: seq<Record>, r: Record, lo: int)
    requires 0 < lo <= |log| && log[lo - 1].IsControl() && OnlyData(log + [r], lo, |log| + 1)
    requires !r.IsControl() ==> Uniform(Current(log) + [r])
    ensures Uniform((log + [r])[lo..])
  {
    assert (log + [r])[|log|] == r;
    forall k | lo <= k < |log| ensures !log[k].IsControl() { assert (log + [r])[k] == log[k]; }
    CurrentStartsAt(log, lo);
    assert (log + [r])[lo..] == log[lo..] + [r];
  }

  // ---- What one sample makes the capture do ----

  datatype Cap = Cap(recording: bool, reset: bool, failed: bool, epoch: nat, lastRaw: nat)

  datatype Want = Nothing | Rotation | Join

  /** A sample of another epoch rotates, a new one of this epoch joins. */
  function Wants(c: Cap, sequence: nat, epoch: nat): Want {
    if !c.recording then Nothing
    else if epoch != c.epoch then Rotation
    else if sequence != c.lastRaw then Join
    else Nothing
  }

  function Turned(c: Cap, epoch: nat, ok: bool): Cap {
    if ok then c.(epoch := epoch, lastRaw := 0, reset := true) else c.(failed := true, recording := false)
  }

  function Joined(c: Cap, sequence: nat, ok: bool): Cap {
    if ok then c.(lastRaw := sequence) else c.(failed := true, recording := false)
  }

  function Begun(c: Cap, epoch: nat, ok: bool): Cap {
    if ok then c.(epoch := epoch, lastRaw := 0, recording := true) else c
  }

  /** What the capture asks of the recorder. */
  datatype Request = AskRotate | AskPush(record: Record) | AskFinish(complete: bool)

  // ---- The object ----

  class Capture {
    var recording: bool
    var reset: bool
    var failed: bool
    var epoch: nat
    var lastRaw: nat

    constructor ()
      ensures View() == Cap(false, false, false, 0, 0)
    {
      recording, reset, failed, epoch, lastRaw := false, false, false, 0, 0;
    }

    function View(): Cap
      reads this
    {
      Cap(recording, reset, failed, epoch, lastRaw)
    }

    /** `started` is the recorder's answer. */
    method Begin(started: bool, sampleEpoch: nat)
      modifies this
      ensures View() == Begun(old(View()), sampleEpoch, started)
    {
      if !started { return; }
      epoch, lastRaw, recording := sampleEpoch, 0, true;
    }

    /**
      One parsed sample; `rotates` and `fits` are what rotate and push answer when asked. A packet is only
      asked to join under its own epoch, behind a rotation if that is new, and a refusal ends the recording.
     */
    method Packet(sequence: nat, sampleEpoch: nat, rotates: bool, fits: bool) returns (asked: seq<Request>)
      modifies this
      ensures var c := old(View());
        var d := if Wants(c, sequence, sampleEpoch) == Rotation then Turned(c, sampleEpoch, rotates) else c;
        var joins := Wants(d, sequence, sampleEpoch) == Join;
        && View() == (if joins then Joined(d, sequence, fits) else d)
        && asked == (if Wants(c, sequence, sampleEpoch) == Rotation then [AskRotate] else [])
             + (if joins then [AskPush(Raw(sequence, sampleEpoch))] else [])
             + (if joins && !fits then [AskFinish(false)] else [])
      ensures AskRotate in asked <==> old(recording) && sampleEpoch != old(epoch)
      ensures AskPush(Raw(sequence, sampleEpoch)) in asked <==>
        old(recording) && (if sampleEpoch == old(epoch) then sequence != old(lastRaw) else rotates && sequence != 0)
      ensures AskFinish(false) in asked <==> AskPush(Raw(sequence, sampleEpoch)) in asked && !fits
      ensures recording <==> old(recording) && (AskRotate in asked ==> rotates) && AskFinish(false) !in asked
      ensures failed <==> old(failed) || (AskRotate in asked && !rotates) || AskFinish(false) in asked
    {
      asked := [];
      if !recording { return; }
      if sampleEpoch != epoch {
        asked := [AskRotate];
        if !rotates {
          failed := true;
          recording := false;
          return;
        }
        epoch, lastRaw, reset := sampleEpoch, 0, true;
      }
      if sequence == lastRaw { return; }
      asked := asked + [AskPush(Raw(sequence, epoch))];
      if !fits {
        failed := true;
        recording := false;
        asked := asked + [AskFinish(false)];
      } else {
        lastRaw := sequence;
      }
    }
  }
}
