/** That telemetry is joined at all: which rows a run leaves, whose frames they have, and that a tick gets through. */
module PidJoins {
  import opened PidTelemetry

  /** Ticks of the records fetched and not being joined now. */
  function Done(s: Recorder): (ticks: seq<nat>)
    requires s.driveTail <= |s.drives| && (s.writer.Taking? ==> s.driveTail > 0)
  {
    s.drives[..s.driveTail - if s.writer.Taking? then 1 else 0]
  }

  ghost predicate RowFor(s: Recorder, i: nat)
    requires i < |s.rows| && s.driveTail <= |s.drives| && (s.writer.Taking? ==> s.driveTail > 0)
  {
    i < |Done(s)| && s.rows[i].tick == Done(s)[i]
  }

  ghost predicate Complete(s: Recorder) {
    && s.driveTail <= |s.drives| && (s.writer.Taking? ==> s.driveTail > 0)
    && |s.rows| == |Done(s)| && forall i | 0 <= i < |s.rows| :: RowFor(s, i)
  }

  lemma CompleteKept(s: Recorder, a: Action)
    requires Inv(s) && Complete(s) && Shaped(s) && Enabled(s, a) && a != Discard && a != Abandon
    ensures Complete(Apply(s, a))
  {
    TakenIsFetched(s);
    if a == TakeOne { WantedIsThere(s); } else { OthersKeepComplete(s, a); }
    hide RingInv, OrderInv, TakenInv, Joined;
    var t := Apply(s, a);
    if a == TakeOne {
      forall i | 0 <= i < |t.rows| ensures RowFor(t, i) {
        if i < |s.rows| { assert RowFor(s, i); }
      }
    }
  }

  lemma OthersKeepComplete(s: Recorder, a: Action)
    requires Complete(s) && Shaped(s) && Enabled(s, a) && a != Discard && a != Abandon && a != TakeOne
    ensures Complete(Apply(s, a))
  {
    var t := Apply(s, a);
    assert Done(t) == Done(s);
    forall i | 0 <= i < |t.rows| ensures RowFor(t, i) { assert RowFor(s, i); }
  }

  lemma TakenIsFetched(s: Recorder)
    requires TakenInv(s)
    ensures s.driveTail <= |s.drives| && (s.writer.Taking? ==> s.driveTail > 0 && s.writer.tick == s.drives[s.driveTail - 1])
  {}

  /** With no take abandoned and nothing discarded, every record fetched has its row, in order and once. */
  lemma {:induction false} EveryRecordGetsItsRow(capacity: nat, run: seq<Action>)
    requires capacity > 0 && Possible(Boot(capacity), run) && Discard !in run && Abandon !in run
    ensures Complete(After(Boot(capacity), run))
    decreases |run|
  {
    hide Inv, Apply, Enabled;
    if run != [] {
      var before, a := run[..|run| - 1], run[|run| - 1];
      assert a in run;
      EveryRecordGetsItsRow(capacity, before);
      RowsGetTheirOwnTelemetry(capacity, before);
      CompleteKept(After(Boot(capacity), before), a);
    }
  }

  // ---- Whose frames ----

  /** Everything in front of the rows was handed to the recorder. */
  ghost predicate AllLoaded(s: Recorder, run: seq<Action>) {
    && (forall k | 0 <= k < |s.frames| :: Load(s.frames[k]) in run)
    && (s.producer.Loaded? ==> Load(s.producer.frame) in run)
    && (forall i | 0 <= i < |s.rows| :: Load(s.rows[i].frame) in run)
  }

  lemma LoadedKept(s: Recorder, run: seq<Action>, a: Action)
    requires Inv(s) && Shaped(s) && AllLoaded(s, run) && Enabled(s, a)
    ensures AllLoaded(Apply(s, a), run + [a])
  {
    if s.writer.Taking? { WantedIsThere(s); }
    hide RingInv, OrderInv, TakenInv, Joined;
  }

  /** Every row has, whole, the frame that was pushed for its tick. */
  lemma {:induction false} RowsHaveWhatWasPushed(capacity: nat, run: seq<Action>)
    requires capacity > 0 && Possible(Boot(capacity), run)
    ensures AllLoaded(After(Boot(capacity), run), run)
    decreases |run|
  {
    hide Inv, Apply, Enabled, AllLoaded;
    if run == [] {
      NoneLoaded(capacity);
    } else {
      var before, a := run[..|run| - 1], run[|run| - 1];
      RowsHaveWhatWasPushed(capacity, before);
      RowsGetTheirOwnTelemetry(capacity, before);
      LoadedKept(After(Boot(capacity), before), before, a);
      assert run == before + [a];
    }
  }

  lemma NoneLoaded(capacity: nat)
    ensures AllLoaded(Boot(capacity), [])
  {}

  // ---- A tick gets through ----

  ghost predicate Leads(s: Recorder, t: Recorder) { exists run: seq<Action> :: Reaches(s, run, t) }

  ghost predicate Reaches(s: Recorder, run: seq<Action>, t: Recorder) { Possible(s, run) && After(s, run) == t }

  lemma LeadsNowhere(s: Recorder)
    ensures Leads(s, s)
  {
    assert Reaches(s, [], s);
  }

  lemma OneMore(s: Recorder, t: Recorder, a: Action)
    requires Leads(s, t) && Shaped(t) && Enabled(t, a)
    ensures Leads(s, Apply(t, a))
  {
    var run: seq<Action> :| Reaches(s, run, t);
    assert (run + [a])[..|run + [a]| - 1] == run;
    assert Reaches(s, run + [a], Apply(t, a));
  }

  /** take goes on until it has the frame. */
  lemma {:induction false} TakeEnds(s: Recorder, t: Recorder) returns (u: Recorder)
    requires Leads(s, t) && Inv(t) && t.writer.Taking?
    ensures Leads(s, u) && Inv(u) && u.writer.Waiting? && u.errors == t.errors
    ensures |u.rows| == |t.rows| + 1 && u.rows[..|t.rows|] == t.rows && u.rows[|t.rows|].tick == t.writer.tick
    ensures u.rows[|t.rows|].frame in u.frames
    ensures u.frames == t.frames && u.drives == t.drives && u.driveTail == t.driveTail && u.producer == t.producer
    decreases t.Head() - t.tail
  {
    hide Leads;
    WantedIsThere(t);
    InvKept(t, TakeOne);
    hide RingInv, OrderInv, TakenInv, Joined;
    OneMore(s, t, TakeOne);
    u := Apply(t, TakeOne);
    if u.writer.Taking? { u := TakeEnds(s, u); }
  }

  /**
    With room for a frame and all records fetched, a newer frame and its drive record go through both threads
    and end as one more row, of that tick and frame.
   */
  lemma TickGetsThrough(s: Recorder, f: Frame) returns (u: Recorder)
    requires Inv(s) && s.producer.Ready? && s.writer.Waiting? && s.driveTail == |s.drives|
    requires f.tick > s.lastTick && |s.frames| - s.tail < s.capacity
    ensures Leads(s, u) && Inv(u) && u.producer.Ready? && u.writer.Waiting? && u.driveTail == |u.drives|
    ensures u.frames == s.frames + [f] && u.drives == s.drives + [f.tick]
    ensures |u.rows| == |s.rows| + 1 && u.rows[..|s.rows|] == s.rows && u.rows[|s.rows|] == Row(f.tick, f)
  {
    hide Leads;
    LeadsNowhere(s);
    var loaded := Does(s, s, Load(f));
    var stored := Does(s, loaded, Store);
    var queued := Does(s, stored, QueueDrive);
    var taking := Does(s, queued, Fetch);
    u := TakeEnds(s, taking);
    RowIsOfItsTick(u, |s.rows|, |s.frames|);
  }

  /** Frames have different ticks, so a row has the one frame of its tick. */
  lemma RowIsOfItsTick(u: Recorder, i: nat, k: nat)
    requires Inv(u) && i < |u.rows| && k < |u.frames| && u.rows[i].frame in u.frames && u.rows[i].tick == u.frames[k].tick
    ensures u.rows[i].frame == u.frames[k]
  {
    var m :| 0 <= m < |u.frames| && u.frames[m] == u.rows[i].frame;
    assert u.frames[m].tick == u.frames[k].tick;
  }

  lemma Does(s: Recorder, t: Recorder, a: Action) returns (u: Recorder)
    requires Leads(s, t) && Inv(t) && Shaped(t) && Enabled(t, a)
    ensures Leads(s, u) && Inv(u) && Shaped(u) && u == Apply(t, a)
  {
    OneMore(s, t, a);
    InvKept(t, a);
    u := Apply(t, a);
    RingShapes(u);
  }
}
