/**
 * Tone events and tone schedules.
 *
 * The screen produces sound only through one primitive, "play a tone of this
 * frequency, duration and waveform", sometimes delayed by a timer. Here every
 * such call becomes one ToneEvent, and a delay becomes the event's offset from
 * the moment the effect was requested. An effect is then a finite list of
 * events, a schedule.
 */
module Tones {

  datatype Waveform = Sine | Square | Sawtooth

  /** One call of the tone primitive: starts `offsetMs` after the request. */
  datatype ToneEvent = ToneEvent(offsetMs: nat, frequency: real, durationMs: nat, waveform: Waveform)

  /** Every tone is audible: a positive frequency and a positive duration. */
  predicate Audible(s: seq<ToneEvent>) {
    forall i :: 0 <= i < |s| ==> s[i].frequency > 0.0 && s[i].durationMs > 0
  }

  /** Tones are listed in the order they start. */
  predicate Ordered(s: seq<ToneEvent>) {
    forall i, j :: 0 <= i <= j < |s| ==> s[i].offsetMs <= s[j].offsetMs
  }

  /** The invariant every effect of the screen keeps. */
  predicate WellFormed(s: seq<ToneEvent>) {
    Audible(s) && Ordered(s)
  }

  /** The same schedule, requested `delayMs` later (a timer wrapped around it). */
  function Shift(s: seq<ToneEvent>, delayMs: nat): (r: seq<ToneEvent>)
    ensures |r| == |s|
    ensures forall i :: 0 <= i < |s| ==>
      r[i].offsetMs == s[i].offsetMs + delayMs && r[i] == s[i].(offsetMs := r[i].offsetMs)
  {
    seq(|s|, i requires 0 <= i < |s| => s[i].(offsetMs := s[i].offsetMs + delayMs))
  }

  /** The moment the last tone of the schedule falls silent (0 for no tone). */
  function End(s: seq<ToneEvent>): (r: nat)
    ensures forall i :: 0 <= i < |s| ==> s[i].offsetMs + s[i].durationMs <= r
    ensures s == [] ==> r == 0
    ensures s != [] ==> exists i :: 0 <= i < |s| && s[i].offsetMs + s[i].durationMs == r
  {
    if s == [] then 0
    else
      var last := s[|s| - 1].offsetMs + s[|s| - 1].durationMs;
      var rest := End(s[..|s| - 1]);
      if rest < last then last else rest
  }

  /** Delaying a well-formed schedule keeps it well-formed and delays its end. */
  lemma ShiftWellFormed(s: seq<ToneEvent>, delayMs: nat)
    requires WellFormed(s)
    ensures WellFormed(Shift(s, delayMs))
    ensures End(Shift(s, delayMs)) == if s == [] then 0 else End(s) + delayMs
  {
    var r := Shift(s, delayMs);
    if s != [] {
      var i :| 0 <= i < |s| && s[i].offsetMs + s[i].durationMs == End(s);
      assert r[i].offsetMs + r[i].durationMs == End(s) + delayMs;
      var k :| 0 <= k < |r| && r[k].offsetMs + r[k].durationMs == End(r);
      assert s[k].offsetMs + s[k].durationMs <= End(s);
    }
  }

  /**
   * Playing `b` after `a` keeps the schedule well-formed when no tone of `b`
   * starts before a tone of `a`.
   */
  lemma {:induction false} AppendWellFormed(a: seq<ToneEvent>, b: seq<ToneEvent>)
    requires WellFormed(a) && WellFormed(b)
    requires forall i, j :: 0 <= i < |a| && 0 <= j < |b| ==> a[i].offsetMs <= b[j].offsetMs
    ensures WellFormed(a + b)
  {
    var s := a + b;
    forall i, j | 0 <= i <= j < |s| ensures s[i].offsetMs <= s[j].offsetMs {
      if j < |a| {
        assert s[i] == a[i] && s[j] == a[j];
      } else if i >= |a| {
        assert s[i] == b[i - |a|] && s[j] == b[j - |a|];
      } else {
        assert s[i] == a[i] && s[j] == b[j - |a|];
      }
    }
    forall i | 0 <= i < |s| ensures s[i].frequency > 0.0 && s[i].durationMs > 0 {
      if i < |a| { assert s[i] == a[i]; } else { assert s[i] == b[i - |a|]; }
    }
  }

  /**
   * Starting `b` with a delay no earlier than the end of `a` yields a
   * well-formed schedule in which every tone of `b` starts after `a` is over.
   */
  lemma {:induction false} PlayAfter(a: seq<ToneEvent>, b: seq<ToneEvent>, delayMs: nat)
    requires WellFormed(a) && WellFormed(b) && End(a) <= delayMs
    ensures WellFormed(a + Shift(b, delayMs))
    ensures forall i :: |a| <= i < |a| + |b| ==> (a + Shift(b, delayMs))[i].offsetMs >= End(a)
  {
    var late := Shift(b, delayMs);
    ShiftWellFormed(b, delayMs);
    forall i, j | 0 <= i < |a| && 0 <= j < |late| ensures a[i].offsetMs <= late[j].offsetMs {
      assert a[i].offsetMs + a[i].durationMs <= End(a);
    }
    AppendWellFormed(a, late);
    forall i | |a| <= i < |a| + |b| ensures (a + late)[i].offsetMs >= End(a) {
      assert (a + late)[i] == late[i - |a|];
    }
  }
}
