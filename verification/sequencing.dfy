/** The reference semantics both pipelines follow: a planned list of calls run
    in order, each of which either succeeds or fails with its own error, where
    the first failure ends the run and nothing is compensated. */
module Sequencing {
  import opened Fabric

  /** One planned call, whether it succeeds, and the error it reports if not. */
  datatype Step = Step(call: Call, ok: bool, failure: Error)

  function Calls(steps: seq<Step>): seq<Call>
  {
    seq(|steps|, i requires 0 <= i < |steps| => steps[i].call)
  }

  /** A step whose call only reads or constructs and whose failure the
      pipeline ignores. Such a step never fails, so `Sequence` never reports
      its `failure`; `AlreadyInitialized` merely fills the field. */
  function Observe(c: Call): Step
  {
    Step(c, true, AlreadyInitialized)
  }

  function ObserveAll(t: seq<Call>): seq<Step>
  {
    if |t| == 0 then [] else [Observe(t[0])] + ObserveAll(t[1..])
  }

  /** The index of the first step that fails, or the number of steps when
      none does. */
  function FirstFailure(steps: seq<Step>): (n: nat)
    ensures n <= |steps|
    ensures forall j :: 0 <= j < n ==> steps[j].ok
    ensures n < |steps| ==> !steps[n].ok
  {
    if |steps| == 0 || !steps[0].ok then 0
    else
      var n := FirstFailure(steps[1..]);
      assert forall j :: 1 <= j < |steps| ==> steps[j] == steps[1..][j - 1];
      1 + n
  }

  /** Abort-on-first-failure: every step runs until one fails; the run's
      error is that step's, and its trace ends with that step's call. */
  function Sequence(steps: seq<Step>): (Outcome, seq<Call>)
  {
    if |steps| == 0 then (Ok, [])
    else if !steps[0].ok then (Err(steps[0].failure), [steps[0].call])
    else
      var rest := Sequence(steps[1..]);
      (rest.0, [steps[0].call] + rest.1)
  }

  /** A run succeeds exactly when every step does, and then issues every
      call; otherwise it reports the first failing step's error and issues the
      calls up to and including that step's. */
  lemma SequenceMeaning(steps: seq<Step>)
    ensures Sequence(steps).0.Ok? <==> forall i :: 0 <= i < |steps| ==> steps[i].ok
    ensures Sequence(steps).0.Ok? ==> Sequence(steps).1 == Calls(steps)
    ensures Sequence(steps).0.Err? ==> FirstFailure(steps) < |steps|
    ensures Sequence(steps).0.Err? ==>
              Sequence(steps) == (Err(steps[FirstFailure(steps)].failure), Calls(steps)[..FirstFailure(steps) + 1])
  {
    var n := FirstFailure(steps);
    if n < |steps| {
      SequenceFailsAt(steps, n);
    } else {
      SequenceSucceeds(steps);
    }
  }

  /** Running a plan step by step: a failing first step ends the run, a
      succeeding one is followed by the rest of the plan. */
  lemma SequenceCons(s: Step, rest: seq<Step>)
    ensures Sequence([s] + rest) ==
              if !s.ok then (Err(s.failure), [s.call])
              else (Sequence(rest).0, [s.call] + Sequence(rest).1)
  {
    assert ([s] + rest)[1..] == rest;
  }

  /** Steps that cannot fail are passed over and only lengthen the trace. */
  lemma {:induction false} SequenceObserved(t: seq<Call>, rest: seq<Step>)
    ensures Sequence(ObserveAll(t) + rest) == (Sequence(rest).0, t + Sequence(rest).1)
  {
    if |t| == 0 {
      assert ObserveAll(t) + rest == rest;
      assert t + Sequence(rest).1 == Sequence(rest).1;
    } else {
      var first := Observe(t[0]);
      var tail := ObserveAll(t[1..]) + rest;
      assert ObserveAll(t) + rest == [first] + tail;
      var u := Sequence(rest).1;
      SequenceObserved(t[1..], rest);
      var a := Sequence(tail);
      assert a == (Sequence(rest).0, t[1..] + u);
      SequenceCons(first, tail);
      var b := Sequence([first] + tail);
      assert b == (a.0, [t[0]] + a.1);
      ConsAppend(t, u);
    }
  }

  /** Running two plans back to back: a failure in the first ends the run
      there; otherwise the second runs after the first's calls. */
  lemma {:induction false} SequenceAppend(a: seq<Step>, b: seq<Step>)
    ensures Sequence(a + b) ==
              if Sequence(a).0.Err? then Sequence(a)
              else (Sequence(b).0, Calls(a) + Sequence(b).1)
  {
    if |a| == 0 {
      assert a + b == b;
      assert Calls(a) + Sequence(b).1 == Sequence(b).1;
    } else {
      var first := a[0];
      var tail := a[1..];
      assert a == [first] + tail;
      assert a + b == [first] + (tail + b);
      SequenceCons(first, tail);
      SequenceCons(first, tail + b);
      if first.ok {
        SequenceAppend(tail, b);
        CallsCons(first, tail);
        var y := Sequence(tail);
        if y.0.Ok? {
          var u := Sequence(b).1;
          ConsAppend(Calls(a), u);
        }
      }
    }
  }

  lemma CallsCons(s: Step, rest: seq<Step>)
    ensures Calls([s] + rest) == [s.call] + Calls(rest)
  {
  }

  /** A plan whose steps before `n` succeed and whose step `n` fails ends
      there. */
  lemma {:induction false} SequenceFailsAt(steps: seq<Step>, n: nat)
    requires n < |steps| && !steps[n].ok
    requires forall j :: 0 <= j < n ==> steps[j].ok
    ensures Sequence(steps) == (Err(steps[n].failure), Calls(steps)[..n + 1])
  {
    if n > 0 {
      assert steps[0].ok;
      assert forall j :: 0 <= j < n - 1 ==> steps[1..][j] == steps[j + 1];
      SequenceFailsAt(steps[1..], n - 1);
      assert Calls(steps)[..n + 1] == [steps[0].call] + Calls(steps[1..])[..n];
    } else {
      assert Calls(steps)[..1] == [steps[0].call];
    }
  }

  /** A plan whose steps all succeed runs every call and succeeds. */
  lemma {:induction false} SequenceSucceeds(steps: seq<Step>)
    requires forall j :: 0 <= j < |steps| ==> steps[j].ok
    ensures Sequence(steps) == (Ok, Calls(steps))
  {
    if |steps| > 0 {
      assert forall j :: 0 <= j < |steps| - 1 ==> steps[1..][j] == steps[j + 1];
      SequenceSucceeds(steps[1..]);
      assert Calls(steps) == [steps[0].call] + Calls(steps[1..]);
    }
  }

  lemma Regroup<T>(a: seq<T>, b: seq<T>, c: seq<T>, d: seq<T>)
    ensures a + (b + (c + d)) == a + b + c + d
  {
  }

  lemma ConsAppend<T>(t: seq<T>, u: seq<T>)
    requires |t| > 0
    ensures [t[0]] + (t[1..] + u) == t + u
  {
  }
}
