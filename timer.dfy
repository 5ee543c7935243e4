/**
  The runtime guard of function-timer/src/lib.rs. A `FunctionTimer` captures
  the metric name, the optional owner type name, the function name and the
  current instant when it is built; when it is dropped it records exactly one
  histogram observation. The clock is an abstract monotonic tick counter and
  the metrics recorder is an append-only log of observations.
*/
module Timer {
  import opened Wrappers

  /** A `key => value` tag of an observation. */
  datatype Label = Label(key: string, value: string)

  /** One histogram observation as the recorder receives it. */
  datatype Observation = Observation(name: string, duration: nat, labels: seq<Label>)

  /** The value of the first label with the given key, if any. */
  function LabelValue(labels: seq<Label>, key: string): Option<string> {
    if labels == [] then None
    else if labels[0].key == key then Some(labels[0].value)
    else LabelValue(labels[1..], key)
  }

  /**
    The tags of an observation: a `struct` tag exactly when an owner name is
    present, placed first, and always a `function` tag, placed last.
  */
  function LabelsFor(structName: Option<string>, functionName: string): (r: seq<Label>)
    ensures |r| == (if structName.Some? then 2 else 1)
    ensures r[|r| - 1] == Label("function", functionName)
    ensures LabelValue(r, "struct") == structName
    ensures LabelValue(r, "function") == Some(functionName)
  {
    match structName
    case Some(st) => [Label("struct", st), Label("function", functionName)]
    case None => [Label("function", functionName)]
  }

  /** The owner name and the function name can be read back from the tags: no two calls share tags. */
  lemma LabelsForInjective(s1: Option<string>, f1: string, s2: Option<string>, f2: string)
    requires LabelsFor(s1, f1) == LabelsFor(s2, f2)
    ensures s1 == s2 && f1 == f2
  {
    assert LabelValue(LabelsFor(s1, f1), "struct") == s1;
    assert LabelValue(LabelsFor(s1, f1), "function") == Some(f1);
  }

  /** Time elapsed since `start`; like `Instant::elapsed`, zero if the clock reads earlier than `start`. */
  function Elapsed(start: nat, now: nat): (d: nat)
    ensures start <= now ==> start + d == now
    ensures now < start ==> d == 0
  {
    if start <= now then now - start else 0
  }

  /** A monotonic clock: it only ever moves forward. */
  class Clock {
    var now: nat

    constructor (start: nat)
      ensures now == start
    {
      now := start;
    }

    method Advance(d: nat)
      modifies this
      ensures now == old(now) + d
    {
      now := now + d;
    }
  }

  /** The metrics recorder: it keeps every histogram observation it receives, in order. */
  class Recorder {
    ghost var observations: seq<Observation>

    constructor ()
      ensures observations == []
    {
      observations := [];
    }

    /** `histogram!(name, duration, labels...)`. */
    method Histogram(name: string, duration: nat, labels: seq<Label>)
      modifies this
      ensures observations == old(observations) + [Observation(name, duration, labels)]
    {
      observations := observations + [Observation(name, duration, labels)];
    }

    /** The observations recorded by code that runs in between, such as nested instrumented calls. */
    ghost method ReceiveAll(emitted: seq<Observation>)
      modifies this
      ensures observations == old(observations) + emitted
    {
      observations := observations + emitted;
    }
  }

  class FunctionTimer {
    const metricName: string
    const structName: Option<string>
    const functionName: string
    /** The instant of construction. */
    const chrono: nat
    /** Set once the guard has been dropped; Rust's ownership makes that happen exactly once. */
    var released: bool

    /** `FunctionTimer::new`: stores the three names unchanged and reads the clock. */
    constructor (metricName: string, structName: Option<string>, functionName: string, clock: Clock)
      ensures this.metricName == metricName && this.structName == structName && this.functionName == functionName
      ensures chrono == clock.now
      ensures !released
    {
      this.metricName := metricName;
      this.structName := structName;
      this.functionName := functionName;
      chrono := clock.now;
      released := false;
    }

    /**
      `Drop::drop`: records one observation named after the metric, with the
      time elapsed since construction and the tags of `LabelsFor`.
    */
    method Drop(clock: Clock, recorder: Recorder)
      requires !released
      modifies this, recorder
      ensures released
      ensures recorder.observations
              == old(recorder.observations) + [Observation(metricName, Elapsed(chrono, clock.now), LabelsFor(structName, functionName))]
    {
      var d := Elapsed(chrono, clock.now);
      if structName.Some? {
        recorder.Histogram(metricName, d, [Label("struct", structName.value), Label("function", functionName)]);
      } else {
        recorder.Histogram(metricName, d, [Label("function", functionName)]);
      }
      released := true;
    }
  }

  /** How the body of an instrumented function left its scope. */
  datatype Exit = Returned | ReturnedEarly | PropagatedError

  /**
    What the original body does when run: how long it takes, how it exits and
    which observations it records itself (those of instrumented functions it
    calls, including itself when recursive), in order.
  */
  datatype BodyRun = BodyRun(duration: nat, exit: Exit, emitted: seq<Observation>)

  /**
    An invocation of an instrumented body: the guard is built, the body runs,
    and however the body exits, the guard goes out of scope and is dropped.
    The guard adds exactly one observation, after those the body records
    itself; its duration is the body's running time, and the body's exit is
    passed through unchanged.
  */
  method RunGuarded(metricName: string, structName: Option<string>, functionName: string,
                    body: BodyRun, clock: Clock, recorder: Recorder) returns (exit: Exit)
    modifies clock, recorder
    ensures exit == body.exit
    ensures clock.now == old(clock.now) + body.duration
    ensures recorder.observations
            == old(recorder.observations) + body.emitted
               + [Observation(metricName, body.duration, LabelsFor(structName, functionName))]
  {
    var guard := new FunctionTimer(metricName, structName, functionName, clock);
    clock.Advance(body.duration);
    recorder.ReceiveAll(body.emitted);
    exit := body.exit;
    // Scope exit: the guard is dropped on every path out of the body.
    guard.Drop(clock, recorder);
  }
}
