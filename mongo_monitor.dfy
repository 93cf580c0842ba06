/**
 * The database health monitor: every 30 seconds it pings the database; a
 * success records the time and resets the failure count, a failure bumps
 * it, and the process exits (to be restarted by its supervisor) once the
 * count reaches `maxRetries`. The ping outcome and the clock are inputs here.
 */
module MongoMonitor {
  import opened Wrappers

  /** `Date.now()` values, in milliseconds. */
  type Time = int

  /** `this.maxRetries`. */
  const MaxRetries: nat := 3

  /** The monitor's fields, plus whether `process.exit(1)` has been called. */
  datatype MonitorState = MonitorState(lastPing: Time, retryCount: nat, exited: bool)

  /** The state the constructor sets up. */
  const Initial: MonitorState := MonitorState(0, 0, false)

  /** One `checkHealth` run. An exited process runs nothing more. */
  function Check(s: MonitorState, pingOk: bool, now: Time): (r: MonitorState)
    ensures s.exited ==> r == s
    ensures !s.exited && pingOk ==> r == MonitorState(now, 0, false)
    ensures !s.exited && !pingOk ==> r.lastPing == s.lastPing && r.retryCount == s.retryCount + 1
    ensures !s.exited && !pingOk ==> (r.exited <==> r.retryCount >= MaxRetries)
  {
    if s.exited then s
    else if pingOk then s.(lastPing := now, retryCount := 0)
    else
      var failures := s.retryCount + 1;
      s.(retryCount := failures, exited := failures >= MaxRetries)
  }

  /** The outcome of one scheduled ping and the time it completed. */
  datatype Probe = Probe(ok: bool, at: Time)

  /** The monitor after the probes of `trace`, in order, starting from the constructor's state. */
  function Run(trace: seq<Probe>): MonitorState {
    if trace == [] then Initial
    else
      var last := trace[|trace| - 1];
      Check(Run(trace[..|trace| - 1]), last.ok, last.at)
  }

  /** Every probe of `trace[lo..hi]` failed. */
  predicate AllFail(trace: seq<Probe>, lo: nat, hi: nat)
    requires lo <= hi <= |trace|
  {
    forall j :: lo <= j < hi ==> !trace[j].ok
  }

  /** The `MaxRetries` probes from index `i` on all failed. */
  predicate FailsFrom(trace: seq<Probe>, i: nat) {
    i + MaxRetries <= |trace| && AllFail(trace, i, i + MaxRetries)
  }

  /** Somewhere in `trace` there are `MaxRetries` failed probes in a row. */
  ghost predicate FailureRun(trace: seq<Probe>) {
    exists i: nat :: FailsFrom(trace, i)
  }

  /** How many probes at the end of `trace` failed, back to the last success. */
  function TrailingFailures(trace: seq<Probe>): (n: nat)
    ensures n <= |trace|
  {
    if trace == [] || trace[|trace| - 1].ok then 0 else 1 + TrailingFailures(trace[..|trace| - 1])
  }

  /** The last `k` probes all failed exactly when at least `k` failures trail the trace. */
  lemma {:induction false} TrailingFailuresAtLeast(trace: seq<Probe>, k: nat)
    requires k <= |trace|
    ensures AllFail(trace, |trace| - k, |trace|) <==> TrailingFailures(trace) >= k
  {
    if k > 0 {
      var n := |trace|;
      var prefix := trace[..n - 1];
      TrailingFailuresAtLeast(prefix, k - 1);
      if AllFail(trace, n - k, n) {
        assert AllFail(prefix, n - k, n - 1);
      }
      if TrailingFailures(trace) >= k {
        assert AllFail(prefix, n - 1 - (k - 1), n - 1);
        assert forall j :: n - k <= j < n ==> !trace[j].ok by {
          forall j | n - k <= j < n ensures !trace[j].ok {
            if j < n - 1 {
              assert !prefix[j].ok;
            }
          }
        }
      }
    }
  }

  /**
   * The process exits exactly when `MaxRetries` consecutive probes failed;
   * while it runs, the failure count is the number of trailing failures and
   * stays below `MaxRetries`.
   */
  lemma {:induction false} ExitIffConsecutiveFailures(trace: seq<Probe>)
    ensures Run(trace).exited <==> FailureRun(trace)
    ensures !Run(trace).exited ==> Run(trace).retryCount == TrailingFailures(trace) < MaxRetries
  {
    if trace != [] {
      var n := |trace|;
      var prefix := trace[..n - 1];
      ExitIffConsecutiveFailures(prefix);
      if FailureRun(prefix) {
        var i: nat :| FailsFrom(prefix, i);
        assert FailsFrom(trace, i);
      } else {
        if FailureRun(trace) {
          var i: nat :| FailsFrom(trace, i);
          if i + MaxRetries < n {
            assert FailsFrom(prefix, i);
          }
          TrailingFailuresAtLeast(trace, MaxRetries);
        } else if n >= MaxRetries {
          TrailingFailuresAtLeast(trace, MaxRetries);
          if TrailingFailures(trace) >= MaxRetries {
            assert FailsFrom(trace, n - MaxRetries);
          }
        }
      }
    }
  }

  /** The `status` getter's result. */
  datatype Status = Status(lastPing: Time, latency: Option<int>, retryCount: nat)

  /** `MongoMonitor` with its fields; `exited` records the call to `process.exit(1)`. */
  class Monitor {
    var lastPing: Time
    var retryCount: nat
    const maxRetries: nat
    var exited: bool

    function State(): MonitorState
      reads this
    {
      MonitorState(lastPing, retryCount, exited)
    }

    /** A running monitor has seen fewer than `maxRetries` failures in a row; an exited one exactly that many. */
    ghost predicate Valid()
      reads this
    {
      && maxRetries == MaxRetries
      && (!exited ==> retryCount < maxRetries)
      && (exited ==> retryCount == maxRetries)
    }

    constructor ()
      ensures Valid() && State() == Initial
    {
      lastPing := 0;
      retryCount := 0;
      maxRetries := 3;
      exited := false;
    }

    /** `checkHealth`, with the ping's outcome and `Date.now()` given. */
    method CheckHealth(pingOk: bool, now: Time)
      requires Valid() && !exited
      modifies this
      ensures Valid()
      ensures State() == Check(old(State()), pingOk, now)
    {
      if pingOk {
        lastPing := now;
        retryCount := 0;
      } else {
        retryCount := retryCount + 1;
        if retryCount >= maxRetries {
          exited := true;
        }
      }
    }

    /** The `status` getter at time `now`: no latency before the first successful ping. */
    method GetStatus(now: Time) returns (s: Status)
      ensures s.lastPing == lastPing && s.retryCount == retryCount
      ensures s.latency.None? <==> lastPing == 0
      ensures s.latency.Some? ==> s.latency.value == now - lastPing
    {
      s := Status(lastPing, if lastPing != 0 then Some(now - lastPing) else None, retryCount);
    }
  }
}
