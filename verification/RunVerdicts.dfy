/** What the thresholds of a finished run judge, in terms of the results its workers sent. */
module RunVerdicts {
  import opened Arithmetic
  import opened Histogram
  import C = Collector
  import E = Engine
  import T = Threshold

  /** v judges the whole milliseconds of some nearest-rank p-percentile of the latencies sent. */
  ghost predicate JudgesPercentile(v: T.Verdict, rule: T.Rule, log: seq<C.RequestResult>, p: nat, foreign: T.Reading) {
    exists us :: IsPercentile(C.AllMicros(log), p, us) && T.Reads(v, rule, Millis(us) as real, foreign)
  }

  /**
   Joining the engine, the collector and the thresholds: a verdict on the result of a run that
   sent something judges, by its metric, the 50th, 95th or 99th nearest-rank percentile or the
   truncated mean of the latencies sent, or the number of results sent.
   */
  lemma VerdictOfRun(c: E.Config, s: E.State, seconds: real, v: T.Verdict, rule: T.Rule, foreign: T.Reading)
    requires E.Reachable(c, s) && s.main.Returned? && s.ch.log != []
    requires T.Judges(v, rule, E.Result(s, seconds), foreign)
    ensures rule.metric == "http_req_duration_p50" ==> JudgesPercentile(v, rule, s.ch.log, 50, foreign)
    ensures rule.metric == "http_req_duration_p95" ==> JudgesPercentile(v, rule, s.ch.log, 95, foreign)
    ensures rule.metric == "http_req_duration_p99" ==> JudgesPercentile(v, rule, s.ch.log, 99, foreign)
    ensures rule.metric == "http_req_duration_avg" ==>
      T.Reads(v, rule, Millis(Trunc(Mean(C.AllMicros(s.ch.log)))) as real, foreign)
    ensures rule.metric == "http_reqs" ==> T.Reads(v, rule, |s.ch.log| as real, foreign)
  {
    var r := E.Result(s, seconds);
    T.VerdictMeans(v, rule, r, foreign);
    LatenciesOfRun(c, s, seconds);
    E.ReturnedTotalsExact(c, s, seconds);
  }

  lemma LatenciesOfRun(c: E.Config, s: E.State, seconds: real)
    requires E.Reachable(c, s) && s.main.Returned? && s.ch.log != []
    ensures var r, h := E.Result(s, seconds), C.AllMicros(s.ch.log);
      && IsPercentile(h, 50, r.p50Us) && IsPercentile(h, 95, r.p95Us) && IsPercentile(h, 99, r.p99Us)
      && r.avgUs == Trunc(Mean(h))
  {
    E.ReturnedLatenciesExact(c, s, seconds);
  }

  /** A verdict on failures judges 100 times the rate whose product with the results sent is their failures. */
  lemma FailuresOfRun(c: E.Config, s: E.State, seconds: real, v: T.Verdict, rule: T.Rule, foreign: T.Reading)
    returns (rate: real)
    requires E.Reachable(c, s) && s.main.Returned? && rule.metric == "http_req_failed"
    requires T.Judges(v, rule, E.Result(s, seconds), foreign)
    ensures Times(|s.ch.log|, rate) == C.Failures(s.ch.log) as real
    ensures T.ReadsRounded(v, rule, rate * 100.0, foreign)
  {
    rate := E.Result(s, seconds).errorRate;
    T.VerdictMeans(v, rule, E.Result(s, seconds), foreign);
    RateOfRun(c, s, seconds);
  }

  lemma RateOfRun(c: E.Config, s: E.State, seconds: real)
    requires E.Reachable(c, s) && s.main.Returned?
    ensures Times(|s.ch.log|, E.Result(s, seconds).errorRate) == C.Failures(s.ch.log) as real
  {
    E.ReturnedRatesExact(c, s, seconds);
  }
}
