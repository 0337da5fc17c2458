/**
 * The retraining orchestrator: it counts reviewed misclassification reports
 * per label, flags the labels whose dataset would reach the threshold,
 * restarts the dataset-preparation space once, and then, label by label,
 * waits for a fresh dataset snapshot before restarting that label's
 * retraining space.
 *
 * The database is a sequence of report rows, the wall clock is a number of
 * seconds that GET durations and sleeps advance, and the network is the
 * function giving the outcome of the k-th GET of the run.
 */
module Orchestrator {
  import opened Wrappers
  import opened LabelMaps

  const DEFAULT_THRESHOLD: int := 1500
  const DEFAULT_POLL_INTERVAL: nat := 60
  const DEFAULT_POLL_TIMEOUT: int := 1800
  /** The retries and backoff every call site leaves at the helper's defaults. */
  const FETCH_RETRIES: int := 3
  const FETCH_BACKOFF: nat := 2

  /** Time advances only through modelled durations, so a sleep between polls must be positive. */
  type Seconds = n: int | n >= 1 witness 1

  /**
   * The polling configuration: the fetch helper's retries and backoff as
   * main calls it, and POLL_INTERVAL and POLL_TIMEOUT in seconds.
   */
  datatype PollConfig = PollConfig(retries: int, backoff: nat, interval: Seconds, timeout: int)

  const DEFAULT_POLL: PollConfig := PollConfig(FETCH_RETRIES, FETCH_BACKOFF, DEFAULT_POLL_INTERVAL, DEFAULT_POLL_TIMEOUT)

  // ---------------------------------------------------------------- dataset size

  /** A row of the misclassified-complaints table, reduced to the columns the count reads. */
  datatype ReportRow = ReportRow(
    reviewed: bool,
    correctDepartment: Option<string>, predictedDepartment: Option<string>,
    correctUrgency: Option<string>, predictedUrgency: Option<string>)

  /** Reviewed, with a correction, and the correction IS DISTINCT FROM the prediction (NULL-safe). */
  predicate Misclassified(row: ReportRow, l: Label)
  {
    row.reviewed &&
    match l
    case Department => row.correctDepartment.Some? && row.predictedDepartment != row.correctDepartment
    case Urgency => row.correctUrgency.Some? && row.predictedUrgency != row.correctUrgency
  }

  /** SELECT COUNT(*) over the rows that are misclassified for `l`. */
  function MisCount(rows: seq<ReportRow>, l: Label): (n: nat)
    ensures n <= |rows|
    ensures n == 0 <==> forall i :: 0 <= i < |rows| ==> !Misclassified(rows[i], l)
  {
    if rows == [] then 0
    else (if Misclassified(rows[0], l) then 1 else 0) + MisCount(rows[1..], l)
  }

  datatype DatasetLen = DatasetLen(total: nat, mis: nat, correct: nat)

  /** The misclassified count plus half as many correctly classified rows, rounded down. */
  function ComputeDatasetLen(rows: seq<ReportRow>, l: Label): (d: DatasetLen)
    ensures d.mis == MisCount(rows, l)
    ensures 2 * d.correct <= d.mis < 2 * d.correct + 2
    ensures d.total == d.mis + d.correct
  {
    var mis := MisCount(rows, l);
    DatasetLen(mis + mis / 2, mis, mis / 2)
  }

  // ---------------------------------------------------------------- environment

  datatype Env = Env(
    databaseUrl: string,
    prepareRepo: string,
    retrainDepartmentRepo: string,
    retrainUrgencyRepo: string,
    thresholdDepartment: int,
    thresholdUrgency: int,
    poll: PollConfig,
    dryRun: bool)

  function Threshold(env: Env, l: Label): int
  {
    match l
    case Department => env.thresholdDepartment
    case Urgency => env.thresholdUrgency
  }

  function RetrainRepo(env: Env, l: Label): string
  {
    match l
    case Department => env.retrainDepartmentRepo
    case Urgency => env.retrainUrgencyRepo
  }

  predicate Flagged(rows: seq<ReportRow>, env: Env, l: Label)
  {
    ComputeDatasetLen(rows, l).total >= Threshold(env, l)
  }

  /** The labels of `ls` that are flagged, in order (the list main appends to). */
  function FlaggedAmong(rows: seq<ReportRow>, env: Env, ls: seq<Label>): (r: seq<Label>)
    ensures |r| <= |ls|
    ensures forall l :: l in r <==> l in ls && Flagged(rows, env, l)
  {
    if ls == [] then []
    else
      var last := ls[|ls| - 1];
      FlaggedAmong(rows, env, ls[..|ls| - 1]) + (if Flagged(rows, env, last) then [last] else [])
  }

  const AllLabels: seq<Label> := [Department, Urgency]

  /** A label with no misclassified rows is never flagged under a positive threshold. */
  lemma NoReportsNeverFlags(rows: seq<ReportRow>, env: Env, l: Label)
    requires Threshold(env, l) > 0
    requires forall i :: 0 <= i < |rows| ==> !Misclassified(rows[i], l)
    ensures l !in FlaggedAmong(rows, env, AllLabels)
  {
  }

  /** ",".join of the label names. */
  function JoinLabels(ls: seq<Label>): (s: string)
    ensures ls == [] <==> s == []
  {
    if ls == [] then ""
    else if |ls| == 1 then LabelName(ls[0])
    else LabelName(ls[0]) + "," + JoinLabels(ls[1..])
  }

  // ---------------------------------------------------------------- fetching with retries

  /** A field of the metadata JSON: missing, JSON null, or a value. */
  datatype Field<T> = Absent | Null | Value(v: T)

  /** The dataset metadata JSON, reduced to the two fields the orchestrator reads. */
  datatype Metadata = Metadata(numSamples: Field<int>, versionTag: Field<string>)

  /** metadata.get("num_samples", 0); None stands for a null field. */
  function SamplesOf(m: Metadata): Option<int>
  {
    match m.numSamples
    case Absent => Some(0)
    case Null => None
    case Value(n) => Some(n)
  }

  /** metadata.get("version_tag", ""); None stands for a null field. */
  function TagOf(m: Metadata): Option<string>
  {
    match m.versionTag
    case Absent => Some("")
    case Null => None
    case Value(t) => Some(t)
  }

  /** metadata.get("version_tag") with no default: None for a missing or a null field. */
  function LastVersionOf(m: Metadata): Option<string>
  {
    match m.versionTag
    case Value(t) => Some(t)
    case _ => None
  }

  /** The outcome of one GET and the seconds it took. */
  datatype Get = Reply(body: Metadata, took: nat) | Failure(took: nat)

  /**
   * RequestFailed: the last request exception is re-raised.
   * NothingToRaise: no attempt ran, so `raise None` itself fails.
   */
  datatype FetchError = RequestFailed | NothingToRaise

  /** What a call did: its result, the GETs it issued and the seconds it used. */
  datatype Fetch = Fetch(result: Result<Metadata, FetchError>, gets: nat, elapsed: nat)

  function AfterFetch(f: Fetch, gets: nat, elapsed: nat): Fetch
  {
    Fetch(f.result, f.gets + gets, f.elapsed + elapsed)
  }

  /** Attempts `attempt`..`retries`, starting with the k-th GET of the run. */
  function Attempts(net: nat -> Get, k: nat, attempt: nat, retries: int, backoff: nat): Fetch
    requires attempt >= 1
    decreases if attempt > retries then 0 else retries - attempt + 1
  {
    if attempt > retries then Fetch(Err(if attempt == 1 then NothingToRaise else RequestFailed), 0, 0)
    else
      match net(k)
      case Reply(body, took) => Fetch(Ok(body), 1, took)
      case Failure(took) =>
        AfterFetch(Attempts(net, k + 1, attempt + 1, retries, backoff), 1, took + backoff * attempt)
  }

  function FetchJson(net: nat -> Get, k: nat, retries: int, backoff: nat): Fetch
  {
    Attempts(net, k, 1, retries, backoff)
  }

  /** The GET loop: returns on the first reply, sleeps `backoff * attempt` after every failure. */
  method FetchJsonWithRetries(net: nat -> Get, k: nat, retries: int, backoff: nat) returns (f: Fetch)
    ensures f == FetchJson(net, k, retries, backoff)
  {
    var attempt := 1;
    var elapsed: nat := 0;
    while attempt <= retries
      invariant attempt >= 1
      invariant FetchJson(net, k, retries, backoff)
        == AfterFetch(Attempts(net, k + attempt - 1, attempt, retries, backoff), attempt - 1, elapsed)
      decreases retries - attempt
    {
      match net(k + attempt - 1)
      case Reply(body, took) =>
        return Fetch(Ok(body), attempt, elapsed + took);
      case Failure(took) =>
        elapsed := elapsed + took + backoff * attempt;
        attempt := attempt + 1;
    }
    f := Fetch(Err(if attempt == 1 then NothingToRaise else RequestFailed), attempt - 1, elapsed);
  }

  /** The sum of the seconds the GETs k..k+n-1 took. */
  function TookSum(net: nat -> Get, k: nat, n: nat): nat
    decreases n
  {
    if n == 0 then 0 else net(k).took + TookSum(net, k + 1, n - 1)
  }

  /** backoff*attempt + ... + backoff*retries. */
  function BackoffSum(attempt: nat, retries: int, backoff: nat): nat
    decreases if attempt > retries then 0 else retries - attempt + 1
  {
    if attempt > retries then 0 else backoff * attempt + BackoffSum(attempt + 1, retries, backoff)
  }

  lemma {:induction false} BackoffSumClosedForm(attempt: nat, retries: nat, backoff: nat)
    requires 1 <= attempt <= retries + 1
    ensures 2 * BackoffSum(attempt, retries, backoff)
         == backoff * (retries * (retries + 1) - (attempt - 1) * attempt)
    decreases retries + 1 - attempt
  {
    if attempt <= retries {
      BackoffSumClosedForm(attempt + 1, retries, backoff);
      var a := attempt;
      var total := retries * (retries + 1);
      assert 2 * BackoffSum(a, retries, backoff) == backoff * (2 * a) + backoff * (total - a * (a + 1));
      assert 2 * a + (total - a * (a + 1)) == total - (a - 1) * a;
      Distribute(backoff, 2 * a, total - a * (a + 1));
    }
  }

  lemma Distribute(b: int, x: int, y: int)
    ensures b * x + b * y == b * (x + y)
  {
  }

  /**
   * The fetch returns the body of the first reply among the first `retries`
   * GETs and issues no GET after it; otherwise every one of those GETs failed,
   * all of them were issued, and a sleep followed each one, the last included.
   */
  lemma {:induction false} AttemptsOutcome(net: nat -> Get, k: nat, attempt: nat, retries: int, backoff: nat)
    requires attempt >= 1
    ensures var f := Attempts(net, k, attempt, retries, backoff);
      && (attempt > retries ==> f.gets == 0 && f.result.Err?)
      && (attempt <= retries ==> 1 <= f.gets <= retries - attempt + 1)
      && (forall j :: k <= j < k + f.gets - 1 ==> net(j).Failure?)
      && (f.result.Ok? <==> exists j :: k <= j <= k + retries - attempt && net(j).Reply?)
      && (f.result.Ok? ==> net(k + f.gets - 1) == Reply(f.result.value, net(k + f.gets - 1).took))
      && (f.result.Err? ==>
            f.gets == (if attempt > retries then 0 else retries - attempt + 1)
            && f.elapsed == TookSum(net, k, f.gets) + BackoffSum(attempt, retries, backoff))
    decreases if attempt > retries then 0 else retries - attempt + 1
  {
    if attempt <= retries && net(k).Failure? {
      AttemptsOutcome(net, k + 1, attempt + 1, retries, backoff);
      var rest := Attempts(net, k + 1, attempt + 1, retries, backoff);
      if exists j :: k <= j <= k + retries - attempt && net(j).Reply? {
        var j :| k <= j <= k + retries - attempt && net(j).Reply?;
        assert j > k;
      }
    }
  }

  /** The defaults of the call sites: at most three GETs, and six seconds of sleep when all fail. */
  lemma DefaultFetchBounds(net: nat -> Get, k: nat)
    ensures var f := FetchJson(net, k, FETCH_RETRIES, FETCH_BACKOFF);
      && 1 <= f.gets <= 3
      && (f.result.Err? ==> f.result.error == RequestFailed && f.elapsed == TookSum(net, k, 3) + 12)
  {
    AttemptsOutcome(net, k, 1, 3, 2);
    BackoffSumClosedForm(1, 3, 2);
    var f := FetchJson(net, k, 3, 2);
    if f.result.Err? {
      assert f == AfterFetch(Attempts(net, k + 1, 2, 3, 2), 1, net(k).took + 2);
      assert Attempts(net, k + 1, 2, 3, 2)
          == AfterFetch(Attempts(net, k + 2, 3, 3, 2), 1, net(k + 1).took + 4);
      assert Attempts(net, k + 2, 3, 3, 2)
          == AfterFetch(Attempts(net, k + 3, 4, 3, 2), 1, net(k + 2).took + 6);
    }
  }

  /** With no attempt allowed, no GET is made and the final `raise` has nothing to raise. */
  lemma NoRetriesNoGets(net: nat -> Get, k: nat, retries: int, backoff: nat)
    requires retries < 1
    ensures FetchJson(net, k, retries, backoff) == Fetch(Err(NothingToRaise), 0, 0)
  {
  }

  // ---------------------------------------------------------------- polling

  /**
   * The poll's acceptance test: large enough, and a version tag other than
   * the previous one. A null num_samples makes the comparison raise a
   * TypeError, which the loop catches as "not yet".
   */
  predicate Fresh(m: Metadata, minLen: int, lastVersion: Option<string>)
  {
    SamplesOf(m).Some? && SamplesOf(m).value >= minLen && TagOf(m) != lastVersion
  }

  datatype PollError = Timeout

  /** The poll's result, the GETs it issued and the clock when it returned. */
  datatype Poll = Poll(result: Result<Metadata, PollError>, gets: nat, clock: nat)

  function AfterPoll(p: Poll, gets: nat): Poll
  {
    Poll(p.result, p.gets + gets, p.clock)
  }

  /**
   * Iterations of the poll loop from time `clock`, the loop having started at
   * `start`: the deadline is checked first, then a fetch whose failure counts
   * as "not yet", then a sleep.
   */
  function PollFrom(cfg: PollConfig, net: nat -> Get, k: nat, start: nat, clock: nat, minLen: int, lastVersion: Option<string>): Poll
    decreases if clock - start > cfg.timeout then 0 else cfg.timeout + 1 - (clock - start)
  {
    if clock - start > cfg.timeout then Poll(Err(Timeout), 0, clock)
    else
      var f := FetchJson(net, k, cfg.retries, cfg.backoff);
      var now := clock + f.elapsed;
      if f.result.Ok? && Fresh(f.result.value, minLen, lastVersion) then Poll(Ok(f.result.value), f.gets, now)
      else AfterPoll(PollFrom(cfg, net, k + f.gets, start, now + cfg.interval, minLen, lastVersion), f.gets)
  }

  method WaitForDatasetUpdate(cfg: PollConfig, net: nat -> Get, k: nat, start: nat, minLen: int, lastVersion: Option<string>)
    returns (p: Poll)
    ensures p == PollFrom(cfg, net, k, start, start, minLen, lastVersion)
  {
    var clock: nat := start;
    var next: nat := k;  // the index of the next GET
    ghost var rest := PollFrom(cfg, net, k, start, start, minLen, lastVersion);
    while true
      invariant next >= k
      invariant rest == PollFrom(cfg, net, next, start, clock, minLen, lastVersion)
      invariant PollFrom(cfg, net, k, start, start, minLen, lastVersion) == AfterPoll(rest, next - k)
      decreases if clock - start > cfg.timeout then 0 else cfg.timeout + 1 - (clock - start)
    {
      if clock - start > cfg.timeout {
        return Poll(Err(Timeout), next - k, clock);
      }
      var f := FetchJsonWithRetries(net, next, cfg.retries, cfg.backoff);
      PollStep(cfg, net, next, start, clock, minLen, lastVersion, f);
      if f.result.Ok? && Fresh(f.result.value, minLen, lastVersion) {
        return Poll(Ok(f.result.value), next - k + f.gets, clock + f.elapsed);
      }
      rest := PollFrom(cfg, net, next + f.gets, start, clock + f.elapsed + cfg.interval, minLen, lastVersion);
      clock := clock + f.elapsed + cfg.interval;
      next := next + f.gets;
    }
  }

  /** One iteration of the poll loop before the deadline: a fetch, then acceptance or a sleep. */
  lemma PollStep(cfg: PollConfig, net: nat -> Get, k: nat, start: nat, clock: nat, minLen: int, lastVersion: Option<string>, f: Fetch)
    requires clock - start <= cfg.timeout && f == FetchJson(net, k, cfg.retries, cfg.backoff)
    ensures PollFrom(cfg, net, k, start, clock, minLen, lastVersion)
      == if f.result.Ok? && Fresh(f.result.value, minLen, lastVersion) then Poll(Ok(f.result.value), f.gets, clock + f.elapsed)
         else AfterPoll(PollFrom(cfg, net, k + f.gets, start, clock + f.elapsed + cfg.interval, minLen, lastVersion), f.gets)
  {
  }

  /**
   * An accepted snapshot is large enough and carries a tag other than the
   * previous one; a timeout is raised only at the top of an iteration whose
   * start is past the deadline.
   */
  lemma {:induction false} PollOutcome(cfg: PollConfig, net: nat -> Get, k: nat, start: nat, clock: nat, minLen: int, lastVersion: Option<string>)
    ensures var p := PollFrom(cfg, net, k, start, clock, minLen, lastVersion);
      && (p.result.Ok? ==> Fresh(p.result.value, minLen, lastVersion))
      && (p.result.Err? ==> p.clock - start > cfg.timeout)
      && p.clock >= clock
    decreases if clock - start > cfg.timeout then 0 else cfg.timeout + 1 - (clock - start)
  {
    if clock - start <= cfg.timeout {
      var f := FetchJson(net, k, cfg.retries, cfg.backoff);
      var now := clock + f.elapsed;
      if !(f.result.Ok? && Fresh(f.result.value, minLen, lastVersion)) {
        PollOutcome(cfg, net, k + f.gets, start, now + cfg.interval, minLen, lastVersion);
      }
    }
  }

  /** A snapshot that still carries the previous tag is never accepted, whatever its size. */
  lemma StaleTagNeverAccepted(cfg: PollConfig, net: nat -> Get, k: nat, start: nat, minLen: int, tag: string)
    ensures var p := PollFrom(cfg, net, k, start, start, minLen, Some(tag));
      p.result.Ok? ==> TagOf(p.result.value) != Some(tag)
  {
    PollOutcome(cfg, net, k, start, start, minLen, Some(tag));
  }

  /**
   * When the previous metadata had a missing or a null version_tag, the
   * previous version is None: a snapshot is then accepted on its size alone,
   * unless its own version_tag is null, since None != None is false.
   */
  lemma MissingPreviousTagIgnoresTag(prev: Metadata, m: Metadata, minLen: int)
    requires !prev.versionTag.Value?
    ensures Fresh(m, minLen, LastVersionOf(prev))
        <==> SamplesOf(m).Some? && SamplesOf(m).value >= minLen && !m.versionTag.Null?
  {
  }

  /** A null num_samples is never accepted, whatever the tags. */
  lemma NullSamplesNeverAccepted(m: Metadata, minLen: int, lastVersion: Option<string>)
    requires m.numSamples.Null?
    ensures !Fresh(m, minLen, lastVersion)
  {
  }

  /**
   * A fetch that starts before the deadline is still accepted when it
   * finishes long after it: a single slow reply of 5000 seconds.
   */
  lemma LateReplyStillAccepted()
    ensures var m := Metadata(Value(10), Value("v2"));
      PollFrom(DEFAULT_POLL, (_: nat) => Reply(m, 5000), 0, 0, 0, 5, Some("v1")) == Poll(Ok(m), 1, 5000)
  {
    var m := Metadata(Value(10), Value("v2"));
    var net := (_: nat) => Reply(m, 5000);
    assert FetchJson(net, 0, FETCH_RETRIES, FETCH_BACKOFF) == Fetch(Ok(m), 1, 5000);
  }

  // ---------------------------------------------------------------- main

  datatype Event =
    | PrepRestart(repo: string, labels: string)
    | DatasetReady(forLabel: Label, metadata: Metadata)
    | RetrainRestart(repo: string, forLabel: Label)

  /** The exception that ends main; RestartFailed names the restart call that raised. */
  datatype Abort =
    | NoDatabaseUrl
    | MetadataFetchFailed(forLabel: Label)
    | PollTimedOut(forLabel: Label)
    | RestartFailed(call: Event)

  /** The calls a run made, in order (a call that raised included), and the exception that ended it, if any. */
  datatype Run = Run(events: seq<Event>, abort: Option<Abort>)

  function Prefixed(events: seq<Event>, r: Run): Run
  {
    Run(events + r.events, r.abort)
  }

  /** restart_hf_space: no API call under DRY_RUN. */
  function RestartCalls(dryRun: bool, e: Event): (calls: seq<Event>)
    ensures calls == [] <==> dryRun
    ensures forall c :: c in calls ==> c == e
  {
    if dryRun then [] else [e]
  }

  /**
   * Whether the restart calls just made raise: api.restart_space is called
   * without a try, and `restartOk` says which calls the Hub accepts.
   */
  predicate RestartRaises(restartOk: Event -> bool, calls: seq<Event>)
  {
    calls != [] && !restartOk(calls[0])
  }

  /** The restart of a label's retraining space, skipped with a warning when its repo is unset. */
  function RetrainCalls(env: Env, l: Label): (calls: seq<Event>)
    ensures calls == [] <==> env.dryRun || RetrainRepo(env, l) == ""
    ensures forall c :: c in calls ==> c == RetrainRestart(RetrainRepo(env, l), l)
  {
    var repo := RetrainRepo(env, l);
    if repo != "" then RestartCalls(env.dryRun, RetrainRestart(repo, l)) else []
  }

  /** What waiting for one label's dataset came to, with the GETs it issued and the clock after it. */
  datatype Step = Ready(metadata: Metadata, gets: nat, clock: nat) | FetchFailed | TimedOut

  /** Read the current version tag, then poll for a dataset at least as large as the label's count. */
  function LabelStep(env: Env, rows: seq<ReportRow>, net: nat -> Get, k: nat, clock: nat, l: Label): Step
  {
    var f := FetchJson(net, k, env.poll.retries, env.poll.backoff);
    if f.result.Err? then FetchFailed
    else
      var c1 := clock + f.elapsed;
      var p := PollFrom(env.poll, net, k + f.gets, c1, c1, ComputeDatasetLen(rows, l).total, LastVersionOf(f.result.value));
      if p.result.Err? then TimedOut else Ready(p.result.value, f.gets + p.gets, p.clock)
  }

  /** A ready dataset is at least as large as the label's count and is newer than the tag read first. */
  lemma LabelStepReady(env: Env, rows: seq<ReportRow>, net: nat -> Get, k: nat, clock: nat, l: Label)
    ensures var s := LabelStep(env, rows, net, k, clock, l);
      s.Ready? ==>
        && SamplesOf(s.metadata).Some? && SamplesOf(s.metadata).value >= ComputeDatasetLen(rows, l).total
        && TagOf(s.metadata) != LastVersionOf(FetchJson(net, k, env.poll.retries, env.poll.backoff).result.value)
  {
    var f := FetchJson(net, k, env.poll.retries, env.poll.backoff);
    if f.result.Ok? {
      var c1 := clock + f.elapsed;
      PollOutcome(env.poll, net, k + f.gets, c1, c1, ComputeDatasetLen(rows, l).total, LastVersionOf(f.result.value));
    }
  }

  method PrepareLabel(env: Env, rows: seq<ReportRow>, net: nat -> Get, k: nat, clock: nat, l: Label) returns (s: Step)
    ensures s == LabelStep(env, rows, net, k, clock, l)
  {
    var f := FetchJsonWithRetries(net, k, env.poll.retries, env.poll.backoff);
    if f.result.Err? {
      return FetchFailed;
    }
    var lastVersion := LastVersionOf(f.result.value);
    var c1 := clock + f.elapsed;
    var p := WaitForDatasetUpdate(env.poll, net, k + f.gets, c1, ComputeDatasetLen(rows, l).total, lastVersion);
    if p.result.Err? {
      return TimedOut;
    }
    s := Ready(p.result.value, f.gets + p.gets, p.clock);
  }

  /**
   * The per-label phase of main over the flagged labels `ls`, from the k-th
   * GET at time `clock`; `step` gives what waiting for a label comes to and
   * `restartOk` which restart calls succeed.
   */
  function RetrainEach(step: (nat, nat, Label) -> Step, restartOk: Event -> bool, env: Env, k: nat, clock: nat, ls: seq<Label>): Run
    decreases |ls|
  {
    if ls == [] then Run([], None)
    else
      match step(k, clock, ls[0])
      case FetchFailed => Run([], Some(MetadataFetchFailed(ls[0])))
      case TimedOut => Run([], Some(PollTimedOut(ls[0])))
      case Ready(m, gets, c) =>
        var calls := RetrainCalls(env, ls[0]);
        var head := [DatasetReady(ls[0], m)] + calls;
        if RestartRaises(restartOk, calls) then Run(head, Some(RestartFailed(calls[0])))
        else Prefixed(head, RetrainEach(step, restartOk, env, k + gets, c, ls[1..]))
  }

  function StepOf(env: Env, rows: seq<ReportRow>, net: nat -> Get): (nat, nat, Label) -> Step
  {
    (k: nat, clock: nat, l: Label) => LabelStep(env, rows, net, k, clock, l)
  }

  /** The preparation restart main makes once some label is flagged. */
  function PrepCalls(env: Env, ls: seq<Label>): seq<Event>
  {
    if env.prepareRepo != "" then RestartCalls(env.dryRun, PrepRestart(env.prepareRepo, JoinLabels(ls))) else []
  }

  function Orchestration(env: Env, rows: seq<ReportRow>, net: nat -> Get, restartOk: Event -> bool, clock: nat): Run
  {
    if env.databaseUrl == "" then Run([], Some(NoDatabaseUrl))
    else
      var ls := FlaggedAmong(rows, env, AllLabels);
      if ls == [] then Run([], None)
      else
        var prep := PrepCalls(env, ls);
        if RestartRaises(restartOk, prep) then Run(prep, Some(RestartFailed(prep[0])))
        else Prefixed(prep, RetrainEach(StepOf(env, rows, net), restartOk, env, 0, clock, ls))
  }

  /** The flagging loop of main: every label whose dataset size reaches its threshold, in order. */
  method FlagLabels(rows: seq<ReportRow>, env: Env) returns (labelsToPrepare: seq<Label>)
    ensures labelsToPrepare == FlaggedAmong(rows, env, AllLabels)
  {
    labelsToPrepare := [];
    for i := 0 to |AllLabels|
      invariant labelsToPrepare == FlaggedAmong(rows, env, AllLabels[..i])
    {
      var lbl := AllLabels[i];
      var d := ComputeDatasetLen(rows, lbl);
      if d.total >= Threshold(env, lbl) {
        labelsToPrepare := labelsToPrepare + [lbl];
      }
      assert AllLabels[..i + 1][..i] == AllLabels[..i];
    }
    assert AllLabels[..|AllLabels|] == AllLabels;
  }

  /** The per-label loop of main, appending to the restart calls already made. */
  method RetrainLabels(env: Env, rows: seq<ReportRow>, net: nat -> Get, restartOk: Event -> bool, clock0: nat,
                       labelsToPrepare: seq<Label>, events0: seq<Event>)
    returns (run: Run)
    ensures run == Prefixed(events0, RetrainEach(StepOf(env, rows, net), restartOk, env, 0, clock0, labelsToPrepare))
  {
    ghost var step := StepOf(env, rows, net);
    ghost var whole := Prefixed(events0, RetrainEach(step, restartOk, env, 0, clock0, labelsToPrepare));
    var events := events0;
    var k: nat := 0;
    var clock: nat := clock0;
    var i := 0;
    assert labelsToPrepare[0..] == labelsToPrepare;
    while i < |labelsToPrepare|
      invariant 0 <= i <= |labelsToPrepare|
      invariant whole == Prefixed(events, RetrainEach(step, restartOk, env, k, clock, labelsToPrepare[i..]))
    {
      var lbl := labelsToPrepare[i];
      var s := PrepareLabel(env, rows, net, k, clock, lbl);
      assert s == step(k, clock, lbl);
      if s.FetchFailed? {
        RetrainEachAt(step, restartOk, env, k, clock, labelsToPrepare, i, events, s);
        return Run(events, Some(MetadataFetchFailed(lbl)));
      } else if s.TimedOut? {
        RetrainEachAt(step, restartOk, env, k, clock, labelsToPrepare, i, events, s);
        return Run(events, Some(PollTimedOut(lbl)));
      }
      var calls := RetrainCalls(env, lbl);
      if calls != [] && !restartOk(calls[0]) {
        RetrainEachAt(step, restartOk, env, k, clock, labelsToPrepare, i, events, s);
        return Run(events + [DatasetReady(lbl, s.metadata)] + calls, Some(RestartFailed(calls[0])));
      }
      var next: nat := k + s.gets;  // the index of the next GET
      RetrainLabelsStep(step, restartOk, env, clock0, labelsToPrepare, events0, k, clock, i, events, s, next);
      events := events + [DatasetReady(lbl, s.metadata)] + calls;
      k := next;
      clock := s.clock;
      i := i + 1;
    }
    run := Run(events, None);
  }

  /** One label of the retraining phase, seen from the events already logged. */
  lemma RetrainEachFirst(step: (nat, nat, Label) -> Step, restartOk: Event -> bool, env: Env, k: nat, clock: nat, ls: seq<Label>, events: seq<Event>)
    requires ls != []
    ensures step(k, clock, ls[0]).FetchFailed? ==>
      Prefixed(events, RetrainEach(step, restartOk, env, k, clock, ls)) == Run(events, Some(MetadataFetchFailed(ls[0])))
    ensures step(k, clock, ls[0]).TimedOut? ==>
      Prefixed(events, RetrainEach(step, restartOk, env, k, clock, ls)) == Run(events, Some(PollTimedOut(ls[0])))
    ensures step(k, clock, ls[0]).Ready? && RestartRaises(restartOk, RetrainCalls(env, ls[0])) ==>
      var s := step(k, clock, ls[0]);
      var calls := RetrainCalls(env, ls[0]);
      Prefixed(events, RetrainEach(step, restartOk, env, k, clock, ls))
        == Run(events + [DatasetReady(ls[0], s.metadata)] + calls, Some(RestartFailed(calls[0])))
    ensures step(k, clock, ls[0]).Ready? && !RestartRaises(restartOk, RetrainCalls(env, ls[0])) ==>
      var s := step(k, clock, ls[0]);
      Prefixed(events, RetrainEach(step, restartOk, env, k, clock, ls))
        == Prefixed(events + [DatasetReady(ls[0], s.metadata)] + RetrainCalls(env, ls[0]),
                    RetrainEach(step, restartOk, env, k + s.gets, s.clock, ls[1..]))
  {
    var s := step(k, clock, ls[0]);
    if s.Ready? {
      var ev := [DatasetReady(ls[0], s.metadata)] + RetrainCalls(env, ls[0]);
      if !RestartRaises(restartOk, RetrainCalls(env, ls[0])) {
        var rest := RetrainEach(step, restartOk, env, k + s.gets, s.clock, ls[1..]);
        assert events + (ev + rest.events) == (events + ev) + rest.events;
      }
    } else {
      assert events + [] == events;
    }
  }

  /** RetrainEachFirst for the suffix of ls from i. */
  lemma RetrainEachAt(step: (nat, nat, Label) -> Step, restartOk: Event -> bool, env: Env, k: nat, clock: nat, ls: seq<Label>, i: nat, events: seq<Event>, s: Step)
    requires i < |ls| && s == step(k, clock, ls[i])
    ensures s.FetchFailed? ==>
      Prefixed(events, RetrainEach(step, restartOk, env, k, clock, ls[i..])) == Run(events, Some(MetadataFetchFailed(ls[i])))
    ensures s.TimedOut? ==>
      Prefixed(events, RetrainEach(step, restartOk, env, k, clock, ls[i..])) == Run(events, Some(PollTimedOut(ls[i])))
    ensures s.Ready? && RestartRaises(restartOk, RetrainCalls(env, ls[i])) ==>
      var calls := RetrainCalls(env, ls[i]);
      Prefixed(events, RetrainEach(step, restartOk, env, k, clock, ls[i..]))
        == Run(events + [DatasetReady(ls[i], s.metadata)] + calls, Some(RestartFailed(calls[0])))
    ensures s.Ready? && !RestartRaises(restartOk, RetrainCalls(env, ls[i])) ==>
      Prefixed(events, RetrainEach(step, restartOk, env, k, clock, ls[i..]))
        == Prefixed(events + [DatasetReady(ls[i], s.metadata)] + RetrainCalls(env, ls[i]),
                    RetrainEach(step, restartOk, env, k + s.gets, s.clock, ls[i + 1..]))
  {
    assert ls[i..][0] == ls[i] && ls[i..][1..] == ls[i + 1..];
    RetrainEachFirst(step, restartOk, env, k, clock, ls[i..], events);
  }

  /** The loop invariant of RetrainLabels carried past a label whose dataset became ready and whose restart did not raise. */
  lemma RetrainLabelsStep(step: (nat, nat, Label) -> Step, restartOk: Event -> bool, env: Env, clock0: nat, ls: seq<Label>, events0: seq<Event>,
                          k: nat, clock: nat, i: nat, events: seq<Event>, s: Step, next: nat)
    requires i < |ls| && s == step(k, clock, ls[i]) && s.Ready? && next == k + s.gets
    requires !RestartRaises(restartOk, RetrainCalls(env, ls[i]))
    requires Prefixed(events0, RetrainEach(step, restartOk, env, 0, clock0, ls))
          == Prefixed(events, RetrainEach(step, restartOk, env, k, clock, ls[i..]))
    ensures Prefixed(events0, RetrainEach(step, restartOk, env, 0, clock0, ls))
      == Prefixed(events + [DatasetReady(ls[i], s.metadata)] + RetrainCalls(env, ls[i]),
                  RetrainEach(step, restartOk, env, next, s.clock, ls[i + 1..]))
  {
    RetrainEachAt(step, restartOk, env, k, clock, ls, i, events, s);
  }

  /** main: flag the labels, trigger dataset preparation once, then wait and retrain label by label. */
  method RunOrchestration(env: Env, rows: seq<ReportRow>, net: nat -> Get, restartOk: Event -> bool, clock0: nat) returns (run: Run)
    ensures run == Orchestration(env, rows, net, restartOk, clock0)
  {
    if env.databaseUrl == "" {
      return Run([], Some(NoDatabaseUrl));
    }
    var labelsToPrepare := FlagLabels(rows, env);
    if labelsToPrepare == [] {
      return Run([], None);
    }
    var events: seq<Event> := [];
    if env.prepareRepo != "" {
      events := RestartCalls(env.dryRun, PrepRestart(env.prepareRepo, JoinLabels(labelsToPrepare)));
      if events != [] && !restartOk(events[0]) {
        return Run(events, Some(RestartFailed(events[0])));
      }
    }
    run := RetrainLabels(env, rows, net, restartOk, clock0, labelsToPrepare, events);
  }

  // ---------------------------------------------------------------- properties of main

  /** With no flagged label, main returns before any restart. */
  lemma NothingFlaggedNoRestart(env: Env, rows: seq<ReportRow>, net: nat -> Get, restartOk: Event -> bool, clock: nat)
    requires FlaggedAmong(rows, env, AllLabels) == []
    ensures Orchestration(env, rows, net, restartOk, clock).events == []
  {
  }

  /** A failed preparation restart ends main before any label is polled. */
  lemma PrepRestartFailureEndsRun(env: Env, rows: seq<ReportRow>, net: nat -> Get, restartOk: Event -> bool, clock: nat)
    requires env.databaseUrl != "" && env.prepareRepo != "" && !env.dryRun
    requires FlaggedAmong(rows, env, AllLabels) != []
    requires !restartOk(PrepRestart(env.prepareRepo, JoinLabels(FlaggedAmong(rows, env, AllLabels))))
    ensures var call := PrepRestart(env.prepareRepo, JoinLabels(FlaggedAmong(rows, env, AllLabels)));
      Orchestration(env, rows, net, restartOk, clock) == Run([call], Some(RestartFailed(call)))
  {
  }

  /** Under DRY_RUN the per-label phase makes no restart call, so none can raise. */
  lemma {:induction false} DryRunRetrainCalls(step: (nat, nat, Label) -> Step, restartOk: Event -> bool, env: Env, k: nat, clock: nat, ls: seq<Label>)
    requires env.dryRun
    ensures var r := RetrainEach(step, restartOk, env, k, clock, ls);
      && (forall e :: e in r.events ==> e.DatasetReady?)
      && (r.abort.Some? ==> !r.abort.value.RestartFailed?)
    decreases |ls|
  {
    if ls != [] && step(k, clock, ls[0]).Ready? {
      var s := step(k, clock, ls[0]);
      DryRunRetrainCalls(step, restartOk, env, k + s.gets, s.clock, ls[1..]);
    }
  }

  /** Under DRY_RUN the whole run makes no restart call, so no restart ends it. */
  lemma DryRunNoRestart(env: Env, rows: seq<ReportRow>, net: nat -> Get, restartOk: Event -> bool, clock: nat)
    requires env.dryRun
    ensures var r := Orchestration(env, rows, net, restartOk, clock);
      && (forall e :: e in r.events ==> e.DatasetReady?)
      && (r.abort.Some? ==> !r.abort.value.RestartFailed?)
  {
    if env.databaseUrl != "" && FlaggedAmong(rows, env, AllLabels) != [] {
      DryRunRetrainCalls(StepOf(env, rows, net), restartOk, env, 0, clock, FlaggedAmong(rows, env, AllLabels));
    }
  }

  /**
   * The order main's restart calls keep: no preparation restart, and each
   * retraining restart right after the acceptance of the same label's dataset.
   */
  predicate RetrainFollowsReady(evs: seq<Event>)
  {
    forall i :: 0 <= i < |evs| ==> InOrderAt(evs, i)
  }

  predicate InOrderAt(evs: seq<Event>, i: nat)
    requires i < |evs|
  {
    && !evs[i].PrepRestart?
    && (evs[i].RetrainRestart? ==> i > 0 && evs[i - 1].DatasetReady? && evs[i - 1].forLabel == evs[i].forLabel)
  }

  lemma ConcatFollowsReady(head: seq<Event>, rest: seq<Event>)
    requires RetrainFollowsReady(head) && RetrainFollowsReady(rest)
    ensures RetrainFollowsReady(head + rest)
  {
    var evs := head + rest;
    forall i | 0 <= i < |evs| ensures InOrderAt(evs, i) {
      if i >= |head| {
        var j := i - |head|;
        assert InOrderAt(rest, j);
        if j > 0 {
          assert evs[i - 1] == rest[j - 1];
        }
      } else {
        assert InOrderAt(head, i);
      }
    }
  }

  /** The per-label phase keeps that order, a restart that raised included. */
  lemma {:induction false} RetrainAfterReady(step: (nat, nat, Label) -> Step, restartOk: Event -> bool, env: Env, k: nat, clock: nat, ls: seq<Label>)
    ensures RetrainFollowsReady(RetrainEach(step, restartOk, env, k, clock, ls).events)
    decreases |ls|
  {
    if ls != [] && step(k, clock, ls[0]).Ready? {
      var s := step(k, clock, ls[0]);
      var head := [DatasetReady(ls[0], s.metadata)] + RetrainCalls(env, ls[0]);
      assert |head| == 1 || (|head| == 2 && head[1] == RetrainRestart(RetrainRepo(env, ls[0]), ls[0]));
      assert RetrainFollowsReady(head);
      if !RestartRaises(restartOk, RetrainCalls(env, ls[0])) {
        RetrainAfterReady(step, restartOk, env, k + s.gets, s.clock, ls[1..]);
        ConcatFollowsReady(head, RetrainEach(step, restartOk, env, k + s.gets, s.clock, ls[1..]).events);
      }
    }
  }

  /** Every dataset the run accepts is at least as large as its label's count. */
  lemma {:induction false} ReadyDatasetsLargeEnough(env: Env, rows: seq<ReportRow>, net: nat -> Get, restartOk: Event -> bool, k: nat, clock: nat, ls: seq<Label>)
    ensures forall e :: e in RetrainEach(StepOf(env, rows, net), restartOk, env, k, clock, ls).events && e.DatasetReady? ==>
      SamplesOf(e.metadata).Some? && SamplesOf(e.metadata).value >= ComputeDatasetLen(rows, e.forLabel).total
    decreases |ls|
  {
    var step := StepOf(env, rows, net);
    if ls != [] && step(k, clock, ls[0]).Ready? {
      var s := step(k, clock, ls[0]);
      LabelStepReady(env, rows, net, k, clock, ls[0]);
      ReadyDatasetsLargeEnough(env, rows, net, restartOk, k + s.gets, s.clock, ls[1..]);
    }
  }

  /** The abort concerns label l: its fetch, its poll, or its retraining restart failed. */
  predicate AbortFor(a: Abort, l: Label)
  {
    match a
    case MetadataFetchFailed(l') => l' == l
    case PollTimedOut(l') => l' == l
    case RestartFailed(call) => call.RetrainRestart? && call.forLabel == l
    case NoDatabaseUrl => false
  }

  /**
   * The run stopped at the m-th label: its abort names ls[m]; its events
   * concern earlier labels, or label m itself when its retraining restart
   * raised, and that failed call is then the last one made.
   */
  predicate StoppedAt(r: Run, ls: seq<Label>, m: nat)
  {
    && m < |ls|
    && r.abort.Some? && AbortFor(r.abort.value, ls[m])
    && (forall e :: e in r.events ==>
          !e.PrepRestart? && (e.forLabel in ls[..m] || (r.abort.value.RestartFailed? && e.forLabel == ls[m])))
    && (r.abort.value.RestartFailed? ==> r.events != [] && r.events[|r.events| - 1] == r.abort.value.call)
  }

  /** A failure ends the run: the phase stops at some flagged label and handles none after it. */
  lemma {:induction false} AbortStopsLaterLabels(step: (nat, nat, Label) -> Step, restartOk: Event -> bool, env: Env, k: nat, clock: nat, ls: seq<Label>)
    ensures var r := RetrainEach(step, restartOk, env, k, clock, ls);
      r.abort.Some? ==> exists m: nat :: StoppedAt(r, ls, m)
    decreases |ls|
  {
    if ls != [] {
      var r := RetrainEach(step, restartOk, env, k, clock, ls);
      var s := step(k, clock, ls[0]);
      if s.Ready? {
        var calls := RetrainCalls(env, ls[0]);
        if RestartRaises(restartOk, calls) {
          RaisedRestartStopsAtFirst(env, ls, s.metadata, r, calls);
        } else {
          AbortStopsLaterLabels(step, restartOk, env, k + s.gets, s.clock, ls[1..]);
          var rest := RetrainEach(step, restartOk, env, k + s.gets, s.clock, ls[1..]);
          if rest.abort.Some? {
            var m: nat :| StoppedAt(rest, ls[1..], m);
            StoppedAfterReady(env, ls, s.metadata, rest, m);
          }
        }
      } else {
        assert StoppedAt(r, ls, 0);
      }
    }
  }

  /** A retraining restart that raised for the first label stops the phase there. */
  lemma RaisedRestartStopsAtFirst(env: Env, ls: seq<Label>, md: Metadata, r: Run, calls: seq<Event>)
    requires ls != [] && calls == RetrainCalls(env, ls[0]) && calls != []
    requires r == Run([DatasetReady(ls[0], md)] + calls, Some(RestartFailed(calls[0])))
    ensures StoppedAt(r, ls, 0)
  {
    assert calls[0] in calls;
    assert forall e :: e in r.events ==> e == DatasetReady(ls[0], md) || e in calls;
  }

  /** A stop at the m-th of the later labels, after the first label's events, is a stop at label m + 1. */
  lemma StoppedAfterReady(env: Env, ls: seq<Label>, md: Metadata, rest: Run, m: nat)
    requires ls != [] && StoppedAt(rest, ls[1..], m)
    ensures StoppedAt(Prefixed([DatasetReady(ls[0], md)] + RetrainCalls(env, ls[0]), rest), ls, m + 1)
  {
    var head := [DatasetReady(ls[0], md)] + RetrainCalls(env, ls[0]);
    assert ls[1..][..m] == ls[1..m + 1];
    assert forall e :: e in head ==> !e.PrepRestart? && e.forLabel == ls[0];
    assert forall e :: e in head + rest.events ==> e in head || e in rest.events;
    if rest.abort.value.RestartFailed? {
      assert (head + rest.events)[|head + rest.events| - 1] == rest.events[|rest.events| - 1];
    }
  }

  /** A run of the phase that ends without exception accepted a dataset for every flagged label. */
  lemma {:induction false} CompletedPhaseCoversAll(step: (nat, nat, Label) -> Step, restartOk: Event -> bool, env: Env, k: nat, clock: nat, ls: seq<Label>)
    ensures var r := RetrainEach(step, restartOk, env, k, clock, ls);
      r.abort.None? ==> forall l :: l in ls ==> exists e :: e in r.events && e.DatasetReady? && e.forLabel == l
    decreases |ls|
  {
    if ls != [] && step(k, clock, ls[0]).Ready? && !RestartRaises(restartOk, RetrainCalls(env, ls[0])) {
      var s := step(k, clock, ls[0]);
      CompletedPhaseCoversAll(step, restartOk, env, k + s.gets, s.clock, ls[1..]);
      var rest := RetrainEach(step, restartOk, env, k + s.gets, s.clock, ls[1..]);
      var r := RetrainEach(step, restartOk, env, k, clock, ls);
      assert r.events[0] == DatasetReady(ls[0], s.metadata);
      if r.abort.None? {
        forall l | l in ls ensures exists e :: e in r.events && e.DatasetReady? && e.forLabel == l {
          if l != ls[0] {
            assert l in ls[1..];
            var e :| e in rest.events && e.DatasetReady? && e.forLabel == l;
            assert e in r.events;
          }
        }
      }
    }
  }
}
