/**
 * prepare_datasets: the dataset-preparation job. It checks its settings,
 * checks the database with up to three attempts, builds and pushes one
 * dataset per label (department, then urgency), skipping a label on a
 * ValueError and aborting on any other error, and finally asks for its own
 * space to be paused.
 *
 * The database, the two queries per label, the push and the pause are
 * inputs giving each call's outcome; W&B logging and alerts are not
 * modelled. The log records the calls that reach the outside world.
 */
module DatasetPrep {
  import opened Wrappers
  import opened LabelMaps
  import Text
  import PrepFrame

  const MAX_DB_ATTEMPTS: nat := 3
  const DEFAULT_MIN_DATASET_LEN: int := 1000
  const CORRECT_RATIO: real := 0.5

  /** The environment, as os.getenv returns it (None when unset). */
  datatype PrepEnv = PrepEnv(
    hfToken: Option<string>, departmentDataset: Option<string>, urgencyDataset: Option<string>,
    postgresUrl: Option<string>, prepareSpaceId: Option<string>, wandbApiKey: Option<string>,
    minDatasetLen: Option<string>)

  /** Python truthiness of an optional string. */
  predicate Truthy(v: Option<string>)
  {
    v.Some? && v.value != ""
  }

  /** The required settings, in the order of the required_env dict. */
  function Required(env: PrepEnv): seq<(string, Option<string>)>
  {
    [("HF_TOKEN", env.hfToken), ("DEPARTMENT_DATASET", env.departmentDataset),
     ("URGENCY_DATASET", env.urgencyDataset), ("POSTGRES_URL", env.postgresUrl),
     ("WANDB_API_KEY", env.wandbApiKey)]
  }

  /** [k for k, v in required.items() if not v] */
  function MissingNames(req: seq<(string, Option<string>)>): (r: seq<string>)
    ensures |r| <= |req|
    ensures forall n :: n in r ==> exists i :: 0 <= i < |req| && req[i].0 == n && !Truthy(req[i].1)
    ensures forall i :: 0 <= i < |req| && !Truthy(req[i].1) ==> req[i].0 in r
  {
    if req == [] then []
    else (if Truthy(req[0].1) then [] else [req[0].0]) + MissingNames(req[1..])
  }

  /** MIN_DATASET_LEN: 1000 when unset, else int() of the text, which may fail. */
  function MinLen(env: PrepEnv): Option<int>
  {
    match env.minDatasetLen
    case None => Some(DEFAULT_MIN_DATASET_LEN)
    case Some(s) => Text.PyInt(s)
  }

  /** What one `SELECT 1` attempt does. */
  datatype Connect = Connected | SqlError | OtherError

  /** What preprocess_and_push_dataset does with a frame. */
  datatype Push = Pushed | PushValueError | PushOtherError

  /** The two query results for a label (None when a query raises). */
  datatype Queries = Queries(mis: Option<nat>, pool: Option<nat>)

  datatype PrepEvent =
    | DbAttempt(attempt: nat)
    | Slept(seconds: nat)
    | Fetched(lbl: Label, records: nat)
    | PushedDataset(lbl: Label)
    | Skipped(lbl: Label)
    | PauseRequested(spaceId: string)

  datatype Outcome = Completed | MissingVariables(names: seq<string>) | DatabaseFailed | LabelFailed(lbl: Label)

  datatype PrepRun = PrepRun(events: seq<PrepEvent>, outcome: Outcome)

  function Pow2(n: nat): (r: nat)
    ensures r >= 1
  {
    if n == 0 then 1 else 2 * Pow2(n - 1)
  }

  // ---------------------------------------------------------------- database check

  /** The attempts from `attempt` on: a SQL error before the last one sleeps 2**attempt seconds and retries. */
  function DbCheck(db: nat -> Connect, attempt: nat): (r: (seq<PrepEvent>, bool))
    requires 1 <= attempt <= MAX_DB_ATTEMPTS
    decreases MAX_DB_ATTEMPTS - attempt
  {
    match db(attempt)
    case Connected => ([DbAttempt(attempt)], true)
    case OtherError => ([DbAttempt(attempt)], false)
    case SqlError =>
      if attempt == MAX_DB_ATTEMPTS then ([DbAttempt(attempt)], false)
      else
        var rest := DbCheck(db, attempt + 1);
        ([DbAttempt(attempt), Slept(Pow2(attempt))] + rest.0, rest.1)
  }

  /** The connection check loop. */
  method CheckDatabase(db: nat -> Connect) returns (events: seq<PrepEvent>, ok: bool)
    ensures (events, ok) == DbCheck(db, 1)
  {
    events := [];
    var attempt := 1;
    assert [] + DbCheck(db, 1).0 == DbCheck(db, 1).0;
    while true
      invariant 1 <= attempt <= MAX_DB_ATTEMPTS
      invariant DbCheck(db, 1) == (events + DbCheck(db, attempt).0, DbCheck(db, attempt).1)
      decreases MAX_DB_ATTEMPTS - attempt
    {
      var c := db(attempt);
      if c.Connected? {
        events := events + [DbAttempt(attempt)];
        return events, true;
      }
      if c.OtherError? || attempt == MAX_DB_ATTEMPTS {
        events := events + [DbAttempt(attempt)];
        return events, false;
      }
      var rest := DbCheck(db, attempt + 1);
      assert events + ([DbAttempt(attempt), Slept(Pow2(attempt))] + rest.0)
        == (events + [DbAttempt(attempt), Slept(Pow2(attempt))]) + rest.0;
      events := events + [DbAttempt(attempt), Slept(Pow2(attempt))];
      attempt := attempt + 1;
    }
  }

  /** Count of database attempts in a log. */
  function Attempts(evs: seq<PrepEvent>): nat
  {
    if evs == [] then 0 else (if evs[0].DbAttempt? then 1 else 0) + Attempts(evs[1..])
  }

  lemma {:induction false} AttemptsAppend(a: seq<PrepEvent>, b: seq<PrepEvent>)
    ensures Attempts(a + b) == Attempts(a) + Attempts(b)
  {
    if a == [] {
      assert a + b == b;
    } else {
      assert (a + b)[0] == a[0];
      assert (a + b)[1..] == a[1..] + b;
      AttemptsAppend(a[1..], b);
    }
  }

  /**
   * The check makes at most MAX_DB_ATTEMPTS attempts; it fails after the
   * last one only when every attempt raised, and the waits are 2 s then 4 s.
   */
  lemma {:induction false} DbCheckBounded(db: nat -> Connect, attempt: nat)
    requires 1 <= attempt <= MAX_DB_ATTEMPTS
    ensures 1 <= Attempts(DbCheck(db, attempt).0) <= MAX_DB_ATTEMPTS - attempt + 1
    ensures DbCheck(db, attempt).1 <==> exists j :: attempt <= j <= MAX_DB_ATTEMPTS && db(j).Connected? && AllSqlErrors(db, attempt, j)
    decreases MAX_DB_ATTEMPTS - attempt
  {
    var r := DbCheck(db, attempt);
    if db(attempt).SqlError? && attempt < MAX_DB_ATTEMPTS {
      var rest := DbCheck(db, attempt + 1);
      DbCheckBounded(db, attempt + 1);
      AttemptsAppend([DbAttempt(attempt), Slept(Pow2(attempt))], rest.0);
      AllSqlErrorsStep(db, attempt);
    } else {
      assert [DbAttempt(attempt)][1..] == [];
      if db(attempt).Connected? {
        assert AllSqlErrors(db, attempt, attempt);
      }
    }
  }

  /** Every attempt from `from` up to, not including, `to` raised a SQL error. */
  predicate AllSqlErrors(db: nat -> Connect, from: nat, to: nat)
  {
    forall j :: from <= j < to ==> db(j).SqlError?
  }

  lemma AllSqlErrorsStep(db: nat -> Connect, from: nat)
    ensures forall j :: from < j ==> (AllSqlErrors(db, from, j) <==> db(from).SqlError? && AllSqlErrors(db, from + 1, j))
  {
  }

  /** The waits between attempts are 2**attempt seconds: 2 s after the first failure, 4 s after the second. */
  lemma BackoffWaits(db: nat -> Connect)
    requires db(1).SqlError? && db(2).SqlError?
    ensures DbCheck(db, 1).0[..4] == [DbAttempt(1), Slept(2), DbAttempt(2), Slept(4)]
    ensures |DbCheck(db, 1).0| == 5 && DbCheck(db, 1).0[4] == DbAttempt(3)
  {
    assert Pow2(1) == 2 && Pow2(2) == 4;
  }

  // ---------------------------------------------------------------- per-label processing

  /**
   * Which fetch_misclassified_dataframe the job calls: the function as it is
   * written, whose column assert fails once a correct row is sampled, or the
   * corrected one that selects only the three promised columns.
   */
  datatype Fetcher = AsWritten | Corrected

  function Fetch(v: Fetcher, l: Label, q: Queries): Result<PrepFrame.Frame, PrepFrame.FrameError>
  {
    match v
    case AsWritten => PrepFrame.FetchAsWritten(LabelName(l), q.mis, q.pool, CORRECT_RATIO)
    case Corrected => PrepFrame.FetchMisclassified(LabelName(l), q.mis, q.pool, CORRECT_RATIO)
  }

  /** What one label's iteration ends in. */
  datatype LabelEnd = Next | Abort

  /**
   * One label: fetch the frame (a query error or the failed column assert
   * aborts, since neither is a ValueError); a frame below MIN_DATASET_LEN,
   * an unreadable MIN_DATASET_LEN, or a ValueError from the fetch or the
   * push skips the label; another push error aborts.
   */
  function LabelRun(v: Fetcher, env: PrepEnv, q: Queries, push: Push, l: Label): (r: (seq<PrepEvent>, LabelEnd))
  {
    match Fetch(v, l, q)
    case Err(e) => if e.BadLabelColumn? then ([Skipped(l)], Next) else ([], Abort)
    case Ok(frame) =>
      var n := frame.Rows();
      var minLen := MinLen(env);
      if minLen.None? || n < minLen.value then ([Fetched(l, n), Skipped(l)], Next)
      else match push
        case Pushed => ([Fetched(l, n), PushedDataset(l)], Next)
        case PushValueError => ([Fetched(l, n), Skipped(l)], Next)
        case PushOtherError => ([Fetched(l, n)], Abort)
  }

  /** What one label's iteration does, as a function of the label. */
  datatype LabelStep = LabelStep(v: Fetcher, env: PrepEnv, queries: Label -> Queries, push: Label -> Push)
  {
    function Run(l: Label): (seq<PrepEvent>, LabelEnd)
    {
      LabelRun(v, env, queries(l), push(l), l)
    }
  }

  /** The labels in order, stopping at the first that aborts. */
  function LabelsRun(run: Label -> (seq<PrepEvent>, LabelEnd), ls: seq<Label>): (r: (seq<PrepEvent>, Option<Label>))
    ensures r.1.Some? ==> r.1.value in ls
  {
    if ls == [] then ([], None)
    else
      var first := run(ls[0]);
      if first.1 == Abort then (first.0, Some(ls[0]))
      else
        var rest := LabelsRun(run, ls[1..]);
        (first.0 + rest.0, rest.1)
  }

  /** The whole job, as a function of the environment and every outside outcome. */
  function PrepareDatasets(v: Fetcher, env: PrepEnv, db: nat -> Connect, queries: Label -> Queries, push: Label -> Push): PrepRun
  {
    var missing := MissingNames(Required(env));
    if missing != [] then PrepRun([], MissingVariables(missing))
    else
      var check := DbCheck(db, 1);
      if !check.1 then PrepRun(check.0, DatabaseFailed)
      else
        var labels := LabelsRun(LabelStep(v, env, queries, push).Run, AllLabels);
        if labels.1.Some? then PrepRun(check.0 + labels.0, LabelFailed(labels.1.value))
        else
          var pause := if Truthy(env.prepareSpaceId) then [PauseRequested(env.prepareSpaceId.value)] else [];
          PrepRun(check.0 + labels.0 + pause, Completed)
  }

  const AllLabels: seq<Label> := [Department, Urgency]

  /** The per-label loop of prepare_datasets, over the labels in order; `run` is the loop body. */
  method ProcessLabels(run: Label -> (seq<PrepEvent>, LabelEnd), ls: seq<Label>)
    returns (events: seq<PrepEvent>, failed: Option<Label>)
    ensures (events, failed) == LabelsRun(run, ls)
  {
    events := [];
    var i := 0;
    assert ls[0..] == ls;
    assert [] + LabelsRun(run, ls).0 == LabelsRun(run, ls).0;
    while i < |ls|
      invariant 0 <= i <= |ls|
      invariant LabelsRun(run, ls) == (events + LabelsRun(run, ls[i..]).0, LabelsRun(run, ls[i..]).1)
    {
      var l := ls[i];
      assert ls[i..][0] == l && ls[i..][1..] == ls[i + 1..];
      var step := run(l);
      if step.1 == Abort {
        return events + step.0, Some(l);
      }
      var rest := LabelsRun(run, ls[i + 1..]);
      assert events + (step.0 + rest.0) == (events + step.0) + rest.0;
      events := events + step.0;
      i := i + 1;
    }
    assert ls[i..] == [];
    assert events + [] == events;
    failed := None;
  }

  /** prepare_datasets. */
  method RunPrepareDatasets(v: Fetcher, env: PrepEnv, db: nat -> Connect, queries: Label -> Queries, push: Label -> Push)
    returns (run: PrepRun)
    ensures run == PrepareDatasets(v, env, db, queries, push)
  {
    var missing := MissingNames(Required(env));
    if missing != [] {
      return PrepRun([], MissingVariables(missing));
    }
    var dbEvents, ok := CheckDatabase(db);
    if !ok {
      return PrepRun(dbEvents, DatabaseFailed);
    }
    var labelEvents, failed := ProcessLabels(LabelStep(v, env, queries, push).Run, AllLabels);
    if failed.Some? {
      return PrepRun(dbEvents + labelEvents, LabelFailed(failed.value));
    }
    var events := dbEvents + labelEvents;
    if Truthy(env.prepareSpaceId) {
      // A failed pause is logged and alerted; the run still completes.
      events := events + [PauseRequested(env.prepareSpaceId.value)];
    }
    run := PrepRun(events, Completed);
  }

  // ---------------------------------------------------------------- properties

  /** A missing required setting stops the job before any database or outside call, naming every missing one. */
  lemma MissingSettingsStopFirst(v: Fetcher, env: PrepEnv, db: nat -> Connect, queries: Label -> Queries, push: Label -> Push)
    ensures var r := PrepareDatasets(v, env, db, queries, push);
      (exists i :: 0 <= i < |Required(env)| && !Truthy(Required(env)[i].1)) <==>
        (r.outcome.MissingVariables? && r.events == [])
    ensures var r := PrepareDatasets(v, env, db, queries, push);
      r.outcome.MissingVariables? ==>
        forall i :: 0 <= i < |Required(env)| && !Truthy(Required(env)[i].1) ==> Required(env)[i].0 in r.outcome.names
  {
    var req := Required(env);
    var missing := MissingNames(req);
    if exists i :: 0 <= i < |req| && !Truthy(req[i].1) {
      var i :| 0 <= i < |req| && !Truthy(req[i].1);
      assert req[i].0 in missing;
    }
    if missing != [] {
      var n := missing[0];
      assert n in missing;
    }
    var r := PrepareDatasets(v, env, db, queries, push);
    if r.outcome.MissingVariables? {
      assert missing != [];
    }
  }

  /** A label that is skipped (too small, or a ValueError) never stops the next label. */
  lemma SkipContinues(v: Fetcher, env: PrepEnv, queries: Label -> Queries, push: Label -> Push)
    requires LabelRun(v, env, queries(Department), push(Department), Department).1 == Next
    ensures var r := LabelsRun(LabelStep(v, env, queries, push).Run, AllLabels);
      r.0 == LabelRun(v, env, queries(Department), push(Department), Department).0
        + LabelRun(v, env, queries(Urgency), push(Urgency), Urgency).0
  {
    var d := LabelRun(v, env, queries(Department), push(Department), Department);
    var u := LabelRun(v, env, queries(Urgency), push(Urgency), Urgency);
    assert AllLabels[1..] == [Urgency];
    assert [Urgency][1..] == [];
    var tail := LabelsRun(LabelStep(v, env, queries, push).Run, [Urgency]);
    assert tail.0 == u.0 by {
      if u.1 != Abort {
        assert LabelsRun(LabelStep(v, env, queries, push).Run, [Urgency][1..]) == ([], None);
        assert tail.0 == u.0 + [];
      }
    }
  }

  /** An abort on the department label leaves the urgency label untouched and the space not paused. */
  lemma AbortStopsLaterLabels(v: Fetcher, env: PrepEnv, db: nat -> Connect, queries: Label -> Queries, push: Label -> Push)
    requires MissingNames(Required(env)) == [] && DbCheck(db, 1).1
    requires LabelRun(v, env, queries(Department), push(Department), Department).1 == Abort
    ensures var r := PrepareDatasets(v, env, db, queries, push);
      && r.outcome == LabelFailed(Department)
      && r.events == DbCheck(db, 1).0 + LabelRun(v, env, queries(Department), push(Department), Department).0
      && forall i :: 0 <= i < |r.events| ==> !r.events[i].PauseRequested? && r.events[i] != PushedDataset(Urgency)
  {
    var check := DbCheck(db, 1);
    var d := LabelRun(v, env, queries(Department), push(Department), Department);
    assert LabelsRun(LabelStep(v, env, queries, push).Run, AllLabels) == (d.0, Some(Department));
    var r := PrepareDatasets(v, env, db, queries, push);
    assert r.events == check.0 + d.0;
    DbCheckEvents(db, 1);
    LabelRunEvents(v, env, queries(Department), push(Department), Department);
    forall i | 0 <= i < |r.events|
      ensures !r.events[i].PauseRequested? && r.events[i] != PushedDataset(Urgency)
    {
      if i < |check.0| {
        assert r.events[i] == check.0[i];
      } else {
        assert r.events[i] == d.0[i - |check.0|];
      }
    }
  }

  /** One label's events are about that label only. */
  lemma LabelRunEvents(v: Fetcher, env: PrepEnv, q: Queries, push: Push, l: Label)
    ensures var evs := LabelRun(v, env, q, push, l).0;
      forall i :: 0 <= i < |evs| ==> (evs[i].Fetched? || evs[i].PushedDataset? || evs[i].Skipped?) && evs[i].lbl == l
  {
  }

  /** A frame below MIN_DATASET_LEN is skipped without a push; an unreadable MIN_DATASET_LEN skips every label. */
  lemma SmallFramesSkipped(v: Fetcher, env: PrepEnv, q: Queries, push: Push, l: Label)
    requires Fetch(v, l, q).Ok?
    requires MinLen(env).None? || Fetch(v, l, q).value.Rows() < MinLen(env).value
    ensures LabelRun(v, env, q, push, l).1 == Next
    ensures Skipped(l) in LabelRun(v, env, q, push, l).0 && PushedDataset(l) !in LabelRun(v, env, q, push, l).0
  {
  }

  /** A dataset is pushed only for a frame of at least MIN_DATASET_LEN rows whose push succeeded. */
  lemma PushedOnlyWhenLargeEnough(v: Fetcher, env: PrepEnv, q: Queries, push: Push, l: Label)
    requires PushedDataset(l) in LabelRun(v, env, q, push, l).0
    ensures push == Pushed && MinLen(env).Some?
    ensures var f := Fetch(v, l, q);
      f.Ok? && f.value.Rows() >= MinLen(env).value
  {
  }

  /**
   * As written, the job never gets past the department label once a correct
   * complaint is sampled for it: the column assert raises an AssertionError,
   * which is not a ValueError, so it is re-raised before any push, before
   * the urgency label and before the pause.
   */
  lemma AsWrittenJobAbortsOnDepartment(env: PrepEnv, db: nat -> Connect, queries: Label -> Queries, push: Label -> Push)
    requires MissingNames(Required(env)) == [] && DbCheck(db, 1).1
    requires queries(Department).mis.Some? && queries(Department).pool.Some?
    requires queries(Department).mis.value >= 2 && queries(Department).pool.value > 0
    ensures PrepareDatasets(AsWritten, env, db, queries, push) == PrepRun(DbCheck(db, 1).0, LabelFailed(Department))
  {
    var n := queries(Department).mis.value;
    assert PrepFrame.CorrectTarget(n, CORRECT_RATIO) >= 1 by {
      assert n as real * CORRECT_RATIO >= 1.0;
    }
    PrepFrame.AsWrittenFailsWhenSampling(PrepFrame.DEPARTMENT, n, queries(Department).pool.value, CORRECT_RATIO);
    assert LabelRun(AsWritten, env, queries(Department), push(Department), Department) == ([], Abort);
    assert DbCheck(db, 1).0 + [] == DbCheck(db, 1).0;
  }

  /** As written, a dataset is pushed only for a frame that sampled no correct complaint. */
  lemma AsWrittenPushesOnlyUnsampled(env: PrepEnv, q: Queries, push: Push, l: Label)
    requires PushedDataset(l) in LabelRun(AsWritten, env, q, push, l).0
    ensures Fetch(AsWritten, l, q).Ok? && Fetch(AsWritten, l, q).value.correctRows == 0
  {
    var f := Fetch(AsWritten, l, q);
    if f.value.correctRows > 0 {
      PrepFrame.AsWrittenFailsWhenSampling(LabelName(l), q.mis.value, q.pool.value, CORRECT_RATIO);
    }
  }

  /**
   * The intended job on the same input: the department frame holds the
   * reports and the sampled rows, and it is pushed when it is large enough
   * and the push succeeds.
   */
  lemma CorrectedJobPushesDepartment(env: PrepEnv, q: Queries)
    requires q.mis.Some? && q.pool.Some? && q.mis.value > 0
    requires MinLen(env).Some?
    requires PrepFrame.FetchMisclassified(PrepFrame.DEPARTMENT, q.mis, q.pool, CORRECT_RATIO).value.Rows() >= MinLen(env).value
    ensures var rows := PrepFrame.FetchMisclassified(PrepFrame.DEPARTMENT, q.mis, q.pool, CORRECT_RATIO).value.Rows();
      LabelRun(Corrected, env, q, Pushed, Department) == ([Fetched(Department, rows), PushedDataset(Department)], Next)
  {
    PrepFrame.FetchMisclassifiedRules(PrepFrame.DEPARTMENT, q.mis, q.pool, CORRECT_RATIO);
  }

  /** The pause is requested only when the space id is set, and only on a completed run. */
  lemma PauseOnlyWhenSet(v: Fetcher, env: PrepEnv, db: nat -> Connect, queries: Label -> Queries, push: Label -> Push)
    ensures var r := PrepareDatasets(v, env, db, queries, push);
      (exists i :: 0 <= i < |r.events| && r.events[i].PauseRequested?) ==>
        Truthy(env.prepareSpaceId) && r.outcome == Completed
  {
    var r := PrepareDatasets(v, env, db, queries, push);
    if !(Truthy(env.prepareSpaceId) && r.outcome == Completed) {
      var check := DbCheck(db, 1);
      var labels := LabelsRun(LabelStep(v, env, queries, push).Run, AllLabels);
      DbCheckEvents(db, 1);
      NoPauseInLabels(v, env, queries, push, AllLabels);
      assert NoPause(check.0);
      NoPauseAppend(check.0, labels.0);
      if MissingNames(Required(env)) == [] && check.1 && labels.1.None? {
        assert r.events == check.0 + labels.0 + [];
      }
      assert NoPause(r.events);
    }
  }

  predicate NoPause(evs: seq<PrepEvent>)
  {
    forall i :: 0 <= i < |evs| ==> !evs[i].PauseRequested?
  }

  lemma NoPauseAppend(a: seq<PrepEvent>, b: seq<PrepEvent>)
    requires NoPause(a) && NoPause(b)
    ensures NoPause(a + b)
  {
    forall i | 0 <= i < |a + b|
      ensures !(a + b)[i].PauseRequested?
    {
      if i < |a| {
        assert (a + b)[i] == a[i];
      } else {
        assert (a + b)[i] == b[i - |a|];
      }
    }
  }

  lemma {:induction false} NoPauseInLabels(v: Fetcher, env: PrepEnv, queries: Label -> Queries, push: Label -> Push, ls: seq<Label>)
    ensures forall i :: 0 <= i < |LabelsRun(LabelStep(v, env, queries, push).Run, ls).0| ==> !LabelsRun(LabelStep(v, env, queries, push).Run, ls).0[i].PauseRequested?
    decreases |ls|
  {
    if ls != [] {
      NoPauseInLabels(v, env, queries, push, ls[1..]);
    }
  }

  /** The database check logs only attempts and waits. */
  lemma {:induction false} DbCheckEvents(db: nat -> Connect, attempt: nat)
    requires 1 <= attempt <= MAX_DB_ATTEMPTS
    ensures forall i :: 0 <= i < |DbCheck(db, attempt).0| ==> DbCheck(db, attempt).0[i].DbAttempt? || DbCheck(db, attempt).0[i].Slept?
    decreases MAX_DB_ATTEMPTS - attempt
  {
    if db(attempt).SqlError? && attempt < MAX_DB_ATTEMPTS {
      DbCheckEvents(db, attempt + 1);
    }
  }
}
