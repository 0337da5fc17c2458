/**
 * fetch_misclassified_dataframe: the training frame for one label is every
 * reviewed misclassification report plus a sample of correctly labelled
 * complaints, `correct_ratio` times as many as the reports.
 *
 * The two SQL queries are inputs (None when the query raises) given as
 * their row counts; which rows the seeded sample picks is not modelled,
 * only how many.
 */
module PrepFrame {
  import opened Wrappers

  const GRIEVANCE: string := "grievance"
  const DEPARTMENT: string := "department"
  const URGENCY: string := "urgency"
  const COMPLAINT_ID: string := "complaint_id"

  /** The columns the function promises to return. */
  const FRAME_COLUMNS: set<string> := {GRIEVANCE, DEPARTMENT, URGENCY}

  /** A data frame by its column names and its rows: the misclassified rows first, then the sampled correct ones. */
  datatype Frame = Frame(columns: set<string>, misRows: nat, correctRows: nat)
  {
    function Rows(): nat { misRows + correctRows }
  }

  datatype FrameError = BadLabelColumn | QueryFailed | UnexpectedColumns

  /** Python's int() on a float: truncation toward zero. */
  function TruncToInt(x: real): (n: int)
    ensures x >= 0.0 ==> 0 <= n && n as real <= x < n as real + 1.0
    ensures x < 0.0 ==> n as real - 1.0 < x <= n as real <= 0.0
  {
    if x >= 0.0 then x.Floor else -((-x).Floor)
  }

  /** n_correct = int(n_mis * correct_ratio). */
  function CorrectTarget(nMis: nat, ratio: real): int
  {
    TruncToInt(nMis as real * ratio)
  }

  /** df_corr_all.sample(n=min(n_correct, len(pool))) when n_correct > 0 and the pool is non-empty, else nothing. */
  function SampleSize(nCorrect: int, pool: nat): (n: nat)
    ensures n <= pool
    ensures nCorrect > 0 && pool > 0 ==> n == if nCorrect < pool then nCorrect else pool
    ensures nCorrect <= 0 || pool == 0 ==> n == 0
  {
    if nCorrect > 0 && pool > 0 then (if nCorrect < pool then nCorrect else pool) else 0
  }

  /** The columns of the correct-row frame: the query's own columns when rows were sampled, the fixed three otherwise. */
  function SampledColumns(sampled: nat, queryColumns: set<string>): set<string>
  {
    if sampled > 0 then queryColumns else FRAME_COLUMNS
  }

  /**
   * The function with the correct-row query as it is written, selecting
   * complaint_id as well: pd.concat takes the union of the columns, so the
   * final assert on exactly three columns fails once a correct row is
   * sampled.
   */
  function FetchAsWritten(labelColumn: string, mis: Option<nat>, pool: Option<nat>, ratio: real): (r: Result<Frame, FrameError>)
  {
    if labelColumn != DEPARTMENT && labelColumn != URGENCY then Err(BadLabelColumn)
    else if mis.None? then Err(QueryFailed)
    else if mis.value == 0 then Ok(Frame(FRAME_COLUMNS, 0, 0))
    else if pool.None? then Err(QueryFailed)
    else
      var sampled := SampleSize(CorrectTarget(mis.value, ratio), pool.value);
      var columns := FRAME_COLUMNS + SampledColumns(sampled, FRAME_COLUMNS + {COMPLAINT_ID});
      if columns != FRAME_COLUMNS then Err(UnexpectedColumns)
      else Ok(Frame(columns, mis.value, sampled))
  }

  /** As written, any run that samples a correct row ends in the failed assert. */
  lemma AsWrittenFailsWhenSampling(labelColumn: string, nMis: nat, pool: nat, ratio: real)
    requires labelColumn == DEPARTMENT || labelColumn == URGENCY
    requires nMis > 0 && pool > 0 && CorrectTarget(nMis, ratio) > 0
    ensures FetchAsWritten(labelColumn, Some(nMis), Some(pool), ratio) == Err(UnexpectedColumns)
  {
    assert COMPLAINT_ID in FRAME_COLUMNS + {COMPLAINT_ID};
    assert COMPLAINT_ID !in FRAME_COLUMNS by {
      assert |COMPLAINT_ID| == 12 && |GRIEVANCE| == 9 && |DEPARTMENT| == 10 && |URGENCY| == 7;
    }
  }

  /** With the ratio the dataset preparation passes, two reports are already enough to hit it. */
  lemma TwoReportsHitTheAssert(labelColumn: string, pool: nat)
    requires labelColumn == DEPARTMENT || labelColumn == URGENCY
    requires pool > 0
    ensures FetchAsWritten(labelColumn, Some(2), Some(pool), 0.5) == Err(UnexpectedColumns)
  {
    assert CorrectTarget(2, 0.5) == 1;
    AsWrittenFailsWhenSampling(labelColumn, 2, pool, 0.5);
  }

  /**
   * The function with the correct-row query selecting only the three
   * promised columns, which is what the docstring and the assert intend.
   */
  function FetchMisclassified(labelColumn: string, mis: Option<nat>, pool: Option<nat>, ratio: real): (r: Result<Frame, FrameError>)
    ensures r.Ok? ==> r.value.columns == FRAME_COLUMNS
    ensures r.Err? ==> r.error != UnexpectedColumns
  {
    if labelColumn != DEPARTMENT && labelColumn != URGENCY then Err(BadLabelColumn)
    else if mis.None? then Err(QueryFailed)
    else if mis.value == 0 then Ok(Frame(FRAME_COLUMNS, 0, 0))
    else if pool.None? then Err(QueryFailed)
    else Ok(Frame(FRAME_COLUMNS, mis.value, SampleSize(CorrectTarget(mis.value, ratio), pool.value)))
  }

  /**
   * The rules of the corrected function: an unknown label column is a
   * ValueError; no reports gives the empty frame without reading the pool;
   * otherwise every report plus min(n_correct, pool) sampled rows, or none
   * when n_correct is not positive.
   */
  lemma FetchMisclassifiedRules(labelColumn: string, mis: Option<nat>, pool: Option<nat>, ratio: real)
    ensures labelColumn != DEPARTMENT && labelColumn != URGENCY <==>
      FetchMisclassified(labelColumn, mis, pool, ratio) == Err(BadLabelColumn)
    ensures (labelColumn == DEPARTMENT || labelColumn == URGENCY) && mis == Some(0) ==>
      FetchMisclassified(labelColumn, mis, pool, ratio) == Ok(Frame(FRAME_COLUMNS, 0, 0))
    ensures (labelColumn == DEPARTMENT || labelColumn == URGENCY) && mis.Some? && mis.value > 0 && pool.Some? ==>
      var r := FetchMisclassified(labelColumn, mis, pool, ratio);
      var n := CorrectTarget(mis.value, ratio);
      && r.Ok?
      && r.value.misRows == mis.value
      && r.value.correctRows <= pool.value
      && (n > 0 ==> r.value.correctRows == if n < pool.value then n else pool.value)
      && (n <= 0 ==> r.value.correctRows == 0)
  {
    if labelColumn != DEPARTMENT && labelColumn != URGENCY {
    } else {
      assert FetchMisclassified(labelColumn, mis, pool, ratio) != Err(BadLabelColumn);
    }
  }

  /** Where the fix changes nothing (no correct row sampled), the two agree. */
  lemma FixAgreesWithoutSampling(labelColumn: string, mis: Option<nat>, pool: Option<nat>, ratio: real)
    requires mis.None? || mis == Some(0) || pool.None? || SampleSize(CorrectTarget(mis.value, ratio), pool.value) == 0
    ensures FetchAsWritten(labelColumn, mis, pool, ratio) == FetchMisclassified(labelColumn, mis, pool, ratio)
  {
  }

  /** With correct_ratio 0.5 the frame holds the reports plus up to half as many, rounded down. */
  lemma HalfRatioSize(nMis: nat, pool: nat)
    requires nMis > 0
    ensures var r := FetchMisclassified(DEPARTMENT, Some(nMis), Some(pool), 0.5);
      r.Ok? && r.value.Rows() == nMis + (if nMis / 2 < pool then nMis / 2 else pool)
  {
    var x := nMis as real * 0.5;
    assert (nMis / 2) as real <= x < (nMis / 2) as real + 1.0;
    assert CorrectTarget(nMis, 0.5) == nMis / 2;
  }
}
