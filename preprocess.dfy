/**
 * The preprocessing step of the dataset preparation, in both copies
 * (the service's and the department-classifier script's, which agree on
 * everything they share): clean_and_encode_dataset, split_dataset,
 * preprocess_pipeline, and the ordered remote steps of
 * preprocess_and_push_dataset.
 *
 * What the seeded stratified splitter does is an input: None when
 * train_test_split raises for a reason the model does not derive, otherwise
 * which part each row goes to, by row position. The one failure it does
 * derive is a class with fewer than two rows. The hub is a function telling
 * which call succeeds; the clock reading is an input.
 */
module Preprocess {
  import opened Wrappers
  import opened LabelMaps
  import Text
  import TextCleaning

  /** A row of the frame read from the database; a missing (NaN) label is None. */
  datatype RawRow = RawRow(grievance: string, department: Option<string>, urgency: Option<string>)

  /** A row of the cleaned frame: its two columns grievance and label. */
  datatype EncodedRow = EncodedRow(grievance: string, labelId: int)

  /** BadLabelColumn: clean_and_encode_dataset's ValueError; SplitFailed: train_test_split's. */
  datatype PrepError = BadLabelColumn | SplitFailed

  /** The label a label_column names, if it is one of the two accepted ones. */
  function LabelFor(column: string): (r: Option<Label>)
    ensures r.Some? <==> column == "department" || column == "urgency"
    ensures r.Some? ==> LabelName(r.value) == column
  {
    if column == "department" then Some(Department)
    else if column == "urgency" then Some(Urgency)
    else None
  }

  /** The literal the label column is encoded with. */
  function Ids(l: Label): Pairs<string, int>
  {
    match l
    case Department => DEPARTMENT2ID
    case Urgency => URGENCY2ID
  }

  function LabelText(row: RawRow, l: Label): Option<string>
  {
    match l
    case Department => row.department
    case Urgency => row.urgency
  }

  /** `.map(ids)` gives the row a label, so `dropna` keeps it. */
  predicate Mapped(row: RawRow, l: Label, ids: map<string, int>)
  {
    LabelText(row, l).Some? && LabelText(row, l).value in ids
  }

  /** The cleaned, encoded form of a row that is kept. */
  function Encode(row: RawRow, l: Label, ids: map<string, int>): EncodedRow
    requires Mapped(row, l, ids)
  {
    EncodedRow(TextCleaning.CleanText(row.grievance), ids[LabelText(row, l).value])
  }

  /** Clean every grievance, map the label through `ids`, keep the two columns and drop the rows without a label. */
  function EncodeRows(rows: seq<RawRow>, l: Label, ids: map<string, int>): (r: seq<EncodedRow>)
    ensures |r| <= |rows|
  {
    if rows == [] then []
    else (if Mapped(rows[0], l, ids) then [Encode(rows[0], l, ids)] else []) + EncodeRows(rows[1..], l, ids)
  }

  /** clean_and_encode_dataset: a ValueError for any other label column. */
  function CleanAndEncode(rows: seq<RawRow>, column: string): (r: Result<seq<EncodedRow>, PrepError>)
    ensures r.Err? <==> column != "department" && column != "urgency"
    ensures r.Ok? ==> |r.value| <= |rows|
  {
    match LabelFor(column)
    case None => Err(BadLabelColumn)
    case Some(l) => Ok(EncodeRows(rows, l, ToMap(Ids(l))))
  }

  /** Every output row is the encoding of a mapped input row. */
  lemma {:induction false} EncodeRowsSound(rows: seq<RawRow>, l: Label, ids: map<string, int>)
    ensures forall e :: e in EncodeRows(rows, l, ids) ==>
      exists row :: row in rows && Mapped(row, l, ids) && e == Encode(row, l, ids)
  {
    if rows != [] {
      var tail := rows[1..];
      EncodeRowsSound(tail, l, ids);
      var head := if Mapped(rows[0], l, ids) then [Encode(rows[0], l, ids)] else [];
      var rest := EncodeRows(tail, l, ids);
      assert EncodeRows(rows, l, ids) == head + rest;
      forall e | e in head + rest
        ensures exists row :: row in rows && Mapped(row, l, ids) && e == Encode(row, l, ids)
      {
        if e in head {
          assert rows[0] in rows;
        } else {
          var row :| row in tail && Mapped(row, l, ids) && e == Encode(row, l, ids);
          assert row in rows;
        }
      }
    }
  }

  /** Every mapped row's encoding is in the output. */
  lemma {:induction false} EncodeRowsComplete(rows: seq<RawRow>, l: Label, ids: map<string, int>)
    ensures forall row :: row in rows && Mapped(row, l, ids) ==> Encode(row, l, ids) in EncodeRows(rows, l, ids)
  {
    if rows != [] {
      var tail := rows[1..];
      EncodeRowsComplete(tail, l, ids);
      var head := if Mapped(rows[0], l, ids) then [Encode(rows[0], l, ids)] else [];
      assert EncodeRows(rows, l, ids) == head + EncodeRows(tail, l, ids);
      assert forall row :: row in rows ==> row == rows[0] || row in tail;
    }
  }

  /**
   * For a one-to-one label literal, every encoded label decodes back through
   * the inverse map to the label text of the row it came from, next to that
   * row's cleaned grievance.
   */
  lemma EncodedLabelsDecode(rows: seq<RawRow>, l: Label, ps: Pairs<string, int>)
    requires OneToOne(ps)
    ensures forall e :: e in EncodeRows(rows, l, ToMap(ps)) ==>
      && e.labelId in Inverse(ps)
      && exists row :: row in rows && Mapped(row, l, ToMap(ps))
           && Inverse(ps)[e.labelId] == LabelText(row, l).value
           && e.grievance == TextCleaning.CleanText(row.grievance)
  {
    var ids := ToMap(ps);
    InverseInverts(ps);
    EncodeRowsSound(rows, l, ids);
    forall e | e in EncodeRows(rows, l, ids)
      ensures e.labelId in Inverse(ps)
      ensures exists row ::
        && row in rows && Mapped(row, l, ids)
        && Inverse(ps)[e.labelId] == LabelText(row, l).value
        && e.grievance == TextCleaning.CleanText(row.grievance)
    {
      var row :| row in rows && Mapped(row, l, ids) && e == Encode(row, l, ids);
      assert ids[LabelText(row, l).value] in Inverse(ps);
    }
  }

  /**
   * With the real label maps: clean_and_encode_dataset's labels are ids
   * 0..3 for departments and 0..2 for urgencies, and each decodes back
   * through id2department or id2urgency to its row's label text.
   */
  lemma CleanAndEncodeLabels(rows: seq<RawRow>, column: string)
    requires column == "department" || column == "urgency"
    ensures var l := LabelFor(column).value;
      forall e :: e in CleanAndEncode(rows, column).value ==>
        && 0 <= e.labelId < (if l.Department? then 4 else 3)
        && e.labelId in Inverse(Ids(l))
        && exists row :: row in rows && Mapped(row, l, ToMap(Ids(l)))
             && Inverse(Ids(l))[e.labelId] == LabelText(row, l).value
  {
    var l := LabelFor(column).value;
    if l.Department? {
      DepartmentNamesDistinct();
      NumberedOneToOne(DEPARTMENT_NAMES);
      DepartmentMapsInverse();
      EncodedLabelsDecode(rows, l, DEPARTMENT2ID);
    } else {
      UrgencyNamesDistinct();
      NumberedOneToOne(URGENCY_NAMES);
      UrgencyMapsInverse();
      EncodedLabelsDecode(rows, l, URGENCY2ID);
    }
  }

  /** Every kept grievance is cleaned: single-spaced, with no whitespace at either end. */
  lemma EncodedTextsClean(rows: seq<RawRow>, l: Label, ids: map<string, int>)
    ensures forall e :: e in EncodeRows(rows, l, ids) ==>
      && TextCleaning.SingleSpaced(e.grievance)
      && (|e.grievance| > 0 ==> !Text.IsPySpace(e.grievance[0]) && !Text.IsPySpace(e.grievance[|e.grievance| - 1]))
  {
    EncodeRowsSound(rows, l, ids);
    forall e | e in EncodeRows(rows, l, ids)
      ensures TextCleaning.SingleSpaced(e.grievance)
      ensures |e.grievance| > 0 ==> !Text.IsPySpace(e.grievance[0]) && !Text.IsPySpace(e.grievance[|e.grievance| - 1])
    {
      var row :| row in rows && Mapped(row, l, ids) && e == Encode(row, l, ids);
      TextCleaning.CleanTextShape(row.grievance);
    }
  }

  // ---------------------------------------------------------------- split_dataset

  /** The three parts of the DatasetDict. */
  datatype Part = Train | Eval | Test

  function PartName(p: Part): (s: string)
    ensures s == "train" || s == "eval" || s == "test"
  {
    match p
    case Train => "train"
    case Eval => "eval"
    case Test => "test"
  }

  /** The rows the splitter places in part p, in their original order; row i goes to place(i). */
  function Select(rows: seq<EncodedRow>, place: nat -> Part, p: Part): (r: seq<EncodedRow>)
    ensures |r| <= |rows|
  {
    if rows == [] then []
    else
      var n := |rows| - 1;
      Select(rows[..n], place, p) + (if place(n) == p then [rows[n]] else [])
  }

  /** The DatasetDict of a split that succeeded: the keys train, eval and test. */
  function Parts(rows: seq<EncodedRow>, place: nat -> Part): (d: map<string, seq<EncodedRow>>)
    ensures d.Keys == {"train", "eval", "test"}
  {
    map[PartName(Train) := Select(rows, place, Train),
        PartName(Eval) := Select(rows, place, Eval),
        PartName(Test) := Select(rows, place, Test)]
  }

  /** How many rows carry label id c. */
  function LabelCount(rows: seq<EncodedRow>, c: int): (n: nat)
    ensures n <= |rows|
  {
    if rows == [] then 0 else (if rows[0].labelId == c then 1 else 0) + LabelCount(rows[1..], c)
  }

  /**
   * Whether the first stratified split can run at all: there are rows, and
   * each label occurs at least twice (sklearn refuses a class with a single
   * member, and an empty frame).
   */
  predicate Stratifiable(rows: seq<EncodedRow>)
  {
    rows != [] && forall i :: 0 <= i < |rows| ==> LabelCount(rows, rows[i].labelId) >= 2
  }

  /**
   * split_dataset: the two stratified train_test_split calls, which raise a
   * ValueError when some label occurs only once and, as `split` says, for
   * the other splitter failures; otherwise the dict of the three parts.
   */
  function SplitDataset(rows: seq<EncodedRow>, split: Option<nat -> Part>): (r: Result<map<string, seq<EncodedRow>>, PrepError>)
    ensures r.Ok? <==> split.Some? && Stratifiable(rows)
    ensures r.Err? ==> r.error == SplitFailed
    ensures r.Ok? ==> r.value.Keys == {"train", "eval", "test"}
  {
    if split.Some? && Stratifiable(rows) then Ok(Parts(rows, split.value)) else Err(SplitFailed)
  }

  /** A label that occurs once makes the split raise, whatever the splitter would have done. */
  lemma {:induction false} SingletonClassFails(rows: seq<EncodedRow>, split: Option<nat -> Part>, i: nat)
    requires i < |rows| && LabelCount(rows, rows[i].labelId) == 1
    ensures SplitDataset(rows, split) == Err(SplitFailed)
  {
  }

  /** The three parts partition the rows: together they hold each row exactly as often as the frame does. */
  lemma {:induction false} SplitPartitions(rows: seq<EncodedRow>, place: nat -> Part)
    ensures multiset(Select(rows, place, Train)) + multiset(Select(rows, place, Eval)) + multiset(Select(rows, place, Test))
      == multiset(rows)
  {
    if rows != [] {
      var n := |rows| - 1;
      var init := rows[..n];
      SplitPartitions(init, place);
      assert rows == init + [rows[n]];
      var last := multiset{rows[n]};
      assert multiset(rows) == multiset(init) + last;
      var t, e, u := Select(init, place, Train), Select(init, place, Eval), Select(init, place, Test);
      match place(n)
      case Train =>
        assert Select(rows, place, Train) == t + [rows[n]];
        assert Select(rows, place, Eval) == e && Select(rows, place, Test) == u;
      case Eval =>
        assert Select(rows, place, Eval) == e + [rows[n]];
        assert Select(rows, place, Train) == t && Select(rows, place, Test) == u;
      case Test =>
        assert Select(rows, place, Test) == u + [rows[n]];
        assert Select(rows, place, Train) == t && Select(rows, place, Eval) == e;
    }
  }

  /** So the part sizes add up to the frame's. */
  lemma SplitSizesPartition(rows: seq<EncodedRow>, place: nat -> Part)
    ensures |Select(rows, place, Train)| + |Select(rows, place, Eval)| + |Select(rows, place, Test)| == |rows|
  {
    SplitPartitions(rows, place);
    assert |multiset(rows)| == |rows|;
  }

  /** {k: len(v) for k, v in hf_dataset.items()}. */
  function SplitSizes(d: map<string, seq<EncodedRow>>): (m: map<string, nat>)
    ensures m.Keys == d.Keys
  {
    map k | k in d :: |d[k]|
  }

  /** The split sizes of a split frame add up to its length. */
  lemma SplitSizesAddUp(rows: seq<EncodedRow>, place: nat -> Part)
    ensures var m := SplitSizes(Parts(rows, place));
      "train" in m && "eval" in m && "test" in m && m["train"] + m["eval"] + m["test"] == |rows|
  {
    SplitSizesPartition(rows, place);
  }

  /** preprocess_pipeline: split_dataset applied to clean_and_encode_dataset. */
  function PreprocessPipeline(rows: seq<RawRow>, column: string, split: Option<nat -> Part>)
    : (r: Result<map<string, seq<EncodedRow>>, PrepError>)
    ensures column != "department" && column != "urgency" ==> r == Err(BadLabelColumn)
    ensures column == "department" || column == "urgency" ==>
      (r.Ok? <==> split.Some? && Stratifiable(CleanAndEncode(rows, column).value))
      && (r.Err? ==> r.error == SplitFailed)
    ensures r.Ok? ==> r.value.Keys == {"train", "eval", "test"}
  {
    match CleanAndEncode(rows, column)
    case Err(e) => Err(e)
    case Ok(clean) => SplitDataset(clean, split)
  }

  /** The split sizes of a pipeline run add up to the rows that survived cleaning. */
  lemma PipelineKeepsEveryRow(rows: seq<RawRow>, column: string, split: Option<nat -> Part>)
    requires PreprocessPipeline(rows, column, split).Ok?
    ensures var d := PreprocessPipeline(rows, column, split).value;
      |d["train"]| + |d["eval"]| + |d["test"]| == |CleanAndEncode(rows, column).value|
  {
    SplitSizesPartition(CleanAndEncode(rows, column).value, split.value);
  }

  // ---------------------------------------------------------------- version tag

  /** A UTC clock reading, as datetime holds it. */
  datatype DateTime = DateTime(year: nat, month: nat, day: nat, hour: nat, minute: nat, second: nat)

  predicate ValidDateTime(t: DateTime)
  {
    1 <= t.year <= 9999 && 1 <= t.month <= 12 && 1 <= t.day <= 31 && t.hour < 24 && t.minute < 60 && t.second < 60
  }

  function Pow10(n: nat): (p: nat)
    ensures p >= 1
  {
    if n == 0 then 1 else 10 * Pow10(n - 1)
  }

  /** n written in `width` decimal digits, zero-padded on the left. */
  function Padded(n: nat, width: nat): (r: string)
    ensures |r| == width
    ensures forall i :: 0 <= i < |r| ==> Text.IsDigitAscii(r[i])
    ensures n < Pow10(width) ==> Text.DigitsValue(r) == n
  {
    if width == 0 then []
    else
      var r := Padded(n / 10, width - 1) + [('0' as int + n % 10) as char];
      assert r[..|r| - 1] == Padded(n / 10, width - 1);
      r
  }

  /** strftime("%Y%m%d_%H%M%S"). */
  function Timestamp(t: DateTime): string
  {
    Padded(t.year, 4) + Padded(t.month, 2) + Padded(t.day, 2) + "_" + Padded(t.hour, 2) + Padded(t.minute, 2) + Padded(t.second, 2)
  }

  /** The dataset version: "v" followed by the timestamp. */
  function VersionTag(t: DateTime): string
  {
    "v" + Timestamp(t)
  }

  /** The tag is 16 characters, "v", eight date digits, "_", six time digits, and the digits read back as the clock reading. */
  lemma VersionTagFormat(t: DateTime)
    requires ValidDateTime(t)
    ensures var v := VersionTag(t);
      && |v| == 16 && v[0] == 'v' && v[9] == '_'
      && (forall i :: 1 <= i < 16 && i != 9 ==> Text.IsDigitAscii(v[i]))
      && Text.DigitsValue(v[1..5]) == t.year && Text.DigitsValue(v[5..7]) == t.month
      && Text.DigitsValue(v[7..9]) == t.day && Text.DigitsValue(v[10..12]) == t.hour
      && Text.DigitsValue(v[12..14]) == t.minute && Text.DigitsValue(v[14..16]) == t.second
  {
    var v := VersionTag(t);
    assert Pow10(2) == 100 && Pow10(4) == 10000;
    assert v[1..5] == Padded(t.year, 4);
    assert v[5..7] == Padded(t.month, 2);
    assert v[7..9] == Padded(t.day, 2);
    assert v[10..12] == Padded(t.hour, 2);
    assert v[12..14] == Padded(t.minute, 2);
    assert v[14..16] == Padded(t.second, 2);
  }

  // ---------------------------------------------------------------- preprocess_and_push_dataset

  /** The dataset_metadata.json the run uploads (created_at left out). */
  datatype Metadata = Metadata(datasetName: string, versionTag: string, labelColumn: string, commitMessage: string,
                               numSamples: nat, splits: map<string, nat>)

  /** The metadata's sample count is the sum of its split sizes. */
  predicate SamplesAddUp(m: Metadata)
  {
    && "train" in m.splits && "eval" in m.splits && "test" in m.splits
    && m.numSamples == m.splits["train"] + m.splits["eval"] + m.splits["test"]
  }

  /** The remote calls of a run, in order. */
  datatype HubOp =
    | CreateRepo(repo: string)
    | PushDataset(repo: string, message: string)
    | UploadMetadata(repo: string, metadata: Metadata)
    | UploadReadme(repo: string, tag: string)
    | CreateTag(repo: string, tag: string)

  datatype PushError =
    | Invalid(e: PrepError) // ValueError from clean_and_encode_dataset or split_dataset
    | CreateRepoFailed      // create_repo is not guarded
    | PushFailed            // printed, then re-raised
    | ReadmeFailed          // upload_hf_readme is not guarded

  function CommitMessage(column: string, t: DateTime): string
  {
    "Dataset update (" + column + ") - " + Timestamp(t)
  }

  /**
   * The remote half of preprocess_and_push_dataset: create the repo, push
   * the dataset, upload the metadata, the README and the version tag. A
   * failed push is re-raised; failed metadata and tag uploads are only
   * printed; create_repo and the README upload are not guarded.
   */
  method Publish(repo: string, column: string, now: DateTime, numSamples: nat, sizes: map<string, nat>, ok: HubOp -> bool)
    returns (calls: seq<HubOp>, r: Result<(), PushError>)
    ensures r.Ok? <==>
      && ok(CreateRepo(repo))
      && ok(PushDataset(repo, CommitMessage(column, now)))
      && ok(UploadReadme(repo, VersionTag(now)))
    ensures !ok(CreateRepo(repo)) ==> r == Err(CreateRepoFailed) && calls == [CreateRepo(repo)]
    ensures ok(CreateRepo(repo)) && !ok(PushDataset(repo, CommitMessage(column, now))) ==>
      r == Err(PushFailed) && calls == [CreateRepo(repo), PushDataset(repo, CommitMessage(column, now))]
    ensures r.Err? ==> !r.error.Invalid?
    ensures CreateTag(repo, VersionTag(now)) in calls <==> r.Ok?
    ensures forall c :: c in calls && c.UploadMetadata? ==>
      c.metadata == Metadata(repo, VersionTag(now), column, CommitMessage(column, now), numSamples, sizes)
    ensures forall c :: c in calls && (c.UploadReadme? || c.CreateTag?) ==> c.tag == VersionTag(now)
  {
    var tag := VersionTag(now);
    var message := CommitMessage(column, now);
    calls := [CreateRepo(repo)];
    if !ok(CreateRepo(repo)) {
      r := Err(CreateRepoFailed);
      return;
    }
    calls := calls + [PushDataset(repo, message)];
    if !ok(PushDataset(repo, message)) {
      r := Err(PushFailed);
      return;
    }
    var metadata := Metadata(repo, tag, column, message, numSamples, sizes);
    calls := calls + [UploadMetadata(repo, metadata), UploadReadme(repo, tag)];
    if !ok(UploadReadme(repo, tag)) {
      r := Err(ReadmeFailed);
      return;
    }
    calls := calls + [CreateTag(repo, tag)];
    r := Ok(());
  }

  /**
   * preprocess_and_push_dataset: preprocess (a bad label column or a split
   * that raises ends the call before any remote call), then publish; the
   * split dict is returned.
   */
  method PreprocessAndPushDataset(rows: seq<RawRow>, repo: string, column: string, split: Option<nat -> Part>,
                                  now: DateTime, ok: HubOp -> bool)
    returns (calls: seq<HubOp>, r: Result<map<string, seq<EncodedRow>>, PushError>)
    ensures r == Err(Invalid(BadLabelColumn)) <==> column != "department" && column != "urgency"
    ensures r == Err(Invalid(SplitFailed)) <==>
      (column == "department" || column == "urgency") && PreprocessPipeline(rows, column, split).Err?
    ensures r.Err? && r.error.Invalid? ==> calls == []
    ensures r.Ok? <==>
      && PreprocessPipeline(rows, column, split).Ok?
      && ok(CreateRepo(repo))
      && ok(PushDataset(repo, CommitMessage(column, now)))
      && ok(UploadReadme(repo, VersionTag(now)))
    ensures r.Ok? ==> r.value == PreprocessPipeline(rows, column, split).value
    ensures forall c :: c in calls && c.UploadMetadata? ==> SamplesAddUp(c.metadata)
  {
    var clean := CleanAndEncode(rows, column);
    if clean.Err? {
      calls := [];
      r := Err(Invalid(clean.error));
      return;
    }
    var dataset := SplitDataset(clean.value, split);
    assert dataset == PreprocessPipeline(rows, column, split);
    if dataset.Err? {
      calls := [];
      r := Err(Invalid(dataset.error));
      return;
    }
    var sizes := SplitSizes(dataset.value);
    SplitSizesAddUp(clean.value, split.value);
    var published;
    calls, published := Publish(repo, column, now, |clean.value|, sizes, ok);
    if published.Err? {
      r := Err(published.error);
    } else {
      r := Ok(dataset.value);
    }
  }
}
