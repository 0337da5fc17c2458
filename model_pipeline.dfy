/**
 * The challenger/champion gate of the retraining job: querying the deployed
 * model, pairing its usable answers with the true labels, the strict
 * acceptance rule, and the push-then-restart deployment branch.
 *
 * F1 scores are opaque reals computed by a function the model takes as a
 * parameter; every remote call (the deployed model's /predict endpoint, the
 * model hub and the space API) is an outcome supplied from outside.
 */
module ModelPipeline {
  import opened Wrappers
  import Text

  // ---------------------------------------------------------------- querying the champion

  /** The "label" field of a /predict reply, by JSON type. */
  datatype JsonLabel = Absent | JStr(s: string) | JInt(n: int) | JBool(b: bool) | JUnhashable

  /** One POST to the deployed model: it raised, or it answered with a status and a label field. */
  datatype Reply = Raised | Response(status: int, field: JsonLabel)

  /** The id of a label: its label2id entry, else its int() value, else -1. */
  function LabelId(label2id: map<string, int>, field: JsonLabel): int
  {
    match field
    case JStr(s) =>
      if s in label2id then label2id[s]
      else (match Text.PyInt(s) case Some(n) => n case None => -1)
    case JInt(n) => n
    case JBool(b) => if b then 1 else 0
    case Absent => -1
    case JUnhashable => -1
  }

  /** The id recorded for one reply: -1 for a raised call or a status other than 200. */
  function PredId(label2id: map<string, int>, reply: Reply): int
  {
    match reply
    case Raised => -1
    case Response(status, field) => if status != 200 then -1 else LabelId(label2id, field)
  }

  /**
   * A failed call, a status other than 200, or a label that is neither a
   * key of label2id nor readable by int() is recorded as -1; any other id
   * comes from a 200 reply.
   */
  lemma PredIdFailures(label2id: map<string, int>, reply: Reply)
    ensures reply.Raised? ==> PredId(label2id, reply) == -1
    ensures reply.Response? && reply.status != 200 ==> PredId(label2id, reply) == -1
    ensures reply.Response? && reply.field.JStr? && reply.field.s !in label2id && Text.PyInt(reply.field.s).None?
      ==> PredId(label2id, reply) == -1
    ensures reply.Response? && (reply.field.Absent? || reply.field.JUnhashable?) ==> PredId(label2id, reply) == -1
    ensures PredId(label2id, reply) != -1 ==> reply.Response? && reply.status == 200
  {
  }

  /** A 200 reply whose label is a key of label2id is recorded as that key's id. */
  lemma PredIdKnownLabel(label2id: map<string, int>, status: int, s: string)
    requires status == 200 && s in label2id
    ensures PredId(label2id, Response(status, JStr(s))) == label2id[s]
  {
  }

  /**
   * _query_deployed_model: one POST per text, in order; `post(i)` is what the
   * i-th POST came to.
   */
  method QueryDeployedModel(label2id: map<string, int>, texts: seq<string>, post: nat -> Reply) returns (predIds: seq<int>)
    ensures |predIds| == |texts|
    ensures forall i :: 0 <= i < |predIds| ==> predIds[i] == PredId(label2id, post(i))
  {
    predIds := [];
    var i := 0;
    while i < |texts|
      invariant 0 <= i <= |texts| && |predIds| == i
      invariant forall j :: 0 <= j < i ==> predIds[j] == PredId(label2id, post(j))
    {
      var reply := post(i);
      var predId: int;
      match reply {
        case Raised =>
          predId := -1;
        case Response(status, field) =>
          if status == 200 {
            predId := LabelId(label2id, field);
          } else {
            predId := -1;
          }
      }
      predIds := predIds + [predId];
      i := i + 1;
    }
  }

  // ---------------------------------------------------------------- the champion's F1

  /** A test row: its text and its true label id. */
  datatype Example = Example(grievance: string, labelId: int)

  /** Python's s[:n], where a negative n drops that many items from the end. */
  function PrefixSlice<T>(s: seq<T>, n: int): (r: seq<T>)
    ensures r <= s
    ensures 0 <= n ==> |r| == if n < |s| then n else |s|
    ensures n < 0 ==> |r| == if |s| + n > 0 then |s| + n else 0
  {
    if n >= 0 then (if n < |s| then s[..n] else s)
    else if |s| + n > 0 then s[..|s| + n] else []
  }

  /**
   * The rows sent to the champion: the first min(deployed_sample_size,
   * len(test)) rows of the seed-42 shuffle, passed in as `shuffled`.
   */
  function ChampionSample(shuffled: seq<Example>, sampleSize: int): seq<Example>
  {
    var n := if sampleSize < |shuffled| then sampleSize else |shuffled|;
    PrefixSlice(shuffled, n)
  }

  /** A non-negative sample size takes exactly min(size, |test|) rows, from the front. */
  lemma ChampionSampleSize(shuffled: seq<Example>, sampleSize: int)
    requires sampleSize >= 0
    ensures var s := ChampionSample(shuffled, sampleSize);
      && s <= shuffled
      && |s| == if sampleSize < |shuffled| then sampleSize else |shuffled|
  {
  }

  function Min(a: int, b: int): int { if a < b then a else b }

  /** The zip of true labels with the champion's ids, keeping the pairs whose id is not -1. */
  function UsablePairs(trueLabels: seq<int>, predIds: seq<int>): seq<(int, int)>
    decreases |trueLabels|
  {
    var n := Min(|trueLabels|, |predIds|);
    if n == 0 then []
    else
      var init := UsablePairs(trueLabels[..n - 1], predIds[..n - 1]);
      if predIds[n - 1] != -1 then init + [(trueLabels[n - 1], predIds[n - 1])] else init
  }

  /** The pairing loop of evaluate. */
  method PairUsable(trueLabels: seq<int>, predIds: seq<int>) returns (pairedTrue: seq<int>, pairedPred: seq<int>)
    ensures |pairedTrue| == |pairedPred| == |UsablePairs(trueLabels, predIds)|
    ensures forall i :: 0 <= i < |pairedTrue| ==> (pairedTrue[i], pairedPred[i]) == UsablePairs(trueLabels, predIds)[i]
  {
    var n := Min(|trueLabels|, |predIds|);
    pairedTrue, pairedPred := [], [];
    for i := 0 to n
      invariant |pairedTrue| == |pairedPred| == |UsablePairs(trueLabels[..i], predIds[..i])|
      invariant forall j :: 0 <= j < |pairedTrue| ==> (pairedTrue[j], pairedPred[j]) == UsablePairs(trueLabels[..i], predIds[..i])[j]
    {
      assert trueLabels[..i + 1][..i] == trueLabels[..i] && predIds[..i + 1][..i] == predIds[..i];
      if predIds[i] != -1 {
        pairedTrue, pairedPred := pairedTrue + [trueLabels[i]], pairedPred + [predIds[i]];
      }
    }
    if n > 0 {
      assert trueLabels[..n][..n - 1] == trueLabels[..n - 1] && predIds[..n][..n - 1] == predIds[..n - 1];
    }
  }

  /**
   * A pair is usable exactly when it sits at a common index of the two lists
   * and its id is not -1.
   */
  lemma {:induction false} UsablePairsExactly(trueLabels: seq<int>, predIds: seq<int>)
    ensures var r := UsablePairs(trueLabels, predIds);
      && |r| <= |trueLabels| && |r| <= |predIds|
      && (forall p :: p in r ==> exists i :: 0 <= i < |trueLabels| && i < |predIds| && p == (trueLabels[i], predIds[i]) && predIds[i] != -1)
      && (forall i :: 0 <= i < |trueLabels| && i < |predIds| && predIds[i] != -1 ==> (trueLabels[i], predIds[i]) in r)
    decreases |trueLabels|
  {
    var n := Min(|trueLabels|, |predIds|);
    if n > 0 {
      var ts, ps := trueLabels[..n - 1], predIds[..n - 1];
      UsablePairsExactly(ts, ps);
      var init := UsablePairs(ts, ps);
      var r := UsablePairs(trueLabels, predIds);
      forall p | p in r
        ensures exists i :: 0 <= i < |trueLabels| && i < |predIds| && p == (trueLabels[i], predIds[i]) && predIds[i] != -1
      {
        if p in init {
          var i :| 0 <= i < |ts| && i < |ps| && p == (ts[i], ps[i]) && ps[i] != -1;
          assert p == (trueLabels[i], predIds[i]);
        } else {
          assert p == (trueLabels[n - 1], predIds[n - 1]);
        }
      }
      forall i | 0 <= i < |trueLabels| && i < |predIds| && predIds[i] != -1
        ensures (trueLabels[i], predIds[i]) in r
      {
        if i < n - 1 {
          assert (ts[i], ps[i]) in init;
        }
      }
    }
  }

  /** When every champion call failed, no pair is usable. */
  lemma {:induction false} AllFailedNoPairs(trueLabels: seq<int>, predIds: seq<int>)
    requires forall i :: 0 <= i < |predIds| ==> predIds[i] == -1
    ensures UsablePairs(trueLabels, predIds) == []
    decreases |trueLabels|
  {
    var n := Min(|trueLabels|, |predIds|);
    if n > 0 {
      AllFailedNoPairs(trueLabels[..n - 1], predIds[..n - 1]);
    }
  }

  function Firsts(pairs: seq<(int, int)>): (r: seq<int>)
    ensures |r| == |pairs| && forall i :: 0 <= i < |r| ==> r[i] == pairs[i].0
  {
    seq(|pairs|, i requires 0 <= i < |pairs| => pairs[i].0)
  }

  function Seconds(pairs: seq<(int, int)>): (r: seq<int>)
    ensures |r| == |pairs| && forall i :: 0 <= i < |r| ==> r[i] == pairs[i].1
  {
    seq(|pairs|, i requires 0 <= i < |pairs| => pairs[i].1)
  }

  /**
   * The deployed model's F1: None without an endpoint, 0.0 when no pair is
   * usable, else the macro F1 of the usable pairs.
   */
  function ChampionF1(endpoint: Option<string>, pairs: seq<(int, int)>, f1: (seq<int>, seq<int>) -> real): Option<real>
  {
    if endpoint.None? || endpoint.value == "" then None
    else if pairs == [] then Some(0.0)
    else Some(f1(Firsts(pairs), Seconds(pairs)))
  }

  /** "accepted" iff the challenger beats the champion (0.0 when absent) by strictly more than the threshold. */
  predicate Accepted(challengerF1: real, championF1: Option<real>, threshold: real)
  {
    challengerF1 > championF1.UnwrapOr(0.0) + threshold
  }

  /**
   * The gate is strict: a tie with the champion plus a non-negative
   * threshold is rejected, and without an endpoint the champion counts as 0.0.
   */
  lemma AcceptanceIsStrict(challengerF1: real, championF1: Option<real>, threshold: real)
    ensures championF1.Some? && challengerF1 == championF1.value + threshold ==> !Accepted(challengerF1, championF1, threshold)
    ensures championF1.None? ==> (Accepted(challengerF1, championF1, threshold) <==> challengerF1 > threshold)
    ensures Accepted(challengerF1, championF1, threshold) && championF1.Some? ==> challengerF1 - championF1.value > threshold
  {
  }

  datatype EvalResult = EvalResult(deployedF1: Option<real>, accepted: bool)

  /** The comparison part of evaluate, with the challenger's own F1 given. */
  function Evaluation(label2id: map<string, int>, shuffled: seq<Example>, endpoint: Option<string>, threshold: real,
                      sampleSize: int, post: nat -> Reply, f1: (seq<int>, seq<int>) -> real, challengerF1: real): EvalResult
  {
    var sample := ChampionSample(shuffled, sampleSize);
    var ids := seq(|sample|, i requires 0 <= i < |sample| => PredId(label2id, post(i)));
    var labels := seq(|sample|, i requires 0 <= i < |sample| => sample[i].labelId);
    var deployed := ChampionF1(endpoint, UsablePairs(labels, ids), f1);
    EvalResult(deployed, Accepted(challengerF1, deployed, threshold))
  }

  /**
   * A champion whose every call fails scores 0.0, so the challenger is then
   * accepted iff its F1 exceeds the threshold.
   */
  lemma DeadChampionScoresZero(label2id: map<string, int>, shuffled: seq<Example>, endpoint: Option<string>, threshold: real,
                               sampleSize: int, post: nat -> Reply, f1: (seq<int>, seq<int>) -> real, challengerF1: real)
    requires endpoint.Some? && endpoint.value != ""
    requires forall i: nat :: post(i).Raised?
    ensures Evaluation(label2id, shuffled, endpoint, threshold, sampleSize, post, f1, challengerF1)
      == EvalResult(Some(0.0), challengerF1 > threshold)
  {
    var sample := ChampionSample(shuffled, sampleSize);
    var ids := seq(|sample|, i requires 0 <= i < |sample| => PredId(label2id, post(i)));
    var labels := seq(|sample|, i requires 0 <= i < |sample| => sample[i].labelId);
    AllFailedNoPairs(labels, ids);
  }

  /** evaluate's comparison: sample, query, pair and decide. */
  method Evaluate(label2id: map<string, int>, shuffled: seq<Example>, endpoint: Option<string>, threshold: real,
                  sampleSize: int, post: nat -> Reply, f1: (seq<int>, seq<int>) -> real, challengerF1: real)
    returns (result: EvalResult)
    ensures result == Evaluation(label2id, shuffled, endpoint, threshold, sampleSize, post, f1, challengerF1)
  {
    var deployed: Option<real> := None;
    if endpoint.Some? && endpoint.value != "" {
      var sample := ChampionSample(shuffled, sampleSize);
      var texts := seq(|sample|, i requires 0 <= i < |sample| => sample[i].grievance);
      var labels := seq(|sample|, i requires 0 <= i < |sample| => sample[i].labelId);
      var ids := QueryDeployedModel(label2id, texts, post);
      assert ids == seq(|sample|, i requires 0 <= i < |sample| => PredId(label2id, post(i)));
      var pairedTrue, pairedPred := PairUsable(labels, ids);
      var pairs := UsablePairs(labels, ids);
      if |pairedTrue| > 0 {
        assert pairedTrue == Firsts(pairs) && pairedPred == Seconds(pairs);
        deployed := Some(f1(pairedTrue, pairedPred));
      } else {
        deployed := Some(0.0);
      }
    }
    result := EvalResult(deployed, Accepted(challengerF1, deployed, threshold));
  }

  // ---------------------------------------------------------------- training arguments

  /** A training argument: one json.dumps accepts, or any other object with its str() form. */
  datatype ArgValue = Json(encoded: string) | Object(asText: string)

  /** What sanitize_training_args stores for an argument. */
  datatype CleanValue = Same(v: ArgValue) | Stringified(s: string)

  function Clean(v: ArgValue): CleanValue
  {
    match v
    case Json(_) => Same(v)
    case Object(t) => Stringified(t)
  }

  predicate DistinctKeys(args: seq<(string, ArgValue)>)
  {
    forall i, j :: 0 <= i < j < |args| ==> args[i].0 != args[j].0
  }

  /**
   * sanitize_training_args: {} for absent arguments; otherwise every key is
   * kept, and every value json.dumps refuses is replaced by its str() form.
   */
  method SanitizeTrainingArgs(args: Option<seq<(string, ArgValue)>>) returns (clean: map<string, CleanValue>)
    requires args.Some? ==> DistinctKeys(args.value)
    ensures args.None? ==> clean == map[]
    ensures args.Some? ==> clean.Keys == set i | 0 <= i < |args.value| :: args.value[i].0
    ensures args.Some? ==> forall i :: 0 <= i < |args.value| ==> clean[args.value[i].0] == Clean(args.value[i].1)
    ensures forall k :: k in clean ==> !clean[k].Same? || clean[k].v.Json?
  {
    clean := map[];
    if args.None? {
      return;
    }
    var items := args.value;
    for i := 0 to |items|
      invariant clean.Keys == set j | 0 <= j < i :: items[j].0
      invariant forall j :: 0 <= j < i ==> clean[items[j].0] == Clean(items[j].1)
      invariant forall k :: k in clean ==> !clean[k].Same? || clean[k].v.Json?
    {
      var (k, v) := items[i];
      match v {
        case Json(_) =>
          clean := clean[k := Same(v)];
        case Object(t) =>
          clean := clean[k := Stringified(t)];
      }
    }
  }

  // ---------------------------------------------------------------- deployment

  /** The remote calls the job makes, in order. */
  datatype HubCall =
    | TrainerPush
    | ModelPush(repo: string)
    | TokenizerPush(repo: string)
    | UploadMetadata(repo: string, tag: string)
    | CreateTag(repo: string, tag: string)
    | RestartSpace(repo: string)

  /** Whether the attribute self.hub_model_id exists, and its value. */
  datatype HubAttr = Unset | Attr(value: Option<string>)

  datatype DeployError =
    | MissingHubModelId     // ValueError from push_model_to_hub
    | NoHubModelIdAttribute // AttributeError reading self.hub_model_id
    | MissingRepoOrToken    // ValueError from restart_space
    | RestartFailed         // RuntimeError from restart_space

  /** The weight pushes: through the trainer when asked and one exists, else model then tokenizer. */
  function WeightSteps(useTrainer: bool, trainerReady: bool, repo: string): seq<HubCall>
  {
    if useTrainer && trainerReady then [TrainerPush] else [ModelPush(repo), TokenizerPush(repo)]
  }

  /** The pushes push_model_to_hub makes, in order. */
  function PushSteps(useTrainer: bool, trainerReady: bool, repo: string, tag: string): seq<HubCall>
  {
    WeightSteps(useTrainer, trainerReady, repo) + [UploadMetadata(repo, tag), CreateTag(repo, tag)]
  }

  /** The steps attempted inside one try block: up to and including the first that fails. */
  function Attempted(steps: seq<HubCall>, ok: HubCall -> bool): (r: seq<HubCall>)
  {
    if steps == [] then []
    else if ok(steps[0]) then [steps[0]] + Attempted(steps[1..], ok)
    else [steps[0]]
  }

  /**
   * The attempted steps are a prefix of the planned ones; every one but the
   * last succeeded, and the whole plan runs iff every step succeeds.
   */
  lemma {:induction false} AttemptedIsPrefix(steps: seq<HubCall>, ok: HubCall -> bool)
    ensures var r := Attempted(steps, ok);
      && r <= steps
      && (forall i :: 0 <= i < |r| - 1 ==> ok(r[i]))
      && (r == steps <==> forall i :: 0 <= i < |steps| - 1 ==> ok(steps[i]))
      && (r != steps ==> |r| > 0 && !ok(r[|r| - 1]))
    decreases |steps|
  {
    if steps != [] {
      AttemptedIsPrefix(steps[1..], ok);
      var r := Attempted(steps, ok);
      if ok(steps[0]) {
        var rest := Attempted(steps[1..], ok);
        assert r == [steps[0]] + rest;
        if rest == steps[1..] {
          assert r == steps;
        }
        if r == steps {
          assert rest == steps[1..];
        }
        assert (forall i :: 0 <= i < |steps| - 1 ==> ok(steps[i]))
          <==> (forall i :: 0 <= i < |steps[1..]| - 1 ==> ok(steps[1..][i]));
      }
    }
  }

  /** A step list run after another runs only if every step of the first succeeded. */
  lemma {:induction false} AttemptedAppend(xs: seq<HubCall>, ys: seq<HubCall>, ok: HubCall -> bool)
    ensures Attempted(xs + ys, ok)
      == Attempted(xs, ok) + (if forall i :: 0 <= i < |xs| ==> ok(xs[i]) then Attempted(ys, ok) else [])
    decreases |xs|
  {
    if xs != [] {
      AttemptedAppend(xs[1..], ys, ok);
      assert (xs + ys)[1..] == xs[1..] + ys;
      assert (forall i :: 0 <= i < |xs| ==> ok(xs[i]))
        <==> ok(xs[0]) && (forall i :: 0 <= i < |xs[1..]| ==> ok(xs[1..][i]));
    } else {
      assert xs + ys == ys;
    }
  }

  /** The tag is created only if every earlier push succeeded. */
  lemma TagOnlyAfterPushes(useTrainer: bool, trainerReady: bool, repo: string, tag: string, ok: HubCall -> bool)
    ensures var steps := PushSteps(useTrainer, trainerReady, repo, tag);
      CreateTag(repo, tag) in Attempted(steps, ok) ==> forall i :: 0 <= i < |steps| - 1 ==> ok(steps[i])
  {
    var steps := PushSteps(useTrainer, trainerReady, repo, tag);
    AttemptedIsPrefix(steps, ok);
    var r := Attempted(steps, ok);
    if r != steps {
      forall j | 0 <= j < |r|
        ensures r[j] != CreateTag(repo, tag)
      {
        assert r[j] == steps[j];
      }
    }
  }

  /** The calls train_pipeline's deployment branch makes (the space id is the one passed in). */
  function DeployCalls(hub: HubAttr, argsHubId: Option<string>, trainerReady: bool, spaceRepoId: string, token: string,
                       tag: string, ok: HubCall -> bool, accepted: bool): seq<HubCall>
  {
    if !accepted || hub.Unset? then []
    else
      var repo := if hub.value.Some? then hub.value else argsHubId;
      if repo.None? then []
      else
        Attempted(PushSteps(true, trainerReady, repo.value, tag), ok)
          + (if spaceRepoId == "" || token == "" then [] else [RestartSpace(spaceRepoId)])
  }

  /**
   * How the deployment branch and the summary alert after it end: Ok, or
   * the error. The alert's title reads self.hub_model_id outside any try,
   * so a rejected run whose attribute was never set raises there.
   */
  function DeployResult(hub: HubAttr, argsHubId: Option<string>, spaceRepoId: string, token: string,
                        restartOk: bool, accepted: bool): Result<(), DeployError>
  {
    if hub.Unset? then Err(NoHubModelIdAttribute)
    else if !accepted then Ok(())
    else if hub.value.None? && argsHubId.None? then Err(MissingHubModelId)
    else if spaceRepoId == "" || token == "" then Err(MissingRepoOrToken)
    else if !restartOk then Err(RestartFailed)
    else Ok(())
  }

  /**
   * A rejected run touches neither the hub nor the space. It ends normally
   * exactly when self.hub_model_id was set; otherwise the summary alert
   * raises AttributeError.
   */
  lemma RejectedTouchesNothing(hub: HubAttr, argsHubId: Option<string>, trainerReady: bool, spaceRepoId: string, token: string,
                               tag: string, ok: HubCall -> bool, restartOk: bool)
    ensures DeployCalls(hub, argsHubId, trainerReady, spaceRepoId, token, tag, ok, false) == []
    ensures DeployResult(hub, argsHubId, spaceRepoId, token, restartOk, false) == Ok(()) <==> hub.Attr?
    ensures hub.Unset? ==> DeployResult(hub, argsHubId, spaceRepoId, token, restartOk, false) == Err(NoHubModelIdAttribute)
  {
  }

  /**
   * Push errors are swallowed: with a hub id, a space id and a token, an
   * accepted run restarts the space whatever the pushes came to, and fails
   * only if the restart fails.
   */
  lemma {:induction false} FailedPushStillRestarts(repo: string, argsHubId: Option<string>, trainerReady: bool, spaceRepoId: string,
                                                 token: string, tag: string, ok: HubCall -> bool, restartOk: bool)
    requires spaceRepoId != "" && token != ""
    ensures var calls := DeployCalls(Attr(Some(repo)), argsHubId, trainerReady, spaceRepoId, token, tag, ok, true);
      && |calls| >= 2
      && calls[|calls| - 1] == RestartSpace(spaceRepoId)
      && calls[0] == (if trainerReady then TrainerPush else ModelPush(repo))
    ensures DeployResult(Attr(Some(repo)), argsHubId, spaceRepoId, token, restartOk, true).Err? <==> !restartOk
  {
    var steps := PushSteps(true, trainerReady, repo, tag);
    assert steps[0] == (if trainerReady then TrainerPush else ModelPush(repo));
    assert Attempted(steps, ok)[0] == steps[0];
  }

  /** The job's state for deployment, and the remote calls it has made. */
  class RetrainPipeline {
    var spaceRepoId: string
    var hfToken: string
    var hubModelId: HubAttr
    var argsHubId: Option<string>   // training_args.hub_model_id
    var trainerReady: bool
    var versionTag: string
    var calls: seq<HubCall>

    constructor(token: string)
      ensures spaceRepoId == "" && hfToken == token && hubModelId == Unset && argsHubId == None
      ensures !trainerReady && versionTag == "" && calls == []
    {
      spaceRepoId := "";
      hfToken := token;
      hubModelId := Unset;
      argsHubId := None;
      trainerReady := false;
      versionTag := "";
      calls := [];
    }

    /**
     * The hub-id part of train: non-empty overrides set self.hub_model_id to
     * their "hub_model_id" entry (None when absent); empty ones leave it as
     * it was. The trainer exists afterwards.
     */
    method ApplyTrainingArgs(overridesGiven: bool, hubIdOverride: Option<string>)
      modifies this
      ensures hubModelId == if overridesGiven then Attr(hubIdOverride) else old(hubModelId)
      ensures argsHubId == if overridesGiven then hubIdOverride else None
      ensures trainerReady
      ensures spaceRepoId == old(spaceRepoId) && hfToken == old(hfToken) && versionTag == old(versionTag) && calls == old(calls)
    {
      if overridesGiven {
        hubModelId := Attr(hubIdOverride);
        argsHubId := hubIdOverride;
      } else {
        argsHubId := None;
      }
      trainerReady := true;
    }

    /** One remote call, recorded whether or not it succeeds. */
    method Call(c: HubCall, ok: HubCall -> bool) returns (success: bool)
      modifies this`calls
      ensures calls == old(calls) + [c] && success == ok(c)
    {
      calls := calls + [c];
      success := ok(c);
    }

    /**
     * push_model_to_hub: stamps a new version tag, then pushes, uploads the
     * metadata and creates the tag, stopping at the first failure, which is
     * only printed. Only a missing hub id is raised.
     */
    method PushModelToHub(hubId: Option<string>, useTrainer: bool, timestamp: string, ok: HubCall -> bool)
      returns (r: Result<(), DeployError>)
      modifies this`calls, this`versionTag
      ensures versionTag == "v" + timestamp
      ensures var repo := if hubId.Some? then hubId else argsHubId;
        && (r.Err? <==> repo.None?)
        && (r.Err? ==> r.error == MissingHubModelId && calls == old(calls))
        && (repo.Some? ==> calls == old(calls) + Attempted(PushSteps(useTrainer, trainerReady, repo.value, versionTag), ok))
    {
      versionTag := "v" + timestamp;
      var repo := hubId;
      if repo.None? {
        repo := argsHubId;
        if repo.None? {
          return Err(MissingHubModelId);
        }
      }
      var id := repo.value;
      ghost var head := WeightSteps(useTrainer, trainerReady, id);
      ghost var tail := [UploadMetadata(id, versionTag), CreateTag(id, versionTag)];
      AttemptedAppend(head, tail, ok);
      r := Ok(());
      var pushed := PushWeights(id, useTrainer, ok);
      if !pushed {
        return;
      }
      var uploaded := Call(UploadMetadata(id, versionTag), ok);
      if !uploaded {
        assert Attempted(tail, ok) == [tail[0]];
        return;
      }
      var tagged := Call(CreateTag(id, versionTag), ok);
      assert tail[1..] == [CreateTag(id, versionTag)];
      assert Attempted(tail, ok) == [tail[0]] + Attempted(tail[1..], ok);
      assert Attempted(tail[1..], ok) == [tail[1]];
    }

    /** Step 1 of push_model_to_hub; `pushed` says whether every weight push succeeded. */
    method PushWeights(id: string, useTrainer: bool, ok: HubCall -> bool) returns (pushed: bool)
      modifies this`calls
      ensures var head := WeightSteps(useTrainer, trainerReady, id);
        && calls == old(calls) + Attempted(head, ok)
        && pushed == forall i :: 0 <= i < |head| ==> ok(head[i])
    {
      if useTrainer && trainerReady {
        pushed := Call(TrainerPush, ok);
        assert Attempted([TrainerPush], ok) == [TrainerPush];
      } else {
        pushed := Call(ModelPush(id), ok);
        if pushed {
          pushed := Call(TokenizerPush(id), ok);
          assert Attempted([ModelPush(id), TokenizerPush(id)], ok) == [ModelPush(id)] + Attempted([TokenizerPush(id)], ok);
        }
      }
    }

    /**
     * restart_space: keeps an already set space id, else takes the argument;
     * an empty id or token is a ValueError and a failed restart a RuntimeError.
     */
    method RestartSpaceCall(spaceRepoIdArg: string, restartOk: bool) returns (r: Result<(), DeployError>)
      modifies this`calls, this`spaceRepoId
      ensures spaceRepoId == if old(spaceRepoId) != "" then old(spaceRepoId) else spaceRepoIdArg
      ensures spaceRepoId == "" || hfToken == "" ==> r == Err(MissingRepoOrToken) && calls == old(calls)
      ensures spaceRepoId != "" && hfToken != "" ==>
        && calls == old(calls) + [RestartSpace(spaceRepoId)]
        && r == if restartOk then Ok(()) else Err(RestartFailed)
    {
      if spaceRepoId == "" {
        spaceRepoId := spaceRepoIdArg;
      }
      if spaceRepoId == "" || hfToken == "" {
        return Err(MissingRepoOrToken);
      }
      var restarted := Call(RestartSpace(spaceRepoId), _ => restartOk);
      r := if restarted then Ok(()) else Err(RestartFailed);
    }

    /**
     * The tail of train_pipeline: record the space id, re-derive the
     * decision with decision_threshold, push then restart only when it is
     * accepted, and read self.hub_model_id for the summary alert.
     */
    method DeployIfAccepted(challengerF1: real, deployedF1: Option<real>, decisionThreshold: real, spaceRepoIdArg: string,
                            timestamp: string, ok: HubCall -> bool, restartOk: bool)
      returns (accepted: bool, r: Result<(), DeployError>)
      modifies this`calls, this`versionTag, this`spaceRepoId
      ensures accepted == Accepted(challengerF1, deployedF1, decisionThreshold)
      ensures spaceRepoId == spaceRepoIdArg
      ensures r == DeployResult(hubModelId, argsHubId, spaceRepoIdArg, hfToken, restartOk, accepted)
      ensures calls == old(calls) + DeployCalls(hubModelId, argsHubId, trainerReady, spaceRepoIdArg, hfToken,
                                                 "v" + timestamp, ok, accepted)
    {
      spaceRepoId := spaceRepoIdArg;
      accepted := Accepted(challengerF1, deployedF1, decisionThreshold);
      r := Ok(());
      if accepted {
        if hubModelId.Unset? {
          return accepted, Err(NoHubModelIdAttribute);
        }
        var pushed := PushModelToHub(hubModelId.value, true, timestamp, ok);
        if pushed.Err? {
          return accepted, pushed;
        }
        r := RestartSpaceCall(spaceRepoId, restartOk);
      }
      if hubModelId.Unset? {
        r := Err(NoHubModelIdAttribute);
      }
    }
  }
}
