/**
 * The retraining job's configuration (configs.py): class attributes read
 * from the environment when the module is imported, a label-specific
 * subclass chosen by LABEL, a check that every required secret is set,
 * and a final pass that strips trailing whitespace from every string
 * attribute in place.
 *
 * The environment is a map from variable names to their text; float() is
 * foreign code and comes in as a parameter.
 */
module RetrainConfig {
  import opened Wrappers
  import opened LabelMaps
  import Text

  /** An attribute value: None, a string, an int or a float. */
  datatype Value = NoneValue | Str(s: string) | Int(i: int) | Float(f: real)

  /** Python truthiness: None, "", 0 and 0.0 are false. */
  predicate Falsy(v: Value)
  {
    v == NoneValue || v == Str("") || v == Int(0) || v == Float(0.0)
  }

  datatype ConfigError =
    | BadNumber(variable: string)
    | UnsupportedLabel(lbl: string)
    | MissingRequired(fields: seq<string>)

  const DEFAULT_CHECKPOINT: string := "xlm-roberta-base"
  const DEFAULT_PROJECT: string := "sam-urgency-classifier"
  const DEFAULT_PATIENCE: int := 1
  const DEFAULT_SAMPLE_SIZE: int := 300
  const DEFAULT_THRESHOLD: real := 0.001

  /** os.getenv(name, None) */
  function EnvOrNone(env: map<string, string>, name: string): Value
  {
    if name in env then Str(env[name]) else NoneValue
  }

  /** os.getenv(name, default) with a string default. */
  function EnvOr(env: map<string, string>, name: string, default: string): (v: Value)
    ensures v.Str?
  {
    Str(if name in env then env[name] else default)
  }

  /** int(os.getenv(name, default)): the default itself when unset, else int() of the text. */
  function EnvInt(env: map<string, string>, name: string, default: int): Option<int>
  {
    if name in env then Text.PyInt(env[name]) else Some(default)
  }

  /** float(os.getenv(name, default)), with float() on text given by `parseFloat`. */
  function EnvFloat(env: map<string, string>, name: string, default: real, parseFloat: string -> Option<real>): Option<real>
  {
    if name in env then parseFloat(env[name]) else Some(default)
  }

  /** BaseConfig's attributes, evaluated in order when the module is imported; int() or float() may raise first. */
  function BaseAttrs(env: map<string, string>, parseFloat: string -> Option<real>): Result<map<string, Value>, ConfigError>
  {
    var patience := EnvInt(env, "EARLY_STOPPING_PATIENCE", DEFAULT_PATIENCE);
    var sampleSize := EnvInt(env, "DEPLOYED_SAMPLE_SIZE", DEFAULT_SAMPLE_SIZE);
    var threshold := EnvFloat(env, "DECISION_THRESHOLD", DEFAULT_THRESHOLD, parseFloat);
    if patience.None? then Err(BadNumber("EARLY_STOPPING_PATIENCE"))
    else if sampleSize.None? then Err(BadNumber("DEPLOYED_SAMPLE_SIZE"))
    else if threshold.None? then Err(BadNumber("DECISION_THRESHOLD"))
    else Ok(map[
      "hf_token" := EnvOrNone(env, "HF_TOKEN"),
      "model_checkpoint" := EnvOr(env, "MODEL_CHECKPOINT", DEFAULT_CHECKPOINT),
      "dataset_repo_id" := EnvOrNone(env, "DATASET_REPO_ID"),
      "hub_model_id" := EnvOrNone(env, "HUB_MODEL_ID"),
      "api_endpoint" := EnvOrNone(env, "API_ENDPOINT"),
      "space_repo_id" := EnvOrNone(env, "SPACE_REPO_ID"),
      "retrain_space_id" := EnvOrNone(env, "RETRAIN_SPACE_ID"),
      "wandb_api_key" := EnvOrNone(env, "WANDB_API_KEY"),
      "wandb_project_name" := EnvOr(env, "WANDB_PROJECT_NAME", DEFAULT_PROJECT),
      "early_stopping_patience" := Int(patience.value),
      "deployed_sample_size" := Int(sampleSize.value),
      "decision_threshold" := Float(threshold.value)])
  }

  /** The secrets get_config requires, as listed for each label. */
  function RequiredFields(kind: Label): seq<string>
  {
    match kind
    case Department =>
      ["hf_token", "dataset_repo_id", "hub_model_id", "api_endpoint", "space_repo_id", "wandb_api_key", "retrain_space_id"]
    case Urgency =>
      ["hf_token", "dataset_repo_id", "hub_model_id", "api_endpoint", "space_repo_id", "wandb_api_key", "retrain_space_id"]
  }

  /** A field validate_required treats as missing. */
  predicate Unset(attrs: map<string, Value>, f: string)
  {
    f !in attrs || Falsy(attrs[f])
  }

  /** validate_required's list: the required fields whose value is falsy, in order. */
  function MissingFields(attrs: map<string, Value>, fields: seq<string>): (r: seq<string>)
    ensures forall f :: f in r <==> f in fields && Unset(attrs, f)
    ensures |r| <= |fields|
  {
    if fields == [] then []
    else (if Unset(attrs, fields[0]) then [fields[0]] else []) + MissingFields(attrs, fields[1..])
  }

  /** The value after the stripping pass: str values lose trailing whitespace, others are unchanged. */
  function RStripValue(v: Value): (r: Value)
  {
    if v.Str? then Str(Text.PyRStrip(v.s)) else v
  }

  function RStripped(attrs: map<string, Value>): (r: map<string, Value>)
    ensures r.Keys == attrs.Keys
  {
    map k | k in attrs :: RStripValue(attrs[k])
  }

  /** The label name LABEL selects, lower-cased, with "department" when unset. */
  function RequestedLabel(env: map<string, string>): string
  {
    Text.Lower(if "LABEL" in env then env["LABEL"] else "department")
  }

  /** get_config, as a function of the environment: the label and the final attributes, or the error raised. */
  function ConfigOutcome(env: map<string, string>, parseFloat: string -> Option<real>): Result<(Label, map<string, Value>), ConfigError>
  {
    match BaseAttrs(env, parseFloat)
    case Err(e) => Err(e)
    case Ok(base) =>
      var lbl := RequestedLabel(env);
      if lbl != "department" && lbl != "urgency" then Err(UnsupportedLabel(lbl))
      else
        var kind := if lbl == "department" then Department else Urgency;
        var attrs := base["label" := Str(LabelName(kind))];
        var missing := MissingFields(attrs, RequiredFields(kind));
        if missing != [] then Err(MissingRequired(missing))
        else Ok((kind, RStripped(attrs)))
  }

  /** A DepartmentConfig or UrgencyConfig instance; the stripping pass updates its attributes in place. */
  class Config {
    const kind: Label
    const label2id: map<string, int>
    const id2label: map<int, string>
    var attrs: map<string, Value>

    constructor (kind: Label, attrs: map<string, Value>)
      ensures this.kind == kind && this.attrs == attrs
      ensures label2id == ToMap(if kind == Department then DEPARTMENT2ID else URGENCY2ID)
      ensures id2label == Inverse(if kind == Department then DEPARTMENT2ID else URGENCY2ID)
    {
      this.kind := kind;
      this.attrs := attrs;
      var ps := if kind == Department then DEPARTMENT2ID else URGENCY2ID;
      label2id := ToMap(ps);
      id2label := Inverse(ps);
    }

    /** The loop over the attributes: every str attribute whose rstrip differs is set to it. */
    method StripStrings()
      modifies this`attrs
      ensures attrs == RStripped(old(attrs))
    {
      ghost var orig := attrs;
      var todo := attrs.Keys;
      while todo != {}
        invariant todo <= orig.Keys && attrs.Keys == orig.Keys
        invariant forall k :: k in orig ==> attrs[k] == if k in todo then orig[k] else RStripValue(orig[k])
        decreases todo
      {
        var k :| k in todo;
        var v := attrs[k];
        if v.Str? {
          var stripped := Text.PyRStrip(v.s);
          if stripped != v.s {
            attrs := attrs[k := Str(stripped)];
          }
        }
        todo := todo - {k};
      }
    }
  }

  /** get_config. */
  method GetConfig(env: map<string, string>, parseFloat: string -> Option<real>) returns (r: Result<Config, ConfigError>)
    ensures ConfigOutcome(env, parseFloat).Err? ==> r == Err(ConfigOutcome(env, parseFloat).error)
    ensures ConfigOutcome(env, parseFloat).Ok? ==>
      && r.Ok? && fresh(r.value)
      && r.value.kind == ConfigOutcome(env, parseFloat).value.0
      && r.value.attrs == ConfigOutcome(env, parseFloat).value.1
  {
    var base := BaseAttrs(env, parseFloat);
    if base.Err? {
      return Err(base.error);
    }
    var lbl := RequestedLabel(env);
    var kind;
    if lbl == "department" {
      kind := Department;
    } else if lbl == "urgency" {
      kind := Urgency;
    } else {
      return Err(UnsupportedLabel(lbl));
    }
    var config := new Config(kind, base.value["label" := Str(LabelName(kind))]);
    var missing := MissingFields(config.attrs, RequiredFields(kind));
    if missing != [] {
      return Err(MissingRequired(missing));
    }
    config.StripStrings();
    return Ok(config);
  }

  // ---------------------------------------------------------------- properties

  /** LABEL picks the subclass after lower-casing; any other value is rejected, naming the lowered text. */
  lemma LabelSelection(env: map<string, string>, parseFloat: string -> Option<real>)
    requires BaseAttrs(env, parseFloat).Ok?
    ensures ConfigOutcome(env, parseFloat) == Err(UnsupportedLabel(RequestedLabel(env)))
      <==> RequestedLabel(env) != "department" && RequestedLabel(env) != "urgency"
    ensures ConfigOutcome(env, parseFloat).Ok? ==>
      LabelName(ConfigOutcome(env, parseFloat).value.0) == RequestedLabel(env)
  {
  }

  /** Unset, LABEL means the department model. */
  lemma DepartmentByDefault(env: map<string, string>, parseFloat: string -> Option<real>)
    requires "LABEL" !in env
    ensures RequestedLabel(env) == "department"
  {
    var s := "department";
    assert forall i :: 0 <= i < |s| ==> !Text.IsUpperAscii(s[i]);
    Text.LowerKeepsLower(s);
  }

  /** Both labels require the same seven secrets. */
  lemma SameRequiredFields()
    ensures RequiredFields(Department) == RequiredFields(Urgency)
    ensures |RequiredFields(Department)| == 7
  {
  }

  /**
   * validate_required fails exactly when a required field is falsy, and
   * the error names every such field in the order of the list.
   */
  lemma MissingReportsEveryField(env: map<string, string>, parseFloat: string -> Option<real>, kind: Label)
    requires BaseAttrs(env, parseFloat).Ok?
    requires RequestedLabel(env) == LabelName(kind)
    ensures var attrs := BaseAttrs(env, parseFloat).value["label" := Str(LabelName(kind))];
      var c := ConfigOutcome(env, parseFloat);
      && (c.Err? <==> exists f :: f in RequiredFields(kind) && Unset(attrs, f))
      && (c.Err? ==> c.error == MissingRequired(MissingFields(attrs, RequiredFields(kind))))
  {
    var attrs := BaseAttrs(env, parseFloat).value["label" := Str(LabelName(kind))];
    var m := MissingFields(attrs, RequiredFields(kind));
    if m != [] {
      assert m[0] in m;
    }
  }

  /** `after` is `before` with trailing whitespace removed when it is a string, and `before` itself otherwise. */
  predicate StrippedFrom(before: Value, after: Value)
  {
    if before.Str? then
      after.Str? && after.s <= before.s && (after.s == [] || !Text.IsPySpace(after.s[|after.s| - 1]))
    else after == before
  }

  /**
   * After get_config every string attribute has no trailing whitespace and
   * is a prefix of the value it had; other attributes are as read.
   */
  lemma StringsStripped(env: map<string, string>, parseFloat: string -> Option<real>)
    requires ConfigOutcome(env, parseFloat).Ok?
    ensures var base := BaseAttrs(env, parseFloat).value;
      var attrs := ConfigOutcome(env, parseFloat).value.1;
      && attrs.Keys == base.Keys + {"label"}
      && forall k :: k in base && k != "label" ==> StrippedFrom(base[k], attrs[k])
  {
    var base := BaseAttrs(env, parseFloat).value;
    var kind := ConfigOutcome(env, parseFloat).value.0;
    var attrs := base["label" := Str(LabelName(kind))];
    var stripped := RStripped(attrs);
    assert ConfigOutcome(env, parseFloat).value.1 == stripped;
    forall k | k in base && k != "label"
      ensures StrippedFrom(base[k], stripped[k])
    {
      assert stripped[k] == RStripValue(base[k]);
      RStripValueStripped(base[k]);
    }
  }

  lemma RStripValueStripped(v: Value)
    ensures StrippedFrom(v, RStripValue(v))
  {
  }

  /** The entries of BaseConfig that the lemmas below read. */
  lemma BaseAttrsEntries(env: map<string, string>, parseFloat: string -> Option<real>)
    requires BaseAttrs(env, parseFloat).Ok?
    ensures var base := BaseAttrs(env, parseFloat).value;
      && "hf_token" in base && base["hf_token"] == EnvOrNone(env, "HF_TOKEN")
      && "model_checkpoint" in base && base["model_checkpoint"] == EnvOr(env, "MODEL_CHECKPOINT", DEFAULT_CHECKPOINT)
      && "deployed_sample_size" in base && base["deployed_sample_size"] == Int(EnvInt(env, "DEPLOYED_SAMPLE_SIZE", DEFAULT_SAMPLE_SIZE).value)
      && "decision_threshold" in base
      && base["decision_threshold"] == Float(EnvFloat(env, "DECISION_THRESHOLD", DEFAULT_THRESHOLD, parseFloat).value)
      && "early_stopping_patience" in base
      && base["early_stopping_patience"] == Int(EnvInt(env, "EARLY_STOPPING_PATIENCE", DEFAULT_PATIENCE).value)
  {
  }

  /** The stripped value of a BaseConfig attribute other than the label. */
  lemma FinalValue(env: map<string, string>, parseFloat: string -> Option<real>, k: string)
    requires ConfigOutcome(env, parseFloat).Ok?
    requires k in BaseAttrs(env, parseFloat).value && k != "label"
    ensures k in ConfigOutcome(env, parseFloat).value.1
    ensures ConfigOutcome(env, parseFloat).value.1[k] == RStripValue(BaseAttrs(env, parseFloat).value[k])
  {
  }

  /**
   * Validation looks at the values before they are stripped, so a secret
   * made only of whitespace passes the check and comes out empty.
   */
  lemma BlankSecretPassesValidation(env: map<string, string>, parseFloat: string -> Option<real>)
    requires ConfigOutcome(env, parseFloat).Ok?
    requires "HF_TOKEN" in env && Text.AllSpace(env["HF_TOKEN"], Text.IsPySpace)
    ensures ConfigOutcome(env, parseFloat).value.1["hf_token"] == Str("")
    ensures env["HF_TOKEN"] != ""
  {
    var base := BaseAttrs(env, parseFloat).value;
    var kind := ConfigOutcome(env, parseFloat).value.0;
    var attrs := base["label" := Str(LabelName(kind))];
    BaseAttrsEntries(env, parseFloat);
    FinalValue(env, parseFloat, "hf_token");
    assert RequiredFields(kind)[0] == "hf_token";
    assert !Unset(attrs, "hf_token") by {
      assert MissingFields(attrs, RequiredFields(kind)) == [];
    }
    Text.RStripAllSpace(env["HF_TOKEN"]);
  }

  /** Unset variables take the defaults: xlm-roberta-base, 300 samples, threshold 0.001, patience 1. */
  lemma Defaults(env: map<string, string>, parseFloat: string -> Option<real>)
    requires ConfigOutcome(env, parseFloat).Ok?
    ensures var attrs := ConfigOutcome(env, parseFloat).value.1;
      && ("MODEL_CHECKPOINT" !in env ==> "model_checkpoint" in attrs && attrs["model_checkpoint"] == Str(DEFAULT_CHECKPOINT))
      && ("DEPLOYED_SAMPLE_SIZE" !in env ==> "deployed_sample_size" in attrs && attrs["deployed_sample_size"] == Int(300))
      && ("DECISION_THRESHOLD" !in env ==> "decision_threshold" in attrs && attrs["decision_threshold"] == Float(0.001))
      && ("EARLY_STOPPING_PATIENCE" !in env ==> "early_stopping_patience" in attrs && attrs["early_stopping_patience"] == Int(1))
  {
    if "MODEL_CHECKPOINT" !in env {
      DefaultCheckpoint(env, parseFloat);
    }
    if "DEPLOYED_SAMPLE_SIZE" !in env {
      DefaultSampleSize(env, parseFloat);
    }
    if "DECISION_THRESHOLD" !in env {
      DefaultThreshold(env, parseFloat);
    }
    if "EARLY_STOPPING_PATIENCE" !in env {
      DefaultPatience(env, parseFloat);
    }
  }

  lemma DefaultCheckpoint(env: map<string, string>, parseFloat: string -> Option<real>)
    requires ConfigOutcome(env, parseFloat).Ok? && "MODEL_CHECKPOINT" !in env
    ensures var attrs := ConfigOutcome(env, parseFloat).value.1;
      "model_checkpoint" in attrs && attrs["model_checkpoint"] == Str(DEFAULT_CHECKPOINT)
  {
    var base := BaseAttrs(env, parseFloat).value;
    assert "model_checkpoint" in base && base["model_checkpoint"] == Str(DEFAULT_CHECKPOINT) by {
      BaseAttrsEntries(env, parseFloat);
    }
    assert RStripValue(Str(DEFAULT_CHECKPOINT)) == Str(DEFAULT_CHECKPOINT) by {
      Text.RStripKeeps(DEFAULT_CHECKPOINT);
    }
    FinalValue(env, parseFloat, "model_checkpoint");
  }

  lemma DefaultSampleSize(env: map<string, string>, parseFloat: string -> Option<real>)
    requires ConfigOutcome(env, parseFloat).Ok? && "DEPLOYED_SAMPLE_SIZE" !in env
    ensures var attrs := ConfigOutcome(env, parseFloat).value.1;
      "deployed_sample_size" in attrs && attrs["deployed_sample_size"] == Int(300)
  {
    BaseAttrsEntries(env, parseFloat);
    FinalValue(env, parseFloat, "deployed_sample_size");
  }

  lemma DefaultThreshold(env: map<string, string>, parseFloat: string -> Option<real>)
    requires ConfigOutcome(env, parseFloat).Ok? && "DECISION_THRESHOLD" !in env
    ensures var attrs := ConfigOutcome(env, parseFloat).value.1;
      "decision_threshold" in attrs && attrs["decision_threshold"] == Float(0.001)
  {
    BaseAttrsEntries(env, parseFloat);
    FinalValue(env, parseFloat, "decision_threshold");
  }

  lemma DefaultPatience(env: map<string, string>, parseFloat: string -> Option<real>)
    requires ConfigOutcome(env, parseFloat).Ok? && "EARLY_STOPPING_PATIENCE" !in env
    ensures var attrs := ConfigOutcome(env, parseFloat).value.1;
      "early_stopping_patience" in attrs && attrs["early_stopping_patience"] == Int(1)
  {
    BaseAttrsEntries(env, parseFloat);
    FinalValue(env, parseFloat, "early_stopping_patience");
  }
}
