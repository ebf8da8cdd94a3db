/**
 * The rules `iter_configs` applies to one raw candidate configuration
 * (experimentation/loop/config_round4.py, lines 152-174): the ordering
 * filter, the threshold derivation and the SVM `predict_proba` rewrite.
 * Each rule is a pure function on the candidate; `Transform` runs them in
 * the source's order and says whether the candidate is dropped, kept (and
 * as what), or makes Python raise.
 */
module CandidateRules {
  import opened Values

  const FactDistanceKey := "fact_threshold_distance"
  const EvidenceDistanceKey := "evidence_threshold_distance"
  const FactThresholdKey := "fact_threshold"
  const EvidenceThresholdKey := "evidence_threshold"
  const PredictionConfigKey := "prediction_config"
  const ClassifierConfigKey := "classifier_config"

  /** The four keys the threshold derivation removes or adds. */
  const ThresholdKeys: set<string> :=
    {FactDistanceKey, EvidenceDistanceKey, FactThresholdKey, EvidenceThresholdKey}

  /** What becomes of one raw candidate. */
  datatype Outcome = Dropped | Kept(config: Config) | Failed(error: PyError)

  /** The two distances compared on line 154, fact first. */
  function Distances(c: Config): Result<(real, real)> {
    if FactDistanceKey !in c then Err(KeyError(FactDistanceKey))
    else if EvidenceDistanceKey !in c then Err(KeyError(EvidenceDistanceKey))
    else if !c[FactDistanceKey].Num? || !c[EvidenceDistanceKey].Num? then Err(TypeError)
    else Ok((c[FactDistanceKey].num, c[EvidenceDistanceKey].num))
  }

  /** `config['prediction_config']['scale_to_range']`. */
  function ScaleToRange(c: Config): Result<Value> {
    match Get(c, PredictionConfigKey)
    case Err(e) => Err(e)
    case Ok(pc) => Subscript(pc, "scale_to_range")
  }

  /** The score the thresholds are measured down from: the largest bound of
      `scale_to_range` when that is truthy, else 1.0. */
  function MaxScore(c: Config): (r: Result<real>)
    ensures r.Ok? <==>
      ScaleToRange(c).Ok? &&
      (Truthy(ScaleToRange(c).value) ==>
         ScaleToRange(c).value.List? && AllNums(ScaleToRange(c).value.items))
    ensures r.Ok? && !Truthy(ScaleToRange(c).value) ==> r.value == 1.0
    ensures r.Ok? && Truthy(ScaleToRange(c).value) ==>
      var bounds := ScaleToRange(c).value.items;
      Num(r.value) in bounds && forall i :: 0 <= i < |bounds| ==> bounds[i].num <= r.value
  {
    match ScaleToRange(c)
    case Err(e) => Err(e)
    case Ok(s) =>
      if !Truthy(s) then Ok(1.0)
      else if s.List? && AllNums(s.items) then Ok(MaxNum(s.items))
      else Err(TypeError)
  }

  /** Both distances are present and numeric, and the fact distance is the
      smaller: the candidate the ordering filter drops. */
  predicate FactDistanceBelowEvidence(c: Config) {
    && FactDistanceKey in c && EvidenceDistanceKey in c
    && c[FactDistanceKey].Num? && c[EvidenceDistanceKey].Num?
    && c[FactDistanceKey].num < c[EvidenceDistanceKey].num
  }

  /** The shape every yielded candidate has: no distances, both thresholds
      as numbers, the fact threshold not above the evidence threshold. */
  predicate ThresholdShape(out: Config) {
    && FactDistanceKey !in out && EvidenceDistanceKey !in out
    && FactThresholdKey in out && EvidenceThresholdKey in out
    && out[FactThresholdKey].Num? && out[EvidenceThresholdKey].Num?
    && out[FactThresholdKey].num <= out[EvidenceThresholdKey].num
  }

  /** Lines 163-164: both distances are popped and both thresholds set,
      each the maximum score less its distance; nothing else changes. The
      thresholds are in order when the distances were. */
  function DeriveThresholds(c: Config, maxScore: real, fact: real, evidence: real): (r: Config)
    ensures r.Keys == c.Keys - {FactDistanceKey, EvidenceDistanceKey} + {FactThresholdKey, EvidenceThresholdKey}
    ensures r[FactThresholdKey] == Num(maxScore - fact) && r[EvidenceThresholdKey] == Num(maxScore - evidence)
    ensures forall k :: k in c && k !in ThresholdKeys ==> r[k] == c[k]
    ensures evidence <= fact ==> ThresholdShape(r)
  {
    (c - {FactDistanceKey, EvidenceDistanceKey})
      [FactThresholdKey := Num(maxScore - fact)]
      [EvidenceThresholdKey := Num(maxScore - evidence)]
  }

  /** `classifier_args.get('kernel', '')`. */
  function Kernel(args: map<string, Value>): Value {
    if "kernel" in args then args["kernel"] else Str("")
  }

  /** The guard of lines 165-166, read off a candidate on which it can be
      evaluated without raising. */
  predicate SvmWithPredictProba(c: Config) {
    && ClassifierConfigKey in c && c[ClassifierConfigKey].Dict?
    && "classifier" in c[ClassifierConfigKey].entries
    && c[ClassifierConfigKey].entries["classifier"] == Str("svm")
    && PredictionConfigKey in c && c[PredictionConfigKey].Dict?
    && "method" in c[PredictionConfigKey].entries
    && c[PredictionConfigKey].entries["method"] == Str("predict_proba")
  }

  /** Lines 165-173: for an SVM asked for `predict_proba`, switch off
      probability estimates, use `decision_function` instead, and turn off
      sparse input when the kernel is `rbf`. The rewrite keeps the key set,
      touches nothing but `classifier_config` and `prediction_config`, and
      leaves both alone when its guard is false; under the guard it fails
      exactly when `classifier_args` is missing or not a dict. */
  function SvmRewrite(c: Config): (r: Result<Config>)
    ensures r.Ok? ==> r.value.Keys == c.Keys
    ensures r.Ok? ==> forall k :: k in c && k != ClassifierConfigKey && k != PredictionConfigKey ==> r.value[k] == c[k]
    ensures r.Ok? && !SvmWithPredictProba(c) ==> r.value == c
    ensures SvmWithPredictProba(c) ==>
      (r.Ok? <==> "classifier_args" in c[ClassifierConfigKey].entries
                  && c[ClassifierConfigKey].entries["classifier_args"].Dict?)
  {
    match Get(c, ClassifierConfigKey)
    case Err(e) => Err(e)
    case Ok(cc) =>
      match Subscript(cc, "classifier")
      case Err(e) => Err(e)
      case Ok(classifier) =>
        if classifier != Str("svm") then Ok(c)
        else
          match Get(c, PredictionConfigKey)
          case Err(e) => Err(e)
          case Ok(pc) =>
            match Subscript(pc, "method")
            case Err(e) => Err(e)
            case Ok(predictionMethod) =>
              if predictionMethod != Str("predict_proba") then Ok(c)
              else
                match Subscript(cc, "classifier_args")
                case Err(e) => Err(e)
                case Ok(args) =>
                  if !args.Dict? then Err(TypeError)
                  else
                    var newArgs := args.entries["probability" := Bool(false)];
                    var newPc := pc.entries["method" := Str("decision_function")];
                    var withArgs := cc.entries["classifier_args" := Dict(newArgs)];
                    var newCc :=
                      if Kernel(newArgs) == Str("rbf") then withArgs["sparse" := Bool(false)]
                      else withArgs;
                    Ok(c[ClassifierConfigKey := Dict(newCc)][PredictionConfigKey := Dict(newPc)])
  }

  /** The body of the inner loop of `iter_configs` (lines 152-174) on one
      raw candidate. A kept candidate passed the ordering filter and has
      its thresholds in order. */
  function Transform(c: Config): (r: Outcome)
    ensures r.Kept? ==> !FactDistanceBelowEvidence(c) && ThresholdShape(r.config)
  {
    match Distances(c)
    case Err(e) => Failed(e)
    case Ok(d) =>
      if d.0 < d.1 then Dropped
      else
        match MaxScore(c)
        case Err(e) => Failed(e)
        case Ok(m) =>
          match SvmRewrite(DeriveThresholds(c, m, d.0, d.1))
          case Err(e) => Failed(e)
          case Ok(out) => Kept(out)
  }

  /** The ordering filter drops exactly the candidates whose fact distance
      is below their evidence distance. */
  lemma DroppedIffFactDistanceBelowEvidence(c: Config)
    ensures Transform(c) == Dropped <==> FactDistanceBelowEvidence(c)
  {
  }

  /** A candidate missing a distance raises `KeyError` on line 154. */
  lemma MissingDistanceRaises(c: Config)
    requires FactDistanceKey !in c || EvidenceDistanceKey !in c
    ensures Transform(c) == Failed(KeyError(if FactDistanceKey !in c then FactDistanceKey else EvidenceDistanceKey))
  {
  }

  /** A kept candidate had its distances in order, and its thresholds are
      the maximum score minus each distance, so the fact threshold is not
      above the evidence threshold. */
  lemma KeptThresholds(c: Config)
    requires Transform(c).Kept?
    ensures !FactDistanceBelowEvidence(c)
    ensures Distances(c).Ok? && MaxScore(c).Ok?
    ensures var out := Transform(c).config;
      && ThresholdShape(out)
      && out[FactThresholdKey] == Num(MaxScore(c).value - c[FactDistanceKey].num)
      && out[EvidenceThresholdKey] == Num(MaxScore(c).value - c[EvidenceDistanceKey].num)
  {
  }

  /** A kept candidate has the keys of the raw one, less the two distances,
      plus the two thresholds; every key but those four,
      `classifier_config` and `prediction_config` keeps its value, and
      those two keep theirs too unless the SVM guard held. */
  lemma KeptKeys(c: Config)
    requires Transform(c).Kept?
    ensures var out := Transform(c).config;
      && out.Keys == c.Keys - {FactDistanceKey, EvidenceDistanceKey} + {FactThresholdKey, EvidenceThresholdKey}
      && (forall k :: k in c && k !in ThresholdKeys && k != ClassifierConfigKey && k != PredictionConfigKey ==>
            out[k] == c[k])
      && (!SvmWithPredictProba(c) ==>
            (forall k :: k in c && k !in ThresholdKeys ==> out[k] == c[k]))
  {
  }

  /** When the guard holds, the kept candidate asks for `decision_function`,
      its classifier arguments say `probability = False`, `sparse` is
      `False` exactly when the kernel (missing counts as '') is `rbf` and is
      otherwise as it was, and nothing else inside the two sub-configs
      changes. */
  lemma SvmPredictProbaRewritten(c: Config)
    requires Transform(c).Kept? && SvmWithPredictProba(c)
    ensures var out := Transform(c).config;
      var cc, pc := c[ClassifierConfigKey].entries, c[PredictionConfigKey].entries;
      && "classifier_args" in cc && cc["classifier_args"].Dict?
      && var args := cc["classifier_args"].entries;
      && out[PredictionConfigKey] == Dict(pc["method" := Str("decision_function")])
      && out[ClassifierConfigKey].Dict?
      && var newCc := out[ClassifierConfigKey].entries;
      && newCc.Keys == cc.Keys + (if Kernel(args) == Str("rbf") then {"sparse"} else {})
      && newCc["classifier_args"] == Dict(args["probability" := Bool(false)])
      && (Kernel(args) == Str("rbf") ==> newCc["sparse"] == Bool(false))
      && (forall k :: k in cc && k != "classifier_args" && (k != "sparse" || Kernel(args) != Str("rbf")) ==>
            newCc[k] == cc[k])
  {
  }
}
