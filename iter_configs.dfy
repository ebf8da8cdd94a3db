/**
 * The generator `iter_configs` of experimentation/loop/config_round4.py
 * (lines 90-174): for each classifier preset in turn, plug it into the
 * base configuration, expand the base against the patch, and pass every
 * raw candidate through the rules of `CandidateRules`, yielding the kept
 * ones until the first exception.
 *
 * The expansion (`apply_dict_combinations(base, patch)`, which lives in a
 * module outside this model) is the parameter `expand`, a total function:
 * it is taken to finish without raising, and nothing is assumed about the
 * candidates it returns.
 */
module ConfigRound4 {
  import opened Wrappers
  import opened Values
  import opened CandidateRules

  /** What a consumer of the generator sees: the candidates yielded, and the
      exception that ended the iteration, if any. */
  datatype Run = Run(yielded: seq<Config>, failure: Option<PyError>)

  /** One more outcome, after a run that has not failed. */
  function Advance(prev: Run, o: Outcome): Run {
    match o
    case Dropped => prev
    case Kept(c) => Run(prev.yielded + [c], None)
    case Failed(e) => Run(prev.yielded, Some(e))
  }

  /** The outcome of each raw candidate, in order. */
  function Outcomes(raws: seq<Config>): seq<Outcome> {
    seq(|raws|, i requires 0 <= i < |raws| => Transform(raws[i]))
  }

  /** The stream a sequence of outcomes produces: kept candidates are
      yielded in order, and the first failure ends it. */
  function Collect(os: seq<Outcome>): (run: Run)
    ensures |run.yielded| <= |os|
  {
    if os == [] then Run([], None)
    else
      var prev := Collect(os[..|os| - 1]);
      if prev.failure.Some? then prev else Advance(prev, os[|os| - 1])
  }

  /** The inner loop (lines 151-174) run over `raws`: at most one output
      per raw candidate. */
  function Process(raws: seq<Config>): (run: Run)
    ensures |run.yielded| <= |raws|
  {
    Collect(Outcomes(raws))
  }

  /** For each yielded candidate, the index of the outcome it came from. */
  ghost function Origins(os: seq<Outcome>): (o: seq<nat>)
    ensures forall k :: 0 <= k < |o| ==> o[k] < |os|
  {
    if os == [] then []
    else
      var before := Origins(os[..|os| - 1]);
      if Collect(os[..|os| - 1]).failure.Some? then before
      else if os[|os| - 1].Kept? then before + [|os| - 1]
      else before
  }

  /** `Collect` distributes over concatenation: a failure in the first part
      ends the stream there, otherwise the second part's output follows the
      first's. */
  lemma {:induction false} CollectAppend(a: seq<Outcome>, b: seq<Outcome>)
    ensures Collect(a + b) ==
      if Collect(a).failure.Some? then Collect(a)
      else Run(Collect(a).yielded + Collect(b).yielded, Collect(b).failure)
    decreases |b|
  {
    if b == [] {
      assert a + b == a;
    } else {
      var b' := b[..|b| - 1];
      assert (a + b)[..|a + b| - 1] == a + b';
      assert (a + b)[|a + b| - 1] == b[|b| - 1];
      CollectAppend(a, b');
    }
  }

  /** Each outcome gives at most one output, outputs keep the order of their
      outcomes, and when nothing fails every kept candidate is yielded. */
  lemma {:induction false} CollectOrigins(os: seq<Outcome>)
    ensures var run, o := Collect(os), Origins(os);
      && |o| == |run.yielded|
      && (forall k :: 0 <= k < |o| ==> os[o[k]] == Kept(run.yielded[k]))
      && (forall k1, k2 :: 0 <= k1 < k2 < |o| ==> o[k1] < o[k2])
      && (run.failure == None ==> forall i :: 0 <= i < |os| && os[i].Kept? ==> i in o)
  {
    if os != [] {
      var init := os[..|os| - 1];
      CollectOrigins(init);
      forall i | 0 <= i < |init| ensures init[i] == os[i] { }
    }
  }

  /** The outcome at `i` is a failure, and none before it is. */
  predicate FirstFailureAt(os: seq<Outcome>, i: int) {
    && 0 <= i < |os| && os[i].Failed?
    && forall j :: 0 <= j < i ==> !os[j].Failed?
  }

  /** The stream ends in an exception exactly when some outcome is a
      failure. */
  lemma {:induction false} CollectFailsIffSomeFails(os: seq<Outcome>)
    ensures Collect(os).failure == None <==> forall i :: 0 <= i < |os| ==> !os[i].Failed?
  {
    if os != [] {
      var n := |os| - 1;
      var init := os[..n];
      CollectFailsIffSomeFails(init);
      forall i | 0 <= i < n ensures init[i] == os[i] { }
    }
  }

  /** A failed stream carries the first failure's exception and has yielded
      exactly what the outcomes before it yield. */
  lemma {:induction false} CollectStopsAtFirstFailure(os: seq<Outcome>)
    requires Collect(os).failure.Some?
    ensures exists i ::
      && FirstFailureAt(os, i)
      && Collect(os) == Run(Collect(os[..i]).yielded, Some(os[i].error))
  {
    var n := |os| - 1;
    var init := os[..n];
    if Collect(init).failure.Some? {
      CollectStopsAtFirstFailure(init);
      var i :| FirstFailureAt(init, i) && Collect(init) == Run(Collect(init[..i]).yielded, Some(init[i].error));
      assert init[..i] == os[..i];
      forall j | 0 <= j <= i ensures init[j] == os[j] { }
      assert FirstFailureAt(os, i);
    } else {
      CollectFailsIffSomeFails(init);
      forall j | 0 <= j < n ensures init[j] == os[j] { }
      assert FirstFailureAt(os, n);
    }
  }

  lemma OutcomesAppend(a: seq<Config>, b: seq<Config>)
    ensures Outcomes(a + b) == Outcomes(a) + Outcomes(b)
  {
  }

  /** `ProcessAppend` for raw candidates: running two sequences back to back
      is the first run if it raised, else the first run's output followed by
      the second's. */
  lemma ProcessAppend(a: seq<Config>, b: seq<Config>)
    ensures Process(a + b) ==
      if Process(a).failure.Some? then Process(a)
      else Run(Process(a).yielded + Process(b).yielded, Process(b).failure)
  {
    OutcomesAppend(a, b);
    CollectAppend(Outcomes(a), Outcomes(b));
  }

  /** Every yielded candidate has its thresholds derived and in order, and
      came from a raw candidate that the ordering filter let through. */
  lemma YieldedCandidatesHaveThresholds(raws: seq<Config>)
    ensures forall c :: c in Process(raws).yielded ==> ThresholdShape(c)
    ensures var o := Origins(Outcomes(raws));
      forall k :: 0 <= k < |o| ==> !FactDistanceBelowEvidence(raws[o[k]])
  {
    CollectOrigins(Outcomes(raws));
    var run, o := Process(raws), Origins(Outcomes(raws));
    forall k | 0 <= k < |o|
      ensures ThresholdShape(run.yielded[k]) && !FactDistanceBelowEvidence(raws[o[k]])
    {
      assert Outcomes(raws)[o[k]] == Transform(raws[o[k]]);
      KeptThresholds(raws[o[k]]);
    }
  }

  /** Line 150: the base with one classifier preset plugged in. */
  function WithPreset(base: Config, preset: Value): (r: Config)
    ensures r.Keys == base.Keys + {ClassifierConfigKey} && r[ClassifierConfigKey] == preset
    ensures forall k :: k in base && k != ClassifierConfigKey ==> r[k] == base[k]
  {
    base[ClassifierConfigKey := preset]
  }

  /** The raw candidates of lines 149-151, preset after preset; each comes
      from the expansion of the base with one of the presets in its slot. */
  function RawCandidates(base: Config, presets: seq<Value>, expand: Config -> seq<Config>): (r: seq<Config>)
    ensures forall x :: x in r ==> exists i :: 0 <= i < |presets| && x in expand(WithPreset(base, presets[i]))
  {
    if presets == [] then []
    else
      RawCandidates(base, presets[..|presets| - 1], expand)
        + expand(WithPreset(base, presets[|presets| - 1]))
  }

  lemma {:induction false} RawCandidatesSplit(base: Config, presets: seq<Value>, expand: Config -> seq<Config>, i: nat)
    requires i <= |presets|
    ensures RawCandidates(base, presets, expand) ==
      RawCandidates(base, presets[..i], expand) + RawCandidates(base, presets[i..], expand)
    decreases |presets|
  {
    if i == |presets| {
      assert presets[..i] == presets;
      assert presets[i..] == [];
    } else {
      var n := |presets| - 1;
      RawCandidatesSplit(base, presets[..n], expand, i);
      assert presets[..n][..i] == presets[..i];
      assert presets[i..][..|presets[i..]| - 1] == presets[..n][i..];
      assert presets[i..][|presets[i..]| - 1] == presets[n];
    }
  }

  /** Outputs are grouped by preset, in preset order: as long as the first
      `i` presets raise nothing, the output is theirs followed by that of
      the remaining presets. */
  lemma GroupedByPreset(base: Config, presets: seq<Value>, expand: Config -> seq<Config>, i: nat)
    requires i <= |presets|
    requires Process(RawCandidates(base, presets[..i], expand)).failure == None
    ensures Process(RawCandidates(base, presets, expand)) ==
      var first, rest :=
        Process(RawCandidates(base, presets[..i], expand)), Process(RawCandidates(base, presets[i..], expand));
      Run(first.yielded + rest.yielded, rest.failure)
  {
    RawCandidatesSplit(base, presets, expand, i);
    ProcessAppend(RawCandidates(base, presets[..i], expand), RawCandidates(base, presets[i..], expand));
  }

  /** The base configuration of lines 93-124. The absolute path of the
      gold-standard file and the hex MD5 digest of its contents are given
      as strings. It carries both distances, in an order the filter lets
      through, no thresholds, and an empty classifier slot. */
  function Base(inputFilePath: string, inputFileMd5: string, databaseName: string): (r: Config)
    ensures FactDistanceKey in r && EvidenceDistanceKey in r && !FactDistanceBelowEvidence(r)
    ensures FactThresholdKey !in r && EvidenceThresholdKey !in r
    ensures ClassifierConfigKey in r && r[ClassifierConfigKey] == Dict(map[])
  {
    map[
      "experiment" := Str("bootstrap"),
      "config_version" := Str("4"),
      "data_shuffle_seed" := Str("a-ha"),
      "input_file_path" := Str(inputFilePath),
      "input_file_md5" := Str(inputFileMd5),
      "database_name" := Str(databaseName),
      "answers_per_round" := Num(5.0),
      "max_number_of_rounds" := Num(15.0),
      PredictionConfigKey := Dict(map[
        "method" := Str("decision_function"),
        "scale_to_range" := List([Num(0.1), Num(0.9)])]),
      FactDistanceKey := Num(0.01),
      EvidenceDistanceKey := Num(0.01),
      "questions_sorting" := Str("score"),
      "drop_guesses_each_round" := Bool(true),
      "seed_facts" := Dict(map["number_to_use" := Num(5.0), "shuffle" := Str("it's a trap")]),
      ClassifierConfigKey := Dict(map[])
    ]
  }

  /** The base itself is no candidate: its classifier slot is empty, and
      reading the classifier out of it raises. */
  lemma BaseAloneRaises(inputFilePath: string, inputFileMd5: string, databaseName: string)
    ensures Transform(Base(inputFilePath, inputFileMd5, databaseName)) == Failed(KeyError("classifier"))
  {
  }

  /** With a preset in its slot, the base passes the filter unchanged but
      for its thresholds: both are 0.9 - 0.01, as `scale_to_range` tops out
      at 0.9 and both distances are 0.01. */
  lemma BaseWithPresetKept(inputFilePath: string, inputFileMd5: string, databaseName: string, preset: Value)
    requires preset.Dict? && "classifier" in preset.entries
    ensures var raw := WithPreset(Base(inputFilePath, inputFileMd5, databaseName), preset);
      && Transform(raw).Kept?
      && Transform(raw).config == DeriveThresholds(raw, 0.9, 0.01, 0.01)
      && Transform(raw).config[FactThresholdKey] == Num(0.89)
      && Transform(raw).config[EvidenceThresholdKey] == Num(0.89)
  {
    var raw := WithPreset(Base(inputFilePath, inputFileMd5, databaseName), preset);
    assert MaxScore(raw) == Ok(0.9);
  }

  /** Lines 143-144: the alternatives the patch offers for the two
      distances. */
  const FactDistanceAlternatives: seq<real> := [0.01, 0.05, 0.1]
  const EvidenceDistanceAlternatives: seq<real> := [0.05, 0.1]

  /** Of the six distance pairs the patch offers, the ordering filter drops
      exactly three. */
  lemma PatchedDistancesFiltered(c: Config)
    requires FactDistanceKey in c && c[FactDistanceKey].Num?
    requires c[FactDistanceKey].num in FactDistanceAlternatives
    requires EvidenceDistanceKey in c && c[EvidenceDistanceKey].Num?
    requires c[EvidenceDistanceKey].num in EvidenceDistanceAlternatives
    ensures Transform(c) == Dropped <==>
      (c[FactDistanceKey].num, c[EvidenceDistanceKey].num) in {(0.01, 0.05), (0.01, 0.1), (0.05, 0.1)}
  {
  }

  /** One more outcome at the end of a stream. */
  lemma CollectSnoc(os: seq<Outcome>, o: Outcome)
    ensures Collect(os + [o]) == if Collect(os).failure.Some? then Collect(os) else Advance(Collect(os), o)
  {
  }

  /** The inner loop's next raw candidate adds its outcome at the end. */
  lemma OutcomesSnoc(done: seq<Config>, raws: seq<Config>, j: nat)
    requires j < |raws|
    ensures Outcomes(done + raws[..j + 1]) == Outcomes(done + raws[..j]) + [Transform(raws[j])]
  {
  }

  /** The presets so far, one more. */
  lemma RawCandidatesNext(base: Config, presets: seq<Value>, expand: Config -> seq<Config>, i: nat)
    requires i < |presets|
    ensures RawCandidates(base, presets[..i + 1], expand) ==
      RawCandidates(base, presets[..i], expand) + expand(WithPreset(base, presets[i]))
  {
    assert presets[..i + 1][..i] == presets[..i];
  }

  /** An exception raised under preset `i` ends the whole iteration: the
      later presets add nothing. */
  lemma FailureEndsIteration(base: Config, presets: seq<Value>, expand: Config -> seq<Config>, i: nat)
    requires i < |presets|
    requires Process(RawCandidates(base, presets[..i + 1], expand)).failure.Some?
    ensures Process(RawCandidates(base, presets, expand)) == Process(RawCandidates(base, presets[..i + 1], expand))
  {
    RawCandidatesSplit(base, presets, expand, i + 1);
    ProcessAppend(RawCandidates(base, presets[..i + 1], expand), RawCandidates(base, presets[i + 1..], expand));
  }

  /** An exception raised by raw candidate `j` ends the inner loop: the
      later candidates add nothing. */
  lemma FailureEndsPreset(done: seq<Config>, raws: seq<Config>, j: nat)
    requires j < |raws|
    requires Process(done + raws[..j + 1]).failure.Some?
    ensures Process(done + raws) == Process(done + raws[..j + 1])
  {
    assert raws == raws[..j + 1] + raws[j + 1..];
    assert done + raws == (done + raws[..j + 1]) + raws[j + 1..];
    ProcessAppend(done + raws[..j + 1], raws[j + 1..]);
  }

  /** The inner loop of lines 151-174 over the raw candidates of one
      preset, continuing a stream that has not failed and yielded
      `yieldedSoFar` for the raw candidates `done`. */
  method ProcessPreset(ghost done: seq<Config>, raws: seq<Config>, yieldedSoFar: seq<Config>)
    returns (yielded: seq<Config>, failure: Option<PyError>)
    requires Process(done) == Run(yieldedSoFar, None)
    ensures Run(yielded, failure) == Process(done + raws)
  {
    yielded, failure := yieldedSoFar, None;
    ghost var outcomes := Outcomes(done);
    assert done + raws[..0] == done;
    for j := 0 to |raws|
      invariant outcomes == Outcomes(done + raws[..j])
      invariant Run(yielded, None) == Collect(outcomes)
    {
      var outcome := Transform(raws[j]);
      OutcomesSnoc(done, raws, j);
      CollectSnoc(outcomes, outcome);
      outcomes := outcomes + [outcome];
      match outcome
      case Dropped =>
      case Kept(c) =>
        yielded := yielded + [c];
      case Failed(e) =>
        failure := Some(e);
        FailureEndsPreset(done, raws, j);
        return;
    }
    assert raws[..|raws|] == raws;
  }

  /** `iter_configs` drained: the candidates it yields and the exception
      that stops it, if any. */
  method IterConfigs(base: Config, presets: seq<Value>, expand: Config -> seq<Config>)
    returns (yielded: seq<Config>, failure: Option<PyError>)
    ensures Run(yielded, failure) == Process(RawCandidates(base, presets, expand))
  {
    yielded, failure := [], None;
    var current := base;
    for i := 0 to |presets|
      invariant failure == None
      invariant Run(yielded, failure) == Process(RawCandidates(base, presets[..i], expand))
      invariant current == if i == 0 then base else WithPreset(base, presets[i - 1])
    {
      current := current[ClassifierConfigKey := presets[i]];
      assert current == WithPreset(base, presets[i]);
      var raws := expand(current);
      RawCandidatesNext(base, presets, expand, i);
      yielded, failure := ProcessPreset(RawCandidates(base, presets[..i], expand), raws, yielded);
      if failure.Some? {
        FailureEndsIteration(base, presets, expand, i);
        return;
      }
    }
    assert presets[..|presets|] == presets;
  }
}
