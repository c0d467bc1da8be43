/**
 * Lattice retrieval in `Decoder`: the guards of `GetPrunedLattice`, the
 * post-decode acoustic rescaling matrix of `PostDecodeAMRescore`, and the
 * two-pass language-model rescoring of `RescoreLattice` and
 * `RescoreLatticeWithLM`.
 *
 * Every step the code applies to a lattice changes each path's weight by a
 * rule that depends only on that path, so a lattice is abstracted here to one
 * path followed through all steps: the costs that path has in the decoding
 * graph, under the small LM, under the big LM and under the acoustic model
 * (`PathCosts`), and its current
 * Kaldi `LatticeWeight`, a pair (graph cost `Value1`, acoustic cost
 * `Value2`). The lattice also records the frames it spans and the library
 * steps applied to the search's raw lattice. Which paths survive a step is
 * not modelled; whether a step leaves a lattice with a start state is the
 * library's answer, passed in as `hasStart`.
 */
module Lattices {
  import opened Wrappers

  /** The acoustic model family named by `model_type` in the configuration. */
  datatype ModelType = Gmm | Nnet2 | Nnet3

  /** `lm_small_` (the LM the decoding graph was built with) and `lm_big_`. */
  datatype LanguageModel = SmallLm | BigLm

  /**
   * The costs of one path: `graph` is its cost in the decoding graph (HCLG),
   * which takes in the small LM's cost along with the lexicon and transition
   * costs; `smallLm` and `bigLm` are its costs under each LM alone, and
   * `acoustic` the acoustic model's cost.
   */
  datatype PathCosts = PathCosts(graph: real, smallLm: real, bigLm: real, acoustic: real)

  /** The cost `lm` gives the path. */
  function LmCost(lm: LanguageModel, costs: PathCosts): real {
    match lm
    case SmallLm => costs.smallLm
    case BigLm => costs.bigLm
  }

  /** Kaldi's `LatticeWeight`: graph cost (`Value1`) and acoustic cost (`Value2`). */
  datatype LatticeWeight = LatticeWeight(value1: real, value2: real)

  /**
   * A weight-scaling matrix as passed to `fst::ScaleLattice`, `scale[i][j]`
   * being `mij`: row 0 makes the new graph cost, row 1 the new acoustic cost.
   */
  datatype ScaleMatrix = ScaleMatrix(m00: real, m01: real, m10: real, m11: real)

  /** A `std::vector<std::vector<double>>` of two rows of two, read as a scaling matrix. */
  function MatrixOf(scale: seq<seq<real>>): ScaleMatrix
    requires |scale| == 2 && |scale[0]| == 2 && |scale[1]| == 2
  {
    ScaleMatrix(scale[0][0], scale[0][1], scale[1][0], scale[1][1])
  }

  /** `fst::ScaleTupleWeight`: the weight `w` scaled by matrix `m`. */
  function ScaleWeight(m: ScaleMatrix, w: LatticeWeight): LatticeWeight {
    LatticeWeight(m.m00 * w.value1 + m.m01 * w.value2, m.m10 * w.value1 + m.m11 * w.value2)
  }

  /** `fst::GraphLatticeScale(s)`: scale the graph cost by `s`, keep the acoustic cost. */
  function GraphLatticeScale(s: real): ScaleMatrix {
    ScaleMatrix(s, 0.0, 0.0, 1.0)
  }

  /** The post-decode matrix of `PostDecodeAMRescore`. */
  function AmScaleMatrix(acousticScale: real): ScaleMatrix {
    ScaleMatrix(1.0, 0.0, 0.0, acousticScale)
  }

  /**
   * The post-decode matrix leaves graph costs as they are ("lm scale" 1, no
   * cross terms) and multiplies acoustic costs by the acoustic scale; at
   * scale 1 it changes nothing.
   */
  lemma AmScaleMatrixScales(acousticScale: real, w: LatticeWeight)
    ensures ScaleWeight(AmScaleMatrix(acousticScale), w) == LatticeWeight(w.value1, acousticScale * w.value2)
    ensures acousticScale == 1.0 ==> ScaleWeight(AmScaleMatrix(acousticScale), w) == w
  {
  }

  /** `GraphLatticeScale(s)` multiplies graph costs by `s` and keeps acoustic costs. */
  lemma GraphLatticeScaleScales(s: real, w: LatticeWeight)
    ensures ScaleWeight(GraphLatticeScale(s), w) == LatticeWeight(s * w.value1, w.value2)
  {
  }

  /** A library step applied to a lattice. */
  datatype Step =
    | Scale(matrix: ScaleMatrix)           // `fst::ScaleLattice`
    | PhonePrunedDeterminize(beam: real)   // `DeterminizeLatticePhonePrunedWrapper`
    | OLabelSort                           // `ArcSort` with `OLabelCompare`
    | ComposeInvert(lm: LanguageModel)     // `TableCompose` with the LM's FST, then `Invert`
    | Determinize                          // `DeterminizeLattice`

  /**
   * A lattice: the frames it spans, the path followed with its costs and
   * current weight, and the steps that produced it.
   */
  datatype Lattice = Lattice(frames: nat, path: PathCosts, weight: LatticeWeight, steps: seq<Step>)

  /**
   * The search's raw lattice after `frames` frames: the graph cost of a path
   * is its cost in the decoding graph, its acoustic cost the acoustic model's.
   */
  function RawLattice(frames: nat, path: PathCosts): Lattice {
    Lattice(frames, path, LatticeWeight(path.graph, path.acoustic), [])
  }

  function ScaleLattice(m: ScaleMatrix, lat: Lattice): Lattice {
    lat.(weight := ScaleWeight(m, lat.weight), steps := lat.steps + [Scale(m)])
  }

  /** Sorting arcs reorders them and leaves every weight as it is. */
  function ArcSortByOLabel(lat: Lattice): Lattice {
    lat.(steps := lat.steps + [OLabelSort])
  }

  /** Composing with an LM (then inverting) adds the LM's cost of the path to its graph cost. */
  function ComposeWithLm(lm: LanguageModel, lat: Lattice): Lattice {
    lat.(weight := LatticeWeight(lat.weight.value1 + LmCost(lm, lat.path), lat.weight.value2),
         steps := lat.steps + [ComposeInvert(lm)])
  }

  /** Determinization keeps the best weight of each word sequence; a kept path's weight is unchanged. */
  function DeterminizeLattice(lat: Lattice): Lattice {
    lat.(steps := lat.steps + [Determinize])
  }

  function DeterminizePhonePruned(beam: real, lat: Lattice): Lattice {
    lat.(steps := lat.steps + [PhonePrunedDeterminize(beam)])
  }

  /** The language models composed in by `steps`, in order. */
  function ComposedLms(steps: seq<Step>): seq<LanguageModel> {
    if steps == [] then []
    else
      var last := steps[|steps| - 1];
      ComposedLms(steps[..|steps| - 1]) + (if last.ComposeInvert? then [last.lm] else [])
  }

  lemma ComposedLmsAppend(steps: seq<Step>, step: Step)
    ensures ComposedLms(steps + [step]) == ComposedLms(steps) + (if step.ComposeInvert? then [step.lm] else [])
  {
    assert (steps + [step])[..|steps|] == steps;
  }

  /**
   * `PostDecodeAMRescore`: build the 2x2 matrix cell by cell and scale the
   * raw lattice with it. Graph costs stay, acoustic costs are multiplied by
   * the acoustic scale.
   */
  method PostDecodeAmRescore(lat: Lattice, acousticScale: real) returns (rescaled: Lattice)
    ensures rescaled == ScaleLattice(AmScaleMatrix(acousticScale), lat)
    ensures rescaled.weight == LatticeWeight(lat.weight.value1, acousticScale * lat.weight.value2)
  {
    var scale: seq<seq<real>> := [[], []];
    scale := scale[0 := [0.0, 0.0]];
    scale := scale[1 := [0.0, 0.0]];
    scale := scale[0 := scale[0][0 := 1.0]];
    scale := scale[0 := scale[0][1 := 0.0]];
    scale := scale[1 := scale[1][0 := 0.0]];
    scale := scale[1 := scale[1][1 := acousticScale]];
    var matrix := MatrixOf(scale);
    assert matrix == AmScaleMatrix(acousticScale);
    rescaled := ScaleLattice(matrix, lat);
    AmScaleMatrixScales(acousticScale, lat.weight);
  }

  /** Dividing by `s`, adding `e`, multiplying by `s` again adds `s` times `e`. */
  lemma RescaleCancels(s: real, inv: real, x: real, e: real)
    requires s * inv == 1.0
    ensures s * (inv * x + e) == x + s * e
  {
  }

  /** The outcome of one rescoring pass: its success flag and the lattice it wrote. */
  datatype Pass = Pass(ok: bool, lattice: Lattice)

  /**
   * `RescoreLatticeWithLM`: divide graph costs by `lmScale`, sort arcs,
   * compose with the LM and invert, determinize, multiply graph costs by
   * `lmScale` again. The pass succeeds when the result has a start state.
   */
  function RescoreLatticeWithLm(lat: Lattice, lmScale: real, lm: LanguageModel,
                                hasStart: Lattice -> bool): (r: Pass)
    requires lmScale != 0.0
    ensures r.ok == hasStart(r.lattice)
    ensures r.lattice.frames == lat.frames && r.lattice.path == lat.path
  {
    var lattice := ArcSortByOLabel(ScaleLattice(GraphLatticeScale(1.0 / lmScale), lat));
    var composed := ComposeWithLm(lm, lattice);
    var rescored := ScaleLattice(GraphLatticeScale(lmScale), DeterminizeLattice(composed));
    Pass(hasStart(rescored), rescored)
  }

  /**
   * The net effect of a rescoring pass on a path's weight: `lmScale` times
   * the LM's cost is added to the graph cost, the acoustic cost is unchanged.
   */
  lemma RescorePassWeight(lat: Lattice, lmScale: real, lm: LanguageModel, hasStart: Lattice -> bool)
    requires lmScale != 0.0
    ensures RescoreLatticeWithLm(lat, lmScale, lm, hasStart).lattice.weight
         == LatticeWeight(lat.weight.value1 + lmScale * LmCost(lm, lat.path), lat.weight.value2)
  {
    var inv := 1.0 / lmScale;
    var w := lat.weight;
    GraphLatticeScaleScales(inv, w);
    GraphLatticeScaleScales(lmScale, LatticeWeight(inv * w.value1 + LmCost(lm, lat.path), w.value2));
    RescaleCancels(lmScale, inv, w.value1, LmCost(lm, lat.path));
  }

  /** A rescoring pass composes exactly one LM, the one it is given, after those already composed. */
  lemma RescorePassLms(lat: Lattice, lmScale: real, lm: LanguageModel, hasStart: Lattice -> bool)
    requires lmScale != 0.0
    ensures ComposedLms(RescoreLatticeWithLm(lat, lmScale, lm, hasStart).lattice.steps) == ComposedLms(lat.steps) + [lm]
  {
    var divide := Scale(GraphLatticeScale(1.0 / lmScale));
    var multiply := Scale(GraphLatticeScale(lmScale));
    var s0 := lat.steps + [divide];
    var s1 := s0 + [OLabelSort];
    var s2 := s1 + [ComposeInvert(lm)];
    var s3 := s2 + [Determinize];
    assert RescoreLatticeWithLm(lat, lmScale, lm, hasStart).lattice.steps == s3 + [multiply];
    ComposedLmsAppend(lat.steps, divide);
    ComposedLmsAppend(s0, OLabelSort);
    ComposedLmsAppend(s1, ComposeInvert(lm));
    ComposedLmsAppend(s2, Determinize);
    ComposedLmsAppend(s3, multiply);
  }

  /** An outcome of rescoring or of `GetPrunedLattice`: the `ok` flag and the lattice written, if any. */
  datatype LatticeOutcome = LatticeOutcome(ok: bool, lattice: Option<Lattice>)

  /**
   * `RescoreLattice`: subtract the small LM (scale -1), then, only if that
   * pass succeeded, add the big LM (scale +1). `ok` holds when both passes
   * succeed; when the first fails the output lattice is left untouched.
   */
  function RescoreLattice(lat: Lattice, hasStart: Lattice -> bool): (r: LatticeOutcome)
    ensures r.ok ==> r.lattice.Some?
    ensures r.lattice.Some? ==> (r.ok <==> hasStart(r.lattice.value))
    ensures r.lattice.Some? ==> r.lattice.value.frames == lat.frames && r.lattice.value.path == lat.path
  {
    var first := RescoreLatticeWithLm(lat, -1.0, SmallLm, hasStart);
    if !first.ok then LatticeOutcome(false, None)
    else
      var second := RescoreLatticeWithLm(first.lattice, 1.0, BigLm, hasStart);
      LatticeOutcome(second.ok, Some(second.lattice))
  }

  /** A rescored path's graph cost has the big LM's cost in place of the small LM's. */
  lemma RescoreLatticeWeight(lat: Lattice, hasStart: Lattice -> bool)
    requires RescoreLattice(lat, hasStart).lattice.Some?
    ensures RescoreLattice(lat, hasStart).lattice.value.weight
         == LatticeWeight(lat.weight.value1 - lat.path.smallLm + lat.path.bigLm, lat.weight.value2)
  {
    var first := RescoreLatticeWithLm(lat, -1.0, SmallLm, hasStart);
    RescorePassWeight(lat, -1.0, SmallLm, hasStart);
    RescorePassWeight(first.lattice, 1.0, BigLm, hasStart);
  }

  /** Rescoring composes the small LM, then the big LM. */
  lemma RescoreLatticeLms(lat: Lattice, hasStart: Lattice -> bool)
    requires RescoreLattice(lat, hasStart).lattice.Some?
    ensures ComposedLms(RescoreLattice(lat, hasStart).lattice.value.steps) == ComposedLms(lat.steps) + [SmallLm, BigLm]
  {
    var first := RescoreLatticeWithLm(lat, -1.0, SmallLm, hasStart);
    var second := RescoreLatticeWithLm(first.lattice, 1.0, BigLm, hasStart);
    assert RescoreLattice(lat, hasStart).lattice.value == second.lattice;
    RescorePassLms(lat, -1.0, SmallLm, hasStart);
    RescorePassLms(first.lattice, 1.0, BigLm, hasStart);
  }

  /** Rescoring fails without writing a lattice exactly when the small-LM pass leaves no start state. */
  lemma RescoreSkipsSecondPass(lat: Lattice, hasStart: Lattice -> bool)
    ensures RescoreLattice(lat, hasStart).lattice.None?
        <==> !hasStart(RescoreLatticeWithLm(lat, -1.0, SmallLm, hasStart).lattice)
    ensures RescoreLattice(lat, hasStart).lattice.None? ==> !RescoreLattice(lat, hasStart).ok
  {
  }

  /** A pass at scale -1 followed by a pass at scale +1 with the same LM leaves the weight as it was. */
  lemma RescoreRoundTrip(lat: Lattice, lm: LanguageModel, hasStart: Lattice -> bool)
    ensures var back := RescoreLatticeWithLm(lat, -1.0, lm, hasStart).lattice;
            RescoreLatticeWithLm(back, 1.0, lm, hasStart).lattice.weight == lat.weight
  {
    var back := RescoreLatticeWithLm(lat, -1.0, lm, hasStart).lattice;
    RescorePassWeight(lat, -1.0, lm, hasStart);
    RescorePassWeight(back, 1.0, lm, hasStart);
  }

  /** The configuration values `GetPrunedLattice` reads. */
  datatype LatticeConfig = LatticeConfig(
    modelType: ModelType,
    postDecodeAcwt: real,
    latticeBeam: real,
    determinizeLattice: bool,
    rescore: bool)

  /** The two `KALDI_ERR` refusals of `GetPrunedLattice`. */
  datatype LatticeError = NoFramesDecoded | DeterminizeLatticeDisabled

  /** Whether the post-decode acoustic rescaling runs. */
  predicate PostDecodeRescales(cfg: LatticeConfig) {
    cfg.modelType == Nnet3 && cfg.postDecodeAcwt != 1.0
  }

  /** The acoustic scale the lattice carries: the post-decode weight for NNET3, 1 otherwise. */
  function EffectiveAcousticScale(cfg: LatticeConfig): real {
    if cfg.modelType == Nnet3 then cfg.postDecodeAcwt else 1.0
  }

  /**
   * The lattice `GetPrunedLattice` has before rescoring: the raw lattice,
   * rescaled first when the post-decode weight applies, then determinized
   * with phone pruning.
   */
  function DeterminizedLattice(cfg: LatticeConfig, raw: Lattice): (lat: Lattice)
    ensures lat.frames == raw.frames && lat.path == raw.path
  {
    var rescaled := if PostDecodeRescales(cfg) then ScaleLattice(AmScaleMatrix(cfg.postDecodeAcwt), raw) else raw;
    DeterminizePhonePruned(cfg.latticeBeam, rescaled)
  }

  /**
   * The steps before rescoring: the post-decode rescaling exactly when it
   * applies, and phone-pruned determinization with the configured beam last.
   * No LM has been composed in yet.
   */
  lemma DeterminizedLatticeSteps(cfg: LatticeConfig, frames: nat, path: PathCosts)
    ensures var steps := DeterminizedLattice(cfg, RawLattice(frames, path)).steps;
            && |steps| > 0 && steps[|steps| - 1] == PhonePrunedDeterminize(cfg.latticeBeam)
            && (Scale(AmScaleMatrix(cfg.postDecodeAcwt)) in steps <==> PostDecodeRescales(cfg))
            && ComposedLms(steps) == []
  {
    var raw := RawLattice(frames, path);
    var rescaled := if PostDecodeRescales(cfg) then ScaleLattice(AmScaleMatrix(cfg.postDecodeAcwt), raw) else raw;
    ComposedLmsAppend([], Scale(AmScaleMatrix(cfg.postDecodeAcwt)));
    ComposedLmsAppend(rescaled.steps, PhonePrunedDeterminize(cfg.latticeBeam));
  }

  /**
   * Before rescoring, a path's graph cost is its decoding-graph cost and its
   * acoustic cost is the acoustic model's times the post-decode weight for
   * NNET3 (skipping the rescaling at weight 1 changes nothing) and times 1
   * for the other families.
   */
  lemma DeterminizedLatticeWeight(cfg: LatticeConfig, frames: nat, path: PathCosts)
    ensures DeterminizedLattice(cfg, RawLattice(frames, path)).weight
         == LatticeWeight(path.graph, EffectiveAcousticScale(cfg) * path.acoustic)
  {
    AmScaleMatrixScales(cfg.postDecodeAcwt, RawLattice(frames, path).weight);
  }

  /**
   * `GetPrunedLattice`: refuse when no frame is decoded or determinization is
   * switched off; otherwise determinize the raw lattice (whose success flag
   * is `rawOk`) and, when configured to, rescore it, only if `ok` still holds.
   */
  function PrunedLattice(cfg: LatticeConfig, framesDecoded: nat, path: PathCosts, rawOk: bool,
                         hasStart: Lattice -> bool): (r: Result<LatticeOutcome, LatticeError>)
    ensures framesDecoded == 0 ==> r == Err(NoFramesDecoded)
    ensures framesDecoded > 0 && !cfg.determinizeLattice ==> r == Err(DeterminizeLatticeDisabled)
    ensures framesDecoded > 0 && cfg.determinizeLattice ==> r.Ok?
    ensures r.Ok? && r.value.ok ==> rawOk && r.value.lattice.Some?
    ensures r.Ok? && cfg.rescore && !rawOk ==> r.value == LatticeOutcome(false, None)
    ensures r.Ok? && r.value.lattice.Some? ==> r.value.lattice.value.frames == framesDecoded
  {
    if framesDecoded == 0 then Err(NoFramesDecoded)
    else if !cfg.determinizeLattice then Err(DeterminizeLatticeDisabled)
    else
      var pruned := DeterminizedLattice(cfg, RawLattice(framesDecoded, path));
      if !cfg.rescore then Ok(LatticeOutcome(rawOk, Some(pruned)))
      else if !rawOk then Ok(LatticeOutcome(false, None))
      else Ok(RescoreLattice(pruned, hasStart))
  }

  /**
   * A path of a lattice `GetPrunedLattice` writes has as graph cost its
   * decoding-graph cost, with the small LM's cost swapped for the big LM's
   * when rescoring is on, and as
   * acoustic cost the acoustic model's times the post-decode weight for
   * NNET3 models and times 1 for the other families.
   */
  lemma PrunedLatticeWeight(cfg: LatticeConfig, framesDecoded: nat, path: PathCosts, rawOk: bool,
                            hasStart: Lattice -> bool)
    requires PrunedLattice(cfg, framesDecoded, path, rawOk, hasStart).Ok?
    requires PrunedLattice(cfg, framesDecoded, path, rawOk, hasStart).value.lattice.Some?
    ensures var lat := PrunedLattice(cfg, framesDecoded, path, rawOk, hasStart).value.lattice.value;
            lat.weight == LatticeWeight(if cfg.rescore then path.graph - path.smallLm + path.bigLm else path.graph,
                                        EffectiveAcousticScale(cfg) * path.acoustic)
  {
    var pruned := DeterminizedLattice(cfg, RawLattice(framesDecoded, path));
    DeterminizedLatticeWeight(cfg, framesDecoded, path);
    if cfg.rescore {
      RescoreLatticeWeight(pruned, hasStart);
    }
  }

  /**
   * Rescoring composes the small LM first and the big LM second, each exactly
   * once, and without rescoring no LM is composed.
   */
  lemma PrunedLatticeOrder(cfg: LatticeConfig, framesDecoded: nat, path: PathCosts, rawOk: bool,
                           hasStart: Lattice -> bool)
    requires PrunedLattice(cfg, framesDecoded, path, rawOk, hasStart).Ok?
    requires PrunedLattice(cfg, framesDecoded, path, rawOk, hasStart).value.lattice.Some?
    ensures var lat := PrunedLattice(cfg, framesDecoded, path, rawOk, hasStart).value.lattice.value;
            ComposedLms(lat.steps) == if cfg.rescore then [SmallLm, BigLm] else []
  {
    var pruned := DeterminizedLattice(cfg, RawLattice(framesDecoded, path));
    DeterminizedLatticeSteps(cfg, framesDecoded, path);
    if cfg.rescore {
      RescoreLatticeLms(pruned, hasStart);
    }
  }

  /**
   * `ok` of `GetPrunedLattice`: the raw lattice's flag without rescoring;
   * with rescoring, that flag and both passes' results.
   */
  lemma PrunedLatticeOk(cfg: LatticeConfig, framesDecoded: nat, path: PathCosts, rawOk: bool,
                        hasStart: Lattice -> bool)
    requires PrunedLattice(cfg, framesDecoded, path, rawOk, hasStart).Ok?
    ensures var r := PrunedLattice(cfg, framesDecoded, path, rawOk, hasStart).value;
            !cfg.rescore ==> r.ok == rawOk && r.lattice.Some?
    ensures var r := PrunedLattice(cfg, framesDecoded, path, rawOk, hasStart).value;
            cfg.rescore ==> (r.ok <==> rawOk && r.lattice.Some? && hasStart(r.lattice.value))
  {
  }
}
