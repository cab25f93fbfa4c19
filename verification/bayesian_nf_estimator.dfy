/**
 * The Bayesian estimator's network assembly: the variational dense layers
 * that produce the parameter vector, the weight posterior and prior
 * factories they use, the negative log-likelihood loss, and the wiring that
 * puts the flow layer last with the dense output sized to fit it.
 *
 * Layers are records of their configuration; weights, training, KL terms
 * and random draws are not part of this model except where a draw is a
 * parameter.
 */
module BayesianNFEstimator {
  import opened Outcomes
  import opened Sequences
  import opened DistributionLayers

  /** `hidden_sizes` as a caller passed it; the builder accepts only a tuple. */
  datatype HiddenSizes = TupleOf(items: seq<nat>) | ListOf(items: seq<nat>)

  /** Which closure makes a variational layer's weight distribution: the posterior, or the prior with its trainability. */
  datatype WeightFactory = Posterior | Prior(trainable: bool)

  datatype Layer =
    | GaussianNoise(stddev: real)
    | DenseVariational(units: nat, posterior: WeightFactory, prior: WeightFactory,
                       klWeight: real, klUseExact: bool, activation: string)
    | FlowDistribution(flow: FlowLayer)

  const Linear: string := "linear"

  // ---------------------------------------------------------------------
  // Weight posterior and prior
  // ---------------------------------------------------------------------

  datatype Initializer = Zeros | Normal

  /** A `VariableLayer`: a trainable (or frozen) vector of the given width. */
  datatype VariableLayer = VariableLayer(width: nat, init: Initializer, trainable: bool)

  /** What a factory returns: a variable vector fed into a mean-field layer. */
  datatype WeightDistribution = WeightDistribution(variable: VariableLayer, dist: MeanFieldLayer)

  /**
   * A call of the `MeanFieldLayer` constructor with keyword arguments, each
   * given by its name and the truthiness of its value. Python refuses a
   * keyword the constructor does not declare; only `uniform_scale` and
   * `dtype` are declared, and `uniform_scale` defaults to false.
   */
  function CallMeanFieldLayer(nDims: nat, kwargs: map<string, bool>): (r: Result<MeanFieldLayer>)
    ensures r.Success? <==> kwargs.Keys <= {"uniform_scale", "dtype"}
    ensures r.Failure? ==> r.error == UnexpectedKeyword
    ensures r.Success? ==> r.value.nDims == nDims
    ensures r.Success? ==> (r.value.uniformScale <==> "uniform_scale" in kwargs && kwargs["uniform_scale"])
  {
    if kwargs.Keys <= {"uniform_scale", "dtype"} then
      Success(MeanFieldLayer(nDims, "uniform_scale" in kwargs && kwargs["uniform_scale"]))
    else
      Failure(UnexpectedKeyword)
  }

  /** The variable each factory creates: `size` zeros for the prior, `2*size` normal draws for the posterior. */
  function FactoryVariable(factory: WeightFactory, size: nat): VariableLayer
  {
    match factory
    case Prior(trainable) => VariableLayer(size, Zeros, trainable)
    case Posterior => VariableLayer(2 * size, Normal, true)
  }

  function BuildWeightDistribution(factory: WeightFactory, size: nat, kwargs: map<string, bool>): Result<WeightDistribution>
  {
    match CallMeanFieldLayer(size, kwargs)
    case Failure(e) => Failure(e)
    case Success(dist) => Success(WeightDistribution(FactoryVariable(factory, size), dist))
  }

  /** The keyword arguments the factories pass: `scale` (truthy for the prior, falsy for the posterior) and `dtype`. */
  function AsWrittenKeywords(factory: WeightFactory): map<string, bool>
  {
    match factory
    case Prior(_) => map["scale" := true, "dtype" := false]
    case Posterior => map["scale" := false, "dtype" := false]
  }

  /** The factories as written. */
  function WeightDistributionAsWritten(factory: WeightFactory, kernelSize: nat, biasSize: nat): Result<WeightDistribution>
  {
    BuildWeightDistribution(factory, kernelSize + biasSize, AsWrittenKeywords(factory))
  }

  /** As written, both factories pass a keyword `scale` that the constructor does not declare, so every call fails. */
  lemma AsWrittenFactoriesRaise(factory: WeightFactory, kernelSize: nat, biasSize: nat)
    ensures WeightDistributionAsWritten(factory, kernelSize, biasSize) == Failure(UnexpectedKeyword)
  {
    assert "scale" !in {"uniform_scale", "dtype"} by {
      assert "scale"[0] != "uniform_scale"[0] && "scale"[0] != "dtype"[0];
    }
    assert "scale" in AsWrittenKeywords(factory);
  }

  /**
   * The factories as intended: the prior's mean-field layer has a uniform
   * scale and the posterior's a learned one. The variable's width is then
   * exactly the parameter count of the mean-field layer it feeds.
   */
  function MakeWeightDistribution(factory: WeightFactory, kernelSize: nat, biasSize: nat): (r: Result<WeightDistribution>)
    ensures r.Success?
    ensures r.value.dist.nDims == kernelSize + biasSize
    ensures r.value.dist.uniformScale <==> factory.Prior?
    ensures r.value.variable.width == MeanFieldParamSize(r.value.dist)
    ensures factory.Prior? ==> r.value.variable.width == kernelSize + biasSize
                               && r.value.variable.trainable == factory.trainable
    ensures factory.Posterior? ==> r.value.variable.width == 2 * (kernelSize + biasSize)
  {
    var kwargs := map["uniform_scale" := factory.Prior?, "dtype" := false];
    assert kwargs.Keys == {"uniform_scale", "dtype"};
    BuildWeightDistribution(factory, kernelSize + biasSize, kwargs)
  }

  // ---------------------------------------------------------------------
  // Dense layers
  // ---------------------------------------------------------------------

  /** The optional leading input-noise layer, present exactly when the stddev is nonzero. */
  function NoiseLayers(xNoiseStd: real): (ls: seq<Layer>)
    ensures |ls| == (if xNoiseStd != 0.0 then 1 else 0)
    ensures forall l :: l in ls ==> l == GaussianNoise(xNoiseStd)
  {
    if xNoiseStd != 0.0 then [GaussianNoise(xNoiseStd)] else []
  }

  /**
   * `_get_dense_layers`: after its three checks, an optional noise layer, one
   * variational layer per hidden size with the given activation, and a
   * linear variational output layer of `outputSize` units, all sharing the
   * same posterior, prior and KL settings.
   */
  function DenseLayers(hiddenSizes: HiddenSizes, outputSize: nat, posterior: WeightFactory, prior: WeightFactory,
                       klWeightScale: real, klUseExact: bool, xNoiseStd: real, activation: string): (r: Result<seq<Layer>>)
    ensures !hiddenSizes.TupleOf? ==> r == Failure(HiddenSizesNotTuple)
    ensures hiddenSizes.TupleOf? && klWeightScale > 1.0 ==> r == Failure(KlWeightTooLarge)
    ensures hiddenSizes.TupleOf? && klWeightScale <= 1.0 && xNoiseStd < 0.0 ==> r == Failure(NegativeNoiseStd)
    ensures r.Success? <==> hiddenSizes.TupleOf? && klWeightScale <= 1.0 && xNoiseStd >= 0.0
    ensures r.Success? ==>
      var k := if xNoiseStd != 0.0 then 1 else 0;
      var h := hiddenSizes.items;
      |r.value| == k + |h| + 1 &&
      (r.value[0].GaussianNoise? <==> xNoiseStd != 0.0) &&
      (k == 1 ==> r.value[0] == GaussianNoise(xNoiseStd)) &&
      (forall i :: 0 <= i < |h| ==>
         r.value[k + i] == DenseVariational(h[i], posterior, prior, klWeightScale, klUseExact, activation)) &&
      r.value[|r.value| - 1] == DenseVariational(outputSize, posterior, prior, klWeightScale, klUseExact, Linear)
    ensures r.Success? ==> forall i :: 0 <= i < |r.value| ==>
      !r.value[i].FlowDistribution? &&
      (r.value[i].DenseVariational? ==>
         r.value[i].posterior == posterior && r.value[i].prior == prior &&
         r.value[i].klWeight == klWeightScale && r.value[i].klUseExact == klUseExact)
  {
    if !hiddenSizes.TupleOf? then Failure(HiddenSizesNotTuple)
    else if klWeightScale > 1.0 then Failure(KlWeightTooLarge)
    else if xNoiseStd < 0.0 then Failure(NegativeNoiseStd)
    else
      var h := hiddenSizes.items;
      var hidden := seq(|h|, i requires 0 <= i < |h| =>
        DenseVariational(h[i], posterior, prior, klWeightScale, klUseExact, activation));
      var output := [DenseVariational(outputSize, posterior, prior, klWeightScale, klUseExact, Linear)];
      Success(NoiseLayers(xNoiseStd) + hidden + output)
  }

  /** Hidden sizes `(2, 2, 2)` give four layers, and five with a nonzero input noise. */
  lemma DenseLayerCounts(posterior: WeightFactory, prior: WeightFactory)
    ensures var r := DenseLayers(TupleOf([2, 2, 2]), 2, posterior, prior, 1.0, false, 0.0, "relu");
            r.Success? && |r.value| == 4
    ensures var r := DenseLayers(TupleOf([2, 2, 2]), 2, posterior, prior, 1.0, false, 1.0, "relu");
            r.Success? && |r.value| == 5 && r.value[0] == GaussianNoise(1.0)
  {
  }

  // ---------------------------------------------------------------------
  // Loss
  // ---------------------------------------------------------------------

  /** The loss `_get_neg_log_likelihood` returns: plain, or with the target perturbed by a noise layer. */
  datatype Loss = NegLogProb | NoisyNegLogProb(stddev: real)

  function NegLogLikelihood(yNoiseStd: real): (l: Loss)
    ensures l.NoisyNegLogProb? <==> yNoiseStd != 0.0
    ensures l.NoisyNegLogProb? ==> l.stddev == yNoiseStd
  {
    if yNoiseStd != 0.0 then NoisyNegLogProb(yNoiseStd) else NegLogProb
  }

  /**
   * A Gaussian noise layer applied to `x`: during training it adds
   * `stddev * draw`, `draw` standing for the standard-normal sample the
   * framework takes; otherwise it passes `x` through.
   */
  function ApplyGaussianNoise(stddev: real, x: seq<real>, training: bool, draw: seq<real>): (y: seq<real>)
    requires |draw| == |x|
    ensures |y| == |x|
    ensures !training || stddev == 0.0 ==> y == x
    ensures forall i :: 0 <= i < |x| ==> y[i] == (if training then x[i] + stddev * draw[i] else x[i])
  {
    if training then seq(|x|, i requires 0 <= i < |x| => x[i] + stddev * draw[i]) else x
  }

  /**
   * The loss of target `y` under a predicted distribution with log-density
   * `logProb`: outside training, and always for the plain loss, it is the
   * negative log-density of `y` itself; during training the noisy loss is
   * the negative log-density of the perturbed target.
   */
  function LossValue(loss: Loss, logProb: seq<real> -> real, y: seq<real>, training: bool, draw: seq<real>): (r: real)
    requires |draw| == |y|
    ensures !training ==> r == -logProb(y)
    ensures loss.NegLogProb? ==> r == -logProb(y)
    ensures training && loss.NoisyNegLogProb? ==>
      r == -logProb(seq(|y|, i requires 0 <= i < |y| => y[i] + loss.stddev * draw[i]))
  {
    match loss
    case NegLogProb => -logProb(y)
    case NoisyNegLogProb(stddev) => -logProb(ApplyGaussianNoise(stddev, y, training, draw))
  }

  // ---------------------------------------------------------------------
  // Estimator
  // ---------------------------------------------------------------------

  /** The constructor's arguments. */
  datatype Config = Config(
    nDims: nat,
    klWeightScale: real,
    klUseExact: bool,
    flowTypes: seq<FlowName>,
    hiddenSizes: HiddenSizes,
    trainableBase: bool,
    activation: string,
    xNoiseStd: real,
    yNoiseStd: real,
    learningRate: real,
    trainablePrior: bool)

  /** The constructor's default arguments for a given output dimension. */
  function DefaultConfig(nDims: nat): Config
  {
    Config(nDims, 1.0, false, ["radial", "radial"], TupleOf([10]), true, "tanh", 0.0, 0.0, 0.02, false)
  }

  /**
   * With every argument at its default and `"radial"` registered,
   * construction succeeds: one hidden layer of 10 `tanh` units, the linear
   * output sized for two radial flows on a trainable base, and the flow
   * layer; no noise layer, and the plain loss.
   */
  lemma DefaultsConstruct(reg: Registry, nDims: nat)
    requires "radial" in reg
    ensures var r := NewEstimator(reg, DefaultConfig(nDims));
            var flow := FlowLayer(["radial", "radial"], nDims, true);
            r.Success? && |r.value.layers| == 3 && r.value.loss == NegLogProb &&
            r.value.layers[0] == DenseVariational(10, Posterior, Prior(false), 1.0, false, "tanh") &&
            r.value.layers[1] == DenseVariational(2 * reg["radial"](nDims) + 2 * nDims, Posterior, Prior(false), 1.0, false, Linear) &&
            r.value.layers[2] == FlowDistribution(flow)
  {
    var flow := FlowLayer(["radial", "radial"], nDims, true);
    var sizes := ParamSizes(reg, ["radial", "radial"], nDims);
    var a := reg["radial"](nDims);
    assert sizes == [a, a];
    assert Sum(sizes[..1]) == a by {
      assert sizes[..1] == [a] && sizes[..1][..0] == [];
    }
    assert Sum(sizes) == 2 * a;
    assert TotalParamSize(reg, flow) == 2 * reg["radial"](nDims) + 2 * nDims;
  }

  /** An assembled estimator: its layer sequence, its loss and its optimiser's learning rate. */
  datatype Estimator = Estimator(layers: seq<Layer>, loss: Loss, learningRate: real)

  predicate ValidHyperParameters(c: Config)
  {
    c.hiddenSizes.TupleOf? && c.klWeightScale <= 1.0 && c.xNoiseStd >= 0.0
  }

  /**
   * The constructor: build the flow layer (which checks the flow names), size
   * the dense output by the flow layer's total parameter count, and put the
   * flow layer after the dense layers.
   */
  function NewEstimator(reg: Registry, c: Config): (r: Result<Estimator>)
    ensures !AllRegistered(reg, c.flowTypes) ==> r == Failure(UnknownFlow)
    ensures r.Success? <==> AllRegistered(reg, c.flowTypes) && ValidHyperParameters(c)
    ensures r.Success? ==>
      var ls := r.value.layers;
      |ls| == |NoiseLayers(c.xNoiseStd)| + |c.hiddenSizes.items| + 2 &&
      ls[|ls| - 1] == FlowDistribution(FlowLayer(c.flowTypes, c.nDims, c.trainableBase)) &&
      (forall i :: 0 <= i < |ls| - 1 ==> !ls[i].FlowDistribution?) &&
      (forall i :: 0 <= i < |ls| && ls[i].DenseVariational? ==>
         ls[i].posterior == Posterior && ls[i].prior == Prior(c.trainablePrior) &&
         ls[i].klWeight == c.klWeightScale && ls[i].klUseExact == c.klUseExact)
    ensures r.Success? ==>
      (r.value.layers ==
         DenseLayers(c.hiddenSizes, TotalParamSize(reg, FlowLayer(c.flowTypes, c.nDims, c.trainableBase)),
                     Posterior, Prior(c.trainablePrior), c.klWeightScale, c.klUseExact, c.xNoiseStd,
                     c.activation).value
         + [FlowDistribution(FlowLayer(c.flowTypes, c.nDims, c.trainableBase))])
    ensures r.Success? ==> r.value.loss == NegLogLikelihood(c.yNoiseStd) && r.value.learningRate == c.learningRate
  {
    match NewFlowLayer(reg, c.flowTypes, c.nDims, c.trainableBase)
    case Failure(e) => Failure(e)
    case Success(distLayer) =>
      match DenseLayers(c.hiddenSizes, TotalParamSize(reg, distLayer), Posterior, Prior(c.trainablePrior),
                        c.klWeightScale, c.klUseExact, c.xNoiseStd, c.activation)
      case Failure(e) => Failure(e)
      case Success(dense) =>
        Success(Estimator(dense + [FlowDistribution(distLayer)], NegLogLikelihood(c.yNoiseStd), c.learningRate))
  }

  /**
   * End to end: the layer before the flow layer is the linear variational
   * output layer, its width is the flow layer's total parameter count, and
   * every parameter vector of that width passes the flow layer's size
   * assertion and is read whole and once by the base and the flows.
   */
  lemma OutputWidthMatchesFlowLayer(reg: Registry, c: Config)
    requires NewEstimator(reg, c).Success?
    ensures var ls := NewEstimator(reg, c).value.layers;
            var flow := FlowLayer(c.flowTypes, c.nDims, c.trainableBase);
            ls[|ls| - 2].DenseVariational? && ls[|ls| - 2].activation == Linear &&
            ls[|ls| - 2].units == TotalParamSize(reg, flow) &&
            forall t: seq<real> :: |t| == ls[|ls| - 2].units ==>
              MakeFlowDistribution(reg, flow, t).Success? &&
              BaseParams(MakeFlowDistribution(reg, flow, t).value.base)
                + Flatten(ChainParams(MakeFlowDistribution(reg, flow, t).value.chain)) == t
  {
    var flow := FlowLayer(c.flowTypes, c.nDims, c.trainableBase);
    var dense := DenseLayers(c.hiddenSizes, TotalParamSize(reg, flow), Posterior, Prior(c.trainablePrior),
                             c.klWeightScale, c.klUseExact, c.xNoiseStd, c.activation).value;
    var ls := NewEstimator(reg, c).value.layers;
    assert ls == dense + [FlowDistribution(flow)];
    assert ls[|ls| - 2] == dense[|dense| - 1];
    forall t: seq<real> | |t| == TotalParamSize(reg, flow)
      ensures MakeFlowDistribution(reg, flow, t).Success? &&
              BaseParams(MakeFlowDistribution(reg, flow, t).value.base)
                + Flatten(ChainParams(MakeFlowDistribution(reg, flow, t).value.chain)) == t
    {
      FlowDistributionConsumesParams(reg, flow, t);
    }
  }

  /**
   * Every variational layer of an estimator draws its weights from
   * distributions whose variable widths match their mean-field layers:
   * `2*size` for the posterior, `size` for the prior.
   */
  lemma EstimatorWeightsConsistent(reg: Registry, c: Config, i: nat, kernelSize: nat, biasSize: nat)
    requires NewEstimator(reg, c).Success?
    requires i < |NewEstimator(reg, c).value.layers|
    requires NewEstimator(reg, c).value.layers[i].DenseVariational?
    ensures var l := NewEstimator(reg, c).value.layers[i];
            var post := MakeWeightDistribution(l.posterior, kernelSize, biasSize).value;
            var prior := MakeWeightDistribution(l.prior, kernelSize, biasSize).value;
            post.variable.width == 2 * (kernelSize + biasSize) && !post.dist.uniformScale &&
            prior.variable.width == kernelSize + biasSize && prior.dist.uniformScale &&
            prior.variable.trainable == c.trainablePrior
  {
  }
}
