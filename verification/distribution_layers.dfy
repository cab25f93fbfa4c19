/**
 * The two distribution layers that turn the network's flat parameter vector
 * into a distribution: the mean-field Gaussian layer and the inverse
 * normalizing-flow layer with its parameter splitter.
 *
 * A parameter tensor is modelled by its last axis for one example, a
 * `seq<real>`; slicing `t[..., a:b]` acts on that axis only and clamps its
 * bounds as Python does. The distributions and bijectors themselves are
 * records of the slices they were built from: their density mathematics is
 * not part of this model.
 */
module DistributionLayers {
  import opened Outcomes
  import opened Sequences

  type FlowName = string

  /**
   * The flow registry: for each registered flow name, its parameter count as
   * a function of the dimension (`get_param_size`).
   */
  type Registry = map<FlowName, nat -> nat>

  /** A flow bijector as the registry's factory builds it, recording the slice it was given. */
  datatype Bijector = Flow(name: FlowName, params: seq<real>, dims: nat)

  predicate AllRegistered(reg: Registry, flows: seq<FlowName>)
  {
    forall i :: 0 <= i < |flows| ==> flows[i] in reg
  }

  /** Each listed flow's parameter count at the given dimension, in list order. */
  function ParamSizes(reg: Registry, flows: seq<FlowName>, dims: nat): (sizes: seq<nat>)
    requires AllRegistered(reg, flows)
    ensures |sizes| == |flows|
  {
    seq(|flows|, i requires 0 <= i < |flows| => reg[flows[i]](dims))
  }

  /** The parameter slices of a chain, in chain order. */
  function ChainParams(chain: seq<Bijector>): (ps: seq<seq<real>>)
    ensures |ps| == |chain|
  {
    seq(|chain|, i requires 0 <= i < |chain| => chain[i].params)
  }

  // ---------------------------------------------------------------------
  // MeanFieldLayer
  // ---------------------------------------------------------------------

  datatype MeanFieldLayer = MeanFieldLayer(nDims: nat, uniformScale: bool)

  /** The per-dimension scale: fixed at 1.0, or derived from a raw slice of the parameters. */
  datatype Scale = UnitScale | LearnedScale(raw: seq<real>)

  /** `n_dims` independent normals: their locations and their scale. */
  datatype MeanField = MeanField(loc: seq<real>, scale: Scale)

  /** `get_total_param_size`: one location per dimension, plus one raw scale per dimension unless uniform. */
  function MeanFieldParamSize(layer: MeanFieldLayer): (n: nat)
    ensures layer.nDims <= n <= 2 * layer.nDims
    ensures n == layer.nDims <==> layer.uniformScale || layer.nDims == 0
  {
    if layer.uniformScale then layer.nDims else 2 * layer.nDims
  }

  /** The distribution `_get_distribution_fn` builds from the parameter vector `t`. */
  function MeanFieldDistribution(layer: MeanFieldLayer, t: seq<real>): (d: MeanField)
    ensures layer.nDims <= |t| ==> d.loc == t[..layer.nDims]
    ensures d.scale.UnitScale? <==> layer.uniformScale
    ensures !layer.uniformScale && 2 * layer.nDims <= |t| ==>
      d.scale == LearnedScale(t[layer.nDims..2 * layer.nDims])
  {
    var n := layer.nDims;
    MeanField(PySlice(t, 0, n), if layer.uniformScale then UnitScale else LearnedScale(PySlice(t, n, 2 * n)))
  }

  /** The parameter entries a scale was read from. */
  function ScaleParams(s: Scale): seq<real>
  {
    match s
    case UnitScale => []
    case LearnedScale(raw) => raw
  }

  /**
   * A vector of exactly the layer's parameter size is read whole and once:
   * the locations are its first `n_dims` entries and the raw scales, when
   * the scale is learned, are the rest.
   */
  lemma MeanFieldConsumesParams(layer: MeanFieldLayer, t: seq<real>)
    requires |t| == MeanFieldParamSize(layer)
    ensures MeanFieldDistribution(layer, t).loc == t[..layer.nDims]
    ensures MeanFieldDistribution(layer, t).loc + ScaleParams(MeanFieldDistribution(layer, t).scale) == t
  {
    var d := MeanFieldDistribution(layer, t);
    if !layer.uniformScale {
      assert d.scale == LearnedScale(t[layer.nDims..]);
    }
    assert t[..layer.nDims] + t[layer.nDims..] == t;
  }

  /**
   * The distribution depends on nothing beyond the first `MeanFieldParamSize`
   * entries; with a uniform scale, that means the scale slice is ignored.
   */
  lemma MeanFieldReadsOnlyItsParams(layer: MeanFieldLayer, t: seq<real>, t': seq<real>)
    requires MeanFieldParamSize(layer) <= |t| && MeanFieldParamSize(layer) <= |t'|
    requires t[..MeanFieldParamSize(layer)] == t'[..MeanFieldParamSize(layer)]
    ensures MeanFieldDistribution(layer, t) == MeanFieldDistribution(layer, t')
  {
    var n, k := layer.nDims, MeanFieldParamSize(layer);
    assert t[..n] == t[..k][..n] && t'[..n] == t'[..k][..n];
    if !layer.uniformScale {
      assert t[n..2 * n] == t[..k][n..] && t'[n..2 * n] == t'[..k][n..];
    }
  }

  // ---------------------------------------------------------------------
  // InverseNormalizingFlowLayer
  // ---------------------------------------------------------------------

  datatype FlowLayer = FlowLayer(flowTypes: seq<FlowName>, nDims: nat, trainableBase: bool)

  /** The constructor: refuses any flow name that the registry does not hold. */
  function NewFlowLayer(reg: Registry, flowTypes: seq<FlowName>, nDims: nat, trainableBase: bool): (r: Result<FlowLayer>)
    ensures r.Success? <==> forall i :: 0 <= i < |flowTypes| ==> flowTypes[i] in reg
    ensures r.Failure? ==> r.error == UnknownFlow
    ensures r.Success? ==> r.value.flowTypes == flowTypes && r.value.nDims == nDims
                           && r.value.trainableBase == trainableBase
  {
    if AllRegistered(reg, flowTypes) then Success(FlowLayer(flowTypes, nDims, trainableBase))
    else Failure(UnknownFlow)
  }

  /** Parameters taken by the base distribution: a location and a raw scale per dimension when trainable. */
  function BaseParamSize(layer: FlowLayer): nat
  {
    if layer.trainableBase then 2 * layer.nDims else 0
  }

  /** `get_total_param_size`: the flows' parameter counts in listed order, plus the base's. */
  function TotalParamSize(reg: Registry, layer: FlowLayer): (n: nat)
    requires AllRegistered(reg, layer.flowTypes)
    ensures AllRegistered(reg, Reverse(layer.flowTypes))
    ensures n == Sum(ParamSizes(reg, Reverse(layer.flowTypes), layer.nDims)) + BaseParamSize(layer)
  {
    ReversedSizes(reg, layer.flowTypes, layer.nDims);
    Sum(ParamSizes(reg, layer.flowTypes, layer.nDims)) + BaseParamSize(layer)
  }

  /**
   * The base distribution: a diagonal normal whose location and raw scale are
   * read from the parameters when trainable; otherwise a standard normal
   * whose only use of the parameters is a zero location shaped like
   * `t[0:1]`.
   */
  datatype BaseDist = TrainableNormal(loc: seq<real>, rawScale: seq<real>) | StandardNormal(loc: seq<real>)

  /** The parameter entries a base distribution was read from. */
  function BaseParams(b: BaseDist): seq<real>
  {
    match b
    case TrainableNormal(loc, rawScale) => loc + rawScale
    case StandardNormal(_) => []
  }

  /**
   * `_get_base_dist`. Without a trainable base the location is
   * a zero vector shaped like the slice `t[0:1]`, one entry wide whatever `n_dims` is (and empty
   * for an empty vector); it is modelled as written.
   */
  function BaseDistribution(t: seq<real>, nDims: nat, trainable: bool): (b: BaseDist)
    ensures b.TrainableNormal? <==> trainable
    ensures trainable && 2 * nDims <= |t| ==> b == TrainableNormal(t[..nDims], t[nDims..2 * nDims])
    ensures !trainable ==> |b.loc| == (if t == [] then 0 else 1)
    ensures !trainable ==> forall i :: 0 <= i < |b.loc| ==> b.loc[i] == 0.0
  {
    if trainable then TrainableNormal(PySlice(t, 0, nDims), PySlice(t, nDims, 2 * nDims))
    else StandardNormal(seq(|PySlice(t, 0, 1)|, _ => 0.0))
  }

  /** The part of the vector handed to `_get_bijector`: `t[..., 2*n_dims:]` with a trainable base, else all of `t`. */
  function FlowParamSlice(t: seq<real>, nDims: nat, trainable: bool): (f: seq<real>)
    ensures trainable && 2 * nDims <= |t| ==> f == t[2 * nDims..]
    ensures !trainable ==> f == t
  {
    if trainable then PySlice(t, 2 * nDims, |t|) else t
  }

  lemma ReversedSizes(reg: Registry, flows: seq<FlowName>, dims: nat)
    ensures AllRegistered(reg, Reverse(flows)) <==> AllRegistered(reg, flows)
    ensures AllRegistered(reg, flows) ==>
      ParamSizes(reg, Reverse(flows), dims) == Reverse(ParamSizes(reg, flows, dims))
    ensures AllRegistered(reg, flows) ==>
      Sum(ParamSizes(reg, Reverse(flows), dims)) == Sum(ParamSizes(reg, flows, dims))
  {
    var r := Reverse(flows);
    if AllRegistered(reg, r) {
      forall i | 0 <= i < |flows| ensures flows[i] in reg {
        assert flows[i] == r[|flows| - 1 - i];
      }
    }
    if AllRegistered(reg, flows) {
      SumReverse(ParamSizes(reg, flows, dims));
    }
  }

  /**
   * The chain `_get_bijector` builds once the sizes are known: flow `i` of
   * `order` gets the slice `t[begin_i : begin_i + size_i]`, the begins being the
   * exclusive prefix sums of the sizes.
   */
  function CutChain(t: seq<real>, order: seq<FlowName>, sizes: seq<nat>, dims: nat): (chain: seq<Bijector>)
    requires |sizes| == |order|
    ensures |chain| == |order|
    ensures forall i :: 0 <= i < |order| ==> chain[i].name == order[i] && chain[i].dims == dims
  {
    var begins := ExclusivePrefixSums(sizes);
    seq(|order|, i requires 0 <= i < |order| => Flow(order[i], PySlice(t, begins[i], begins[i] + sizes[i]), dims))
  }

  /**
   * `_get_bijector`: reverse the flow list, look up each flow's size, insist
   * that the sizes add up to the width of `t`, then cut one contiguous slice
   * per flow and build the flows in reversed order. Looking up a name that
   * is not registered fails before the sizes are compared.
   */
  function GetBijector(reg: Registry, t: seq<real>, flowTypes: seq<FlowName>, dims: nat): (r: Result<seq<Bijector>>)
    ensures !AllRegistered(reg, flowTypes) ==> r == Failure(UnknownFlow)
    ensures AllRegistered(reg, flowTypes) ==>
      (r.Success? <==> Sum(ParamSizes(reg, flowTypes, dims)) == |t|)
    ensures AllRegistered(reg, flowTypes) && r.Failure? ==>
      r.error == ParamSizeMismatch(Sum(ParamSizes(reg, flowTypes, dims)), |t|)
    ensures r.Success? ==> |r.value| == |flowTypes|
    ensures r.Success? ==> forall i :: 0 <= i < |flowTypes| ==>
      r.value[i].name == flowTypes[|flowTypes| - 1 - i] && r.value[i].dims == dims
  {
    var order := Reverse(flowTypes);
    ReversedSizes(reg, flowTypes, dims);
    if !AllRegistered(reg, order) then Failure(UnknownFlow)
    else
      var sizes := ParamSizes(reg, order, dims);
      if Sum(sizes) != |t| then Failure(ParamSizeMismatch(Sum(sizes), |t|))
      else Success(CutChain(t, order, sizes, dims))
  }

  /** On success, the chain is the one cut from `t` with the reversed list's sizes. */
  lemma GetBijectorCuts(reg: Registry, t: seq<real>, flowTypes: seq<FlowName>, dims: nat)
    requires GetBijector(reg, t, flowTypes, dims).Success?
    ensures AllRegistered(reg, Reverse(flowTypes))
    ensures Sum(ParamSizes(reg, Reverse(flowTypes), dims)) == |t|
    ensures GetBijector(reg, t, flowTypes, dims).value
            == CutChain(t, Reverse(flowTypes), ParamSizes(reg, Reverse(flowTypes), dims), dims)
  {
    ReversedSizes(reg, flowTypes, dims);
  }

  /** Element `i` of the cut chain holds `t[begin_i .. begin_i + size_i]` whenever that is in range. */
  lemma CutChainSliceAt(t: seq<real>, order: seq<FlowName>, sizes: seq<nat>, dims: nat, i: nat)
    requires |sizes| == |order| && i < |order|
    requires ExclusivePrefixSums(sizes)[i] + sizes[i] <= |t|
    ensures CutChain(t, order, sizes, dims)[i].params
            == t[ExclusivePrefixSums(sizes)[i]..ExclusivePrefixSums(sizes)[i] + sizes[i]]
  {
    var begins := ExclusivePrefixSums(sizes);
    assert begins[i] == Sum(sizes[..i]);
  }

  /**
   * Chain element `i` holds exactly the slice `[begin_i, begin_i + size_i)` of
   * `t`, where the sizes are those of the reversed flow list and the begins
   * their exclusive prefix sums; its width is its flow's parameter count.
   */
  lemma ChainSlices(reg: Registry, t: seq<real>, flowTypes: seq<FlowName>, dims: nat)
    requires GetBijector(reg, t, flowTypes, dims).Success?
    ensures AllRegistered(reg, Reverse(flowTypes))
    ensures var sizes := ParamSizes(reg, Reverse(flowTypes), dims);
            var begins := ExclusivePrefixSums(sizes);
            var chain := GetBijector(reg, t, flowTypes, dims).value;
            forall i :: 0 <= i < |chain| ==>
              begins[i] + sizes[i] <= |t| &&
              chain[i].params == t[begins[i]..begins[i] + sizes[i]] &&
              |chain[i].params| == reg[chain[i].name](dims)
  {
    GetBijectorCuts(reg, t, flowTypes, dims);
    var sizes := ParamSizes(reg, Reverse(flowTypes), dims);
    forall i | 0 <= i < |flowTypes|
      ensures ExclusivePrefixSums(sizes)[i] + sizes[i] <= |t|
      ensures CutChain(t, Reverse(flowTypes), sizes, dims)[i].params
              == t[ExclusivePrefixSums(sizes)[i]..ExclusivePrefixSums(sizes)[i] + sizes[i]]
    {
      PrefixSumEnd(sizes, i);
      CutChainSliceAt(t, Reverse(flowTypes), sizes, dims, i);
    }
  }

  lemma {:induction false} CutChainPrefixConsumes(t: seq<real>, order: seq<FlowName>, sizes: seq<nat>, dims: nat, k: nat)
    requires |sizes| == |order| && Sum(sizes) == |t|
    requires k <= |order|
    ensures Sum(sizes[..k]) <= |t|
    ensures Flatten(ChainParams(CutChain(t, order, sizes, dims))[..k]) == t[..Sum(sizes[..k])]
  {
    var ps := ChainParams(CutChain(t, order, sizes, dims));
    if k == 0 {
      assert ps[..0] == [] && sizes[..0] == [];
    } else {
      var b := Sum(sizes[..k - 1]);
      var e := b + sizes[k - 1];
      assert e == Sum(sizes[..k]) && e <= |t| by {
        PrefixSumEnd(sizes, k - 1);
      }
      assert ps[k - 1] == t[b..e] by {
        CutChainSliceAt(t, order, sizes, dims, k - 1);
      }
      CutChainPrefixConsumes(t, order, sizes, dims, k - 1);
      assert Flatten(ps[..k]) == Flatten(ps[..k - 1]) + ps[k - 1] by {
        assert ps[..k][..k - 1] == ps[..k - 1];
      }
      assert t[..b] + t[b..e] == t[..e];
    }
  }

  /** The chain's slices, concatenated in chain order, are exactly the vector it was given. */
  lemma ChainConsumesSlice(reg: Registry, t: seq<real>, flowTypes: seq<FlowName>, dims: nat)
    requires GetBijector(reg, t, flowTypes, dims).Success?
    ensures Flatten(ChainParams(GetBijector(reg, t, flowTypes, dims).value)) == t
  {
    GetBijectorCuts(reg, t, flowTypes, dims);
    var sizes := ParamSizes(reg, Reverse(flowTypes), dims);
    var ps := ChainParams(GetBijector(reg, t, flowTypes, dims).value);
    CutChainPrefixConsumes(t, Reverse(flowTypes), sizes, dims, |flowTypes|);
    assert ps[..|flowTypes|] == ps;
    assert sizes[..|flowTypes|] == sizes;
  }

  /** A transformed distribution: the base pushed through the chain. */
  datatype TransformedDist = TransformedDist(base: BaseDist, chain: seq<Bijector>)

  /** `make_flow_dist`: the base from the leading slice, the chain from the rest. */
  function MakeFlowDistribution(reg: Registry, layer: FlowLayer, t: seq<real>): (r: Result<TransformedDist>)
    ensures r.Success? ==> r.value.base == BaseDistribution(t, layer.nDims, layer.trainableBase)
    ensures r.Success? <==> GetBijector(reg, FlowParamSlice(t, layer.nDims, layer.trainableBase), layer.flowTypes, layer.nDims).Success?
    ensures r.Success? ==>
      r.value.chain == GetBijector(reg, FlowParamSlice(t, layer.nDims, layer.trainableBase), layer.flowTypes, layer.nDims).value
  {
    var base := BaseDistribution(t, layer.nDims, layer.trainableBase);
    match GetBijector(reg, FlowParamSlice(t, layer.nDims, layer.trainableBase), layer.flowTypes, layer.nDims)
    case Failure(e) => Failure(e)
    case Success(chain) => Success(TransformedDist(base, chain))
  }

  /** The base's slice followed by the flows' slice is the whole vector. */
  lemma BaseThenFlows(t: seq<real>, nDims: nat, trainable: bool)
    requires trainable ==> 2 * nDims <= |t|
    ensures BaseParams(BaseDistribution(t, nDims, trainable)) + FlowParamSlice(t, nDims, trainable) == t
  {
    if trainable {
      assert t[..nDims] + t[nDims..2 * nDims] + t[2 * nDims..] == t;
    }
  }

  /** The flows' part of a vector of exactly `TotalParamSize` passes the size assertion and is consumed whole. */
  lemma FlowPartConsumed(reg: Registry, layer: FlowLayer, t: seq<real>)
    requires AllRegistered(reg, layer.flowTypes)
    requires |t| == TotalParamSize(reg, layer)
    ensures MakeFlowDistribution(reg, layer, t).Success?
    ensures Flatten(ChainParams(MakeFlowDistribution(reg, layer, t).value.chain))
            == FlowParamSlice(t, layer.nDims, layer.trainableBase)
  {
    var f := FlowParamSlice(t, layer.nDims, layer.trainableBase);
    assert |f| == Sum(ParamSizes(reg, layer.flowTypes, layer.nDims));
    ChainConsumesSlice(reg, f, layer.flowTypes, layer.nDims);
  }

  /**
   * A vector of exactly `TotalParamSize` passes the size assertion, and is
   * read whole and once: with a trainable base, the location is `t[0:n]`, the
   * raw scale `t[n:2n]` and the flows share `t[2n:]`; otherwise the flows
   * share all of `t` and the base reads no parameters.
   */
  lemma FlowDistributionConsumesParams(reg: Registry, layer: FlowLayer, t: seq<real>)
    requires AllRegistered(reg, layer.flowTypes)
    requires |t| == TotalParamSize(reg, layer)
    ensures MakeFlowDistribution(reg, layer, t).Success?
    ensures var d := MakeFlowDistribution(reg, layer, t).value;
            layer.trainableBase ==> d.base == TrainableNormal(t[..layer.nDims], t[layer.nDims..2 * layer.nDims])
    ensures var d := MakeFlowDistribution(reg, layer, t).value;
            !layer.trainableBase ==> BaseParams(d.base) == [] && Flatten(ChainParams(d.chain)) == t
    ensures var d := MakeFlowDistribution(reg, layer, t).value;
            BaseParams(d.base) + Flatten(ChainParams(d.chain)) == t
  {
    FlowPartConsumed(reg, layer, t);
    BaseThenFlows(t, layer.nDims, layer.trainableBase);
  }

  /**
   * As long as the vector is wide enough for the base, the size assertion
   * accepts it exactly when its width is `TotalParamSize`.
   */
  lemma SizeMismatchRejected(reg: Registry, layer: FlowLayer, t: seq<real>)
    requires AllRegistered(reg, layer.flowTypes)
    requires BaseParamSize(layer) <= |t|
    ensures MakeFlowDistribution(reg, layer, t).Success? <==> |t| == TotalParamSize(reg, layer)
    ensures MakeFlowDistribution(reg, layer, t).Failure? ==>
      MakeFlowDistribution(reg, layer, t).error.ParamSizeMismatch?
  {
  }

  /**
   * The size assertion looks only at the flows' part: with a trainable base
   * and no flows, a vector too short for the base still passes it.
   */
  lemma ShortVectorPassesSizeCheck()
    ensures var layer := FlowLayer([], 1, true);
            TotalParamSize(map[], layer) == 2 && MakeFlowDistribution(map[], layer, []).Success?
  {
    var layer := FlowLayer([], 1, true);
    assert ParamSizes(map[], [], 1) == [];
  }

  /**
   * A vector too short for the base is accepted exactly when the flows take
   * no parameters at all; with `SizeMismatchRejected` this is the size
   * assertion's exact acceptance condition for every vector.
   */
  lemma ShortVectorAcceptance(reg: Registry, layer: FlowLayer, t: seq<real>)
    requires AllRegistered(reg, layer.flowTypes)
    requires |t| < BaseParamSize(layer)
    ensures MakeFlowDistribution(reg, layer, t).Success? <==> Sum(ParamSizes(reg, layer.flowTypes, layer.nDims)) == 0
  {
    assert FlowParamSlice(t, layer.nDims, layer.trainableBase) == [];
  }
}
