# Parameter bookkeeping of a normalizing-flow density estimator

This project models the integer bookkeeping at the heart of a conditional
density estimator. The estimator uses a normalizing flow on top of a
Bayesian (variational) neural network. The network outputs one flat
parameter vector per example. Two distribution layers cut that vector into
pieces:

- the **inverse normalizing-flow layer** (`InverseNormalizingFlowLayer`): an
  optional trainable base normal takes the first `2*n_dims` entries, and the
  rest is split, at exclusive prefix sums of the flows' parameter counts,
  into one contiguous slice per flow, in reversed flow order;
- the **mean-field layer** (`MeanFieldLayer`): `n_dims` locations, plus
  `n_dims` raw scales unless the scale is uniform.

The **Bayesian estimator** (`BayesianNFEstimator`) assembles its network as
follows:

- an optional input-noise layer;
- one variational dense layer per hidden size;
- a linear variational output layer whose width is the flow layer's total
  parameter count;
- the flow layer itself.

Every variational layer draws its weights from a posterior factory and a
prior factory, each built on a mean-field layer.

The model is written in four modules:

- `Outcomes` holds the errors and a result type. The errors are the
  constructor's and the builder's assertions, the failed registry lookup and
  a rejected keyword argument.
- `Sequences` holds the list operations: `sum`, `reversed`, clamped Python
  slicing and exclusive prefix sums. Its lemmas say that the prefix-sum
  pieces are contiguous and disjoint, appear in increasing order and cover
  the total.
- `DistributionLayers` holds both distribution layers and the splitter
  (`_get_bijector`).
- `BayesianNFEstimator` holds the dense-layer builder, the weight factories,
  the loss and the constructor's wiring.

How the source is represented:

- A parameter tensor is represented by its last axis for one example, a
  `seq<real>`. Slicing `t[..., a:b]` clamps its bounds as Python does.
- The flow registry `FLOWS` is a `map` from flow name to parameter count as
  a function of the dimension.
- A flow's factory is a record `Flow(name, params, dims)` of the slice it
  was given.
- Distributions are records of the slices they read.

Two behaviours of the code are worth knowing, and the model keeps both as
written:

- The size assertion (DistributionLayers.py:107) compares only the flows'
  part of the vector with the summed flow sizes; the base's part is never
  checked. With a trainable base and no flows, a vector too short for the
  base passes (`DistributionLayers.ShortVectorPassesSizeCheck`). For every
  vector, the acceptance condition is exact:
  - once the vector is at least as wide as the base's part, it is accepted
    exactly when its width equals the total
    (`DistributionLayers.SizeMismatchRejected`);
  - a vector narrower than the base's part is accepted exactly when the
    flows take no parameters (`DistributionLayers.ShortVectorAcceptance`).
- The fixed (non-trainable) base's location is a zero vector shaped like
  the slice `t[..., 0:1]` (DistributionLayers.py:123), so it is one entry
  wide whatever `n_dims` is (`DistributionLayers.BaseDistribution`).
  Whether that width is an error depends on how the density library
  broadcasts the location, and that library is not part of this model.

## Model

| member | source | states |
|---|---|---|
| `Sequences.PySlice` | DistributionLayers.py:80 | A slice whose bounds are in range is the ordinary subsequence. A slice starting at or past the end is empty. A slice whose end is past the length runs to the end. |
| `Sequences.SumReverse` | DistributionLayers.py:103-107 | Summing the sizes of the reversed flow list gives the same total as summing them in listed order. |
| `Sequences.PrefixSumsContiguous` | DistributionLayers.py:108 | The first start offset is 0, each piece starts where the previous one ends, and the last piece ends at the total. |
| `Sequences.PrefixSumsDisjoint` | DistributionLayers.py:108-112 | For `i < j`, piece `i` ends no later than piece `j` starts, so the pieces are pairwise disjoint and in increasing order. Every piece ends within the total. |
| `Sequences.PrefixSumsCover` | DistributionLayers.py:108-112 | Every position below the total lies in exactly one piece. |
| `DistributionLayers.MeanFieldParamSize` | DistributionLayers.py:50-51 | The parameter count lies between `n_dims` and `2*n_dims`. It equals `n_dims` exactly when the scale is uniform or there are no dimensions. `MeanFieldConsumesParams` shows that a vector of this width is read whole. |
| `DistributionLayers.MeanFieldDistribution` | DistributionLayers.py:29-48 | The locations are `t[0:n]`. The scale is fixed exactly when `uniform_scale` is set. Otherwise the scale is read from `t[n:2n]`. |
| `DistributionLayers.MeanFieldConsumesParams` | DistributionLayers.py:31-51 | A vector of exactly `get_total_param_size` entries is read whole and once: the locations followed by the raw scales (none when uniform) give back the vector. |
| `DistributionLayers.MeanFieldReadsOnlyItsParams` | DistributionLayers.py:31-51 | Two vectors that agree on their first `get_total_param_size` entries give the same distribution. With a uniform scale, the entries `t[n:2n]` are ignored. |
| `DistributionLayers.NewFlowLayer` | DistributionLayers.py:59-71 | Construction succeeds exactly when every requested flow name is in the registry, and otherwise fails as an unknown flow. A constructed layer keeps its flow list, dimension and base trainability. |
| `DistributionLayers.TotalParamSize` | DistributionLayers.py:87-98 | The total is the flows' sizes in listed order plus `2*n_dims` for a trainable base. It equals the same sum over the reversed flow list that `_get_bijector` checks, plus the base's part, and the reversed list is registered too. Among vectors at least as wide as the base's part, exactly this width is accepted (`SizeMismatchRejected`). A narrower vector is accepted exactly when the flows take no parameters (`ShortVectorAcceptance`). A vector of this width is read whole (`FlowDistributionConsumesParams`). |
| `DistributionLayers.BaseDistribution` | DistributionLayers.py:115-123 | A trainable base reads its location from `t[0:n]` and its raw scale from `t[n:2n]`. A fixed base reads nothing and has an all-zero location one entry wide (empty for an empty vector), whatever `n_dims` is. |
| `DistributionLayers.FlowParamSlice` | DistributionLayers.py:77-81 | The flows receive `t[2n:]` when the base is trainable and all of `t` otherwise. |
| `DistributionLayers.ReversedSizes` | DistributionLayers.py:103-107 | The reversed flow list is registered exactly when the list is. Its sizes are the reversed sizes, and their sum equals the listed-order sum. |
| `DistributionLayers.CutChain` | DistributionLayers.py:108-112 | The chain has one bijector per flow of the given order. Each bijector carries its flow's name and the dimension. |
| `DistributionLayers.GetBijector` | DistributionLayers.py:100-113 | An unregistered name fails the lookup. Otherwise the chain is built exactly when the listed-order sizes sum to the slice width, and a mismatch reports both numbers. Chain element `i` is the flow at position `len-1-i` of the list, so an empty list gives an empty chain. |
| `DistributionLayers.ChainSlices` | DistributionLayers.py:103-112 | In a built chain, every element's slice lies within the vector and is `t[begin_i : begin_i + size_i]`. Its width is the parameter count of its own flow. |
| `DistributionLayers.CutChainPrefixConsumes` | DistributionLayers.py:108-112 | The first `k` slices, concatenated, are the prefix of the vector up to the `k`-th offset. |
| `DistributionLayers.ChainConsumesSlice` | DistributionLayers.py:108-113 | The slices of a built chain, concatenated in chain order, are exactly the vector given to `_get_bijector`. |
| `DistributionLayers.MakeFlowDistribution` | DistributionLayers.py:77-82 | The transformed distribution exists exactly when the bijector chain for the flows' part can be built. Its base is the base distribution of the whole vector. Its chain is the one `_get_bijector` builds from the flows' part: one bijector per flow, in reversed flow order. |
| `DistributionLayers.BaseThenFlows` | DistributionLayers.py:116-123 | If the vector is wide enough for a trainable base, the entries the base reads followed by the flows' part give back the whole vector. |
| `DistributionLayers.FlowPartConsumed` | DistributionLayers.py:87-107 | If the vector's width is `get_total_param_size`, the flows' part has exactly the summed flow size. The assertion at line 107 then holds, and the chain's slices make up that part. |
| `DistributionLayers.FlowDistributionConsumesParams` | DistributionLayers.py:77-123 | A vector of width `get_total_param_size` yields a distribution. A trainable base reads `t[0:n]` and `t[n:2n]`. A fixed base reads nothing and the flows share all of `t`. In both cases every entry is read exactly once, in order. |
| `DistributionLayers.SizeMismatchRejected` | DistributionLayers.py:87-107 | If the vector is at least as wide as the base's part, it is accepted exactly when its width is `get_total_param_size`. Any rejection is a size mismatch. |
| `DistributionLayers.ShortVectorPassesSizeCheck` | DistributionLayers.py:77-107 | With a trainable base, one dimension and no flows, the total is 2, yet an empty vector passes the size assertion. |
| `DistributionLayers.ShortVectorAcceptance` | DistributionLayers.py:77-107 | A vector narrower than the base's part is accepted exactly when the flows' parameter counts sum to zero. |
| `BayesianNFEstimator.CallMeanFieldLayer` | DistributionLayers.py:17-24 | A constructor call succeeds exactly when every keyword is `uniform_scale` or `dtype`, and otherwise fails on the unexpected keyword. The scale is uniform exactly when `uniform_scale` is passed and true. |
| `BayesianNFEstimator.AsWrittenFactoriesRaise` | BayesianNFEstimator.py:76-102 | As written, both the prior and the posterior factory fail on every call, because each passes the undeclared keyword `scale`. |
| `BayesianNFEstimator.MakeWeightDistribution` | BayesianNFEstimator.py:76-102 | Both factories as intended always succeed, with a mean-field layer of `size = kernel_size + bias_size` dimensions. The prior has a uniform scale and a variable of width `size` with its given trainability. The posterior has a learned scale and a variable of width `2*size`. In both, the variable width equals the mean-field layer's parameter count. |
| `BayesianNFEstimator.NoiseLayers` | BayesianNFEstimator.py:118 | The input-noise layer is present exactly when `x_noise_std` is nonzero, and it is a Gaussian noise layer with standard deviation `x_noise_std`. |
| `BayesianNFEstimator.DenseLayers` | BayesianNFEstimator.py:104-140 | The builder rejects a non-tuple `hidden_sizes`, then `kl_weight_scale > 1.0`, then `x_noise_std < 0`, in that order, and succeeds otherwise. On success it returns `len(hidden_sizes) + 1` layers, plus one leading noise layer exactly when the noise is nonzero. Hidden layer `i` has `hidden_sizes[i]` units and the given activation. The last layer has `output_size` units and a linear activation. No layer is a flow layer, and all variational layers share the posterior, the prior and the KL settings. |
| `BayesianNFEstimator.DenseLayerCounts` | tests/test_ml_estimator.py:19-26 | Hidden sizes `(2,2,2)` give 4 layers, and 5 with input noise 1.0, the first of them being the noise layer. |
| `BayesianNFEstimator.NegLogLikelihood` | BayesianNFEstimator.py:67-74 | The loss perturbs the target exactly when `y_noise_std` is nonzero, with that standard deviation. |
| `BayesianNFEstimator.ApplyGaussianNoise` | BayesianNFEstimator.py:70-72 | Outside training, or with zero standard deviation, the noise layer passes its input through. During training, entry `i` is shifted by the standard deviation times the draw. |
| `BayesianNFEstimator.LossValue` | BayesianNFEstimator.py:67-74 | Outside training, the loss is the negative log-density of the unperturbed target, whatever the noise draw. The plain loss always is. During training, the noisy loss is the negative log-density of the target with entry `i` shifted by the standard deviation times the draw. |
| `BayesianNFEstimator.NewEstimator` | BayesianNFEstimator.py:41-65 | An unknown flow name fails before anything else. Construction succeeds exactly when all names are registered and the three hyper-parameter checks pass. The layers are exactly the dense builder's result, built with output width `get_total_param_size` of the flow layer, the posterior, the prior with the given trainability, the KL settings, the input noise and the activation, followed by the flow layer for the given flows, dimension and base trainability. The flow layer appears only last. Every variational layer uses the posterior, the prior with the given trainability and the given KL settings. The loss and learning rate are the configured ones. |
| `BayesianNFEstimator.DefaultsConstruct` | BayesianNFEstimator.py:16-60 | With every argument at its default and `radial` registered, construction succeeds with three layers: 10 `tanh` hidden units, a linear output of width twice the radial flow's size plus `2*n_dims`, and the flow layer. There is no noise layer, and the loss is plain. |
| `BayesianNFEstimator.OutputWidthMatchesFlowLayer` | BayesianNFEstimator.py:41-60 | The layer before the flow layer is the linear variational output, and its width is the flow layer's `get_total_param_size`. Every parameter vector of that width passes the flow layer's size assertion and is read whole and once by the base and the flows. |
| `BayesianNFEstimator.EstimatorWeightsConsistent` | BayesianNFEstimator.py:47-58 | For every variational layer of a constructed estimator, the posterior variable has width `2*size` with a learned scale. The prior variable has width `size` with a uniform scale and the configured prior trainability. |

## Findings

| source | as written | input that shows it | evidently intended | confidence | as-written member | corrected member |
|---|---|---|---|---|---|---|
| BayesianNFEstimator.py:84 | `prior_fn` and `posterior_fn` (line 98) call `MeanFieldLayer(size, scale=..., dtype=dtype)`, but the constructor (DistributionLayers.py:17) declares `uniform_scale` and no `scale`, so Python raises a `TypeError` for the unexpected keyword | any `kernel_size`, `bias_size`: every call either factory receives when a variational layer builds its weights | `uniform_scale=True` for the prior (`scale=1.0`) and `uniform_scale=False` for the posterior (`scale=None`), matching the variable widths `size` and `2*size` | high; not executed | `BayesianNFEstimator.AsWrittenFactoriesRaise` | `BayesianNFEstimator.MakeWeightDistribution` |

## Left out

- Density mathematics is not modelled: log-densities, `softplus`,
  `expm1`, `log`, the `1e-5` and `0.05` scale constants, and the bijectors'
  transforms. Distributions and bijectors are records of the parameter
  slices they read.
- The `convert_to_tensor_fn`, which evaluates the log-density at the probe
  point `[1.0]*n_dims`, is numeric library work and is left out.
- The flow implementations (`normalizing_flows`) are not part of this
  model. Each flow's parameter count is an arbitrary function in the
  registry map, and its factory is a record of its arguments.
- Batch axes are not modelled. A tensor is one example's last axis, and
  shape errors that the tensor library would raise are not modelled.
- The following framework machinery is left out: Keras `Sequential`,
  `compile`, the Adam optimiser, `fit` and `evaluate`. The learning rate is
  only recorded.
- KL divergence terms and `kl_use_exact` are only recorded on the layers.
- The `dtype` arguments are only passed as keywords.
- Random draws of the noise layers are a parameter of `ApplyGaussianNoise`.
  The framework's global learning-phase flag is the `training` parameter.
- `BayesianNFEstimator.DenseLayers`: `hidden_sizes` is either a tuple or a
  list of non-negative sizes. Other Python types, and negative or
  non-integer unit counts, are not modelled.
- `BayesianNFEstimator.CallMeanFieldLayer`: keyword values are reduced to
  their truthiness. Positional arguments beyond `n_dims` are not modelled.
- Hyper-parameters are mathematical reals, so NaN and floating-point
  rounding in the comparisons `kl_weight_scale <= 1.0`, `x_noise_std >= 0`
  and `!= 0` are not modelled.
- `MaximumLikelihoodNFEstimator` is not part of this model. Its dense-layer
  test is mirrored on the Bayesian builder.
