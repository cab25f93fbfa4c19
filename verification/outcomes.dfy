/**
 * The ways construction of a layer, a bijector chain or an estimator can be
 * aborted, and a result type that carries either a value or one of them.
 * Each error stands for a Python `assert`, a failed registry lookup or a
 * rejected keyword argument in the modelled code.
 */
module Outcomes {

  datatype Error =
    | UnknownFlow                                   // a flow name that the registry does not hold
    | ParamSizeMismatch(expected: nat, actual: nat) // summed flow sizes differ from the slice width
    | HiddenSizesNotTuple                           // `hidden_sizes` is not a tuple
    | KlWeightTooLarge                              // `kl_weight_scale > 1.0`
    | NegativeNoiseStd                              // `x_noise_std < 0.0`
    | UnexpectedKeyword                             // a keyword argument the callee does not declare

  datatype Result<T> = Success(value: T) | Failure(error: Error)
}
