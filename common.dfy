/** Failure-compatible wrappers and the error conditions that the modelled
    Python code raises (mostly `ValueError`, plus `ZeroDivisionError`). */
module Common {

  datatype Option<+T> = None | Some(value: T)

  /** The exceptions raised by the modelled code, one constructor per cause. */
  datatype Error =
    | AlphaOutOfRange        // DtACI: alpha not in (0, 1)
    | NonPositiveGamma       // DtACI: some gamma candidate <= 0
    | NonPositiveEta         // DtACI: eta <= 0
    | SigmaOutOfRange        // DtACI: sigma not in [0, 1]
    | InvalidBreach          // DtACI.update: breach indicator not in {0, 1}
    | ZeroDivision           // DtACI.update with no experts: sigma / 0
    | OddQuantileCount       // ThompsonSampler: n_quantiles is odd
    | MissingQuantiles       // quantile estimator cross-validated without quantile levels
    | EmptyScores            // min() of an empty score list
    | MissingSequence        // QuantileIntervalSequence built without a list (None)
    | MissingAttribute       // an attribute read before it was set (AttributeError)
    | IndexOutOfRange        // a list or array index outside its bounds (IndexError)
    | MissingKey             // a dictionary read at a key never stored (KeyError)
    | ShapeMismatch          // numpy arrays of incompatible dimensions stacked (ValueError)
    | EstimatorFailed        // an estimator's fit or predict raised during cross-validation

  datatype Result<+T> = Ok(value: T) | Err(error: Error)

  function Min(a: int, b: int): int { if a <= b then a else b }

  function MaxReal(a: real, b: real): real { if a >= b then a else b }

  function MinReal(a: real, b: real): real { if a <= b then a else b }

  function Abs(x: real): real { if x < 0.0 then -x else x }
}
