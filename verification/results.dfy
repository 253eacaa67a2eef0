/**
 * Outcome of a calculation step: a value, or the input condition under
 * which the JavaScript would have produced Infinity, NaN or `undefined`.
 */
module Results {

  datatype InputError =
    | ZeroPurchasePrice            // land and building shares divide by the price
    | ZeroMaintenanceDistribution  // the maintenance cost divides by the year count
    | PeriodBelowOne               // the final-year lookups index `period - 1`

  datatype Result<T> = Ok(value: T) | Err(error: InputError)
}
