/** What can go wrong with one call of the API server. */
module Faults {
  /** Lost: the call takes effect and still reports an error. */
  datatype Fault = NoFault | Refused | Lost
}
