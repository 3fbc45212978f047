/** Typed outcomes of one estimate: a value, or the reason the estimate
    could not be produced. */
module Outcomes {

  /** The three places where the estimate divides by a value that can be zero. */
  datatype Error =
    | ZeroResolution     // resolved DPI is 0: pixels / dpi is undefined
    | EmptyAnalysisImage // width * height of the analysis grid is 0
    | ZeroMachineSpeed   // stitches / machine speed is undefined

  datatype Option<+T> = None | Some(value: T)

  datatype Result<+T> = Ok(value: T) | Err(error: Error)
}
