/** Small datatypes shared by every module. */
module Common {
  datatype Option<+T> = None | Some(value: T)

  datatype Result<+T, +E> = Ok(value: T) | Err(error: E)

  /** Where a file is: anywhere in the run directory but its evidence bundle, inside that bundle, or outside the run. */
  datatype Path = RunPath(text: string) | BundlePath(text: string) | OutsidePath(text: string)
}
