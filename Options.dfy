/** JavaScript's `T | null` / `T | undefined` values. */
module Options {

  datatype Option<+T> = None | Some(value: T)
}
