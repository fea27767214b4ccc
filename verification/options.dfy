/** Optional values: PHP's `false`/`null`/unset stand-ins. */
module Options {

  datatype Option<+T> = None | Some(value: T)
}
