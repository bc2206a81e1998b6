/** A value that may be missing: a dict entry, a decoded list, a parse result. */
module Optional {

  datatype Option<T> = None | Some(value: T)
}
