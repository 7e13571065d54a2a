/** A value that may be missing: a file that does not exist, a component a
    prefab does not carry, an empty spawn list. */
module Optional {
  datatype Option<+T> = None | Some(value: T)
}
