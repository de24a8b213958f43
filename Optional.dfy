/** A value that may be missing: stands for the source's `null` results
    (a ray that hits nothing, a drag hit point not yet recorded). */
module Optional {

  datatype Option<T> = None | Some(value: T)
}
