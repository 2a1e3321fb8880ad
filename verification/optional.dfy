/** The absent-or-present result the threshold sweep reports. */
module Optional {

  datatype Option<+T> = None | Some(value: T)
}
