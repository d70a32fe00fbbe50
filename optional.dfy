/** Java's nullable references, as an explicit option type. */
module Optional {

  /** `None` stands for a Java `null`. */
  datatype Option<+T> = None | Some(value: T)
}
