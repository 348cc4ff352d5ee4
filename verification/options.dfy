/** The optional-value datatype the model uses for partial operations. */
module Options {

  /** `None` stands for an operation that raised instead of returning. */
  datatype Option<+T> = None | Some(value: T)
}
