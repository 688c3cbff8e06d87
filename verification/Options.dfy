/** The optional values of the program: `boost::optional`, null handles and the success value of an `error_code`. */
module Options {
  datatype Option<+T> = None | Some(value: T)
}
