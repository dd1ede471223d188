/** The optional value used for Swift optionals and for expansions that trip an assertion. */
module Options {

  datatype Option<+T> = None | Some(value: T)
}
