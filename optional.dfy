/** The optional value the JavaScript code writes as `null` versus a number. */
module Optional {

  datatype Option<+T> = None | Some(value: T)
}
