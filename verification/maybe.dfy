/** The optional value used wherever the program keeps `None` for "not set". */
module Maybe {

  datatype Option<+T> = None | Some(value: T)
}
