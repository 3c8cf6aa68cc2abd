/** The optional value used wherever the script passes `None` or may
    fail to produce a value. */
module Optional {

  datatype Option<+T> = None | Some(value: T)
}
