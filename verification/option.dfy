/** The nullable values of the scanner (`string | null` in its JSON), as an Option. */
module Opt {

  datatype Option<+T> = None | Some(value: T)

}
