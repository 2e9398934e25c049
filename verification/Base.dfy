// What several modules share.
module Base {
  datatype Option<+T> = None | Some(value: T)

  type Octet = n: nat | n < 256
}
