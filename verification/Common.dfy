/** What several modules share. */
module Common {

  datatype Option<+T> = None | Some(value: T)

  // machine word bounds
  const TWO31: nat := 0x8000_0000
  const TWO32: nat := 0x1_0000_0000
  const TWO63: nat := 0x8000_0000_0000_0000
  const TWO64: nat := 0x1_0000_0000_0000_0000
}
