/** Types that several components share. */
module SharedTypes {

  type Byte = x: int | 0 <= x < 0x100

  /** A managed string reference. */
  datatype Text = Null | Text(value: string)
}
