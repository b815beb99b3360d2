/** The LED layout file: one entry per LED with its id and spherical angles. */
module Layout {
  /** A layout entry: `{"id": ..., "theta": ..., "phi": ...}`. */
  datatype Led = Led(id: int, theta: real, phi: real)
}
