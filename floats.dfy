/** Float-valued configuration defaults, kept as the text of their Python literal. */
module Floats {

  /** A float default, opaque to the model: no arithmetic is done on it. */
  datatype FloatLiteral = FloatLiteral(text: string)
}
