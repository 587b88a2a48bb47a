/** The few Java platform types the model needs. */
module JavaLang {

  /** A Java `long`: a 64-bit two's-complement integer. */
  type Long = x: int | -0x8000_0000_0000_0000 <= x < 0x8000_0000_0000_0000

  /** A `java.lang.Class`, identified by its fully qualified name. */
  datatype JavaClass = JavaClass(name: string)

  const DateClass: JavaClass := JavaClass("java.util.Date")
}
