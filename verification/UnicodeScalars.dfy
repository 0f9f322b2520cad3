/** Code points and bytes as the decoders' bit arithmetic sees them. */
module UnicodeScalars {
  type Byte = bv8

  predicate Scalar(c: bv32) {
    c <= 0xD7FF || 0xE000 <= c <= 0x10FFFF
  }

  type ScalarValue = c: bv32 | c <= 0xD7FF || 0xE000 <= c <= 0x10FFFF
}
