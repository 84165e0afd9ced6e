/**
 * The design record shared by the generator and the canvas: one generated
 * certificate's descriptive data plus the source snippet that reproduces it.
 */
module DesignRecord {

  /** A colour as the source writes it, e.g. "#D97706" or "transparent". */
  type Colour = string

  /** The five themes the record type admits, in the generator's table order. */
  const Themes: seq<string> := ["gold", "royal", "elegant", "modern", "classic"]

  /** Themes drawn with the four corner ornaments. */
  predicate HasCornerOrnaments(theme: string)
  {
    theme == "gold" || theme == "classic"
  }

  /** Themes drawn with the rotated-rectangle geometric patterns. */
  predicate HasGeometricPatterns(theme: string)
  {
    theme == "royal" || theme == "elegant"
  }

  /**
   * One certificate design. `theme` is kept as a string because the colour
   * lookups that consume it accept any string and fall back to "modern".
   */
  datatype CertificateDesign = CertificateDesign(
    id: string,
    name: string,
    theme: string,
    layout: string,
    colors: seq<Colour>,
    elements: seq<string>,
    code: string
  )
}
