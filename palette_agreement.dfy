/**
 * The generator and the canvas each carry their own colour tables. The
 * palette the generator records for a design is exactly the background,
 * primary and secondary colour the canvas draws it with, for every theme
 * string, known or not.
 */
module PaletteAgreement {
  import CertificateGenerator
  import CertificateCanvas

  lemma PalettesAgree(theme: string)
    ensures var palette := CertificateGenerator.ThemeColors(theme);
      && CertificateCanvas.BackgroundColor(theme) == palette[0]
      && CertificateCanvas.ThemeColor(theme) == palette[1]
      && CertificateCanvas.SecondaryColor(theme) == palette[2]
  {
  }

  /** The colours a generated design records are the ones its canvas uses. */
  lemma GeneratedDesignsDrawnInTheirColours(category: string)
    ensures var designs := CertificateGenerator.GenerateCertificateDesigns(category);
      forall i | 0 <= i < |designs| ::
        designs[i].colors == [ CertificateCanvas.BackgroundColor(designs[i].theme),
                               CertificateCanvas.ThemeColor(designs[i].theme),
                               CertificateCanvas.SecondaryColor(designs[i].theme) ]
  {
    var designs := CertificateGenerator.GenerateCertificateDesigns(category);
    forall i | 0 <= i < |designs|
      ensures designs[i].colors == [ CertificateCanvas.BackgroundColor(designs[i].theme),
                                     CertificateCanvas.ThemeColor(designs[i].theme),
                                     CertificateCanvas.SecondaryColor(designs[i].theme) ]
    {
      PalettesAgree(designs[i].theme);
    }
  }
}
