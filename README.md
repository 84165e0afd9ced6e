# Certificate designs and the certificate canvas, in Dafny

This project models the two deterministic pieces of a certificate designer.

- **The design generator** (`src/lib/certificateGenerator.ts`) maps a
  category string to five design records. Each record comes from one entry of
  a fixed five-entry template table, in the theme order gold, royal, elegant,
  modern, classic. Each gets:
  - an id `cert-N`;
  - the table name followed by `" - "` and the category;
  - the theme's three-colour palette, where an unknown theme falls back to
    modern;
  - a generated source snippet.

  The snippet is modelled as a list of segments: fixed template pieces
  (`TemplatePiece`, rendered by `PieceText`) interleaved with the values the
  template interpolates. These values are the design number, the design name,
  palette entries tagged with the property they colour, the category, and the
  optional corner-ornament or geometric-pattern block. Each fixed piece is a
  head that closes the slot before it, a body, and a tail that opens the slot
  after it. `Render` concatenates the segments into the string stored in the
  record. Structural facts are proved on the segment list. The facts about
  the rendered text are proved through `Render`, with the generic joining
  lemmas of the module `TextConcat`.
- **The certificate canvas** (`src/components/CertificateCanvas.tsx`)
  draws a design on a Fabric.js canvas. `Canvas` is a class with a
  background colour and the list of drawing objects, in the order they were
  added. Drawing objects are the `FabricObject` datatype (`Rect`, `Circle`,
  `Text`) and carry the literal coordinates, sizes, colours and texts.
  - `CreateCertificate` does what the source does, step by step. It clears
    the canvas and sets the background. It then adds the border, the theme's
    motifs (through `AddCornerDecorations` or `AddGeometricPatterns`), the
    seven title and recipient objects, and the date and signature block
    (`AddDateAndSignature`).
  - The function `CertificateLayout` is the object list this leaves behind.
    The layout lemmas are stated about it: counts, positions, colours and
    the append order.
  - `PaletteAgreement` relates the two files. The canvas's three colour
    tables agree, for every theme string, with the generator's palette
    table.

The module `DesignRecord` holds the record type shared by both
(`src/components/CertificateGenerator.tsx:11-19`).

Two points of the canvas code matter for the layout lemmas:

- The category text is appended before the "This certifies that" label,
  although the label sits higher on the page
  (`src/components/CertificateCanvas.tsx:101-123`). The recipient underline is
  appended before the "[Recipient Name]" placeholder (lines 125-144).
- Only the title and recipient texts are re-anchored at their centre by
  `set({ originX: 'center', originY: 'center' })`. The date and signature
  labels are not (lines 240-270), so their `centred` flag is false.

## Model

| member | source | states |
|---|---|---|
| `DesignRecord.HasCornerOrnaments` | src/components/CertificateCanvas.tsx:64 | (definition, no contract) the themes drawn with corner ornaments: exactly `gold` and `classic`; the generator's snippet tests the same condition at src/lib/certificateGenerator.ts:116 |
| `DesignRecord.HasGeometricPatterns` | src/components/CertificateCanvas.tsx:69 | (definition, no contract) the themes drawn with geometric patterns: exactly `royal` and `elegant`; the generator's snippet tests the same condition at src/lib/certificateGenerator.ts:136 |
| `CertificateGenerator.ThemeColors` | src/lib/certificateGenerator.ts:53-62 | every theme string gets a three-colour palette; a known theme gets its table row, any other string the modern palette `#F1F5F9, #0F172A, #475569` |
| `CertificateGenerator.DecimalString` | src/lib/certificateGenerator.ts:43 | the `${index + 1}` interpolation: a non-empty string of decimal digits without a leading zero, one digit exactly for numbers below ten |
| `CertificateGenerator.DecimalStringRoundTrip` | src/lib/certificateGenerator.ts:43 | reading the digits back gives the number |
| `CertificateGenerator.DecimalStringInjective` | src/lib/certificateGenerator.ts:43 | different numbers render differently |
| `CertificateGenerator.PaletteIndex` | src/lib/certificateGenerator.ts:73-109 | (definition, no contract) the palette entry each colour slot reads: `[0]` for the background, `[1]` for the border stroke, the title fill and the category fill |
| `CertificateGenerator.PieceHead` | src/lib/certificateGenerator.ts:73-114 | (definition, no contract) the text each fixed piece starts with: the `',` that closes a property value, or the `', {` after the category |
| `CertificateGenerator.PieceTail` | src/lib/certificateGenerator.ts:73-109 | (definition, no contract) the text each fixed piece ends with: the property name and quote that open a colour slot, or the `new Text('` that opens the category |
| `CertificateGenerator.PieceBody` | src/lib/certificateGenerator.ts:65-156 | (definition, no contract) the rest of each fixed piece of the template, character for character |
| `CertificateGenerator.PieceText` | src/lib/certificateGenerator.ts:65-156 | (definition, no contract) a fixed piece is its head, then its body, then its tail |
| `CertificateGenerator.PieceFrames` | src/lib/certificateGenerator.ts:73-114 | every fixed piece starts with its head and ends with its tail |
| `CertificateGenerator.RenderSegment` | src/lib/certificateGenerator.ts:65-156 | (definition, no contract) a fixed piece renders as its text; an interpolated value renders verbatim; a motif block renders as its fixed text around its fill colour |
| `CertificateGenerator.Render` | src/lib/certificateGenerator.ts:64-157 | (definition, no contract) the snippet is the texts of its segments joined in order |
| `CertificateGenerator.RenderFramed` | src/lib/certificateGenerator.ts:73-114 | a segment between two fixed pieces appears in the text between the tail of the piece before it and the head of the piece after it |
| `CertificateGenerator.CanvasCode` | src/lib/certificateGenerator.ts:64-157 | the snippet opens with the header segments (number, then name) and has the category in its category slot; every category segment carries the caller's category |
| `CertificateGenerator.CodeNumbersAgree` | src/lib/certificateGenerator.ts:65-68 | every number interpolated in the snippet is the design's own number |
| `CertificateGenerator.CodePaletteRoles` | src/lib/certificateGenerator.ts:73-109 | the background reads palette entry 0; the border stroke, title fill and category fill read entry 1; every palette slot has its role's value and every role appears |
| `CertificateGenerator.CodeMotifBlocks` | src/lib/certificateGenerator.ts:116-149 | the corner block is present iff the theme is gold or classic, and the pattern block iff it is royal or elegant; never both at once |
| `CertificateGenerator.CodeMotifFill` | src/lib/certificateGenerator.ts:130-144 | both motif blocks are filled with palette entry 1 |
| `CertificateGenerator.RenderHeader` | src/lib/certificateGenerator.ts:65 | a segment list opening with the header segments renders to text opening with `// Certificate Design N: name` |
| `CertificateGenerator.CodeStartsWithHeader` | src/lib/certificateGenerator.ts:65 | the rendered snippet opens with `// Certificate Design N: <name>` |
| `CertificateGenerator.RenderCategory` | src/lib/certificateGenerator.ts:104 | a category slot between its two template neighbours renders as `new Text('<category>', {` |
| `CertificateGenerator.CodeEmbedsCategory` | src/lib/certificateGenerator.ts:104 | the rendered snippet contains `new Text('<category>', {`, with the category verbatim |
| `CertificateGenerator.SlotOpening` | src/lib/certificateGenerator.ts:70-109 | (definition, no contract) the fixed piece before each colour slot: the canvas options, border options, title options or category options |
| `CertificateGenerator.SlotClosing` | src/lib/certificateGenerator.ts:74-112 | (definition, no contract) the fixed piece after each colour slot |
| `CertificateGenerator.SlotLead` | src/lib/certificateGenerator.ts:73-109 | (definition, no contract) the text written right before each colour: `backgroundColor: '`, `stroke: '`, and the `fill: '` lines of the title and the category with their font sizes |
| `CertificateGenerator.CodePaletteSlots` | src/lib/certificateGenerator.ts:73-109 | each palette slot lies between two fixed pieces, and the piece before it is the one that opens its role's property |
| `CertificateGenerator.RenderSlot` | src/lib/certificateGenerator.ts:73-109 | a colour slot between the pieces its role expects renders as the value of that role's property, closed by `',` |
| `CertificateGenerator.CodeColoursInText` | src/lib/certificateGenerator.ts:73-109 | the rendered snippet contains `backgroundColor: '<entry 0>',`, `stroke: '<entry 1>',` and the title and category `fill: '<entry 1>',`: each tagged colour is the value of its own property |
| `CertificateGenerator.MakeDesign` | src/lib/certificateGenerator.ts:42-50 | (definition, no contract) one record from one table entry and its position; the lemmas below state its properties |
| `CertificateGenerator.GenerateCertificateDesigns` | src/lib/certificateGenerator.ts:42-50 | five records, one per table entry in table order: themes gold, royal, elegant, modern, classic; layout and elements copied; palette from `ThemeColors`; id `cert-(i+1)`; name suffixed with the category; code rendered from the snippet for number i+1 |
| `CertificateGenerator.MakeDesignIdsDiffer` | src/lib/certificateGenerator.ts:43 | records built at different table positions get different ids |
| `CertificateGenerator.DesignIdsDistinct` | src/lib/certificateGenerator.ts:43 | the five ids are pairwise distinct |
| `CertificateGenerator.MakeDesignNameSuffix` | src/lib/certificateGenerator.ts:44 | a record's name ends with `" - " + category` |
| `CertificateGenerator.DesignNamesEndWithCategory` | src/lib/certificateGenerator.ts:44 | every generated name ends with `" - " + category` |
| `CertificateGenerator.DesignCodesDescribeTheirDesign` | src/lib/certificateGenerator.ts:49 | each record's code opens with its own number and table name and embeds the category |
| `CertificateCanvas.BackgroundColor` | src/components/CertificateCanvas.tsx:39-47 | the background table's entry for a known theme, `#F1F5F9` (modern) for any other string |
| `CertificateCanvas.ThemeColor` | src/components/CertificateCanvas.tsx:282-291 | the primary colour table's entry for a known theme, `#0F172A` (modern) for any other string |
| `CertificateCanvas.SecondaryColor` | src/components/CertificateCanvas.tsx:293-302 | the secondary colour table's entry for a known theme, `#475569` (modern) for any other string |
| `CertificateCanvas.Border` | src/components/CertificateCanvas.tsx:50-60 | (definition, no contract) the 720x520 rectangle at (40,40): transparent, stroked in the given colour with width 4, corner radius 10 |
| `CertificateCanvas.CornerOrnament` | src/components/CertificateCanvas.tsx:168-174 | (definition, no contract) a circle of radius 15 and opacity 30% anchored at the given point |
| `CertificateCanvas.LeftBar` | src/components/CertificateCanvas.tsx:213-221 | (definition, no contract) bar i of the left pattern: 4x30 at (60+8i, 200+40i), opacity 40%, angle 45 |
| `CertificateCanvas.RightBar` | src/components/CertificateCanvas.tsx:227-235 | (definition, no contract) bar i of the right pattern: 4x30 at (740-8i, 200+40i), opacity 40%, angle -45 |
| `CertificateCanvas.LeftPattern` | src/components/CertificateCanvas.tsx:212-223 | (definition, no contract) left bars 0 to 2 |
| `CertificateCanvas.RightPattern` | src/components/CertificateCanvas.tsx:226-237 | (definition, no contract) right bars 0 to 2 |
| `CertificateCanvas.GeometricPatterns` | src/components/CertificateCanvas.tsx:208-238 | (definition, no contract) the left pattern, then the right pattern |
| `CertificateCanvas.Title` | src/components/CertificateCanvas.tsx:75-85 | (definition, no contract) "CERTIFICATE", bold serif 42 at (400,120) in the primary colour, centred |
| `CertificateCanvas.Subtitle` | src/components/CertificateCanvas.tsx:88-98 | (definition, no contract) "OF ACHIEVEMENT", serif 18 spaced by 2 at (400,170) in the secondary colour, centred |
| `CertificateCanvas.CategoryText` | src/components/CertificateCanvas.tsx:101-111 | (definition, no contract) the category, bold sans-serif 24 at (400,300) in the primary colour, centred |
| `CertificateCanvas.RecipientLabel` | src/components/CertificateCanvas.tsx:114-123 | (definition, no contract) "This certifies that", serif 16 at (400,240) in the secondary colour, centred |
| `CertificateCanvas.RecipientLine` | src/components/CertificateCanvas.tsx:125-132 | (definition, no contract) the 200x2 underline at (300,350) in the primary colour |
| `CertificateCanvas.RecipientText` | src/components/CertificateCanvas.tsx:134-144 | (definition, no contract) "[Recipient Name]", italic serif 20 at (400,340) in the secondary colour, centred |
| `CertificateCanvas.CompletionText` | src/components/CertificateCanvas.tsx:147-156 | (definition, no contract) "has successfully completed", serif 16 at (400,380) in the secondary colour, centred |
| `CertificateCanvas.DateLabel` | src/components/CertificateCanvas.tsx:244-251 | (definition, no contract) "Date:", serif 14 at (150,480), not re-anchored |
| `CertificateCanvas.DateLine` | src/components/CertificateCanvas.tsx:253-260 | (definition, no contract) the 120x1 line at (200,490) |
| `CertificateCanvas.SignatureLabel` | src/components/CertificateCanvas.tsx:263-270 | (definition, no contract) "Authorized Signature:", serif 14 at (450,480), not re-anchored |
| `CertificateCanvas.SignatureLine` | src/components/CertificateCanvas.tsx:272-279 | (definition, no contract) the 150x1 line at (580,490) |
| `CertificateCanvas.CornerDecorations` | src/components/CertificateCanvas.tsx:164-206 | four circles of radius 15 and opacity 30% in the given colour |
| `CertificateCanvas.Motifs` | src/components/CertificateCanvas.tsx:64-72 | four motifs for gold and classic, six for royal and elegant, none otherwise |
| `CertificateCanvas.TitleAndRecipient` | src/components/CertificateCanvas.tsx:74-156 | the title and recipient block has seven objects |
| `CertificateCanvas.DateAndSignature` | src/components/CertificateCanvas.tsx:240-280 | four objects, all in the given colour |
| `CertificateCanvas.CertificateLayout` | src/components/CertificateCanvas.tsx:34-162 | (definition, no contract) the objects `createCertificate` leaves on the canvas: border, motifs, title and recipient block, date and signature block; the layout lemmas below state its properties |
| `CertificateCanvas.MotifAt` | src/components/CertificateCanvas.tsx:64-72 | motif i is corner ornament i for gold and classic; otherwise it is left bar i for i < 3 and right bar i-3 after that |
| `CertificateCanvas.TitleAndRecipientAt` | src/components/CertificateCanvas.tsx:74-156 | the seven title and recipient objects, in the order they are appended |
| `CertificateCanvas.DateAndSignatureAt` | src/components/CertificateCanvas.tsx:240-280 | the date label, date line, signature label and signature line, in the order they are appended |
| `CertificateCanvas.LayoutObjectCount` | src/components/CertificateCanvas.tsx:50-159 | 16 objects for gold and classic, 18 for royal and elegant, 12 for every other theme |
| `CertificateCanvas.LayoutAt` | src/components/CertificateCanvas.tsx:50-159 | the layout is the border, then the motifs, then the title block, then the date block |
| `CertificateCanvas.LayoutAtObject` | src/components/CertificateCanvas.tsx:50-159 | the object at each position, in the order the source appends them |
| `CertificateCanvas.LayoutStartsWithBorder` | src/components/CertificateCanvas.tsx:50-61 | the first object is the 720x520 border at (40,40): transparent, stroked in the primary colour, width 4, radius 10. It is the only stroked object |
| `CertificateCanvas.LayoutCornerOrnaments` | src/components/CertificateCanvas.tsx:64-67 | gold and classic put the four circles at (80,80), (720,80), (80,520), (720,520) right after the border; no other theme and no other position has a circle |
| `CertificateCanvas.LayoutGeometricPatterns` | src/components/CertificateCanvas.tsx:208-238 | royal and elegant put three bars at (60+8i, 200+40i) turned 45 degrees, then three at (740-8i, 200+40i) turned -45 degrees, right after the border; nothing else is rotated |
| `CertificateCanvas.PatternsMirrored` | src/components/CertificateCanvas.tsx:212-237 | the anchor points of the right bars mirror those of the left ones about x = 400, with opposite angles; consecutive anchors step by 8 across and 40 down |
| `CertificateCanvas.CornersInsetFromBorder` | src/components/CertificateCanvas.tsx:168-205 | each ornament's anchor point is 40 pixels in from a border edge on each axis; the four anchor points are distinct |
| `CertificateCanvas.LayoutCategoryText` | src/components/CertificateCanvas.tsx:101-111 | the category text holds the caller's string verbatim: centred at (400,300), bold sans-serif 24, primary colour |
| `CertificateCanvas.LayoutAppendOrder` | src/components/CertificateCanvas.tsx:101-144 | the category text comes before "This certifies that", which sits higher on the page; the recipient underline comes before the placeholder |
| `CertificateCanvas.LayoutEndsWithDateAndSignature` | src/components/CertificateCanvas.tsx:240-280 | the last four objects are "Date:" at (150,480), a 120x1 line at (200,490), "Authorized Signature:" at (450,480) and a 150x1 line at (580,490), all in the secondary colour |
| `CertificateCanvas.LayoutInsideBorder` | src/components/CertificateCanvas.tsx:50-159 | every object is anchored inside the border, within [40,760] x [40,560] |
| `CertificateCanvas.LayoutFillColours` | src/components/CertificateCanvas.tsx:50-159 | only the border is transparent; every other object is filled with the primary or the secondary colour |
| `CertificateCanvas.Canvas.constructor` | src/components/CertificateCanvas.tsx:18-22 | a new canvas has the given background and no objects |
| `CertificateCanvas.Canvas.Clear` | src/components/CertificateCanvas.tsx:36 | the object list becomes empty |
| `CertificateCanvas.Canvas.Add` | src/components/CertificateCanvas.tsx:61 | the object is appended on top of the others |
| `CertificateCanvas.Canvas.CreateCertificate` | src/components/CertificateCanvas.tsx:34-162 | whatever the canvas held before, afterwards the background is `BackgroundColor(theme)` and the objects are exactly `CertificateLayout(theme, category)` |
| `CertificateCanvas.Canvas.AddCornerDecorations` | src/components/CertificateCanvas.tsx:164-206 | appends the four corner ornaments in the primary colour |
| `CertificateCanvas.Canvas.AddGeometricPatterns` | src/components/CertificateCanvas.tsx:208-238 | the two counted loops append the left pattern and then the right pattern |
| `CertificateCanvas.Canvas.AddDateAndSignature` | src/components/CertificateCanvas.tsx:240-280 | appends the date and signature block in the secondary colour |
| `CertificateCanvas.MountCanvas` | src/components/CertificateCanvas.tsx:14-27 | the canvas created with a white background ends with the theme's background, never white, and the certificate's objects |
| `PaletteAgreement.PalettesAgree` | src/lib/certificateGenerator.ts:53-62 | for every theme string, the canvas background, primary and secondary colours are entries 0, 1 and 2 of the generator's palette |
| `PaletteAgreement.GeneratedDesignsDrawnInTheirColours` | src/lib/certificateGenerator.ts:47 | the palette each generated record carries is the one the canvas draws it with |

## Left out

- The two-second simulated delay before generation (`await` on a timer) has no logical effect. The generator is a plain function.
- The React component is left out: `useRef`, the `useEffect` lifecycle, `dispose` on unmount, the `renderAll` call and the JSX. `MountCanvas` stands in for the mount effect.
- Fabric.js internals are foreign library code: text measurement, rendering and the effect of `originX`/`originY`. Re-anchoring a text at its centre is recorded only as the `centred` flag.
- Opacity 0.3 and 0.4 are stored as the percentages 30 and 40. No arithmetic is done on them.
- `BackgroundColor`, `ThemeColor`, `SecondaryColor` and `ThemeColors` model the `||` default for the five theme names and for strings that are not keys of the object literal. Strings that name an inherited JavaScript object property (such as `"toString"`) would return that property instead of the default. This is not modelled.
- `CertificateCanvas.Canvas.Clear`: only the object list is emptied. Whatever Fabric does to the background on `clear()` is not modelled, because the background is assigned right afterwards.
- The snippet interpolates the category and name without escaping. Nothing is proved about the snippet being valid JavaScript, only about its structure and the text around the category.
- The snippet's geometric block draws only the left pattern, and its objects come in a different order from the canvas. Nothing states that the snippet and the canvas draw the same objects.
- The design selection UI is left out: the whitespace-only category guard, the badge class lookup, state hooks and notifications in `src/components/CertificateGenerator.tsx`. Only its record type is modelled.
