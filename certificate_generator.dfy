/**
 * The templated design generator: five fixed archetypes, each turned into a
 * design record for the caller's category, with a palette from a theme table
 * and a generated Fabric.js source snippet.
 *
 * The snippet is modelled as a list of segments: the fixed text of the
 * template literal, interleaved with the values it interpolates (the design
 * number, the design name, palette entries, the category and the two
 * theme-conditional blocks). The record keeps the rendered string, as the
 * source does; facts about the snippet are proved on the segment list and
 * carried over to the string through `Render`.
 */
module CertificateGenerator {
  import opened DesignRecord
  import opened TextConcat

  /** One entry of the fixed template table. */
  datatype BaseDesign = BaseDesign(theme: string, name: string, elements: seq<string>, layout: string)

  /** The template table, in the order the generator returns its designs. */
  const BaseDesigns: seq<BaseDesign> := [
    BaseDesign("gold", "Golden Excellence",
      ["Gold border", "Elegant typography", "Corner ornaments", "Classic layout"],
      "Traditional centered design with ornate borders"),
    BaseDesign("royal", "Royal Prestige",
      ["Royal blue accents", "Geometric patterns", "Formal typography", "Regal border"],
      "Formal layout with geometric decorative elements"),
    BaseDesign("elegant", "Modern Elegance",
      ["Purple gradients", "Clean lines", "Modern fonts", "Minimalist design"],
      "Contemporary design with subtle decorative elements"),
    BaseDesign("modern", "Professional Modern",
      ["Clean typography", "Simple border", "Professional layout", "Minimal decoration"],
      "Clean, professional design perfect for corporate use"),
    BaseDesign("classic", "Vintage Classic",
      ["Bronze accents", "Traditional fonts", "Vintage styling", "Classic ornaments"],
      "Traditional certificate design with vintage appeal")
  ]

  /** Theme to palette (background, primary, secondary). */
  const ColorMap: map<string, seq<Colour>> := map[
    "gold" := ["#FEF3C7", "#D97706", "#92400E"],
    "royal" := ["#EDE9FE", "#3730A3", "#1E1B4B"],
    "elegant" := ["#F3E8FF", "#7C3AED", "#581C87"],
    "modern" := ["#F1F5F9", "#0F172A", "#475569"],
    "classic" := ["#FEF7ED", "#92400E", "#78350F"]
  ]

  /** The palette of a theme; any string outside the table gets the modern palette. */
  function ThemeColors(theme: string): (palette: seq<Colour>)
    ensures |palette| == 3
    ensures theme in Themes ==> palette == ColorMap[theme]
    ensures theme !in Themes ==> palette == ["#F1F5F9", "#0F172A", "#475569"]
  {
    if theme in ColorMap then ColorMap[theme] else ColorMap["modern"]
  }

  // ---------------------------------------------------------------------------
  // Decimal rendering of the design number (`${n}` in a template literal)
  // ---------------------------------------------------------------------------

  function Digit(d: nat): (c: char)
    requires d < 10
    ensures '0' <= c <= '9'
    ensures c as int - '0' as int == d
  {
    ('0' as int + d) as char
  }

  /** The decimal notation of `n`, without leading zeros. */
  function DecimalString(n: nat): (s: string)
    ensures |s| >= 1
    ensures forall k :: 0 <= k < |s| ==> '0' <= s[k] <= '9'
    ensures s[0] == '0' ==> n == 0
    ensures n < 10 <==> |s| == 1
  {
    if n < 10 then [Digit(n)] else DecimalString(n / 10) + [Digit(n % 10)]
  }

  /** The number a string of decimal digits denotes (the inverse of `DecimalString`). */
  function DigitsValue(s: string): nat
    requires forall k :: 0 <= k < |s| ==> '0' <= s[k] <= '9'
  {
    if s == [] then 0 else DigitsValue(s[..|s| - 1]) * 10 + (s[|s| - 1] as int - '0' as int)
  }

  /** Reading the decimal notation of `n` back gives `n`. */
  lemma {:induction false} DecimalStringRoundTrip(n: nat)
    ensures DigitsValue(DecimalString(n)) == n
  {
    var s := DecimalString(n);
    if n >= 10 {
      assert s[..|s| - 1] == DecimalString(n / 10);
      DecimalStringRoundTrip(n / 10);
    }
  }

  /** Different numbers have different decimal notations. */
  lemma DecimalStringInjective(a: nat, b: nat)
    requires DecimalString(a) == DecimalString(b)
    ensures a == b
  {
    DecimalStringRoundTrip(a);
    DecimalStringRoundTrip(b);
  }

  // ---------------------------------------------------------------------------
  // The generated snippet
  // ---------------------------------------------------------------------------

  /** Which drawing property a palette entry is interpolated into. */
  datatype ColourRole = BackgroundRole | BorderStroke | TitleFill | CategoryFill

  /** The palette index the snippet reads for each role. */
  function PaletteIndex(role: ColourRole): nat
  {
    if role == BackgroundRole then 0 else 1
  }

  /** The fixed stretches of the template literal, named after what they hold. */
  datatype TemplatePiece =
    | HeaderOpen | HeaderSeparator | ImportsAndFactoryName | CanvasOptions | BorderOptions
    | TitleOptions | CategoryOpen | CategoryOptions | CategoryClose | BlockGap | UsageOpen | UsageClose
    | CornerHead | CornerTail | PatternHead | PatternTail

  /**
   * The text that closes the slot before a fixed piece: the quote and comma
   * ending a property value, or the quote ending the category text and the
   * brace opening its options.
   */
  function PieceHead(piece: TemplatePiece): string
  {
    match piece
    case BorderOptions | TitleOptions | CategoryOpen | CategoryClose => "',"
    case CategoryOptions => "', {"
    case _ => ""
  }

  /** The text that opens the slot after a fixed piece: a property name and its opening quote, or a `new Text(` call. */
  function PieceTail(piece: TemplatePiece): string
  {
    match piece
    case CanvasOptions => "backgroundColor: '"
    case BorderOptions => "stroke: '"
    case TitleOptions => "fontSize: 42,\n    fontWeight: 'bold',\n    fill: '"
    case CategoryOpen => "new Text('"
    case CategoryOptions => "fontSize: 24,\n    fontWeight: 'bold',\n    fill: '"
    case _ => ""
  }

  /** The text of each fixed piece between its head and its tail, character for character. */
  function PieceBody(piece: TemplatePiece): string
  {
    match piece
    case HeaderOpen => "// Certificate Design "
    case HeaderSeparator => ": "
    case ImportsAndFactoryName =>
      "\nimport { Canvas as FabricCanvas, Text, Rect, Circle } from 'fabric';\n\nconst createCertificate"
    case CanvasOptions =>
      " = (canvasElement) => {\n  // Initialize canvas\n"
      + "  const canvas = new FabricCanvas(canvasElement, {\n    width: 800,\n    height: 600,\n    "
    case BorderOptions =>
      "\n  });\n\n  // Add decorative border\n  const border = new Rect({\n    left: 40,\n"
      + "    top: 40,\n    width: 720,\n    height: 520,\n    fill: 'transparent',\n    "
    case TitleOptions =>
      "\n    strokeWidth: 4,\n    rx: 10,\n    ry: 10,\n  });\n  canvas.add(border);\n\n"
      + "  // Add title\n  const title = new Text('CERTIFICATE', {\n    left: 400,\n    top: 120,\n    "
    case CategoryOpen =>
      "\n    textAlign: 'center',\n    fontFamily: 'serif',\n  });\n"
      + "  title.set({ originX: 'center', originY: 'center' });\n  canvas.add(title);\n\n"
      + "  // Add category\n  const categoryText = "
    case CategoryOptions => "\n    left: 400,\n    top: 300,\n    "
    case CategoryClose =>
      "\n    textAlign: 'center',\n    fontFamily: 'sans-serif',\n  });\n"
      + "  categoryText.set({ originX: 'center', originY: 'center' });\n"
      + "  canvas.add(categoryText);\n\n  "
    case BlockGap => "\n\n  "
    case UsageOpen =>
      "\n\n  canvas.renderAll();\n  return canvas;\n};\n\n// Usage:\n// const canvas = createCertificate"
    case UsageClose => "(document.getElementById('canvas'));"
    case CornerHead =>
      "\n  // Add corner decorations\n  const corners = [\n    { left: 80, top: 80 },\n    { left: 720, top: 80 },\n"
      + "    { left: 80, top: 520 },\n    { left: 720, top: 520 }\n  ];\n  \n  corners.forEach(pos => {\n"
      + "    const decoration = new Circle({\n      left: pos.left,\n      top: pos.top,\n      radius: 15,\n      fill: '"
    case CornerTail => "',\n      opacity: 0.3,\n    });\n    canvas.add(decoration);\n  });"
    case PatternHead =>
      "\n  // Add geometric patterns\n  for (let i = 0; i < 3; i++) {\n    const leftPattern = new Rect({\n"
      + "      left: 60 + (i * 8),\n      top: 200 + (i * 40),\n      width: 4,\n      height: 30,\n      fill: '"
    case PatternTail =>
      "',\n      opacity: 0.4,\n      angle: 45,\n    });\n    canvas.add(leftPattern);\n  }"
  }

  /** The full text of a fixed piece. */
  function PieceText(piece: TemplatePiece): string
  {
    PieceHead(piece) + PieceBody(piece) + PieceTail(piece)
  }

  /** Every fixed piece starts with its head and ends with its tail. */
  lemma PieceFrames(piece: TemplatePiece)
    ensures StartsWith(PieceText(piece), PieceHead(piece))
    ensures EndsWith(PieceText(piece), PieceTail(piece))
  {
    ConcatFrames(PieceHead(piece), PieceBody(piece), PieceTail(piece));
  }

  /** A piece of the snippet: fixed template text or an interpolated value. */
  datatype Segment =
    | Fixed(piece: TemplatePiece)
    | DesignNumber(number: nat)
    | DesignName(name: string)
    | PaletteColour(role: ColourRole, value: Colour)
    | CategoryText(text: string)
    | CornerBlock(fill: Colour)
    | PatternBlock(fill: Colour)

  function RenderSegment(s: Segment): string
  {
    match s
    case Fixed(piece) => PieceText(piece)
    case DesignNumber(n) => DecimalString(n)
    case DesignName(name) => name
    case PaletteColour(_, value) => value
    case CategoryText(text) => text
    case CornerBlock(fill) => PieceText(CornerHead) + fill + PieceText(CornerTail)
    case PatternBlock(fill) => PieceText(PatternHead) + fill + PieceText(PatternTail)
  }

  /** The snippet as the string the template literal evaluates to. */
  function Render(segments: seq<Segment>): string
  {
    ConcatMap(RenderSegment, segments)
  }
  /**
   * A segment between two fixed pieces is rendered between the tail of the
   * piece before it and the head of the piece after it.
   */
  lemma RenderFramed(code: seq<Segment>, k: nat)
    requires 0 < k < |code| - 1 && code[k - 1].Fixed? && code[k + 1].Fixed?
    ensures Contains(Render(code), PieceTail(code[k - 1].piece) + RenderSegment(code[k]) + PieceHead(code[k + 1].piece))
  {
    PieceFrames(code[k - 1].piece);
    PieceFrames(code[k + 1].piece);
    ConcatMapFramed(RenderSegment, code, k, PieceTail(code[k - 1].piece), PieceHead(code[k + 1].piece));
  }


  /**
   * The source snippet for design number `designNumber`: it recreates the
   * border, title and category text, plus the corner ornaments for gold and
   * classic or the left geometric pattern for royal and elegant.
   */
  function CanvasCode(design: BaseDesign, category: string, designNumber: nat): (code: seq<Segment>)
    ensures |code| >= 4 && code[..4] == [Fixed(HeaderOpen), DesignNumber(designNumber), Fixed(HeaderSeparator), DesignName(design.name)]
    ensures |code| > 13 && code[13] == CategoryText(category)
    ensures forall k | 0 <= k < |code| :: code[k].CategoryText? ==> code[k].text == category
  {
    var palette := ThemeColors(design.theme);
    [ Fixed(HeaderOpen), DesignNumber(designNumber), Fixed(HeaderSeparator), DesignName(design.name),
      Fixed(ImportsAndFactoryName), DesignNumber(designNumber),
      Fixed(CanvasOptions), PaletteColour(BackgroundRole, palette[0]),
      Fixed(BorderOptions), PaletteColour(BorderStroke, palette[1]),
      Fixed(TitleOptions), PaletteColour(TitleFill, palette[1]),
      Fixed(CategoryOpen), CategoryText(category),
      Fixed(CategoryOptions), PaletteColour(CategoryFill, palette[1]),
      Fixed(CategoryClose) ]
    + (if HasCornerOrnaments(design.theme) then [CornerBlock(palette[1])] else [])
    + [Fixed(BlockGap)]
    + (if HasGeometricPatterns(design.theme) then [PatternBlock(palette[1])] else [])
    + [Fixed(UsageOpen), DesignNumber(designNumber), Fixed(UsageClose)]
  }

  /** Every number the snippet interpolates is its own design number. */
  lemma CodeNumbersAgree(design: BaseDesign, category: string, designNumber: nat)
    ensures var code := CanvasCode(design, category, designNumber);
      forall k | 0 <= k < |code| :: code[k].DesignNumber? ==> code[k].number == designNumber
  {
  }

  /**
   * The palette slots of the snippet: the canvas background reads entry 0 of
   * the theme's palette, the border stroke, title fill and category fill read
   * entry 1, and no slot carries any other value.
   */
  lemma CodePaletteRoles(design: BaseDesign, category: string, designNumber: nat)
    ensures var code := CanvasCode(design, category, designNumber);
      forall k | 0 <= k < |code| :: code[k].PaletteColour? ==>
        code[k].value == ThemeColors(design.theme)[PaletteIndex(code[k].role)]
    ensures var code := CanvasCode(design, category, designNumber);
      forall role: ColourRole :: PaletteColour(role, ThemeColors(design.theme)[PaletteIndex(role)]) in code
  {
    var code := CanvasCode(design, category, designNumber);
    var palette := ThemeColors(design.theme);
    assert code[7] == PaletteColour(BackgroundRole, palette[0]);
    assert code[9] == PaletteColour(BorderStroke, palette[1]);
    assert code[11] == PaletteColour(TitleFill, palette[1]);
    assert code[15] == PaletteColour(CategoryFill, palette[1]);
  }

  /**
   * The corner-ornament block is present exactly for gold and classic, the
   * geometric-pattern block exactly for royal and elegant, and no snippet
   * carries both.
   */
  lemma CodeMotifBlocks(design: BaseDesign, category: string, designNumber: nat)
    ensures var code := CanvasCode(design, category, designNumber);
      (exists k | 0 <= k < |code| :: code[k].CornerBlock?) <==> HasCornerOrnaments(design.theme)
    ensures var code := CanvasCode(design, category, designNumber);
      (exists k | 0 <= k < |code| :: code[k].PatternBlock?) <==> HasGeometricPatterns(design.theme)
    ensures var code := CanvasCode(design, category, designNumber);
      !((exists k | 0 <= k < |code| :: code[k].CornerBlock?) && (exists k | 0 <= k < |code| :: code[k].PatternBlock?))
  {
    var code := CanvasCode(design, category, designNumber);
    if HasCornerOrnaments(design.theme) {
      assert code[17].CornerBlock?;
    }
    if HasGeometricPatterns(design.theme) {
      assert code[|code| - 4].PatternBlock?;
    }
  }

  /** Both motif blocks draw in palette entry 1. */
  lemma CodeMotifFill(design: BaseDesign, category: string, designNumber: nat)
    ensures var code := CanvasCode(design, category, designNumber);
      forall k | 0 <= k < |code| :: code[k].CornerBlock? || code[k].PatternBlock? ==>
        code[k].fill == ThemeColors(design.theme)[1]
  {
  }

  /** The two fixed pieces of the header line. */
  lemma HeaderPieces()
    ensures PieceText(HeaderOpen) == "// Certificate Design " && PieceText(HeaderSeparator) == ": "
  {
  }

  /** A segment list that opens with the header renders to a string that opens with the header line. */
  lemma RenderHeader(code: seq<Segment>, designNumber: nat, name: string)
    requires |code| >= 4
    requires code[..4] == [Fixed(HeaderOpen), DesignNumber(designNumber), Fixed(HeaderSeparator), DesignName(name)]
    ensures "// Certificate Design " + DecimalString(designNumber) + ": " + name <= Render(code)
  {
    assert code[0] == Fixed(HeaderOpen) && code[1] == DesignNumber(designNumber);
    assert code[2] == Fixed(HeaderSeparator) && code[3] == DesignName(name);
    HeaderPieces();
    ConcatMapFourPrefix(RenderSegment, code);
  }

  /** The rendered snippet opens with the header line naming the design. */
  lemma CodeStartsWithHeader(design: BaseDesign, category: string, designNumber: nat)
    ensures "// Certificate Design " + DecimalString(designNumber) + ": " + design.name
      <= Render(CanvasCode(design, category, designNumber))
  {
    RenderHeader(CanvasCode(design, category, designNumber), designNumber, design.name);
  }

  /** The category slot sits between a `new Text(` call and the brace opening its options. */
  lemma CategoryFrame()
    ensures PieceTail(CategoryOpen) == "new Text('" && PieceHead(CategoryOptions) == "', {"
  {
  }

  /** A segment list with the category slot between its two fixed neighbours renders the category inside a `new Text(...)` call. */
  lemma RenderCategory(code: seq<Segment>, category: string)
    requires |code| > 14 && code[12] == Fixed(CategoryOpen) && code[13] == CategoryText(category)
    requires code[14] == Fixed(CategoryOptions)
    ensures Contains(Render(code), "new Text('" + category + "', {")
  {
    RenderFramed(code, 13);
    CategoryFrame();
  }

  /** The rendered snippet passes the category verbatim as the text of a `new Text(...)` call. */
  lemma CodeEmbedsCategory(design: BaseDesign, category: string, designNumber: nat)
    ensures Contains(Render(CanvasCode(design, category, designNumber)), "new Text('" + category + "', {")
  {
    RenderCategory(CanvasCode(design, category, designNumber), category);
  }

  /** The fixed piece the snippet places right before the slot of each colour role. */
  function SlotOpening(role: ColourRole): TemplatePiece
  {
    match role
    case BackgroundRole => CanvasOptions
    case BorderStroke => BorderOptions
    case TitleFill => TitleOptions
    case CategoryFill => CategoryOptions
  }

  /**
   * Every palette slot sits between two fixed pieces, and the piece before it
   * is the one that opens that role's property.
   */
  lemma CodePaletteSlots(design: BaseDesign, category: string, designNumber: nat)
    ensures var code := CanvasCode(design, category, designNumber);
      forall k | 0 <= k < |code| :: code[k].PaletteColour? ==>
        && 0 < k < |code| - 1
        && code[k - 1] == Fixed(SlotOpening(code[k].role))
        && code[k + 1].Fixed?
  {
    var code := CanvasCode(design, category, designNumber);
    forall k | 0 <= k < |code| && code[k].PaletteColour?
      ensures 0 < k < |code| - 1 && code[k - 1] == Fixed(SlotOpening(code[k].role)) && code[k + 1].Fixed?
    {
      assert k == 7 || k == 9 || k == 11 || k == 15;
    }
  }

  /** The text the snippet writes right before the slot of each colour role. */
  function SlotLead(role: ColourRole): string
  {
    match role
    case BackgroundRole => "backgroundColor: '"
    case BorderStroke => "stroke: '"
    case TitleFill => "fontSize: 42,\n    fontWeight: 'bold',\n    fill: '"
    case CategoryFill => "fontSize: 24,\n    fontWeight: 'bold',\n    fill: '"
  }

  /** The fixed piece the snippet places right after the slot of each colour role. */
  function SlotClosing(role: ColourRole): TemplatePiece
  {
    match role
    case BackgroundRole => BorderOptions
    case BorderStroke => TitleOptions
    case TitleFill => CategoryOpen
    case CategoryFill => CategoryClose
  }

  /** The slot of each colour role opens with its lead text and is closed by a quote and a comma. */
  lemma SlotFrame(role: ColourRole)
    ensures PieceTail(SlotOpening(role)) == SlotLead(role) && PieceHead(SlotClosing(role)) == "',"
  {
  }

  /** A palette slot between the pieces its role expects renders as the value of the role's property. */
  lemma RenderSlot(code: seq<Segment>, k: nat, role: ColourRole, value: Colour)
    requires 0 < k < |code| - 1 && code[k] == PaletteColour(role, value)
    requires code[k - 1] == Fixed(SlotOpening(role)) && code[k + 1] == Fixed(SlotClosing(role))
    ensures Contains(Render(code), SlotLead(role) + value + "',")
  {
    RenderFramed(code, k);
    SlotFrame(role);
    assert PieceTail(code[k - 1].piece) + RenderSegment(code[k]) + PieceHead(code[k + 1].piece)
      == SlotLead(role) + value + "',";
  }

  /**
   * The rendered snippet writes every role's palette entry as the value of
   * that role's property: the canvas background gets entry 0, the border
   * stroke and both text fills entry 1.
   */
  lemma CodeColoursInText(design: BaseDesign, category: string, designNumber: nat)
    ensures var text, palette := Render(CanvasCode(design, category, designNumber)), ThemeColors(design.theme);
      forall role: ColourRole :: Contains(text, SlotLead(role) + palette[PaletteIndex(role)] + "',")
  {
    var code, palette := CanvasCode(design, category, designNumber), ThemeColors(design.theme);
    forall role: ColourRole
      ensures Contains(Render(code), SlotLead(role) + palette[PaletteIndex(role)] + "',")
    {
      var k := match role
        case BackgroundRole => 7
        case BorderStroke => 9
        case TitleFill => 11
        case CategoryFill => 15;
      assert code[k - 1] == Fixed(SlotOpening(role)) && code[k + 1] == Fixed(SlotClosing(role));
      assert code[k] == PaletteColour(role, palette[PaletteIndex(role)]);
      RenderSlot(code, k, role, palette[PaletteIndex(role)]);
    }
  }

  // ---------------------------------------------------------------------------
  // The generator
  // ---------------------------------------------------------------------------

  /** Turns table entry number `index` (from 0) into a design record. */
  function MakeDesign(design: BaseDesign, category: string, index: nat): CertificateDesign
  {
    CertificateDesign(
      id := "cert-" + DecimalString(index + 1),
      name := design.name + " - " + category,
      theme := design.theme,
      layout := design.layout,
      colors := ThemeColors(design.theme),
      elements := design.elements,
      code := Render(CanvasCode(design, category, index + 1)))
  }

  /** The five designs for `category`, one per table entry, in table order. */
  function GenerateCertificateDesigns(category: string): (designs: seq<CertificateDesign>)
    ensures |designs| == |BaseDesigns| == 5
    ensures forall i | 0 <= i < 5 :: designs[i].theme == Themes[i]
    ensures forall i | 0 <= i < 5 ::
      && designs[i].layout == BaseDesigns[i].layout
      && designs[i].elements == BaseDesigns[i].elements
      && designs[i].colors == ThemeColors(designs[i].theme)
    ensures forall i | 0 <= i < 5 :: designs[i].id == "cert-" + DecimalString(i + 1)
    ensures forall i | 0 <= i < 5 :: designs[i].name == BaseDesigns[i].name + " - " + category
    ensures forall i | 0 <= i < 5 :: designs[i].code == Render(CanvasCode(BaseDesigns[i], category, i + 1))
  {
    seq(|BaseDesigns|, i requires 0 <= i < |BaseDesigns| => MakeDesign(BaseDesigns[i], category, i))
  }

  /** Records made from different table positions get different ids. */
  lemma MakeDesignIdsDiffer(d1: BaseDesign, d2: BaseDesign, category: string, i: nat, j: nat)
    requires i != j
    ensures MakeDesign(d1, category, i).id != MakeDesign(d2, category, j).id
  {
    var id1, id2 := MakeDesign(d1, category, i).id, MakeDesign(d2, category, j).id;
    if id1 == id2 {
      assert DecimalString(i + 1) == id1[5..] == id2[5..] == DecimalString(j + 1);
      DecimalStringInjective(i + 1, j + 1);
    }
  }

  /** The ids of the generated designs are pairwise distinct. */
  lemma DesignIdsDistinct(category: string)
    ensures var designs := GenerateCertificateDesigns(category);
      forall i, j | 0 <= i < j < |designs| :: designs[i].id != designs[j].id
  {
    forall i, j | 0 <= i < j < |BaseDesigns| {
      MakeDesignIdsDiffer(BaseDesigns[i], BaseDesigns[j], category, i, j);
    }
  }

  /** A record's name is the table name followed by " - " and the category. */
  lemma MakeDesignNameSuffix(design: BaseDesign, category: string, index: nat)
    ensures var name, suffix := MakeDesign(design, category, index).name, " - " + category;
      |name| >= |suffix| && name[|name| - |suffix|..] == suffix
  {
    var name := MakeDesign(design, category, index).name;
    assert name == design.name + (" - " + category);
  }

  /** Every generated name ends with " - " followed by the category. */
  lemma DesignNamesEndWithCategory(category: string)
    ensures var designs := GenerateCertificateDesigns(category);
      forall i | 0 <= i < |designs| ::
        var name, suffix := designs[i].name, " - " + category;
        |name| >= |suffix| && name[|name| - |suffix|..] == suffix
  {
    forall i | 0 <= i < |BaseDesigns| {
      MakeDesignNameSuffix(BaseDesigns[i], category, i);
    }
  }

  /**
   * Every generated design carries a snippet that opens with its own number
   * and table name and embeds the category in a `new Text(...)` call.
   */
  lemma DesignCodesDescribeTheirDesign(category: string)
    ensures var designs := GenerateCertificateDesigns(category);
      forall i | 0 <= i < |designs| ::
        && "// Certificate Design " + DecimalString(i + 1) + ": " + BaseDesigns[i].name <= designs[i].code
        && Contains(designs[i].code, "new Text('" + category + "', {")
  {
    var designs := GenerateCertificateDesigns(category);
    forall i | 0 <= i < |designs|
      ensures "// Certificate Design " + DecimalString(i + 1) + ": " + BaseDesigns[i].name <= designs[i].code
      ensures Contains(designs[i].code, "new Text('" + category + "', {")
    {
      CodeStartsWithHeader(BaseDesigns[i], category, i + 1);
      CodeEmbedsCategory(BaseDesigns[i], category, i + 1);
    }
  }
}
