/**
 * The certificate layout drawn on a Fabric.js canvas. The canvas is a
 * background colour plus the list of drawing objects added to it, in the
 * order they were added (later objects are drawn over earlier ones).
 * `CreateCertificate` clears the canvas, sets the background and appends a
 * border, the theme's motifs, the title and recipient block and the date and
 * signature block; `CertificateLayout` is the object list it leaves behind.
 */
module CertificateCanvas {
  import opened DesignRecord

  datatype Option<T> = None | Some(value: T)

  /** The logical extent of the canvas, in pixels. */
  const CanvasWidth: int := 800
  const CanvasHeight: int := 600

  /**
   * A Fabric.js drawing object with the attributes the source sets. An
   * attribute the source leaves unset is `None` (Fabric then uses its own
   * default); opacity is an integer percentage (0.3 is 30); `centred` records
   * that the source re-anchors the text at its centre.
   */
  datatype FabricObject =
    | Rect(left: int, top: int, width: nat, height: nat, fill: Colour, stroke: Option<Colour>,
           strokeWidth: Option<nat>, rx: Option<nat>, ry: Option<nat>, opacity: Option<nat>, angle: Option<int>)
    | Circle(left: int, top: int, radius: nat, fill: Colour, opacity: Option<nat>)
    | Text(text: string, left: int, top: int, fontSize: nat, fontWeight: Option<string>, fill: Colour,
           textAlign: Option<string>, fontFamily: string, fontStyle: Option<string>,
           letterSpacing: Option<nat>, centred: bool)

  // ---------------------------------------------------------------------------
  // Colour lookups
  // ---------------------------------------------------------------------------

  const Backgrounds: map<string, Colour> := map[
    "gold" := "#FEF3C7", "royal" := "#EDE9FE", "elegant" := "#F3E8FF", "modern" := "#F1F5F9", "classic" := "#FEF7ED"
  ]

  const PrimaryColors: map<string, Colour> := map[
    "gold" := "#D97706", "royal" := "#3730A3", "elegant" := "#7C3AED", "modern" := "#0F172A", "classic" := "#92400E"
  ]

  const SecondaryColors: map<string, Colour> := map[
    "gold" := "#92400E", "royal" := "#1E1B4B", "elegant" := "#581C87", "modern" := "#475569", "classic" := "#78350F"
  ]

  /** The canvas background for a theme; unknown themes get the modern one. */
  function BackgroundColor(theme: string): (c: Colour)
    ensures theme in Themes ==> c == Backgrounds[theme]
    ensures theme !in Themes ==> c == "#F1F5F9"
  {
    if theme in Backgrounds then Backgrounds[theme] else Backgrounds["modern"]
  }

  /** The primary (border, title, motif) colour; unknown themes get the modern one. */
  function ThemeColor(theme: string): (c: Colour)
    ensures theme in Themes ==> c == PrimaryColors[theme]
    ensures theme !in Themes ==> c == "#0F172A"
  {
    if theme in PrimaryColors then PrimaryColors[theme] else PrimaryColors["modern"]
  }

  /** The secondary (labels, date and signature) colour; unknown themes get the modern one. */
  function SecondaryColor(theme: string): (c: Colour)
    ensures theme in Themes ==> c == SecondaryColors[theme]
    ensures theme !in Themes ==> c == "#475569"
  {
    if theme in SecondaryColors then SecondaryColors[theme] else SecondaryColors["modern"]
  }

  // ---------------------------------------------------------------------------
  // The objects of the layout
  // ---------------------------------------------------------------------------

  /** The rounded border, inset 40 pixels from every edge, stroked and not filled. */
  function Border(colour: Colour): FabricObject
  {
    Rect(40, 40, 720, 520, "transparent", Some(colour), Some(4), Some(10), Some(10), None, None)
  }

  /** One translucent corner ornament of radius 15 anchored at (left, top). */
  function CornerOrnament(left: int, top: int, colour: Colour): FabricObject
  {
    Circle(left, top, 15, colour, Some(30))
  }

  /** The four corner ornaments, top-left, top-right, bottom-left, bottom-right. */
  function CornerDecorations(colour: Colour): (circles: seq<FabricObject>)
    ensures |circles| == 4
    ensures forall k | 0 <= k < 4 ::
      circles[k].Circle? && circles[k].radius == 15 && circles[k].fill == colour && circles[k].opacity == Some(30)
  {
    [ CornerOrnament(80, 80, colour), CornerOrnament(720, 80, colour),
      CornerOrnament(80, 520, colour), CornerOrnament(720, 520, colour) ]
  }

  /** Bar `i` of the left pattern: a translucent 4x30 bar turned by 45 degrees. */
  function LeftBar(i: int, colour: Colour): FabricObject
  {
    Rect(60 + i * 8, 200 + i * 40, 4, 30, colour, None, None, None, None, Some(40), Some(45))
  }

  /** Bar `i` of the right pattern: a translucent 4x30 bar turned by -45 degrees. */
  function RightBar(i: int, colour: Colour): FabricObject
  {
    Rect(740 - i * 8, 200 + i * 40, 4, 30, colour, None, None, None, None, Some(40), Some(-45))
  }

  /** The left geometric pattern: bars 0, 1 and 2. */
  function LeftPattern(colour: Colour): (bars: seq<FabricObject>)
  {
    seq(3, i => LeftBar(i, colour))
  }

  /** The right geometric pattern: bars 0, 1 and 2. */
  function RightPattern(colour: Colour): (bars: seq<FabricObject>)
  {
    seq(3, i => RightBar(i, colour))
  }

  function GeometricPatterns(colour: Colour): seq<FabricObject>
  {
    LeftPattern(colour) + RightPattern(colour)
  }

  /** The theme's decorative motifs: corner ornaments, geometric patterns or nothing. */
  function Motifs(theme: string): (motifs: seq<FabricObject>)
    ensures |motifs| == if HasCornerOrnaments(theme) then 4 else if HasGeometricPatterns(theme) then 6 else 0
  {
    (if HasCornerOrnaments(theme) then CornerDecorations(ThemeColor(theme)) else [])
    + (if HasGeometricPatterns(theme) then GeometricPatterns(ThemeColor(theme)) else [])
  }

  /** "CERTIFICATE", bold serif 42, centred at (400, 120). */
  function Title(primary: Colour): FabricObject
  {
    Text("CERTIFICATE", 400, 120, 42, Some("bold"), primary, Some("center"), "serif", None, None, true)
  }

  /** "OF ACHIEVEMENT", serif 18 spaced by 2, centred at (400, 170). */
  function Subtitle(secondary: Colour): FabricObject
  {
    Text("OF ACHIEVEMENT", 400, 170, 18, None, secondary, Some("center"), "serif", None, Some(2), true)
  }

  /** The category, verbatim, bold sans-serif 24, centred at (400, 300). */
  function CategoryText(category: string, primary: Colour): FabricObject
  {
    Text(category, 400, 300, 24, Some("bold"), primary, Some("center"), "sans-serif", None, None, true)
  }

  /** "This certifies that", serif 16, centred at (400, 240). */
  function RecipientLabel(secondary: Colour): FabricObject
  {
    Text("This certifies that", 400, 240, 16, None, secondary, Some("center"), "serif", None, None, true)
  }

  /** The 200x2 line the recipient's name is written on. */
  function RecipientLine(primary: Colour): FabricObject
  {
    Rect(300, 350, 200, 2, primary, None, None, None, None, None, None)
  }

  /** "[Recipient Name]", italic serif 20, centred at (400, 340). */
  function RecipientText(secondary: Colour): FabricObject
  {
    Text("[Recipient Name]", 400, 340, 20, None, secondary, Some("center"), "serif", Some("italic"), None, true)
  }

  /** "has successfully completed", serif 16, centred at (400, 380). */
  function CompletionText(secondary: Colour): FabricObject
  {
    Text("has successfully completed", 400, 380, 16, None, secondary, Some("center"), "serif", None, None, true)
  }

  /**
   * The seven title and recipient objects, in the order the source adds them:
   * the category text comes before the "This certifies that" label, and the
   * recipient underline before the recipient placeholder.
   */
  function TitleAndRecipient(theme: string, category: string): (objects: seq<FabricObject>)
    ensures |objects| == 7
  {
    var primary, secondary := ThemeColor(theme), SecondaryColor(theme);
    [ Title(primary), Subtitle(secondary), CategoryText(category, primary), RecipientLabel(secondary),
      RecipientLine(primary), RecipientText(secondary), CompletionText(secondary) ]
  }

  function DateLabel(colour: Colour): FabricObject
  {
    Text("Date:", 150, 480, 14, None, colour, None, "serif", None, None, false)
  }

  function DateLine(colour: Colour): FabricObject
  {
    Rect(200, 490, 120, 1, colour, None, None, None, None, None, None)
  }

  function SignatureLabel(colour: Colour): FabricObject
  {
    Text("Authorized Signature:", 450, 480, 14, None, colour, None, "serif", None, None, false)
  }

  function SignatureLine(colour: Colour): FabricObject
  {
    Rect(580, 490, 150, 1, colour, None, None, None, None, None, None)
  }

  /** The date and signature labels with their underlines. */
  function DateAndSignature(colour: Colour): (objects: seq<FabricObject>)
    ensures |objects| == 4
    ensures forall k | 0 <= k < 4 :: objects[k].fill == colour
  {
    [DateLabel(colour), DateLine(colour), SignatureLabel(colour), SignatureLine(colour)]
  }

  /** Everything `CreateCertificate` leaves on the canvas, in the order it was added. */
  function CertificateLayout(theme: string, category: string): seq<FabricObject>
  {
    [Border(ThemeColor(theme))] + Motifs(theme) + TitleAndRecipient(theme, category)
    + DateAndSignature(SecondaryColor(theme))
  }

  // ---------------------------------------------------------------------------
  // Properties of the layout
  // ---------------------------------------------------------------------------

  /** The object count: 16 with corner ornaments, 18 with geometric patterns, 12 otherwise. */
  lemma LayoutObjectCount(theme: string, category: string)
    ensures |CertificateLayout(theme, category)|
      == if HasCornerOrnaments(theme) then 16 else if HasGeometricPatterns(theme) then 18 else 12
  {
  }

  /** Which part of the layout the object at position `k` comes from. */
  lemma LayoutAt(theme: string, category: string, k: int)
    requires 0 <= k < |CertificateLayout(theme, category)|
    ensures var layout, m := CertificateLayout(theme, category), |Motifs(theme)|;
      layout[k] ==
        if k == 0 then Border(ThemeColor(theme))
        else if k <= m then Motifs(theme)[k - 1]
        else if k <= m + 7 then TitleAndRecipient(theme, category)[k - m - 1]
        else DateAndSignature(SecondaryColor(theme))[k - m - 8]
  {
    ConcatAt(Border(ThemeColor(theme)), Motifs(theme), TitleAndRecipient(theme, category),
      DateAndSignature(SecondaryColor(theme)), k);
  }

  /** Which motif sits at position `i` of the motifs. */
  lemma MotifAt(theme: string, i: int)
    requires 0 <= i < |Motifs(theme)|
    ensures var c := ThemeColor(theme);
      Motifs(theme)[i] ==
        if HasCornerOrnaments(theme) then CornerDecorations(c)[i]
        else if i < 3 then LeftBar(i, c)
        else RightBar(i - 3, c)
  {
  }

  /** Which title or recipient object sits at position `j` of that block. */
  lemma TitleAndRecipientAt(theme: string, category: string, j: int)
    requires 0 <= j < 7
    ensures var p, s := ThemeColor(theme), SecondaryColor(theme);
      TitleAndRecipient(theme, category)[j] ==
        if j == 0 then Title(p) else if j == 1 then Subtitle(s) else if j == 2 then CategoryText(category, p)
        else if j == 3 then RecipientLabel(s) else if j == 4 then RecipientLine(p)
        else if j == 5 then RecipientText(s) else CompletionText(s)
  {
  }

  /** Which date or signature object sits at position `j` of that block. */
  lemma DateAndSignatureAt(colour: Colour, j: int)
    requires 0 <= j < 4
    ensures DateAndSignature(colour)[j] ==
      if j == 0 then DateLabel(colour) else if j == 1 then DateLine(colour)
      else if j == 2 then SignatureLabel(colour) else SignatureLine(colour)
  {
  }

  /** The object at position `k` of the layout, down to the function that builds it. */
  lemma LayoutAtObject(theme: string, category: string, k: int)
    requires 0 <= k < |CertificateLayout(theme, category)|
    ensures var layout, m := CertificateLayout(theme, category), |Motifs(theme)|;
      var p, s := ThemeColor(theme), SecondaryColor(theme);
      layout[k] ==
        if k == 0 then Border(p)
        else if k <= m then (if HasCornerOrnaments(theme) then CornerDecorations(p)[k - 1]
                             else if k <= 3 then LeftBar(k - 1, p) else RightBar(k - 4, p))
        else if k == m + 1 then Title(p) else if k == m + 2 then Subtitle(s)
        else if k == m + 3 then CategoryText(category, p) else if k == m + 4 then RecipientLabel(s)
        else if k == m + 5 then RecipientLine(p) else if k == m + 6 then RecipientText(s)
        else if k == m + 7 then CompletionText(s)
        else if k == m + 8 then DateLabel(s) else if k == m + 9 then DateLine(s)
        else if k == m + 10 then SignatureLabel(s) else SignatureLine(s)
  {
    LayoutAt(theme, category, k);
    var m := |Motifs(theme)|;
    if k == 0 {
    } else if k <= m {
      MotifAt(theme, k - 1);
    } else if k <= m + 7 {
      TitleAndRecipientAt(theme, category, k - m - 1);
    } else {
      DateAndSignatureAt(SecondaryColor(theme), k - m - 8);
    }
  }

  /** Indexing into one element followed by three sequences. */
  lemma ConcatAt<T>(first: T, b: seq<T>, c: seq<T>, d: seq<T>, k: int)
    requires 0 <= k < 1 + |b| + |c| + |d|
    ensures ([first] + b + c + d)[k] ==
      if k == 0 then first
      else if k <= |b| then b[k - 1]
      else if k <= |b| + |c| then c[k - |b| - 1]
      else d[k - |b| - |c| - 1]
  {
  }

  /** The first object is the border, and it is the only object with a stroke. */
  lemma LayoutStartsWithBorder(theme: string, category: string)
    ensures var layout := CertificateLayout(theme, category);
      layout[0] == Rect(40, 40, 720, 520, "transparent", Some(ThemeColor(theme)), Some(4), Some(10), Some(10), None, None)
    ensures var layout := CertificateLayout(theme, category);
      forall k | 0 <= k < |layout| :: layout[k].Rect? && layout[k].stroke.Some? ==> k == 0
  {
    var layout := CertificateLayout(theme, category);
    forall k | 0 <= k < |layout|
      ensures layout[k].Rect? && layout[k].stroke.Some? ==> k == 0
    {
      LayoutAtObject(theme, category, k);
    }
  }
  /**
   * Gold and classic get four translucent circles in the primary colour at the
   * four inner corners, right after the border; no other theme and no other
   * position holds a circle.
   */
  lemma LayoutCornerOrnaments(theme: string, category: string)
    ensures var layout, c := CertificateLayout(theme, category), ThemeColor(theme);
      HasCornerOrnaments(theme) ==>
        layout[1..5] == [ Circle(80, 80, 15, c, Some(30)), Circle(720, 80, 15, c, Some(30)),
                          Circle(80, 520, 15, c, Some(30)), Circle(720, 520, 15, c, Some(30)) ]
    ensures var layout := CertificateLayout(theme, category);
      forall k | 0 <= k < |layout| :: layout[k].Circle? ==> HasCornerOrnaments(theme) && 1 <= k <= 4
  {
    var layout, c := CertificateLayout(theme, category), ThemeColor(theme);
    if HasCornerOrnaments(theme) {
      forall k | 1 <= k < 5
        ensures layout[k] == CornerDecorations(c)[k - 1]
      {
        LayoutAtObject(theme, category, k);
      }
    }
    forall k | 0 <= k < |layout|
      ensures layout[k].Circle? ==> HasCornerOrnaments(theme) && 1 <= k <= 4
    {
      LayoutAtObject(theme, category, k);
    }
  }

  /**
   * Royal and elegant get six 4x30 bars in the primary colour right after the
   * border: three at (60 + 8i, 200 + 40i) turned by 45 degrees, then three at
   * (740 - 8i, 200 + 40i) turned by -45 degrees; no other object is rotated.
   */
  lemma LayoutGeometricPatterns(theme: string, category: string)
    ensures var layout, c := CertificateLayout(theme, category), ThemeColor(theme);
      HasGeometricPatterns(theme) ==> forall i | 0 <= i < 3 ::
        && layout[1 + i] == Rect(60 + i * 8, 200 + i * 40, 4, 30, c, None, None, None, None, Some(40), Some(45))
        && layout[4 + i] == Rect(740 - i * 8, 200 + i * 40, 4, 30, c, None, None, None, None, Some(40), Some(-45))
    ensures var layout := CertificateLayout(theme, category);
      forall k | 0 <= k < |layout| :: layout[k].Rect? && layout[k].angle.Some? ==>
        HasGeometricPatterns(theme) && 1 <= k <= 6
  {
    var layout, c := CertificateLayout(theme, category), ThemeColor(theme);
    if HasGeometricPatterns(theme) {
      forall i | 0 <= i < 3
        ensures && layout[1 + i] == Rect(60 + i * 8, 200 + i * 40, 4, 30, c, None, None, None, None, Some(40), Some(45))
                && layout[4 + i] == Rect(740 - i * 8, 200 + i * 40, 4, 30, c, None, None, None, None, Some(40), Some(-45))
      {
        LayoutAtObject(theme, category, 1 + i);
        LayoutAtObject(theme, category, 4 + i);
      }
    }
    forall k | 0 <= k < |layout|
      ensures layout[k].Rect? && layout[k].angle.Some? ==> HasGeometricPatterns(theme) && 1 <= k <= 6
    {
      LayoutAtObject(theme, category, k);
    }
  }

  /** The anchor points of the right pattern mirror those of the left one about the vertical centre line of the canvas. */
  lemma PatternsMirrored(colour: Colour)
    ensures forall i | 0 <= i < 3 ::
      && LeftPattern(colour)[i].left + RightPattern(colour)[i].left == CanvasWidth
      && LeftPattern(colour)[i].top == RightPattern(colour)[i].top
      && LeftPattern(colour)[i].angle.value == - RightPattern(colour)[i].angle.value
    ensures forall i | 0 <= i < 2 ::
      && LeftPattern(colour)[i + 1].left == LeftPattern(colour)[i].left + 8
      && LeftPattern(colour)[i + 1].top == LeftPattern(colour)[i].top + 40
  {
  }

  /**
   * The anchor points of the corner ornaments sit 40 pixels in from the four
   * corners of the border, one per corner.
   */
  lemma CornersInsetFromBorder(colour: Colour)
    ensures var border, circles := Border(colour), CornerDecorations(colour);
      forall k | 0 <= k < 4 ::
        && (circles[k].left == border.left + 40 || circles[k].left == border.left + border.width - 40)
        && (circles[k].top == border.top + 40 || circles[k].top == border.top + border.height - 40)
    ensures var circles := CornerDecorations(colour);
      forall j, k | 0 <= j < k < 4 :: (circles[j].left, circles[j].top) != (circles[k].left, circles[k].top)
  {
  }

  /** The category is drawn verbatim, centred at (400, 300), bold sans-serif 24, primary colour. */
  lemma LayoutCategoryText(theme: string, category: string)
    ensures var layout, m := CertificateLayout(theme, category), |Motifs(theme)|;
      layout[m + 3] == Text(category, 400, 300, 24, Some("bold"), ThemeColor(theme), Some("center"), "sans-serif", None, None, true)
  {
    LayoutAtObject(theme, category, |Motifs(theme)| + 3);
  }

  /**
   * The append order is not the reading order: the category text is added
   * before the "This certifies that" label although it sits lower on the page,
   * and the recipient underline is added before the placeholder drawn over it.
   */
  lemma LayoutAppendOrder(theme: string, category: string)
    ensures var layout, m := CertificateLayout(theme, category), |Motifs(theme)|;
      && layout[m + 3].Text? && layout[m + 3].text == category
      && layout[m + 4].Text? && layout[m + 4].text == "This certifies that"
      && layout[m + 4].top < layout[m + 3].top
    ensures var layout, m := CertificateLayout(theme, category), |Motifs(theme)|;
      && layout[m + 5] == Rect(300, 350, 200, 2, ThemeColor(theme), None, None, None, None, None, None)
      && layout[m + 6].Text? && layout[m + 6].text == "[Recipient Name]"
  {
    var m := |Motifs(theme)|;
    LayoutAtObject(theme, category, m + 3);
    LayoutAtObject(theme, category, m + 4);
    LayoutAtObject(theme, category, m + 5);
    LayoutAtObject(theme, category, m + 6);
  }

  /** The last four objects are the date and signature labels and lines, all in the secondary colour. */
  lemma LayoutEndsWithDateAndSignature(theme: string, category: string)
    ensures var layout, c := CertificateLayout(theme, category), SecondaryColor(theme);
      layout[|layout| - 4..] == [
        Text("Date:", 150, 480, 14, None, c, None, "serif", None, None, false),
        Rect(200, 490, 120, 1, c, None, None, None, None, None, None),
        Text("Authorized Signature:", 450, 480, 14, None, c, None, "serif", None, None, false),
        Rect(580, 490, 150, 1, c, None, None, None, None, None, None) ]
  {
    var layout := CertificateLayout(theme, category);
    forall k | |layout| - 4 <= k < |layout|
      ensures layout[k] == DateAndSignature(SecondaryColor(theme))[k - (|layout| - 4)]
    {
      LayoutAtObject(theme, category, k);
    }
  }

  /** Every object is anchored inside the border, and so on the 800x600 canvas. */
  lemma LayoutInsideBorder(theme: string, category: string)
    ensures var layout := CertificateLayout(theme, category);
      forall k | 0 <= k < |layout| ::
        && 40 <= layout[k].left <= CanvasWidth - 40
        && 40 <= layout[k].top <= CanvasHeight - 40
  {
    var layout := CertificateLayout(theme, category);
    forall k | 0 <= k < |layout|
      ensures 40 <= layout[k].left <= CanvasWidth - 40 && 40 <= layout[k].top <= CanvasHeight - 40
    {
      LayoutAtObject(theme, category, k);
    }
  }

  /**
   * Colour discipline: only the border is transparent; every other object is
   * filled with the theme's primary or secondary colour.
   */
  lemma LayoutFillColours(theme: string, category: string)
    ensures var layout := CertificateLayout(theme, category);
      forall k | 0 <= k < |layout| ::
        (layout[k].fill == "transparent" <==> k == 0)
        && (k > 0 ==> layout[k].fill == ThemeColor(theme) || layout[k].fill == SecondaryColor(theme))
  {
    var layout := CertificateLayout(theme, category);
    forall k | 0 <= k < |layout|
      ensures (layout[k].fill == "transparent" <==> k == 0)
        && (k > 0 ==> layout[k].fill == ThemeColor(theme) || layout[k].fill == SecondaryColor(theme))
    {
      LayoutAtObject(theme, category, k);
    }
  }

  // ---------------------------------------------------------------------------
  // The canvas
  // ---------------------------------------------------------------------------

  /** Seven appends in turn add the seven objects in that order. */
  lemma AppendInTurn<T>(s: seq<T>, a: T, b: T, c: T, d: T, e: T, f: T, g: T)
    ensures s + [a] + [b] + [c] + [d] + [e] + [f] + [g] == s + [a, b, c, d, e, f, g]
  {
  }

  class Canvas {
    var backgroundColor: Colour
    var objects: seq<FabricObject>

    /** A fresh 800x600 canvas with the given background and no objects. */
    constructor (backgroundColor: Colour)
      ensures this.backgroundColor == backgroundColor && objects == []
    {
      this.backgroundColor := backgroundColor;
      objects := [];
    }

    /** Removes every object. */
    method Clear()
      modifies this`objects
      ensures objects == []
    {
      objects := [];
    }

    /** Appends one object on top of the others. */
    method Add(o: FabricObject)
      modifies this`objects
      ensures objects == old(objects) + [o]
    {
      objects := objects + [o];
    }

    /** Draws the certificate for `design` and `category`, replacing whatever the canvas held. */
    method CreateCertificate(design: CertificateDesign, category: string)
      modifies this
      ensures backgroundColor == BackgroundColor(design.theme)
      ensures objects == CertificateLayout(design.theme, category)
    {
      Clear();
      backgroundColor := if design.theme in Backgrounds then Backgrounds[design.theme] else Backgrounds["modern"];

      Add(Border(ThemeColor(design.theme)));

      if design.theme == "gold" || design.theme == "classic" {
        AddCornerDecorations(design.theme);
      }
      if design.theme == "royal" || design.theme == "elegant" {
        AddGeometricPatterns(design.theme);
      }
      assert objects == [Border(ThemeColor(design.theme))] + Motifs(design.theme);

      ghost var decorated := objects;
      Add(Title(ThemeColor(design.theme)));
      Add(Subtitle(SecondaryColor(design.theme)));
      Add(CategoryText(category, ThemeColor(design.theme)));
      Add(RecipientLabel(SecondaryColor(design.theme)));
      Add(RecipientLine(ThemeColor(design.theme)));
      Add(RecipientText(SecondaryColor(design.theme)));
      Add(CompletionText(SecondaryColor(design.theme)));
      AppendInTurn(decorated, Title(ThemeColor(design.theme)), Subtitle(SecondaryColor(design.theme)),
        CategoryText(category, ThemeColor(design.theme)), RecipientLabel(SecondaryColor(design.theme)),
        RecipientLine(ThemeColor(design.theme)), RecipientText(SecondaryColor(design.theme)),
        CompletionText(SecondaryColor(design.theme)));

      AddDateAndSignature(design.theme);
    }

    /** Appends the four corner ornaments in the theme's primary colour. */
    method AddCornerDecorations(theme: string)
      modifies this`objects
      ensures objects == old(objects) + CornerDecorations(ThemeColor(theme))
    {
      var color := ThemeColor(theme);
      Add(CornerOrnament(80, 80, color));
      Add(CornerOrnament(720, 80, color));
      Add(CornerOrnament(80, 520, color));
      Add(CornerOrnament(720, 520, color));
    }

    /** Appends the left then the right pattern, three bars each. */
    method AddGeometricPatterns(theme: string)
      modifies this`objects
      ensures objects == old(objects) + GeometricPatterns(ThemeColor(theme))
    {
      var color := ThemeColor(theme);
      var i := 0;
      while i < 3
        invariant 0 <= i <= 3
        invariant objects == old(objects) + LeftPattern(color)[..i]
      {
        Add(LeftBar(i, color));
        i := i + 1;
      }
      assert LeftPattern(color)[..3] == LeftPattern(color);
      i := 0;
      while i < 3
        invariant 0 <= i <= 3
        invariant objects == old(objects) + LeftPattern(color) + RightPattern(color)[..i]
      {
        Add(RightBar(i, color));
        i := i + 1;
      }
      assert RightPattern(color)[..3] == RightPattern(color);
    }

    /** Appends the date and signature labels and lines in the theme's secondary colour. */
    method AddDateAndSignature(theme: string)
      modifies this`objects
      ensures objects == old(objects) + DateAndSignature(SecondaryColor(theme))
    {
      var color := SecondaryColor(theme);
      Add(DateLabel(color));
      Add(DateLine(color));
      Add(SignatureLabel(color));
      Add(SignatureLine(color));
    }
  }

  /**
   * Mounting the component: a fresh canvas with a white background, on which
   * the certificate is drawn at once, so the white never survives.
   */
  method MountCanvas(design: CertificateDesign, category: string) returns (canvas: Canvas)
    ensures fresh(canvas)
    ensures canvas.backgroundColor == BackgroundColor(design.theme) != "#ffffff"
    ensures canvas.objects == CertificateLayout(design.theme, category)
  {
    canvas := new Canvas("#ffffff");
    canvas.CreateCertificate(design, category);
  }
}
