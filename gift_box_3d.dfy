/**
 * The parameters of the 3D gift box (src/components/GiftBox3D.tsx): box
 * dimensions per size, which bow each style draws and how high it sits, and
 * which ribbons appear. Only these lookups are modelled, not the drawing.
 */
module GiftBox3D {
  import opened Wrappers
  import opened Types

  /** Width, height and depth in scene units. */
  datatype Dims = Dims(width: real, height: real, depth: real)

  const MediumDims: Dims := Dims(2.0, 1.5, 1.5)

  /** The `dimensions` switch over the size string; anything unrecognised gets the medium box. */
  function BoxDimensions(size: string): (d: Dims)
    ensures ParseSize(size).None? ==> d == MediumDims
    ensures d.width > 0.0 && d.height > 0.0 && d.depth > 0.0
  {
    if size == "small" then Dims(1.5, 1.2, 1.2)
    else if size == "medium" then MediumDims
    else if size == "large" then Dims(2.5, 1.8, 1.8)
    else if size == "extra-large" then Dims(3.0, 2.2, 2.2)
    else MediumDims
  }

  /** The dimensions of each of the four sizes. */
  lemma DimensionsBySize()
    ensures BoxDimensions(SizeKey(Small)) == Dims(1.5, 1.2, 1.2)
    ensures BoxDimensions(SizeKey(Medium)) == Dims(2.0, 1.5, 1.5)
    ensures BoxDimensions(SizeKey(Large)) == Dims(2.5, 1.8, 1.8)
    ensures BoxDimensions(SizeKey(ExtraLarge)) == Dims(3.0, 2.2, 2.2)
  {
  }

  /** A larger size gives a strictly wider, taller and deeper box. */
  lemma DimensionsIncrease(a: BoxSize, b: BoxSize)
    requires Rank(a) < Rank(b)
    ensures BoxDimensions(SizeKey(a)).width < BoxDimensions(SizeKey(b)).width
    ensures BoxDimensions(SizeKey(a)).height < BoxDimensions(SizeKey(b)).height
    ensures BoxDimensions(SizeKey(a)).depth < BoxDimensions(SizeKey(b)).depth
  {
  }

  datatype Bow = ClassicBow | ElegantBow | PlayfulBow | LuxuryBow | MinimalistBow

  /** The style string that selects each bow. */
  function BowStyleKey(b: Bow): string
  {
    match b
    case ClassicBow => "classic"
    case ElegantBow => "elegant"
    case PlayfulBow => "playful"
    case LuxuryBow => "luxury"
    case MinimalistBow => "minimalist"
  }

  /** `renderBow`: the switch over the bow style; anything unrecognised draws the classic bow. */
  function SelectBow(style: string): (b: Bow)
    ensures style !in {"classic", "elegant", "playful", "luxury", "minimalist"} ==> b == ClassicBow
    ensures b == MinimalistBow <==> style == "minimalist"
  {
    if style == "classic" then ClassicBow
    else if style == "elegant" then ElegantBow
    else if style == "playful" then PlayfulBow
    else if style == "luxury" then LuxuryBow
    else if style == "minimalist" then MinimalistBow
    else ClassicBow
  }

  /** Each of the five styles selects its own bow. */
  lemma EachStyleSelectsItsBow(b: Bow)
    ensures SelectBow(BowStyleKey(b)) == b
  {
  }

  /** How far above the box's half-height each bow's group is placed. */
  function BowLift(b: Bow): (offset: real)
    ensures offset > 0.0
  {
    match b
    case ClassicBow => 0.25
    case ElegantBow => 0.2
    case PlayfulBow => 0.3
    case LuxuryBow => 0.35
    case MinimalistBow => 0.15
  }

  /** The offsets of the five bow components. */
  lemma BowLiftByStyle()
    ensures BowLift(SelectBow("classic")) == 0.25
    ensures BowLift(SelectBow("elegant")) == 0.2
    ensures BowLift(SelectBow("playful")) == 0.3
    ensures BowLift(SelectBow("luxury")) == 0.35
    ensures BowLift(SelectBow("minimalist")) == 0.15
  {
  }

  /** The vertical ribbon strip is drawn for every style except "minimalist". */
  predicate HasVerticalRibbon(style: string)
  {
    style != "minimalist"
  }

  /** The strip is left out exactly when the minimalist bow, with its own band, is drawn. */
  lemma VerticalRibbonIffNotMinimalist(style: string)
    ensures HasVerticalRibbon(style) <==> SelectBow(style) != MinimalistBow
  {
  }

  /** What the component places for a given size and bow style. */
  datatype Scene = Scene(
    box: Dims,
    lidEdgeY: real,
    verticalStrip: Option<Dims>,
    bow: Bow,
    bowY: real,
    band: Option<Dims>)

  /**
   * The scene for the `size` and `bowStyle` props (defaults "medium" and
   * "classic"): the box, the vertical strip unless minimalist, and the bow
   * group raised above the lid; the minimalist bow is a flat band
   * overhanging the box by 0.12 in width and depth.
   */
  function SceneFor(size: Option<string>, bowStyle: Option<string>): (sc: Scene)
    ensures sc.box == BoxDimensions(size.GetOr("medium"))
    ensures sc.bow == SelectBow(bowStyle.GetOr("classic"))
    ensures sc.verticalStrip.Some? <==> sc.bow != MinimalistBow
    ensures sc.bowY > sc.lidEdgeY == sc.box.height / 2.0
    ensures sc.bowY == sc.lidEdgeY + BowLift(sc.bow)
    ensures sc.band.Some? <==> sc.bow == MinimalistBow
    ensures sc.band.Some? ==>
      sc.band.value.width == sc.box.width + 0.12 && sc.band.value.depth == sc.box.depth + 0.12
  {
    var style := bowStyle.GetOr("classic");
    var d := BoxDimensions(size.GetOr("medium"));
    var bow := SelectBow(style);
    Scene(
      d,
      d.height / 2.0,
      if HasVerticalRibbon(style) then Some(Dims(0.15, d.height + 0.08, d.depth + 0.06)) else None,
      bow,
      d.height / 2.0 + BowLift(bow),
      if bow == MinimalistBow then Some(Dims(d.width + 0.12, 0.08, d.depth + 0.12)) else None)
  }
}
