/**
 The text overlay drawn onto every frame, as a plan of text-drawing commands.
 Each of the two lines is drawn twice at the same place: first a thick black
 outline, then a thinner coloured fill on top of it, so that it stays legible
 on any background. No pixels are modelled.
 */
module Overlay {
  import opened EmotionTable

  /** The only font the overlay uses (a Hershey simplex stroke font). */
  datatype Font = HersheySimplex

  /** A text origin in pixel coordinates, y growing downwards. */
  datatype Point = Point(x: int, y: int)

  /** A colour in blue-green-red channel order. */
  datatype Color = Bgr(b: int, g: int, r: int)

  /** One call that draws a string onto the frame. */
  datatype PutText = PutText(text: string, origin: Point, font: Font, scale: real, color: Color, thickness: nat)

  const Black: Color := Bgr(0, 0, 0)
  const White: Color := Bgr(255, 255, 255)
  const Yellow: Color := Bgr(0, 255, 255)

  /** `fill` paints the same string over `outline`, in a colour, with a thinner stroke. */
  predicate Outlines(outline: PutText, fill: PutText)
  {
    && outline.text == fill.text
    && outline.origin == fill.origin
    && outline.font == fill.font
    && outline.scale == fill.scale
    && outline.color == Black
    && fill.color != Black
    && fill.thickness < outline.thickness
  }

  /** One line of text: its outline, then its fill. */
  function OutlinedText(text: string, origin: Point, scale: real, fill: Color, outlineThickness: nat, fillThickness: nat): seq<PutText>
  {
    [PutText(text, origin, HersheySimplex, scale, Black, outlineThickness),
     PutText(text, origin, HersheySimplex, scale, fill, fillThickness)]
  }

  /** The four draw calls for a display pair, in the order they are made. */
  function DrawPlan(d: DisplayPair): (plan: seq<PutText>)
    ensures |plan| == 4
    ensures Outlines(plan[0], plan[1]) && Outlines(plan[2], plan[3])
    ensures plan[0].text == d.kaomoji && plan[2].text == d.romaji
    ensures plan[0].origin.x == plan[2].origin.x && plan[0].origin.y < plan[2].origin.y
    ensures plan[0].scale > plan[2].scale
  {
    OutlinedText(d.kaomoji, Point(30, 80), 2.0, White, 8, 3)
    + OutlinedText(d.romaji, Point(30, 140), 1.2, Yellow, 6, 2)
  }

  /** The exact position, size, colour and stroke of every call. */
  lemma DrawPlanConstants(d: DisplayPair)
    ensures DrawPlan(d) == [
      PutText(d.kaomoji, Point(30, 80), HersheySimplex, 2.0, Bgr(0, 0, 0), 8),
      PutText(d.kaomoji, Point(30, 80), HersheySimplex, 2.0, Bgr(255, 255, 255), 3),
      PutText(d.romaji, Point(30, 140), HersheySimplex, 1.2, Bgr(0, 0, 0), 6),
      PutText(d.romaji, Point(30, 140), HersheySimplex, 1.2, Bgr(0, 255, 255), 2)
    ]
  {
  }

  /** The pair drawn by a plan: the text of its first and third calls. */
  function ShownPair(plan: seq<PutText>): DisplayPair
    requires |plan| == 4
  {
    DisplayPair(plan[0].text, plan[2].text)
  }

  /** The plan shows exactly the pair it was made from, so distinct pairs give distinct plans. */
  lemma ShownPairOfPlan(d: DisplayPair)
    ensures ShownPair(DrawPlan(d)) == d
  {
  }
}
