/** Screen geometry with pygame `Rect` semantics, and the menu button widget. */
module Widgets {

  datatype Point = Point(x: int, y: int)

  /** A pygame rectangle: top-left corner and size. */
  datatype Rect = Rect(left: int, top: int, width: int, height: int)

  datatype Color = Color(r: int, g: int, b: int)

  const ButtonBaseColor := Color(255, 100, 50)
  const ButtonHoverColor := Color(255, 70, 30)
  const ButtonClickColor := Color(200, 50, 20)
  const ButtonShadowColor := Color(100, 50, 20)
  const FontColor := Color(255, 255, 255)

  const ButtonWidth := 200
  const ButtonHeight := 60

  /** Assigning `rect.center`: the size is kept and the corner moves by half the size (floored). */
  function CenteredAt(center: Point, width: nat, height: nat): (r: Rect)
    ensures r.width == width && r.height == height
    ensures r.left <= center.x < r.left + width || width == 0
    ensures r.left + r.width / 2 == center.x && r.top + r.height / 2 == center.y
  {
    Rect(center.x - width / 2, center.y - height / 2, width, height)
  }

  /** `Rect.collidepoint`: the right and bottom edges are outside. */
  function CollidePoint(r: Rect, p: Point): (inside: bool)
    ensures inside ==> 0 < r.width && 0 < r.height
    ensures p.x == r.left + r.width || p.y == r.top + r.height ==> !inside
    ensures p.x == r.left && p.y == r.top && 0 < r.width && 0 < r.height ==> inside
  {
    r.left <= p.x < r.left + r.width && r.top <= p.y < r.top + r.height
  }

  /** `Rect.move_ip(dx, dy)` applied to a copy. */
  function Moved(r: Rect, dx: int, dy: int): Rect
  {
    Rect(r.left + dx, r.top + dy, r.width, r.height)
  }

  /** A button: its text centred on a fixed-size rectangle centred on `position`. */
  datatype Button = Button(text: string, position: Point)

  function ButtonRect(b: Button): Rect
  {
    CenteredAt(b.position, ButtonWidth, ButtonHeight)
  }

  /** Everything one call of `Button.draw` puts on the surface, and what it returns. */
  datatype ButtonImage = ButtonImage(
    shadow: Rect, shadowColor: Color,
    face: Rect, faceColor: Color,
    text: string, textColor: Color, textCenter: Point,
    activated: bool)

  /** One call of `Button.draw(surface, mouse_pos, is_clicked)`. */
  function Draw(b: Button, mouse: Point, isClicked: bool): (r: ButtonImage)
    ensures r.activated <==>
      isClicked &&
      b.position.x - 100 <= mouse.x < b.position.x + 100 &&
      b.position.y - 30 <= mouse.y < b.position.y + 30
    ensures r.faceColor == ButtonClickColor <==> isClicked && CollidePoint(r.face, mouse)
    ensures r.faceColor == ButtonHoverColor <==> !isClicked && CollidePoint(r.face, mouse)
    ensures r.faceColor == ButtonBaseColor <==> !CollidePoint(r.face, mouse)
    ensures r.face == Rect(b.position.x - 100, b.position.y - 30, 200, 60)
    ensures r.shadow == Rect(r.face.left + 5, r.face.top + 5, 200, 60) && r.shadowColor == ButtonShadowColor
    ensures r.text == b.text && r.textColor == FontColor && r.textCenter == b.position
  {
    var rect := ButtonRect(b);
    var inside := CollidePoint(rect, mouse);
    var color := if isClicked && inside then ButtonClickColor
                 else if inside then ButtonHoverColor
                 else ButtonBaseColor;
    ButtonImage(Moved(rect, 5, 5), ButtonShadowColor, rect, color, b.text, FontColor, b.position,
                isClicked && inside)
  }

  /** Two rectangles with no point in common. */
  predicate Disjoint(a: Rect, b: Rect)
  {
    a.left + a.width <= b.left || b.left + b.width <= a.left ||
    a.top + a.height <= b.top || b.top + b.height <= a.top
  }

  lemma DisjointHaveNoCommonPoint(a: Rect, b: Rect, p: Point)
    requires Disjoint(a, b)
    ensures !(CollidePoint(a, p) && CollidePoint(b, p))
  {
  }

  /** Buttons whose rectangles never overlap. */
  predicate PairwiseDisjoint(buttons: seq<Button>)
  {
    forall i, j :: 0 <= i < j < |buttons| ==> Disjoint(ButtonRect(buttons[i]), ButtonRect(buttons[j]))
  }

  /** The indices, in declaration order, of the buttons that report activation this tick. */
  function Activated(buttons: seq<Button>, mouse: Point, isClicked: bool): seq<nat>
  {
    if buttons == [] then []
    else
      var last := |buttons| - 1;
      Activated(buttons[..last], mouse, isClicked) + (if Draw(buttons[last], mouse, isClicked).activated then [last] else [])
  }

  /** A button index is listed exactly when that button activates; indices ascend. */
  lemma {:induction false} ActivatedMembers(buttons: seq<Button>, mouse: Point, isClicked: bool)
    ensures forall k :: k in Activated(buttons, mouse, isClicked) <==>
      0 <= k < |buttons| && Draw(buttons[k], mouse, isClicked).activated
    ensures forall i, j :: 0 <= i < j < |Activated(buttons, mouse, isClicked)| ==>
      Activated(buttons, mouse, isClicked)[i] < Activated(buttons, mouse, isClicked)[j]
  {
    if buttons != [] {
      var last := |buttons| - 1;
      var prefix := buttons[..last];
      ActivatedMembers(prefix, mouse, isClicked);
      var earlier := Activated(prefix, mouse, isClicked);
      forall i | 0 <= i < |earlier| ensures earlier[i] < last {
        assert earlier[i] in earlier;
      }
    }
  }

  /** The first listed index is the first button, in declaration order, that activates. */
  lemma FirstActivated(buttons: seq<Button>, mouse: Point, isClicked: bool)
    ensures Activated(buttons, mouse, isClicked) == [] <==>
      forall k :: 0 <= k < |buttons| ==> !Draw(buttons[k], mouse, isClicked).activated
    ensures Activated(buttons, mouse, isClicked) != [] ==>
      var first := Activated(buttons, mouse, isClicked)[0];
      first < |buttons| && Draw(buttons[first], mouse, isClicked).activated &&
      forall j :: 0 <= j < first ==> !Draw(buttons[j], mouse, isClicked).activated
  {
    ActivatedMembers(buttons, mouse, isClicked);
    var hits := Activated(buttons, mouse, isClicked);
    if hits != [] {
      assert hits[0] in hits;
      assert forall i :: 0 <= i < |hits| ==> hits[0] <= hits[i];
      forall j | 0 <= j < hits[0] ensures !Draw(buttons[j], mouse, isClicked).activated {
        assert j !in hits;
      }
    } else {
      forall k | 0 <= k < |buttons| ensures !Draw(buttons[k], mouse, isClicked).activated {
        assert k !in hits;
      }
    }
  }

  /** With pairwise disjoint rectangles at most one button activates per tick. */
  lemma {:induction false} AtMostOneActivated(buttons: seq<Button>, mouse: Point, isClicked: bool)
    requires PairwiseDisjoint(buttons)
    ensures |Activated(buttons, mouse, isClicked)| <= 1
  {
    if buttons != [] {
      var last := |buttons| - 1;
      var prefix := buttons[..last];
      assert PairwiseDisjoint(prefix);
      AtMostOneActivated(prefix, mouse, isClicked);
      ActivatedMembers(prefix, mouse, isClicked);
      if Activated(prefix, mouse, isClicked) != [] && Draw(buttons[last], mouse, isClicked).activated {
        var k := Activated(prefix, mouse, isClicked)[0];
        assert k in Activated(prefix, mouse, isClicked);
        assert prefix[k] == buttons[k];
        DisjointHaveNoCommonPoint(ButtonRect(buttons[k]), ButtonRect(buttons[last]), mouse);
        assert false;
      }
    }
  }
}
