/** The paddle ("bumper") bookkeeping of GfePong: a bumper wraps a
    rectangle and presents its centre, and a game places two bumpers
    against the sides of the form. */
module Pong {
  import opened CSharpInt
  import opened Drawing

  const BumperWidth: Int32 := 10
  const BumperHeight: Int32 := 50
  const BumperPadding: Int32 := 5
  /** `bumperWidth / 2` and `bumperHeight / 2`, folded at compile time. */
  const HalfWidth: Int32 := BumperWidth / 2
  const HalfHeight: Int32 := BumperHeight / 2

  /** The rectangle `new PongBumper(x, y)` stores: the arguments become its
      top-left corner, although the class presents X and Y as the centre. */
  function NewBumperRect(x: Int32, y: Int32): Rectangle
  {
    Rectangle(x, y, BumperWidth, BumperHeight)
  }

  /** What the `X` getter reads from the wrapped rectangle. */
  function CentreX(r: Rectangle): (c: Int32)
    ensures Wrap32(c - HalfWidth) == r.x
  {
    ShiftRoundTrip(r.x, -HalfWidth);
    Wrap32(r.x + HalfWidth)
  }

  /** What the `Y` getter reads from the wrapped rectangle. */
  function CentreY(r: Rectangle): (c: Int32)
    ensures Wrap32(c - HalfHeight) == r.y
  {
    ShiftRoundTrip(r.y, -HalfHeight);
    Wrap32(r.y + HalfHeight)
  }

  /** The rectangle after the `X` setter stores `v`: the centre reads back
      as `v` and only the left coordinate moves. */
  function WithCentreX(r: Rectangle, v: Int32): (r': Rectangle)
    ensures CentreX(r') == v
    ensures r'.y == r.y && r'.width == r.width && r'.height == r.height
  {
    ShiftRoundTrip(v, HalfWidth);
    r.(x := Wrap32(v - HalfWidth))
  }

  /** The rectangle after the `Y` setter stores `v`: the centre reads back
      as `v` and only the top coordinate moves. */
  function WithCentreY(r: Rectangle, v: Int32): (r': Rectangle)
    ensures CentreY(r') == v
    ensures r'.x == r.x && r'.width == r.width && r'.height == r.height
  {
    ShiftRoundTrip(v, HalfHeight);
    r.(y := Wrap32(v - HalfHeight))
  }

  /** Setting a centre coordinate to what it already reads changes nothing. */
  lemma SetToCurrentIsIdentity(r: Rectangle)
    ensures WithCentreX(r, CentreX(r)) == r
    ensures WithCentreY(r, CentreY(r)) == r
  {
  }

  /** The constructor's arguments are the corner, never the centre: the
      centre it reports is always offset by half the bumper's size. */
  lemma ConstructorArgumentsAreCorner(x: Int32, y: Int32)
    ensures CentreX(NewBumperRect(x, y)) == Wrap32(x + HalfWidth) != x
    ensures CentreY(NewBumperRect(x, y)) == Wrap32(y + HalfHeight) != y
  {
  }

  /** The arguments `PongGame` passes for the left bumper. */
  function LeftBumperArgs(formHeight: Int32): (Int32, Int32)
  {
    (BumperPadding + HalfWidth, CsHalf(formHeight))
  }

  /** The arguments `PongGame` passes for the right bumper; the two
      subtractions are unchecked, one after the other. */
  function RightBumperArgs(formWidth: Int32, formHeight: Int32): (Int32, Int32)
  {
    (Wrap32(Wrap32(formWidth - BumperPadding) - HalfWidth), CsHalf(formHeight))
  }

  /** The left bumper covers columns 10 to 20 of the form, whatever its size. */
  lemma LeftBumperPlacement(formHeight: Int32)
    ensures var r := NewBumperRect(LeftBumperArgs(formHeight).0, LeftBumperArgs(formHeight).1);
      r.x == 10 && r.Right() == 20 && CentreX(r) == 15
  {
  }

  /** The right bumper's right edge is exactly the form's width, and both
      bumpers share one vertical position. */
  lemma RightBumperPlacement(formWidth: Int32, formHeight: Int32)
    ensures var r := NewBumperRect(RightBumperArgs(formWidth, formHeight).0, RightBumperArgs(formWidth, formHeight).1);
      && r.x == Wrap32(formWidth - 2 * HalfWidth)
      && r.Right() == formWidth
      && r.y == NewBumperRect(LeftBumperArgs(formHeight).0, LeftBumperArgs(formHeight).1).y
  {
    WrapAdd(formWidth - BumperPadding, -HalfWidth);
    ShiftRoundTrip(formWidth, BumperWidth);
  }

  /** `PongBumper`: wraps a `Rectangle` and exposes its centre as X and Y. */
  class PongBumper {
    var bumper: Rectangle

    /** The size is set once, by the constructor, and never written again. */
    ghost predicate Valid()
      reads this
    {
      bumper.width == BumperWidth && bumper.height == BumperHeight
    }

    constructor (x: Int32, y: Int32)
      ensures bumper == NewBumperRect(x, y)
      ensures Valid()
      ensures X() == Wrap32(x + HalfWidth) && Y() == Wrap32(y + HalfHeight)
    {
      bumper := Rectangle(x, y, BumperWidth, BumperHeight);
    }

    /** The `Bumper` property: a copy of the rectangle, of the fixed size and
        centred on (X, Y). */
    function Bumper(): (r: Rectangle)
      reads this
      requires Valid()
      ensures r.width == BumperWidth && r.height == BumperHeight
      ensures CentreX(r) == X() && CentreY(r) == Y()
    {
      bumper
    }

    function X(): Int32
      reads this
    {
      CentreX(bumper)
    }

    function Y(): Int32
      reads this
    {
      CentreY(bumper)
    }

    method SetX(value: Int32)
      modifies this
      ensures bumper == WithCentreX(old(bumper), value)
      ensures X() == value && Y() == old(Y())
      ensures old(Valid()) ==> Valid()
    {
      bumper := bumper.(x := Wrap32(value - HalfWidth));
    }

    method SetY(value: Int32)
      modifies this
      ensures bumper == WithCentreY(old(bumper), value)
      ensures Y() == value && X() == old(X())
      ensures old(Valid()) ==> Valid()
    {
      bumper := bumper.(y := Wrap32(value - HalfHeight));
    }
  }

  /** `PongGame` without its form: only the form's width and height, read
      once by the constructor, enter the model. */
  class PongGame {
    var leftBumper: PongBumper
    var leftBumperMovement: Int32
    var rightBumper: PongBumper
    var rightBumperMovement: Int32

    ghost predicate Valid()
      reads this, leftBumper, rightBumper
    {
      leftBumper != rightBumper && leftBumper.Valid() && rightBumper.Valid()
    }

    constructor (formWidth: Int32, formHeight: Int32)
      ensures Valid() && fresh(leftBumper) && fresh(rightBumper)
      ensures leftBumperMovement == 0 && rightBumperMovement == 0
      ensures leftBumper.bumper == NewBumperRect(LeftBumperArgs(formHeight).0, LeftBumperArgs(formHeight).1)
      ensures rightBumper.bumper == NewBumperRect(RightBumperArgs(formWidth, formHeight).0, RightBumperArgs(formWidth, formHeight).1)
      ensures leftBumper.bumper.x == 10 && leftBumper.bumper.Right() == 20
      ensures rightBumper.bumper.Right() == formWidth
      ensures leftBumper.Y() == rightBumper.Y()
    {
      leftBumperMovement := 0;
      rightBumperMovement := 0;
      var (lx, ly) := LeftBumperArgs(formHeight);
      leftBumper := new PongBumper(lx, ly);
      var (rx, ry) := RightBumperArgs(formWidth, formHeight);
      rightBumper := new PongBumper(rx, ry);
      LeftBumperPlacement(formHeight);
      RightBumperPlacement(formWidth, formHeight);
    }
  }
}
