# GfePong paddle bookkeeping in Dafny

GfePong is a WinForms Pong game. This revision draws two paddles
("bumpers") and nothing else: there is no ball, no boundary, no clamping
and no collision code. This model covers its non-toolkit logic:

- `PongBumper` wraps a `System.Drawing.Rectangle`. Its `X`/`Y` properties
  present the rectangle's centre: each getter adds half the bumper's fixed
  size (5 across, 25 down) to the top-left corner, and each setter subtracts
  it and writes the corner back in place.
- The `PongGame` constructor places the two bumpers using the form's width
  and height.

Files:

- `int32.dfy` (module `CSharpInt`): C#'s unchecked 32-bit `int`. `Wrap32`
  gives the wrapped result of `+` and `-`, and `CsHalf` gives `/ 2`, which
  truncates toward zero.
- `drawing.dfy` (module `Drawing`): `Rectangle` as a value type, with the
  unchecked `Right` and `Bottom`.
- `pong.dfy` (module `Pong`): the constants, the value-level meaning of the
  getters and setters, the constructor arguments `PongGame` computes, and
  the classes `PongBumper` and `PongGame`.

The model keeps the constructor as written. `new PongBumper(x, y)` stores
`(x, y)` as the rectangle's top-left corner, even though the class's doc
comment says X and Y are the centre. So directly after construction the
bumper reports `X == x + 5` and `Y == y + 25`. As a result, the left bumper
covers columns 10 to 20, and the right bumper's right edge lies exactly on
the form's width. A description of the game that treats these arguments as
centres disagrees with the code. This model follows the code.

`Rectangle` is a struct and the `Bumper` property returns a copy, so
nothing outside the class can write a bumper's width or height. The model
gets the same guarantee by making `Rectangle` a datatype. `PongBumper.Valid`
states that the size stays 10 by 50.

The model uses no preconditions on the form's size. Every C# `int` is
modelled as the subset type `Int32`. Overflow wraps, as it does in C#'s
default unchecked context, and `/ 2` truncates toward zero as C#'s does. The
round trips and the placement facts hold for every `int` under this
arithmetic.

## Model

| member | source | states |
|---|---|---|
| `CSharpInt.Wrap32` | Pong.cs:129-136 | The result of an unchecked `int` expression is an `int` congruent to the exact result modulo 2^32. It equals the exact result whenever that fits in 32 bits. |
| `CSharpInt.ShiftRoundTrip` | Pong.cs:129-136 | Subtracting a constant and then adding it back, wrapping after each step, returns the original `int`. This holds even when the intermediate value overflows. |
| `CSharpInt.CsHalf` | Pong.cs:101-106 | `formHeight / 2` is the quotient truncated toward zero. For a non-negative value, twice the result falls short by 0 or 1. For a negative value, twice the result exceeds it by 0 or 1. |
| `Pong.CentreX` | Pong.cs:130 | The `X` getter's centre is the value from which the setter's subtraction of 5 gives back the stored left coordinate. So `bumper.X == X - 5` at all times. |
| `Pong.CentreY` | Pong.cs:134 | The `Y` getter's centre is the value from which the setter's subtraction of 25 gives back the stored top coordinate. So `bumper.Y == Y - 25` at all times. |
| `Pong.WithCentreX` | Pong.cs:131 | After the `X` setter stores `v`, the getter reads `v`. Top, width and height are unchanged. |
| `Pong.WithCentreY` | Pong.cs:135 | After the `Y` setter stores `v`, the getter reads `v`. Left, width and height are unchanged. |
| `Pong.SetToCurrentIsIdentity` | Pong.cs:129-136 | Setting `X` or `Y` to the value it already reads leaves the rectangle as it was. |
| `Pong.ConstructorArgumentsAreCorner` | Pong.cs:116-140 | The constructor's arguments never come back as the centre. The reported centre is always the argument plus 5 (X) or plus 25 (Y), contrary to the class's doc comment. |
| `Pong.LeftBumperPlacement` | Pong.cs:99-102 | For any form, the left bumper's rectangle starts at column 10 and ends at column 20, and its centre X is 15. |
| `Pong.RightBumperPlacement` | Pong.cs:99-107 | The right bumper's rectangle starts at `formWidth - 10`, and its right edge is exactly `formWidth`. Both bumpers get the same vertical position, `formHeight / 2`. |
| `Pong.PongBumper.constructor` | Pong.cs:138-140 | Stores its arguments as the top-left corner of a 10 by 50 rectangle. It then reports `X == x + 5` and `Y == y + 25`. |
| `Pong.PongBumper.Bumper` | Pong.cs:126-127 | The rectangle handed out is 10 by 50 and centred on the bumper's `(X, Y)`. |
| `Pong.PongBumper.SetX` | Pong.cs:129-132 | Rewrites only the left coordinate in place. Afterwards `X` reads the value set, `Y` is unchanged, and the 10 by 50 size is kept. |
| `Pong.PongBumper.SetY` | Pong.cs:133-136 | Rewrites only the top coordinate in place. Afterwards `Y` reads the value set, `X` is unchanged, and the 10 by 50 size is kept. |
| `Pong.PongGame.constructor` | Pong.cs:90-108 | Creates two distinct fresh bumpers from the computed arguments. The left one spans columns 10 to 20, the right one ends at the form's width, and both share one `Y`. Both movement fields start at 0. |

## Left out

- `Program.Main` and the `MainForm` window setup (Pong.cs:6-46): window creation, double-buffer styling and the paint event are toolkit work. The form's size is a constructor parameter, not the 800 by 400 set in `Main`. That size is applied only after `MainForm`'s constructor has already built the game.
- `PongGame.Paint` and `MainForm.BlackBrush` (Pong.cs:22, 110-113): GDI+ drawing that changes no state. `PongBumper.Bumper` gives the rectangles it would fill.
- The `gameForm` field (Pong.cs:88): the form is not kept. The constructor reads only its `Width` and `Height`, and nothing later uses the reference.
- The commented-out timer and keyboard handlers (Pong.cs:23-31, 36, 47-80): they are not live code. Nothing in the live code writes `leftBumperMovement` or `rightBumperMovement` after construction, and the model has no method that does.
- Checked arithmetic: the model assumes the project builds with C#'s default unchecked overflow. A build with overflow checking would throw where the model wraps.
