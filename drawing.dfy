/** The part of `System.Drawing.Rectangle` that Pong uses: a value type
    holding a top-left corner and a size, all C# `int`s. */
module Drawing {
  import opened CSharpInt

  datatype Rectangle = Rectangle(x: Int32, y: Int32, width: Int32, height: Int32)
  {
    /** `Rectangle.Right`: the unchecked sum of `X` and `Width`. */
    function Right(): Int32 { Wrap32(x + width) }

    /** `Rectangle.Bottom`: the unchecked sum of `Y` and `Height`. */
    function Bottom(): Int32 { Wrap32(y + height) }
  }
}
