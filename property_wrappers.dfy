/** Property wrappers: `@propertyWrapper struct TwelveOrLess`, an `Int` cell
    that never holds more than 12, and `SmallRectangle1`, whose height and
    width are each stored in such a cell. */
module PropertyWrappers {

  import opened SwiftInt

  /** The largest value a `TwelveOrLess` cell holds. */
  const Cap: Int := 12

  /** `min(newValue, 12)`: what the setter stores for `newValue`. */
  function Clamp(newValue: Int): (r: Int)
    ensures r <= Cap && r <= newValue
    ensures r == newValue || r == Cap
  {
    if newValue <= Cap then newValue else Cap
  }

  /** A value of at most 12, negative ones included, is stored exactly;
      a larger one is stored as 12. */
  lemma ClampCases(newValue: Int)
    ensures newValue <= Cap <==> Clamp(newValue) == newValue
    ensures newValue > Cap <==> Clamp(newValue) == Cap && newValue != Cap
  {
  }

  /** Storing what was read back changes nothing: clamping twice is clamping once. */
  lemma ClampIdempotent(newValue: Int)
    ensures Clamp(Clamp(newValue)) == Clamp(newValue)
  {
  }

  /** The storage of one wrapped property. */
  class TwelveOrLess {
    var number: Int  // `private var number`

    ghost predicate Valid()
      reads this
    {
      number <= Cap
    }

    /** `init()`: the cell starts at 0. */
    constructor ()
      ensures Valid() && number == 0
    {
      number := 0;
    }

    /** The `wrappedValue` getter: the stored number, at most 12, and no change. */
    method Get() returns (value: Int)
      requires Valid()
      ensures value == number && value <= Cap
    {
      value := number;
    }

    /** The `wrappedValue` setter: stores `min(newValue, 12)`; what was stored
        before plays no part. */
    method Set(newValue: Int)
      modifies this
      ensures Valid()
      ensures number == Clamp(newValue)
    {
      number := if newValue < Cap then newValue else Cap;
    }
  }

  /** `struct SmallRectangle1` with `@TwelveOrLess var height` and
      `@TwelveOrLess var width`: each property lives in its own cell. */
  class SmallRectangle1 {
    const heightCell: TwelveOrLess
    const widthCell: TwelveOrLess

    ghost predicate Valid()
      reads this, heightCell, widthCell
    {
      heightCell != widthCell && heightCell.Valid() && widthCell.Valid()
    }

    /** `SmallRectangle1()`: both properties read 0. */
    constructor ()
      ensures Valid() && fresh(heightCell) && fresh(widthCell)
      ensures heightCell.number == 0 && widthCell.number == 0
    {
      heightCell := new TwelveOrLess();
      widthCell := new TwelveOrLess();
    }

    method GetHeight() returns (height: Int)
      requires Valid()
      ensures height == heightCell.number && height <= Cap
    {
      height := heightCell.Get();
    }

    method GetWidth() returns (width: Int)
      requires Valid()
      ensures width == widthCell.number && width <= Cap
    {
      width := widthCell.Get();
    }

    /** `rectangle.height = newValue`: the width is left as it was. */
    method SetHeight(newValue: Int)
      requires Valid()
      modifies heightCell
      ensures Valid()
      ensures heightCell.number == Clamp(newValue)
      ensures widthCell.number == old(widthCell.number)
    {
      heightCell.Set(newValue);
    }

    /** `rectangle.width = newValue`: the height is left as it was. */
    method SetWidth(newValue: Int)
      requires Valid()
      modifies widthCell
      ensures Valid()
      ensures widthCell.number == Clamp(newValue)
      ensures heightCell.number == old(heightCell.number)
    {
      widthCell.Set(newValue);
    }
  }

  /** Setting the same value twice leaves the cell as setting it once does,
      whatever it held before. */
  method SetTwiceIsSetOnce(cell: TwelveOrLess, once: TwelveOrLess, newValue: Int)
    requires cell != once
    modifies cell, once
    ensures cell.number == once.number == Clamp(newValue)
  {
    cell.Set(newValue);
    cell.Set(newValue);
    once.Set(newValue);
  }

  /** Reading the wrapped value and assigning it back leaves the cell as it
      was: what the getter returns is already at most 12. */
  method WriteBack(cell: TwelveOrLess)
    requires cell.Valid()
    modifies cell
    ensures cell.Valid() && cell.number == old(cell.number)
  {
    var value := cell.Get();
    ClampCases(value);
    cell.Set(value);
  }

  /** The playground's rectangle: it reads 0, then 10 after `height = 10`,
      then 12 after `height = 24`; the width stays 0 throughout. */
  method RectangleDemo() returns (printed: seq<Int>, width: Int)
    ensures printed == [0, 10, 12]
    ensures width == 0
  {
    var rectangle := new SmallRectangle1();
    var h0 := rectangle.GetHeight();
    rectangle.SetHeight(10);
    var h1 := rectangle.GetHeight();
    rectangle.SetHeight(24);
    var h2 := rectangle.GetHeight();
    printed := [h0, h1, h2];
    width := rectangle.GetWidth();
  }
}
