/**
 * CompositeModeData: a composite map's values with a mask of the points that have no
 * backing data (1 at an invalid point, 0 elsewhere), and the guards of the value
 * read-out.
 *
 * MapModeData's coordinate helpers are not part of this model: a coordinate (x, y)
 * is taken to be in bounds when it lies in the map's size, and its index to be
 * y * width + x. Number formatting is left out: a value read-out is the number itself.
 */
module CompositeMode {

  datatype Coord = Coord(x: int, y: int)

  /** A read-out: "-" or the value shown. */
  datatype Readout = Dash | Value(v: real)

  class CompositeModeData {
    const data: seq<real>
    const size: Coord
    const invalidPoints: seq<int>
    const invalidMask: array<real>

    ghost predicate Valid()
      reads this, invalidMask
    {
      invalidMask.Length == |data|
      && forall k :: 0 <= k < invalidMask.Length ==>
           invalidMask[k] == if k in invalidPoints then 1.0 else 0.0
    }

    /** Builds the mask from the list of invalid points. */
    constructor (data: seq<real>, size: Coord, invalidPoints: seq<int>)
      requires forall i :: i in invalidPoints ==> 0 <= i < |data|
      ensures this.data == data && this.size == size && this.invalidPoints == invalidPoints
      ensures Valid() && fresh(invalidMask)
    {
      this.data := data;
      this.size := size;
      this.invalidPoints := invalidPoints;
      var mask := new real[|data|](_ => 0.0);
      for j := 0 to |invalidPoints|
        invariant forall k :: 0 <= k < mask.Length ==>
          mask[k] == if k in invalidPoints[..j] then 1.0 else 0.0
      {
        assert invalidPoints[j] in invalidPoints;
        mask[invalidPoints[j]] := 1.0;
        assert invalidPoints[..j + 1] == invalidPoints[..j] + [invalidPoints[j]];
      }
      assert invalidPoints[..|invalidPoints|] == invalidPoints;
      invalidMask := mask;
    }

    function Index(c: Coord): int
      reads this
    {
      c.y * size.x + c.x
    }

    predicate InBounds(c: Coord)
      reads this
    {
      0 <= c.x < size.x && 0 <= c.y < size.y
    }

    /** hasBackingData: a non-negative index that is not listed invalid. */
    function HasBackingData(c: Coord): (r: bool)
      reads this
      ensures r <==> Index(c) >= 0 && Index(c) !in invalidPoints
    {
      if Index(c) < 0 then false else Index(c) !in invalidPoints
    }

    /** getValueAtCoord: "-" outside the map, without backing data or past the data. */
    function ValueAtCoord(c: Coord): (r: Readout)
      reads this
      ensures r == Dash <==> !InBounds(c) || !HasBackingData(c) || Index(c) >= |data|
      ensures r.Value? ==> 0 <= Index(c) < |data| && r.v == data[Index(c)]
    {
      if !InBounds(c) || !HasBackingData(c) then Dash
      else if Index(c) >= |data| then Dash
      else Value(data[Index(c)])
    }

    /** For an index inside the data, backing data and the mask agree. */
    lemma BackingMatchesMask(c: Coord)
      requires Valid()
      requires 0 <= Index(c) < |data|
      ensures HasBackingData(c) <==> invalidMask[Index(c)] == 0.0
    {
    }
  }
}
