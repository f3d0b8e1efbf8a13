/**
 * pointLocToString: the display name of a slot of the corner editor. The
 * argument is the enum's underlying integer, since a PointLoc may hold any
 * value a cast puts in it; only the four enumerators have a name.
 */
module PointLocNames {
  import opened PointMover

  function PointLocToString(pl: int): (r: string)
    ensures r != "" <==> 0 <= pl < 4
  {
    if 0 <= pl < 4 then
      match SlotAt(pl)
      case UpperLeft => "Upper left"
      case UpperRight => "Upper right"
      case LowerRight => "Lower right"
      case LowerLeft => "Lower left"
    else
      ""
  }

  /** The names of the upper slots. */
  lemma UpperSlotNames()
    ensures PointLocToString(UpperLeft.Index()) == "Upper left"
    ensures PointLocToString(UpperRight.Index()) == "Upper right"
  {
  }

  /** The names of the lower slots. */
  lemma LowerSlotNames()
    ensures PointLocToString(LowerRight.Index()) == "Lower right"
    ensures PointLocToString(LowerLeft.Index()) == "Lower left"
  {
  }

  /** Different slots have different names, so a name identifies its slot. */
  lemma SlotNamesDistinct(a: PointLoc, b: PointLoc)
    requires a != b
    ensures PointLocToString(a.Index()) != PointLocToString(b.Index())
  {
  }
}
