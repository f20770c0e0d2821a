/** The touch gesture rule: only a clear vertical swipe opens or closes the server
    sheet; a short or mostly horizontal movement is ignored, so a gesture never
    changes the channel. */
module Gestures {

  /** The minimum movement, in screen units, on at least one axis. */
  const SwipeThreshold := 30

  datatype Gesture = Ignore | OpenSheet | CloseSheet

  function Abs(x: int): nat {
    if x < 0 then -x else x
  }

  /** What a touch that moved by `(dx, dy)` does to the sheet. */
  function Classify(dx: int, dy: int): (g: Gesture)
    ensures g == OpenSheet <==> dy <= -SwipeThreshold && Abs(dy) > Abs(dx)
    ensures g == CloseSheet <==> dy >= SwipeThreshold && Abs(dy) > Abs(dx)
    ensures Abs(dx) >= Abs(dy) ==> g == Ignore
    ensures Abs(dx) < SwipeThreshold && Abs(dy) < SwipeThreshold ==> g == Ignore
  {
    var ax, ay := Abs(dx), Abs(dy);
    if ax < SwipeThreshold && ay < SwipeThreshold then Ignore
    else if ay > ax then (if dy < 0 then OpenSheet else CloseSheet)
    else Ignore
  }

  /** The sheet's state after a gesture. */
  function SheetAfter(g: Gesture, open: bool): bool {
    match g
    case Ignore => open
    case OpenSheet => true
    case CloseSheet => false
  }
}
