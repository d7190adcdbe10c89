/** Axis-aligned static obstacles and how they push the player out (`StaticRect.colliding`). */
module Collision {

  datatype Option<T> = None | Some(value: T)

  /** A corrected position of the player. */
  datatype Pos = Pos(x: int, y: int)

  /** An obstacle: its lower-left corner, width and height (its colour only matters for drawing). */
  datatype StaticRect = StaticRect(x: int, y: int, width: int, height: int)

  /** The player's left or right edge lies strictly inside the static's horizontal span. */
  predicate ColumnOverlap(s: StaticRect, px: int, pw: int) {
    (s.x < px < s.x + s.width) || (s.x < px + pw < s.x + s.width)
  }

  /** The player's vertical span and the static's cross: an edge of one lies strictly inside the other. */
  predicate RowOverlap(s: StaticRect, py: int, ph: int) {
    || (s.y < py < s.y + s.height)
    || (s.y < py + ph < s.y + s.height)
    || (py < s.y < py + ph)
    || (py < s.y + s.height < py + ph)
  }

  /** The four contact cases, in the order `colliding` tries them. */
  predicate StaticBelow(s: StaticRect, px: int, py: int, pw: int, ph: int) {
    s.y < py <= s.y + s.height && ColumnOverlap(s, px, pw)
  }

  predicate StaticAbove(s: StaticRect, px: int, py: int, pw: int, ph: int) {
    s.y <= py + ph < s.y + s.height && ColumnOverlap(s, px, pw)
  }

  predicate StaticLeft(s: StaticRect, px: int, py: int, pw: int, ph: int) {
    s.x < px <= s.x + s.width && RowOverlap(s, py, ph)
  }

  predicate StaticRight(s: StaticRect, px: int, py: int, pw: int, ph: int) {
    s.x <= px + pw < s.x + s.width && RowOverlap(s, py, ph)
  }

  /** The player box (px, py, pw, ph) is strictly apart from the static on some side. */
  predicate Clear(s: StaticRect, px: int, py: int, pw: int, ph: int) {
    px + pw < s.x || s.x + s.width < px || py + ph < s.y || s.y + s.height < py
  }

  /** `StaticRect.colliding`: the first contact case that holds decides the correction. A static
      below lifts the player onto its top, one above puts the player's head under its bottom,
      one on the left or right pushes the player out sideways; the other coordinate is kept. */
  function Colliding(s: StaticRect, px: int, py: int, pw: int, ph: int): (r: Option<Pos>)
    ensures r.Some? <==> StaticBelow(s, px, py, pw, ph) || StaticAbove(s, px, py, pw, ph)
                         || StaticLeft(s, px, py, pw, ph) || StaticRight(s, px, py, pw, ph)
    ensures StaticBelow(s, px, py, pw, ph) ==> r == Some(Pos(px, s.y + s.height))
    ensures !StaticBelow(s, px, py, pw, ph) && StaticAbove(s, px, py, pw, ph) ==>
              r == Some(Pos(px, s.y - ph))
    ensures (!StaticBelow(s, px, py, pw, ph) && !StaticAbove(s, px, py, pw, ph)
             && StaticLeft(s, px, py, pw, ph)) ==> r == Some(Pos(s.x + s.width, py))
    ensures (!StaticBelow(s, px, py, pw, ph) && !StaticAbove(s, px, py, pw, ph)
             && !StaticLeft(s, px, py, pw, ph) && StaticRight(s, px, py, pw, ph))
            ==> r == Some(Pos(s.x - pw, py))
    ensures r.Some? ==> r.value.x == px || r.value.y == py
    ensures (s.width >= 0 && s.height >= 0 && pw >= 0 && ph >= 0 && Clear(s, px, py, pw, ph))
            ==> r == None
    ensures (s.width >= 0 && s.height >= 0 && pw >= 0 && ph >= 0 && r.Some?)
            ==> !Clear(s, px, py, pw, ph)
  {
    if StaticBelow(s, px, py, pw, ph) then Some(Pos(px, s.y + s.height))
    else if StaticAbove(s, px, py, pw, ph) then Some(Pos(px, s.y - ph))
    else if StaticLeft(s, px, py, pw, ph) then Some(Pos(s.x + s.width, py))
    else if StaticRight(s, px, py, pw, ph) then Some(Pos(s.x - pw, py))
    else None
  }

  /** The correction is stable: a player already moved to the corrected position is sent to
      that same position again. */
  lemma CollidingStable(s: StaticRect, px: int, py: int, pw: int, ph: int)
    requires s.width > 0 && s.height > 0 && pw > 0 && ph > 0
    requires Colliding(s, px, py, pw, ph).Some?
    ensures var q := Colliding(s, px, py, pw, ph).value;
            Colliding(s, q.x, q.y, pw, ph) == Some(q)
  {
    var q := Colliding(s, px, py, pw, ph).value;
    if StaticBelow(s, px, py, pw, ph) {
      assert StaticBelow(s, q.x, q.y, pw, ph);
    } else if StaticAbove(s, px, py, pw, ph) {
      assert StaticAbove(s, q.x, q.y, pw, ph);
    } else if StaticLeft(s, px, py, pw, ph) {
      assert StaticLeft(s, q.x, q.y, pw, ph);
    } else {
      assert StaticRight(s, q.x, q.y, pw, ph);
    }
  }

  /** A corner overlap is resolved vertically: a player whose bottom-left corner sits inside a
      static is lifted onto it, though it also overlaps from the side. */
  lemma CornerGoesVertical()
    ensures StaticLeft(StaticRect(0, 0, 10, 10), 5, 5, 10, 10)
    ensures Colliding(StaticRect(0, 0, 10, 10), 5, 5, 10, 10) == Some(Pos(5, 10))
  {
  }

  /** Overlap alone is not enough: a static narrower than the player, lying strictly between
      the player's edges, has no edge of the player inside it and is passed through. */
  lemma NarrowStaticPassedThrough()
    ensures !Clear(StaticRect(10, 0, 5, 50), 0, 10, 30, 20)
    ensures Colliding(StaticRect(10, 0, 5, 50), 0, 10, 30, 20) == None
  {
  }
}
