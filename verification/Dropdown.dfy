// Where a dropdown's list goes (washnpress-mobile/src/components/layout.ts:84-131).
module Dropdown {
  import opened Prelude

  datatype Rect = Rect(x: real, y: real, width: real, height: real)

  datatype Options = Options(count: nat, rowHeight: Option<real>, minWidth: Option<real>, margin: Option<real>)

  datatype Placement = Placement(left: real, top: real, width: real, maxHeight: real, above: bool)

  const GAP := 4.0

  function Min(a: real, b: real): real {
    if a <= b then a else b
  }

  function Max(a: real, b: real): real {
    if a >= b then a else b
  }

  function RowHeight(options: Options): real {
    options.rowHeight.GetOr(44.0)
  }

  function Margin(options: Options): real {
    options.margin.GetOr(8.0)
  }

  // The height of the whole list, one row at least.
  function Wanted(options: Options): real {
    Max(RowHeight(options), options.count as real * RowHeight(options))
  }

  function Below(anchor: Rect, screen: Rect, options: Options): real {
    screen.height - (anchor.y + anchor.height) - GAP - Margin(options)
  }

  function Above(anchor: Rect, options: Options): real {
    anchor.y - GAP - Margin(options)
  }

  // The window is a rectangle at the origin; only its size is used.
  function PlaceDropdown(anchor: Rect, screen: Rect, options: Options): Placement {
    var rowHeight, margin := RowHeight(options), Margin(options);
    var width := Min(Max(anchor.width, options.minWidth.GetOr(180.0)), Max(120.0, screen.width - margin * 2.0));
    var left := Max(margin, Min(anchor.x, screen.width - width - margin));
    var wanted := Wanted(options);
    var below, above := Below(anchor, screen, options), Above(anchor, options);
    var flip := below < wanted && above > below;
    var maxHeight := Max(rowHeight, Min(wanted, if flip then above else below));
    Placement(left, if flip then anchor.y - GAP - maxHeight else anchor.y + anchor.height + GAP, width, maxHeight, flip)
  }

  // What could be seen of the list in so much room.
  function Visible(options: Options, room: real): real {
    Min(Wanted(options), room)
  }

  // The list stands clear of its field by the gap, on whichever side it opens.
  lemma NeverOverlapsItsField(anchor: Rect, screen: Rect, options: Options)
    ensures var p := PlaceDropdown(anchor, screen, options);
            if p.above then p.top + p.maxHeight == anchor.y - 4.0 else p.top == anchor.y + anchor.height + 4.0
  {
  }

  // It stays inside the top and bottom margins on its side exactly when that side has
  // room for one row.
  lemma FitsVerticallyIffRoomForARow(anchor: Rect, screen: Rect, options: Options)
    ensures var p := PlaceDropdown(anchor, screen, options);
            var room := if p.above then Above(anchor, options) else Below(anchor, screen, options);
            (if p.above then p.top >= Margin(options)
             else p.top + p.maxHeight <= screen.height - Margin(options)) <==> room >= RowHeight(options)
  {
  }

  // Where a side has room for the whole list, a gap of 4 and a margin, 8 when none is given,
  // all of its rows show, each 44 high when no height is given.
  lemma ShowsEveryRowWhereThereIsRoom(anchor: Rect, screen: Rect, options: Options)
    requires options.count >= 1
    ensures var p := PlaceDropdown(anchor, screen, options);
            var row := if options.rowHeight.Some? then options.rowHeight.value else 44.0;
            var margin := if options.margin.Some? then options.margin.value else 8.0;
            var list := options.count as real * row;
            var under, over := screen.height - margin - (anchor.y + anchor.height + 4.0), anchor.y - 4.0 - margin;
            && (row > 0.0 && (list <= under || list <= over) ==> p.maxHeight == list)
            && (row > 0.0 ==> (p.above <==> list > under && over > under))
            && p.left >= margin
  {
    var rows, row := options.count as real, RowHeight(options);
    if row > 0.0 {
      assert (rows - 1.0) * row >= 0.0;
      assert rows * row - row == (rows - 1.0) * row;
    }
  }

  // The list is as wide as its field, or as its least width, 180 when none is given, and
  // gives way only to a window with no room for that.
  lemma IsAsWideAsItNeeds(anchor: Rect, screen: Rect, options: Options)
    ensures var p := PlaceDropdown(anchor, screen, options);
            var least := if options.minWidth.Some? then options.minWidth.value else 180.0;
            var needed := if anchor.width >= least then anchor.width else least;
            && p.width <= needed
            && (p.width < needed ==> p.width >= 120.0 && p.width >= screen.width - 2.0 * Margin(options))
            && (p.width < needed ==> p.width == 120.0 || p.width == screen.width - 2.0 * Margin(options))
  {
  }

  // It never starts left of the margin, and ends inside the right one exactly when the
  // window is wide enough for it between the two: always, from 120 and two margins up.
  lemma FitsSidewaysIffWideEnough(anchor: Rect, screen: Rect, options: Options)
    ensures var p := PlaceDropdown(anchor, screen, options);
            && p.left >= Margin(options)
            && (p.left + p.width <= screen.width - Margin(options) <==> p.width + 2.0 * Margin(options) <= screen.width)
            && (screen.width >= 120.0 + 2.0 * Margin(options) ==> p.width + 2.0 * Margin(options) <= screen.width)
  {
  }

  // It lines up with its field wherever that keeps it inside both margins, and is at
  // least as wide as the field unless the window is too narrow for that.
  lemma LinesUpWithItsField(anchor: Rect, screen: Rect, options: Options)
    ensures var p := PlaceDropdown(anchor, screen, options);
            && (p.left == anchor.x <==>
                anchor.x == Margin(options) ||
                (anchor.x > Margin(options) && anchor.x + p.width <= screen.width - Margin(options)))
            && (p.width >= anchor.width <==> anchor.width <= Max(120.0, screen.width - 2.0 * Margin(options)))
  {
  }

  // The side it opens on shows at least as much of the list as the other could, and it
  // opens upwards only to show more.
  lemma OpensWhereMoreShows(anchor: Rect, screen: Rect, options: Options)
    ensures var p := PlaceDropdown(anchor, screen, options);
            var below, above := Visible(options, Below(anchor, screen, options)), Visible(options, Above(anchor, options));
            && (p.above <==> above > below)
            && p.maxHeight == Max(RowHeight(options), Max(above, below))
  {
  }
}
