/** squirtle_cocos_adaptor: SVG drawings as cocos nodes. A cache node
    keeps one pre-rendered display list per drawing and frees them all when
    it leaves the scene; a drawing node fetches its list and bounding box
    from the cache on entering the scene and places its anchor by a compass
    hint.

    Pre-rendering a drawing (`SVG_pre_render(...).get_result()`) is a
    parameter of the cache, which may raise: the display-list ids it hands
    out and the freeing of lists are OpenGL calls, logged here. */
module CocosAdaptor {
  import opened Outcomes
  import opened SvgMatrix

  // ---------------------------------------------------------------------
  // Anchor from a compass hint

  /** A bounding box. */
  datatype Bounds = Bounds(minX: real, maxX: real, minY: real, maxY: real)

  /** A hint letter that picks a row: north, south or centre. */
  predicate IsRow(c: char)
  {
    c == 'N' || c == 'S' || c == 'C'
  }

  /** A hint letter that picks a column: east, west or centre. */
  predicate IsColumn(c: char)
  {
    c == 'E' || c == 'W' || c == 'C'
  }

  /** The selector as two letters: none or empty means `CC`, one letter
      is followed by `C`, more than two raise. */
  function Letters(selector: Option<string>): (r: Result<(char, char)>)
    ensures r.Err? <==> selector.Some? && |selector.value| > 2
    ensures r.Err? ==> r.error == KeyError
  {
    if selector.None? || |selector.value| == 0 then Ok(('C', 'C'))
    else if |selector.value| == 1 then Ok((selector.value[0], 'C'))
    else if |selector.value| > 2 then Err(KeyError)
    else Ok((selector.value[0], selector.value[1]))
  }

  /** The two letters put row first: a leading `C` is swapped to the
      back, then a leading `E` or `W` too. */
  function Canonical(c1: char, c2: char): (char, char)
  {
    var (a, b) := if c1 == 'C' then (c2, c1) else (c1, c2);
    if a == 'E' || a == 'W' then (b, a) else (a, b)
  }

  /** `f_rosewind_offset`: the offset that, added to a position, puts the
      designated point of the box there. */
  function RosewindOffset(b: Bounds, selector: Option<string>): (r: Result<Point>)
    ensures r.Err? ==> r.error == KeyError
  {
    var (c1, c2) :- Letters(selector);
    var (row, column) := Canonical(c1, c2);
    if !IsRow(row) then Err(KeyError)
    else
      var oy := if row == 'N' then b.maxY else if row == 'C' then (b.minY + b.maxY) / 2.0 else b.minY;
      if !IsColumn(column) then Err(KeyError)
      else
        var ox := if column == 'E' then b.maxX else if column == 'C' then (b.minX + b.maxX) / 2.0 else b.minX;
        Ok(Point(-ox, -oy))
  }

  /** The point of the box a row letter and a column letter designate,
      stated on its own: north is up, east is right. */
  function Designated(b: Bounds, row: char, column: char): Point
    requires IsRow(row) && IsColumn(column)
  {
    Point(match column
          case 'E' => b.maxX
          case 'W' => b.minX
          case _ => (b.minX + b.maxX) / 2.0,
          match row
          case 'N' => b.maxY
          case 'S' => b.minY
          case _ => (b.minY + b.maxY) / 2.0)
  }

  /** A two-letter hint naming a row and a column, in either order, moves
      the designated point onto the position. */
  lemma RosewindDesignates(b: Bounds, row: char, column: char)
    requires IsRow(row) && IsColumn(column)
    ensures var d := Designated(b, row, column);
            RosewindOffset(b, Some([row, column])) == Ok(Point(-d.x, -d.y))
            && RosewindOffset(b, Some([column, row])) == Ok(Point(-d.x, -d.y))
  {
  }

  /** Exactly the hints made of a row letter and a column letter, in
      either order, are accepted among the two-letter ones. */
  lemma RosewindAccepts(b: Bounds, c1: char, c2: char)
    ensures RosewindOffset(b, Some([c1, c2])).Ok? <==>
              (IsRow(c1) && IsColumn(c2)) || (IsColumn(c1) && IsRow(c2))
  {
  }

  /** No hint and the empty hint mean the centre; a lone letter `x` means
      the same as `xC` and `Cx`. */
  lemma RosewindShortForms(b: Bounds, c: char)
    ensures RosewindOffset(b, None) == RosewindOffset(b, Some("")) == RosewindOffset(b, Some("CC"))
    ensures RosewindOffset(b, Some([c])) == RosewindOffset(b, Some([c, 'C'])) == RosewindOffset(b, Some(['C', c]))
  {
  }

  /** A hint longer than two letters raises KeyError. */
  lemma RosewindTooLong(b: Bounds, s: string)
    requires |s| > 2
    ensures RosewindOffset(b, Some(s)) == Err(KeyError)
  {
  }

  // ---------------------------------------------------------------------
  // The display-list cache

  /** What identifies a pre-rendered drawing: file, bezier and circle
      divisions. */
  datatype Descriptor = Descriptor(filename: string, bezierDivs: int, circleDivs: int)

  /** The result of pre-rendering: display list, size and bounding box. */
  datatype Rendered = Rendered(idList: nat, width: real, height: real, bounds: Bounds)

  /** A child of the cache node: a drawing node or anything else. */
  datatype Child = DrawingChild(node: SvgNode) | OtherChild

  /** `SVG_CacheNode`. */
  class CacheNode {
    /** `SVG_pre_render(filename, bezier_divs, circle_divs).get_result()`,
        or the exception it raises. */
    const render: Descriptor -> Result<Rendered>
    var db: map<Descriptor, Rendered>
    /** Descriptors pre-rendered, in order. */
    var rendered: seq<Descriptor>
    /** Display lists freed by `glDeleteLists`, in order. */
    var freed: seq<nat>
    var children: seq<SvgNode>

    /** Every cached entry is the drawing's rendering, and each drawing
        was rendered once since the cache was last cleared. */
    ghost predicate Valid()
      reads this
    {
      (forall d :: d in db ==> render(d) == Ok(db[d]))
      && (forall i, j :: 0 <= i < j < |rendered| ==> rendered[i] != rendered[j])
      && (forall d :: d in db <==> d in rendered)
    }

    constructor(render: Descriptor -> Result<Rendered>)
      ensures this.render == render && db == map[] && rendered == [] && freed == [] && children == []
      ensures Valid()
    {
      this.render := render;
      db, rendered, freed, children := map[], [], [], [];
    }

    /** `pre_render`: a drawing is rendered on its first request only;
        every request answers the drawing's rendering. A rendering that
        raises stores nothing, and the exception propagates. */
    method PreRender(d: Descriptor) returns (r: Result<Rendered>)
      requires Valid()
      modifies this`db, this`rendered
      ensures Valid()
      ensures r == render(d)
      ensures r.Ok? <==> d in db
      ensures d in old(db) ==> db == old(db) && rendered == old(rendered)
      ensures d !in old(db) && r.Ok? ==> db == old(db)[d := r.value] && rendered == old(rendered) + [d]
      ensures r.Err? ==> db == old(db) && rendered == old(rendered)
    {
      if d !in db {
        var p := render(d);
        if p.Err? {
          return p;
        }
        db := db[d := p.value];
        rendered := rendered + [d];
      }
      r := Ok(db[d]);
    }

    /** `on_exit`: every cached display list is freed once, in the
        dictionary's order, and the cache is emptied. */
    method OnExit() returns (ghost order: seq<Descriptor>)
      modifies this`db, this`freed, this`rendered
      ensures db == map[] && rendered == []
      ensures (forall d :: d in order <==> d in old(db))
      ensures forall i, j :: 0 <= i < j < |order| ==> order[i] != order[j]
      ensures |freed| == |old(freed)| + |order|
      ensures freed[..|old(freed)|] == old(freed)
      ensures forall i :: 0 <= i < |order| ==> order[i] in old(db) && freed[|old(freed)| + i] == old(db)[order[i]].idList
      ensures Valid()
    {
      var left := db.Keys;
      order := [];
      ghost var freed0 := freed;
      while left != {}
        invariant left <= old(db).Keys && db == old(db)
        invariant forall d :: d in order <==> d in old(db) && d !in left
        invariant forall i, j :: 0 <= i < j < |order| ==> order[i] != order[j]
        invariant |freed| == |freed0| + |order| && freed[..|freed0|] == freed0
        invariant forall i :: 0 <= i < |order| ==> order[i] in old(db) && freed[|freed0| + i] == old(db)[order[i]].idList
        decreases left
      {
        var e :| e in left;
        freed := freed + [db[e].idList];
        order := order + [e];
        left := left - {e};
      }
      db := map[];
      rendered := [];
    }

    /** `add`: only drawing nodes may be added. */
    method Add(c: Child) returns (r: Result<()>)
      modifies this`children
      ensures r.Err? <==> c.OtherChild?
      ensures r.Err? ==> r.error == AssertionError && children == old(children)
      ensures r.Ok? ==> children == old(children) + [c.node]
    {
      if c.OtherChild? {
        return Err(AssertionError);
      }
      children := children + [c.node];
      return Ok(());
    }
  }

  // ---------------------------------------------------------------------
  // The drawing node

  /** `SVGnode`. Its fields other than position, rotation and scale are
      unset (None) until the first `on_enter`. The upper bound of the box
      is stored under the name `man_y`, as the source spells it. */
  class SvgNode {
    const descriptor: Descriptor
    const anchorHint: Option<string>
    var anchorFromHint: bool
    var fwidth: Option<real>
    var fheight: Option<real>
    var minX: Option<real>
    var maxX: Option<real>
    var minY: Option<real>
    var manY: Option<real>
    var displayList: Option<nat>
    /** The anchor set from the hint; None leaves the node's default. */
    var anchor: Option<Point>
    var position: Point
    var rotation: real
    var scale: real

    constructor(descriptor: Descriptor, position: Point, rotation: real, scale: real, anchorHint: Option<string>)
      ensures this.descriptor == descriptor && this.anchorHint == anchorHint && anchorFromHint
      ensures fwidth == fheight == minX == maxX == minY == manY == None && displayList == None && anchor == None
      ensures this.position == position && this.rotation == rotation && this.scale == scale
    {
      this.descriptor := descriptor;
      this.anchorHint := anchorHint;
      anchorFromHint := true;
      fwidth, fheight, minX, maxX, minY, manY := None, None, None, None, None, None;
      displayList := None;
      anchor := None;
      this.position, this.rotation, this.scale := position, rotation, scale;
    }

    /** The box and display list an entry takes from the cache. */
    ghost predicate Loaded(p: Rendered)
      reads this
    {
      var b := p.bounds;
      displayList == Some(p.idList)
      && fwidth == Some(b.maxX - b.minX) && fheight == Some(b.maxY - b.minY)
      && minX == Some(b.minX) && maxX == Some(b.maxX) && minY == Some(b.minY) && manY == Some(b.maxY)
    }

    method Load(p: Rendered)
      modifies this`displayList, this`fwidth, this`fheight, this`minX, this`maxX, this`minY, this`manY
      ensures Loaded(p)
    {
      var b := p.bounds;
      displayList := Some(p.idList);
      fwidth := Some(b.maxX - b.minX);
      fheight := Some(b.maxY - b.minY);
      minX := Some(b.minX);
      maxX := Some(b.maxX);
      minY := Some(b.minY);
      manY := Some(b.maxY);
    }

    /** `on_enter`: the node takes its list and box from the cache and, on
        its first entry only, its anchor from the hint. A node outside a
        cache node raises on the missing ancestor, and a drawing whose
        rendering raises leaves the node and the cache as they were. */
    method OnEnter(cache: CacheNode?) returns (r: Result<()>)
      requires cache != null ==> cache.Valid()
      modifies this, cache
      ensures cache == null ==> r == Err(AttributeError) && unchanged(this)
      ensures cache != null ==> cache.Valid() && cache.freed == old(cache.freed) && cache.children == old(cache.children)
      ensures cache != null && descriptor in old(cache.db) ==>
                cache.db == old(cache.db) && cache.rendered == old(cache.rendered)
      ensures cache != null && descriptor !in old(cache.db) && cache.render(descriptor).Ok? ==>
                cache.db == old(cache.db)[descriptor := cache.render(descriptor).value]
                && cache.rendered == old(cache.rendered) + [descriptor]
      ensures cache != null && cache.render(descriptor).Err? ==>
                r == Err(cache.render(descriptor).error) && unchanged(this)
                && cache.db == old(cache.db) && cache.rendered == old(cache.rendered)
      ensures cache != null && cache.render(descriptor).Ok? ==>
                Loaded(cache.render(descriptor).value) && !anchorFromHint
      ensures cache != null && cache.render(descriptor).Ok? && old(anchorFromHint) ==>
                var o := RosewindOffset(cache.render(descriptor).value.bounds, anchorHint);
                (r.Ok? <==> o.Ok?) && (o.Ok? ==> anchor == Some(o.value))
                && (o.Err? ==> r.error == o.error && anchor == old(anchor))
      ensures cache != null && cache.render(descriptor).Ok? && !old(anchorFromHint) ==>
                r == Ok(()) && anchor == old(anchor)
      ensures position == old(position) && rotation == old(rotation) && scale == old(scale)
    {
      if cache == null {
        return Err(AttributeError);
      }
      r := Enter(cache);
    }

    /** `on_enter` inside a cache node. */
    method Enter(cache: CacheNode) returns (r: Result<()>)
      requires cache.Valid()
      modifies this`displayList, this`fwidth, this`fheight, this`minX, this`maxX, this`minY, this`manY
      modifies this`anchorFromHint, this`anchor, cache`db, cache`rendered
      ensures cache.Valid()
      ensures descriptor in old(cache.db) ==> cache.db == old(cache.db) && cache.rendered == old(cache.rendered)
      ensures descriptor !in old(cache.db) && cache.render(descriptor).Ok? ==>
                cache.db == old(cache.db)[descriptor := cache.render(descriptor).value]
                && cache.rendered == old(cache.rendered) + [descriptor]
      ensures cache.render(descriptor).Err? ==>
                r == Err(cache.render(descriptor).error) && unchanged(this)
                && cache.db == old(cache.db) && cache.rendered == old(cache.rendered)
      ensures cache.render(descriptor).Ok? ==> Loaded(cache.render(descriptor).value) && !anchorFromHint
      ensures cache.render(descriptor).Ok? && old(anchorFromHint) ==>
                var o := RosewindOffset(cache.render(descriptor).value.bounds, anchorHint);
                (r.Ok? <==> o.Ok?) && (o.Ok? ==> anchor == Some(o.value))
                && (o.Err? ==> r.error == o.error && anchor == old(anchor))
      ensures cache.render(descriptor).Ok? && !old(anchorFromHint) ==> r == Ok(()) && anchor == old(anchor)
    {
      var p := cache.PreRender(descriptor);
      if p.Err? {
        return Err(p.error);
      }
      Load(p.value);
      r := PlaceAnchor(p.value.bounds);
    }

    /** The anchor step of `on_enter`: only on the first entry, the anchor
        named by the hint, where a bad hint raises. */
    method PlaceAnchor(b: Bounds) returns (r: Result<()>)
      modifies this`anchorFromHint, this`anchor
      ensures !anchorFromHint
      ensures old(anchorFromHint) ==>
                var o := RosewindOffset(b, anchorHint);
                (r.Ok? <==> o.Ok?) && (o.Ok? ==> anchor == Some(o.value))
                && (o.Err? ==> r.error == o.error && anchor == old(anchor))
      ensures !old(anchorFromHint) ==> r == Ok(()) && anchor == old(anchor)
    {
      if anchorFromHint {
        anchorFromHint := false;
        var offset := RosewindOffset(b, anchorHint);
        if offset.Err? {
          return Err(offset.error);
        }
        anchor := Some(offset.value);
      }
      return Ok(());
    }
  }
}
