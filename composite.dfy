/** Composite: a picture keeps a list of graphic components and draws them
    in list order between a header and a footer line. Picture derives
    privately from the component class, so outside code cannot put a picture
    into a picture: the children are always lines, circles and rectangles.
    Draw's printed lines are returned as a sequence. */
module CompositePattern {
  import SeqErase

  datatype Kind = LineKind | CircleKind | RectangleKind

  /** Line, Circle and Rectangle. Children are compared by identity. */
  class Graphic {
    const kind: Kind
    const desc: string

    constructor (kind: Kind, desc: string)
      ensures this.kind == kind && this.desc == desc
    {
      this.kind := kind;
      this.desc := desc;
    }
  }

  /** The line a component prints when drawn. */
  function Drawn(g: Graphic): (r: string)
    ensures |r| > |g.desc| + 1
  {
    match g.kind
    case LineKind => "Draw a line [" + g.desc + "]"
    case CircleKind => "Draw a circle [" + g.desc + "]"
    case RectangleKind => "Draw a rectangle [" + g.desc + "]"
  }

  /** A drawn line starts "Draw a " and ends with the description in
      brackets. */
  lemma DrawnShowsDesc(g: Graphic)
    ensures var r := Drawn(g);
            && "Draw a " <= r
            && r[|r| - 1 - |g.desc|..|r| - 1] == g.desc && r[|r| - 1] == ']'
            && r[|r| - 2 - |g.desc|] == '['
  {
  }

  /** The lines of the children, in list order. */
  function DrawnAll(children: seq<Graphic>): (r: seq<string>)
    ensures |r| == |children|
    ensures forall i :: 0 <= i < |children| ==> r[i] == Drawn(children[i])
    decreases |children|
  {
    if |children| == 0 then [] else DrawnAll(children[..|children| - 1]) + [Drawn(children[|children| - 1])]
  }

  function Header(desc: string): string {
    "== Begin draw picture: " + desc + " =="
  }

  const Footer := "======================="

  class Picture {
    const desc: string
    var picList: seq<Graphic>

    constructor (desc: string)
      ensures this.desc == desc && picList == []
    {
      this.desc := desc;
      picList := [];
    }

    /** Appends the child at the end. */
    method Add(g: Graphic)
      modifies this
      ensures picList == old(picList) + [g]
    {
      picList := picList + [g];
    }

    /** `picList.erase(remove(...))`: the child must be in the list. With a
        single occurrence it is removed and the others keep their order. */
    method Remove(g: Graphic)
      requires g in picList
      modifies this
      ensures 1 <= SeqErase.Count(old(picList), g)
      ensures picList == SeqErase.Without(old(picList), g) + old(picList)[|old(picList)| - SeqErase.Count(old(picList), g) + 1..]
      ensures |picList| == |old(picList)| - 1
      ensures SeqErase.Count(old(picList), g) == 1 ==> picList == SeqErase.Without(old(picList), g)
    {
      picList := SeqErase.RemoveErase(picList, g);
    }

    /** The header, each child in list order, the footer. */
    method Draw() returns (lines: seq<string>)
      ensures lines == [Header(desc)] + DrawnAll(picList) + [Footer]
      ensures |lines| == |picList| + 2
    {
      lines := [Header(desc)];
      for i := 0 to |picList|
        invariant lines == [Header(desc)] + DrawnAll(picList[..i])
      {
        assert picList[..i + 1][..i] == picList[..i];
        lines := lines + [Drawn(picList[i])];
      }
      assert picList[..|picList|] == picList;
      lines := lines + [Footer];
    }
  }

  /** main: five children are added, the third is removed again; the four
      left are drawn in the order they were added. */
  method MainSequence() returns (root: Picture, lines: seq<string>)
    ensures |root.picList| == 4
    ensures root.picList[0].kind == LineKind && root.picList[0].desc == "at the bottom"
    ensures root.picList[1].kind == RectangleKind && root.picList[1].desc == "above the line"
    ensures root.picList[2].kind == CircleKind && root.picList[2].desc == "in the rectangle"
    ensures root.picList[3].kind == LineKind && root.picList[3].desc == "on the left side of rectangle"
    ensures lines == [Header("map")] + DrawnAll(root.picList) + [Footer]
  {
    root := new Picture("map");
    var bottom := new Graphic(LineKind, "at the bottom");
    root.Add(bottom);
    var rect := new Graphic(RectangleKind, "above the line");
    root.Add(rect);
    var l := new Graphic(LineKind, "this line will be remove");
    root.Add(l);
    var circle := new Graphic(CircleKind, "in the rectangle");
    root.Add(circle);
    var left := new Graphic(LineKind, "on the left side of rectangle");
    root.Add(left);
    SeqErase.RemoveSingle([bottom, rect], l, [circle, left]);
    assert root.picList == [bottom, rect] + [l] + [circle, left];
    root.Remove(l);
    assert root.picList == [bottom, rect, circle, left];
    lines := root.Draw();
  }
}
