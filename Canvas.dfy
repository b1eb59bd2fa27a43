/** The editor canvas of the flow designer (Canvas.js): the list of nodes,
    the list of links, each port's list of attached links, the selection,
    and the pointer handlers that create links and select nodes.

    Rendering (d3 and SVG elements, colours, the dotted grid) is not part of
    this model: the temporary link line and the selection rectangle appear
    only as the state the handlers test. Coordinates are integers. */
module NodeFramework {

  datatype Option<T> = None | Some(value: T)

  /** The bounding box of the selection rectangle, as getBBox reports it. */
  datatype Rect = Rect(x: int, y: int, width: int, height: int)

  /** Which handler the svg element's "pointermove" event is bound to. */
  datatype MoveHandler =
    | NoMoveHandler
      /** Drags the end of the temporary link line. */
    | TempLineHandler
      /** Stretches the selection rectangle from the pointer-down point. */
    | SelectRectHandler(startX: int, startY: int)

  /** A port of a node. Only what the canvas reads of it: its offset inside
      the node and the links attached to it. */
  class Port {
    const x: int
    const y: int
    var connectedLinks: seq<Link>
  }

  /** A link from an output port to an input port. */
  class Link {
    const id: string
    const sourcePort: Port
    const targetPort: Port

    constructor (id: string, sourcePort: Port, targetPort: Port)
      ensures this.id == id && this.sourcePort == sourcePort && this.targetPort == targetPort
    {
      this.id := id;
      this.sourcePort := sourcePort;
      this.targetPort := targetPort;
    }
  }

  /** A node as the canvas sees it: an identifier, a box and its two ports.
      Its position is fixed here, since dragging is not part of this model. */
  class CanvasNode {
    const id: string
    const x: int
    const y: int
    const width: int
    const height: int
    const inputPort: Port
    const outputPort: Port

    constructor (id: string, x: int, y: int, width: int, height: int, inputPort: Port, outputPort: Port)
      ensures this.id == id && this.x == x && this.y == y && this.width == width && this.height == height
      ensures this.inputPort == inputPort && this.outputPort == outputPort
    {
      this.id := id;
      this.x := x;
      this.y := y;
      this.width := width;
      this.height := height;
      this.inputPort := inputPort;
      this.outputPort := outputPort;
    }
  }

  // ---------------------------------------------------------------------
  // Array.prototype.filter

  /** The elements of `s` that `keep` accepts, in their order in `s`. */
  function Filter<T>(s: seq<T>, keep: T -> bool): (r: seq<T>)
    ensures |r| <= |s|
    ensures forall i :: 0 <= i < |r| ==> r[i] in s && keep(r[i])
    ensures forall i :: 0 <= i < |s| && keep(s[i]) ==> s[i] in r
  {
    if |s| == 0 then []
    else (if keep(s[0]) then [s[0]] else []) + Filter(s[1..], keep)
  }

  /** An element is kept exactly when it occurs and the test accepts it. */
  lemma FilterMember<T>(s: seq<T>, keep: T -> bool, x: T)
    ensures x in Filter(s, keep) <==> x in s && keep(x)
  {
    if x in s && keep(x) {
      var i :| 0 <= i < |s| && s[i] == x;
    }
  }

  /** Filtering keeps the order: filtering a concatenation filters each part. */
  lemma {:induction false} FilterConcat<T>(a: seq<T>, b: seq<T>, keep: T -> bool)
    ensures Filter(a + b, keep) == Filter(a, keep) + Filter(b, keep)
  {
    if |a| == 0 {
      assert a + b == b;
    } else {
      var head := if keep(a[0]) then [a[0]] else [];
      assert (a + b)[0] == a[0];
      assert (a + b)[1..] == a[1..] + b;
      FilterConcat(a[1..], b, keep);
      calc {
        Filter(a + b, keep);
        head + Filter(a[1..] + b, keep);
        head + (Filter(a[1..], keep) + Filter(b, keep));
        (head + Filter(a[1..], keep)) + Filter(b, keep);
      }
    }
  }

  /** Filtering keeps every accepted element as often as it occurs, and no
      rejected one. */
  lemma {:induction false} FilterMultiset<T>(s: seq<T>, keep: T -> bool, x: T)
    ensures multiset(Filter(s, keep))[x] == if keep(x) then multiset(s)[x] else 0
  {
    if |s| > 0 {
      FilterMultiset(s[1..], keep, x);
      assert s == [s[0]] + s[1..];
    }
  }

  /** A filter that accepts every element changes nothing. */
  lemma {:induction false} FilterAll<T>(s: seq<T>, keep: T -> bool)
    requires forall x :: x in s ==> keep(x)
    ensures Filter(s, keep) == s
  {
    if |s| > 0 {
      FilterAll(s[1..], keep);
      assert s == [s[0]] + s[1..];
    }
  }

  /** Filtering twice with the same test is filtering once. */
  lemma FilterTwice<T>(s: seq<T>, keep: T -> bool)
    ensures Filter(Filter(s, keep), keep) == Filter(s, keep)
  {
    FilterAll(Filter(s, keep), keep);
  }

  /** The filter only looks at the test's answers on the elements of `s`. */
  lemma {:induction false} FilterCongruent<T>(s: seq<T>, keep: T -> bool, keep': T -> bool)
    requires forall x :: x in s ==> keep(x) == keep'(x)
    ensures Filter(s, keep) == Filter(s, keep')
  {
    if |s| > 0 {
      FilterCongruent(s[1..], keep, keep');
    }
  }

  /** The test of `link.id !== id`. */
  function OtherLinkId(id: string): Link -> bool
  {
    (l: Link) => l.id != id
  }

  /** The test of `node.id !== id`. */
  function OtherNodeId(id: string): CanvasNode -> bool
  {
    (n: CanvasNode) => n.id != id
  }

  /** The test of `!a.includes(link) && !b.includes(link)`. */
  function InNeither(a: seq<Link>, b: seq<Link>): Link -> bool
  {
    (l: Link) => l !in a && l !in b
  }

  // The three filters of deleteSelection, written out without a function
  // argument. The methods that update the canvas use these, so that their
  // proofs need not reason about the frames of function values; each is
  // proved equal to Filter with the test Canvas.js passes (the IsFilter lemmas).

  /** `links.filter(link => link.id !== id)`, written out. */
  function WithoutLinkId(links: seq<Link>, id: string): (r: seq<Link>)
    ensures forall i :: 0 <= i < |r| ==> r[i] in links && r[i].id != id
    ensures forall i :: 0 <= i < |links| && links[i].id != id ==> links[i] in r
  {
    if |links| == 0 then []
    else (if links[0].id != id then [links[0]] else []) + WithoutLinkId(links[1..], id)
  }

  lemma {:induction false} WithoutLinkIdIsFilter(links: seq<Link>, id: string)
    ensures WithoutLinkId(links, id) == Filter(links, OtherLinkId(id))
  {
    if |links| > 0 {
      WithoutLinkIdIsFilter(links[1..], id);
    }
  }

  /** A link survives exactly when it was there and has another identifier. */
  lemma WithoutLinkIdMember(links: seq<Link>, id: string, l: Link)
    ensures l in WithoutLinkId(links, id) <==> l in links && l.id != id
  {
    WithoutLinkIdIsFilter(links, id);
    FilterMember(links, OtherLinkId(id), l);
  }

  /** Removing an identifier twice removes it once. */
  lemma WithoutLinkIdTwice(links: seq<Link>, id: string)
    ensures WithoutLinkId(WithoutLinkId(links, id), id) == WithoutLinkId(links, id)
  {
    WithoutLinkIdIsFilter(links, id);
    WithoutLinkIdIsFilter(WithoutLinkId(links, id), id);
    FilterTwice(links, OtherLinkId(id));
  }

  /** `nodes.filter(node => node.id !== id)`, written out. */
  function WithoutNodeId(nodes: seq<CanvasNode>, id: string): (r: seq<CanvasNode>)
    ensures forall i :: 0 <= i < |r| ==> r[i] in nodes && r[i].id != id
    ensures forall i :: 0 <= i < |nodes| && nodes[i].id != id ==> nodes[i] in r
  {
    if |nodes| == 0 then []
    else (if nodes[0].id != id then [nodes[0]] else []) + WithoutNodeId(nodes[1..], id)
  }

  lemma {:induction false} WithoutNodeIdIsFilter(nodes: seq<CanvasNode>, id: string)
    ensures WithoutNodeId(nodes, id) == Filter(nodes, OtherNodeId(id))
  {
    if |nodes| > 0 {
      WithoutNodeIdIsFilter(nodes[1..], id);
    }
  }

  /** `links.filter(link => !a.includes(link) && !b.includes(link))`,
      written out. */
  function Unattached(links: seq<Link>, a: seq<Link>, b: seq<Link>): (r: seq<Link>)
    ensures forall i :: 0 <= i < |r| ==> r[i] in links && r[i] !in a && r[i] !in b
    ensures forall i :: 0 <= i < |links| && links[i] !in a && links[i] !in b ==> links[i] in r
  {
    if |links| == 0 then []
    else (if links[0] !in a && links[0] !in b then [links[0]] else []) + Unattached(links[1..], a, b)
  }

  lemma {:induction false} UnattachedIsFilter(links: seq<Link>, a: seq<Link>, b: seq<Link>)
    ensures Unattached(links, a, b) == Filter(links, InNeither(a, b))
  {
    if |links| > 0 {
      UnattachedIsFilter(links[1..], a, b);
    }
  }

  /** Only the listed links' membership in `a` and `b` matters. */
  lemma UnattachedCongruent(links: seq<Link>, a: seq<Link>, b: seq<Link>, a': seq<Link>, b': seq<Link>)
    requires forall l :: l in links ==> (l in a <==> l in a') && (l in b <==> l in b')
    ensures Unattached(links, a, b) == Unattached(links, a', b')
  {
    UnattachedIsFilter(links, a, b);
    UnattachedIsFilter(links, a', b');
    FilterCongruent(links, InNeither(a, b), InNeither(a', b'));
  }

  // ---------------------------------------------------------------------
  // Geometry

  function Min(a: int, b: int): int { if a <= b then a else b }

  function Abs(a: int): int { if a < 0 then -a else a }

  /** The 10 by 10 box at the input port of `n`, tested with strict
      comparisons on every side. */
  predicate InputPortHit(n: CanvasNode, mouseX: int, mouseY: int)
  {
    var portX := n.x + n.inputPort.x;
    var portY := n.y + n.inputPort.y;
    mouseX > portX && mouseX < portX + 10 && mouseY > portY && mouseY < portY + 10
  }

  /** The test of the pointer-up loop's `if`. */
  function HitsPointer(mouseX: int, mouseY: int): CanvasNode -> bool
  {
    (n: CanvasNode) => InputPortHit(n, mouseX, mouseY)
  }

  /** The position of the first node in `nodes` whose input-port box holds
      the pointer, if any. */
  function FirstHit(nodes: seq<CanvasNode>, mouseX: int, mouseY: int): (r: Option<nat>)
    ensures r.Some? ==> r.value < |nodes| && InputPortHit(nodes[r.value], mouseX, mouseY)
    ensures r.Some? ==> forall k :: 0 <= k < r.value ==> !InputPortHit(nodes[k], mouseX, mouseY)
    ensures r.None? ==> forall k :: 0 <= k < |nodes| ==> !InputPortHit(nodes[k], mouseX, mouseY)
  {
    if |nodes| == 0 then None
    else if InputPortHit(nodes[0], mouseX, mouseY) then Some(0)
    else match FirstHit(nodes[1..], mouseX, mouseY)
      case None => None
      case Some(k) => Some(k + 1)
  }

  /** The node that receives the link is the first of all the nodes hit. */
  lemma {:induction false} FirstHitIsFirstOfHits(nodes: seq<CanvasNode>, mouseX: int, mouseY: int)
    ensures var hits := Filter(nodes, HitsPointer(mouseX, mouseY));
            match FirstHit(nodes, mouseX, mouseY)
            case None => hits == []
            case Some(k) => |hits| > 0 && hits[0] == nodes[k]
  {
    if |nodes| > 0 {
      FirstHitIsFirstOfHits(nodes[1..], mouseX, mouseY);
    }
  }

  /** Whether the box of `n` lies inside `r`, edges included. */
  predicate Inside(n: CanvasNode, r: Rect)
  {
    n.x >= r.x && n.y >= r.y && n.x + n.width <= r.x + r.width && n.y + n.height <= r.y + r.height
  }

  /** The test of the rectangle selection's filter. */
  function InsideOf(r: Rect): CanvasNode -> bool
  {
    (n: CanvasNode) => Inside(n, r)
  }

  /** The selection rectangle stretched from the pointer-down point
      (startX, startY) to the pointer at (x, y): its corners are the two
      points, whichever way the pointer went. */
  function Span(startX: int, startY: int, x: int, y: int): (r: Rect)
    ensures r.width >= 0 && r.height >= 0
    ensures (r.x == x && r.x + r.width == startX) || (r.x == startX && r.x + r.width == x)
    ensures (r.y == y && r.y + r.height == startY) || (r.y == startY && r.y + r.height == y)
  {
    Rect(Min(x, startX), Min(y, startY), Abs(x - startX), Abs(y - startY))
  }

  /** Dragging from one corner to the other selects the same rectangle as
      dragging back. */
  lemma SpanSymmetric(startX: int, startY: int, x: int, y: int)
    ensures Span(startX, startY, x, y) == Span(x, y, startX, startY)
  {
  }

  /** A node is inside a stretched rectangle exactly when its box lies
      between the two points on both axes. */
  lemma InsideSpan(n: CanvasNode, startX: int, startY: int, x: int, y: int)
    ensures Inside(n, Span(startX, startY, x, y)) <==>
            ((startX <= n.x && n.x + n.width <= x) || (x <= n.x && n.x + n.width <= startX)) &&
            ((startY <= n.y && n.y + n.height <= y) || (y <= n.y && n.y + n.height <= startY))
  {
  }

  // ---------------------------------------------------------------------
  // The canvas

  /** The link is in the attached links of both of its ports. */
  ghost predicate Attached(l: Link)
    reads l.sourcePort, l.targetPort
  {
    l in l.sourcePort.connectedLinks && l in l.targetPort.connectedLinks
  }

  class Canvas {
    var nodeList: seq<CanvasNode>
    var linkList: seq<Link>
    var selectedLink: Link?
    var selectedNode: CanvasNode?
    var isSelecting: bool
    var isLinking: bool
    /** Whether the temporary link line (tempLine) exists. */
    var hasTempLine: bool
    var tempSelectRect: Option<Rect>
    var dragMultipleSelection: seq<CanvasNode>
    /** The output port a link is being drawn from. */
    var sourcePort: Port?
    var moveHandler: MoveHandler

    /** The ports at the two ends of the links in linkList. */
    ghost function LinkPorts(): set<Port>
      reads this
    {
      (set l | l in linkList :: l.sourcePort) + (set l | l in linkList :: l.targetPort)
    }

    /** The ports of the selected link, which deleting it edits. */
    function SelectedLinkPorts(): set<Port>
      reads this
    {
      if selectedLink == null then {} else {selectedLink.sourcePort, selectedLink.targetPort}
    }

    /** The input ports of the listed nodes. */
    function InputPorts(): set<Port>
      reads this
    {
      set n | n in nodeList :: n.inputPort
    }

    /** A link is being drawn exactly while the temporary line exists, and
        it starts from a port; a selection is stretched only while its
        rectangle exists; and every listed link is attached to both of its
        ports. */
    ghost predicate Valid()
      reads this, LinkPorts()
    {
      (hasTempLine <==> isLinking) &&
      (isLinking ==> sourcePort != null) &&
      (isSelecting ==> tempSelectRect.Some?) &&
      forall l :: l in linkList ==> Attached(l)
    }

    constructor ()
      ensures Valid()
      ensures nodeList == [] && linkList == [] && dragMultipleSelection == []
      ensures selectedLink == null && selectedNode == null && sourcePort == null
      ensures !isSelecting && !isLinking && !hasTempLine && tempSelectRect == None
      ensures moveHandler == NoMoveHandler
    {
      nodeList := [];
      linkList := [];
      selectedLink := null;
      selectedNode := null;
      isSelecting := false;
      isLinking := false;
      hasTempLine := false;
      tempSelectRect := None;
      dragMultipleSelection := [];
      sourcePort := null;
      moveHandler := NoMoveHandler;
    }

    /** addNode: the node is appended to the node list; no other list
        changes. (Its pointer listeners are the handlers below.) */
    method AddNode(node: CanvasNode)
      requires Valid()
      modifies this`nodeList
      ensures Valid()
      ensures nodeList == old(nodeList) + [node]
    {
      nodeList := nodeList + [node];
    }

    /** addLink: one new link from `source` to `target`, with a fresh
        identifier, appended to the link list and to the attached links of
        both ports (twice to one port when the two ends are the same). */
    method AddLink(source: Port, target: Port, id: string) returns (link: Link)
      requires Valid()
      modifies this`linkList, source`connectedLinks, target`connectedLinks
      ensures Valid()
      ensures fresh(link) && link.id == id && link.sourcePort == source && link.targetPort == target
      ensures linkList == old(linkList) + [link]
      ensures source != target ==>
                source.connectedLinks == old(source.connectedLinks) + [link] &&
                target.connectedLinks == old(target.connectedLinks) + [link]
      ensures source == target ==> source.connectedLinks == old(source.connectedLinks) + [link, link]
    {
      link := new Link(id, source, target);
      source.connectedLinks := source.connectedLinks + [link];
      target.connectedLinks := target.connectedLinks + [link];
      linkList := linkList + [link];
    }

    /** resetAllColors: clears the selection (the repainting is rendering). */
    method ResetAllColors()
      requires Valid()
      modifies this`selectedLink, this`selectedNode
      ensures Valid()
      ensures selectedLink == null && selectedNode == null
    {
      selectedLink := null;
      selectedNode := null;
    }

    /** A click on a drawn link selects it, after clearing the selection. */
    method OnLinkClick(link: Link)
      requires Valid()
      modifies this`selectedLink, this`selectedNode
      ensures Valid()
      ensures selectedLink == link && selectedNode == null
    {
      ResetAllColors();
      selectedLink := link;
    }

    /** Every link with identifier `id` leaves the link list; the others
        stay, in order. */
    method RemoveLinksWithId(id: string)
      requires Valid()
      modifies this`linkList
      ensures Valid()
      ensures linkList == WithoutLinkId(old(linkList), id)
      ensures forall i :: 0 <= i < |linkList| ==> linkList[i].id != id
    {
      linkList := WithoutLinkId(linkList, id);
    }

    /** Every link with identifier `id`, none of which is listed any more,
        leaves the attached links of `port`. */
    method DetachLinksWithId(port: Port, id: string)
      requires Valid()
      requires forall i :: 0 <= i < |linkList| ==> linkList[i].id != id
      modifies port`connectedLinks
      ensures Valid()
      ensures port.connectedLinks == WithoutLinkId(old(port.connectedLinks), id)
    {
      port.connectedLinks := WithoutLinkId(port.connectedLinks, id);
      forall l | l in linkList
        ensures l in l.sourcePort.connectedLinks && l in l.targetPort.connectedLinks
      {
        WithoutLinkIdMember(old(port.connectedLinks), id, l);
      }
    }

    /** The first half of deleteSelection: every link with the selected
        link's identifier leaves the link list and then the attached links
        of the selected link's source and target ports; all other links
        stay, in order. */
    method DeleteSelectedLink()
      requires Valid() && selectedLink != null
      modifies this`linkList, this`selectedLink, SelectedLinkPorts()`connectedLinks
      ensures Valid()
      ensures selectedLink == null
      ensures linkList == WithoutLinkId(old(linkList), old(selectedLink).id)
      ensures var gone := old(selectedLink);
              gone.sourcePort.connectedLinks == WithoutLinkId(old(gone.sourcePort.connectedLinks), gone.id) &&
              gone.targetPort.connectedLinks == WithoutLinkId(old(gone.targetPort.connectedLinks), gone.id)
    {
      var gone := selectedLink;
      RemoveLinksWithId(gone.id);
      DetachLinksWithId(gone.sourcePort, gone.id);
      DetachLinksWithId(gone.targetPort, gone.id);
      if gone.sourcePort == gone.targetPort {
        WithoutLinkIdTwice(old(gone.sourcePort.connectedLinks), gone.id);
      }
      selectedLink := null;
    }

    /** The second half of deleteSelection: the selected node leaves the
        node list (with any node of the same identifier), and every link
        attached to its input or output port leaves the link list. No
        port's attached links change, the far ends included. */
    method DeleteSelectedNode()
      requires Valid() && selectedNode != null
      modifies this`nodeList, this`linkList, this`selectedNode
      ensures Valid()
      ensures selectedNode == null
      ensures nodeList == WithoutNodeId(old(nodeList), old(selectedNode).id)
      ensures linkList == Unattached(old(linkList), old(selectedNode.inputPort.connectedLinks),
                                           old(selectedNode.outputPort.connectedLinks))
    {
      var gone := selectedNode;
      nodeList := WithoutNodeId(nodeList, gone.id);
      var connectedLinksInput := gone.inputPort.connectedLinks;
      var connectedLinksOutput := gone.outputPort.connectedLinks;
      linkList := Unattached(linkList, connectedLinksInput, connectedLinksOutput);
      selectedNode := null;
    }

    /** deleteSelection: the selected link is deleted first, then the
        selected node; the node's attached links are read after the first
        step, which changes nothing about which listed links they hold. */
    method DeleteSelection()
      requires Valid()
      modifies this`nodeList, this`linkList, this`selectedLink, this`selectedNode
      modifies SelectedLinkPorts()`connectedLinks
      ensures Valid()
      ensures selectedLink == null && selectedNode == null
      ensures nodeList == if old(selectedNode) == null then old(nodeList)
                          else WithoutNodeId(old(nodeList), old(selectedNode).id)
      ensures var afterLink := if old(selectedLink) == null then old(linkList)
                               else WithoutLinkId(old(linkList), old(selectedLink).id);
              linkList == if old(selectedNode) == null then afterLink
                          else Unattached(afterLink, old(selectedNode.inputPort.connectedLinks),
                                                      old(selectedNode.outputPort.connectedLinks))
      ensures old(selectedLink) != null ==>
                var gone := old(selectedLink);
                gone.sourcePort.connectedLinks == WithoutLinkId(old(gone.sourcePort.connectedLinks), gone.id) &&
                gone.targetPort.connectedLinks == WithoutLinkId(old(gone.targetPort.connectedLinks), gone.id)
    {
      DeleteLinkPart();
      if selectedNode != null {
        DeleteSelectedNode();
      }
    }

    /** The link block of deleteSelection, when a link is selected. The
        selected node's attached links may lose links here, but only links
        that have left the link list, so they still pick out the same
        listed links. */
    method DeleteLinkPart()
      requires Valid()
      modifies this`linkList, this`selectedLink, SelectedLinkPorts()`connectedLinks
      ensures Valid()
      ensures selectedLink == null
      ensures linkList == if old(selectedLink) == null then old(linkList)
                          else WithoutLinkId(old(linkList), old(selectedLink).id)
      ensures old(selectedLink) != null ==>
                var gone := old(selectedLink);
                gone.sourcePort.connectedLinks == WithoutLinkId(old(gone.sourcePort.connectedLinks), gone.id) &&
                gone.targetPort.connectedLinks == WithoutLinkId(old(gone.targetPort.connectedLinks), gone.id)
      ensures selectedNode != null ==>
                Unattached(linkList, selectedNode.inputPort.connectedLinks, selectedNode.outputPort.connectedLinks)
                == Unattached(linkList, old(selectedNode.inputPort.connectedLinks), old(selectedNode.outputPort.connectedLinks))
    {
      if selectedLink != null {
        ghost var node := selectedNode;
        ghost var in0 := if node == null then [] else node.inputPort.connectedLinks;
        ghost var out0 := if node == null then [] else node.outputPort.connectedLinks;
        DeleteSelectedLink();
        if node != null {
          UnattachedCongruent(linkList, in0, out0, node.inputPort.connectedLinks, node.outputPort.connectedLinks);
        }
      }
    }

    /** The "Delete" key deletes the selection; other keys do nothing. */
    method OnKeyDown(key: string)
      requires Valid()
      modifies this`nodeList, this`linkList, this`selectedLink, this`selectedNode
      modifies SelectedLinkPorts()`connectedLinks
      ensures Valid()
      ensures key != "Delete" ==> unchanged(this) && unchanged(old(SelectedLinkPorts()))
      ensures key == "Delete" ==> selectedLink == null && selectedNode == null
      ensures key == "Delete" ==>
                nodeList == if old(selectedNode) == null then old(nodeList)
                            else WithoutNodeId(old(nodeList), old(selectedNode).id)
      ensures key == "Delete" ==>
                var afterLink := if old(selectedLink) == null then old(linkList)
                                 else WithoutLinkId(old(linkList), old(selectedLink).id);
                linkList == if old(selectedNode) == null then afterLink
                            else Unattached(afterLink, old(selectedNode.inputPort.connectedLinks),
                                                        old(selectedNode.outputPort.connectedLinks))
      ensures key == "Delete" && old(selectedLink) != null ==>
                var gone := old(selectedLink);
                gone.sourcePort.connectedLinks == WithoutLinkId(old(gone.sourcePort.connectedLinks), gone.id) &&
                gone.targetPort.connectedLinks == WithoutLinkId(old(gone.targetPort.connectedLinks), gone.id)
    {
      if key == "Delete" {
        DeleteSelection();
      }
    }

    /** A pointer-down on a node's output port starts drawing a link from
        that port: the temporary line appears and follows the pointer. */
    method OnOutputPortPointerDown(node: CanvasNode)
      requires Valid()
      modifies this`isLinking, this`sourcePort, this`hasTempLine, this`moveHandler
      ensures Valid()
      ensures isLinking && hasTempLine && sourcePort == node.outputPort && moveHandler == TempLineHandler
    {
      isLinking := true;
      sourcePort := node.outputPort;
      hasTempLine := true;
      moveHandler := TempLineHandler;
    }

    /** The svg element's pointer-up: when no link is being drawn, nothing.
        Otherwise drawing stops, the temporary line goes, and a link is
        added from the source port to the input port of the first listed
        node whose 10 by 10 input-port box strictly contains the pointer, if
        there is one. The pointer is at (eventX, eventY) in the page and the
        svg element's corner at (svgX, svgY). */
    method OnSvgPointerUp(eventX: int, eventY: int, svgX: int, svgY: int, linkId: string)
      returns (link: Link?)
      requires Valid()
      modifies this`isLinking, this`hasTempLine, this`moveHandler, this`linkList
      modifies (if sourcePort == null then {} else {sourcePort}) + InputPorts()
      ensures Valid()
      ensures !old(isLinking) ==>
                link == null && unchanged(this) &&
                unchanged(old(InputPorts())) && (old(sourcePort) == null || unchanged(old(sourcePort)))
      ensures old(isLinking) ==> !isLinking && !hasTempLine && moveHandler == NoMoveHandler
      ensures old(isLinking) ==>
                match FirstHit(nodeList, eventX - svgX, eventY - svgY)
                case None =>
                  link == null && linkList == old(linkList) &&
                  unchanged(old(InputPorts())) && unchanged(sourcePort)
                case Some(k) =>
                  var target := nodeList[k].inputPort;
                  link != null && fresh(link) && link.id == linkId &&
                  link.sourcePort == sourcePort && link.targetPort == target &&
                  linkList == old(linkList) + [link] &&
                  (sourcePort != target ==>
                     sourcePort.connectedLinks == old(sourcePort.connectedLinks) + [link] &&
                     target.connectedLinks == old(target.connectedLinks) + [link]) &&
                  (sourcePort == target ==> target.connectedLinks == old(target.connectedLinks) + [link, link]) &&
                  (forall p :: p in old(InputPorts()) && p != target && p != sourcePort ==> unchanged(p))
    {
      link := null;
      if !isLinking {
        return;
      }
      isLinking := false;
      hasTempLine := false;
      var mouseX := eventX - svgX;
      var mouseY := eventY - svgY;
      var i := 0;
      while i < |nodeList|
        invariant i <= |nodeList|
        invariant forall k :: 0 <= k < i ==> !InputPortHit(nodeList[k], mouseX, mouseY)
        invariant link == null
        invariant unchanged(InputPorts()) && (sourcePort == null || unchanged(sourcePort))
        invariant linkList == old(linkList)
      {
        var node := nodeList[i];
        var inputPort := node.inputPort;
        var portX := node.x + inputPort.x;
        var portY := node.y + inputPort.y;
        if mouseX > portX && mouseX < portX + 10 && mouseY > portY && mouseY < portY + 10 {
          link := AddLink(sourcePort, inputPort, linkId);
          break;
        }
        i := i + 1;
      }
      moveHandler := NoMoveHandler;
    }

    /** A pointer-down on the bare svg element (`onSvg`) starts a rectangle
        selection at (x, y): the selection is cleared, the old rectangle
        goes, and a 1 by 1 rectangle appears that pointer moves stretch. */
    method OnSvgPointerDown(onSvg: bool, x: int, y: int)
      requires Valid()
      modifies this`moveHandler, this`selectedLink, this`selectedNode, this`dragMultipleSelection
      modifies this`isSelecting, this`tempSelectRect
      ensures Valid()
      ensures !onSvg ==> unchanged(this)
      ensures onSvg ==> selectedLink == null && selectedNode == null && dragMultipleSelection == [] &&
                        isSelecting && tempSelectRect == Some(Rect(x, y, 1, 1)) &&
                        moveHandler == SelectRectHandler(x, y)
    {
      if onSvg {
        moveHandler := NoMoveHandler;
        ResetAllColors();
        dragMultipleSelection := [];
        isSelecting := true;
        tempSelectRect := Some(Rect(x, y, 1, 1));
        moveHandler := SelectRectHandler(x, y);
      }
    }

    /** A pointer move over the svg element at (x, y), run by the bound
        handler: the selection rectangle, while selecting, is stretched
        between its start and the pointer. Moving the temporary link line
        is rendering only. */
    method OnSvgPointerMove(x: int, y: int)
      requires Valid()
      modifies this`tempSelectRect
      ensures Valid()
      ensures tempSelectRect ==
                match moveHandler
                case SelectRectHandler(startX, startY) =>
                  if old(tempSelectRect).Some? && isSelecting then Some(Span(startX, startY, x, y))
                  else old(tempSelectRect)
                case _ => old(tempSelectRect)
    {
      match moveHandler
      case SelectRectHandler(startX, startY) =>
        if tempSelectRect.Some? && isSelecting {
          tempSelectRect := Some(Span(startX, startY, x, y));
        }
      case _ =>
    }

    /** The window's pointer-up ends a rectangle selection: the nodes of
        the node list whose boxes lie inside the rectangle, in list order,
        become the multiple selection, and the rectangle goes. */
    method OnWindowPointerUp()
      requires Valid()
      modifies this`isSelecting, this`dragMultipleSelection, this`moveHandler, this`tempSelectRect
      ensures Valid()
      ensures !isSelecting && tempSelectRect == None
      ensures match old(tempSelectRect)
              case None => dragMultipleSelection == old(dragMultipleSelection) && moveHandler == old(moveHandler)
              case Some(r) => dragMultipleSelection == Filter(nodeList, InsideOf(r)) && moveHandler == NoMoveHandler
    {
      isSelecting := false;
      if tempSelectRect.Some? {
        dragMultipleSelection := Filter(nodeList, InsideOf(tempSelectRect.value));
        moveHandler := NoMoveHandler;
        tempSelectRect := None;
      }
    }
  }
}
