/**
  The FLTK side of the accesskit adapter: the activation handler that hands
  the transport its initial tree, and the adapter object through which tree
  updates are published and window resizes are reported.
 */
module FltkAdapter {
  import opened Wrappers
  import opened Accessible

  datatype Tree = Tree(root: NodeId)

  /** An accesskit tree update: the nodes, an optional new tree root and
      the focused node. */
  datatype TreeUpdate = TreeUpdate(nodes: seq<(NodeId, Node)>, tree: Option<Tree>, focus: NodeId)

  /** The activation handler holds the node list built at start-up and the
      id of the root window's node. */
  datatype ActivationHandler = ActivationHandler(wids: seq<(NodeId, Node)>, winId: NodeId)

  /** The id the toolkit's focused widget is published under. */
  function FocusedId(h: Handle): NodeId {
    NodeId(h)
  }

  /** `request_initial_tree`: always an update, carrying the stored nodes,
      the window as tree root, and the focused widget or else the window as
      focus. */
  function RequestInitialTree(handler: ActivationHandler, tk: Toolkit): (r: Option<TreeUpdate>)
    ensures r.Some?
    ensures r.value.nodes == handler.wids
    ensures r.value.tree == Some(Tree(handler.winId))
    ensures tk.focus.Some? ==> r.value.focus == FocusedId(tk.focus.value)
    ensures tk.focus.None? ==> r.value.focus == handler.winId
  {
    Some(TreeUpdate(
      handler.wids,
      Some(Tree(handler.winId)),
      match tk.focus
      case Some(focused) => NodeId(focused)
      case None => handler.winId))
  }

  /** accesskit's `Rect::from_origin_size`, on the exact (double) sums. */
  function FromOriginSize(x: int, y: int, width: int, height: int): Rect {
    Rect(x, y, x + width, y + height)
  }

  /** The outer and inner rectangles the resize callback reports. */
  function RootWindowBounds(x: I32, y: I32, w: I32, h: I32): (r: (Rect, Rect))
    ensures r.0 == r.1
    ensures r.0.x0 == x && r.0.y0 == y
    ensures r.0.x1 - r.0.x0 == w && r.0.y1 - r.0.y0 == h
  {
    (FromOriginSize(x, y, w, h), FromOriginSize(x, y, w, h))
  }

  /** The rectangle a resize reports for a window is the window node's own
      bounds moved from the origin to the window's position. */
  lemma ResizeMatchesWindowNode(win: Widget, x: I32, y: I32)
    requires win.kind.Window?
    ensures var b := BoundsOf(win);
      RootWindowBounds(x, y, win.w, win.h).0 == Rect(b.x0 + x, b.y0 + y, b.x1 + x, b.y1 + y)
  {
  }

  /** The adapter for one window. `active` tells whether an assistive
      technology is attached; `published` is every update delivered to it;
      `rootBounds` is the last pair of window rectangles reported. */
  class Adapter {
    const source: ActivationHandler
    var active: bool
    var published: seq<TreeUpdate>
    var rootBounds: Option<(Rect, Rect)>

    constructor (source: ActivationHandler, active: bool)
      ensures this.source == source && this.active == active
      ensures published == [] && rootBounds == None
    {
      this.source := source;
      this.active := active;
      published := [];
      rootBounds := None;
    }

    /** `update_if_active`: the update is delivered only to an attached consumer. */
    method UpdateIfActive(u: TreeUpdate)
      modifies this
      ensures active == old(active) && rootBounds == old(rootBounds)
      ensures published == if active then old(published) + [u] else old(published)
    {
      if active {
        published := published + [u];
      }
    }

    /** The resize callback: reports identical outer and inner rectangles. */
    method OnResize(x: I32, y: I32, w: I32, h: I32)
      modifies this
      ensures active == old(active) && published == old(published)
      ensures rootBounds == Some(RootWindowBounds(x, y, w, h))
    {
      var outer := FromOriginSize(x, y, w, h);
      var inner := FromOriginSize(x, y, w, h);
      rootBounds := Some((outer, inner));
    }
  }
}
