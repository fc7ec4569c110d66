/**
  The accessibility context: at start-up and after every key release it
  builds one childless node per registered widget, then the root window's
  node whose children are exactly those widgets' ids, appended last. The
  start-up list goes to the activation handler; the key-release list is
  published when some widget has focus.
 */
module Context {
  import opened Wrappers
  import opened Accessible
  import opened FltkAdapter

  /** The ids of a node list, in order. */
  function Ids(wids: seq<(NodeId, Node)>): (r: seq<NodeId>)
    ensures |r| == |wids|
    ensures forall i :: 0 <= i < |wids| ==> r[i] == wids[i].0
  {
    if wids == [] then [] else Ids(wids[..|wids| - 1]) + [wids[|wids| - 1].0]
  }

  /** The widgets' handles, in order. */
  function Handles(ws: seq<Widget>): (r: seq<Handle>)
    ensures |r| == |ws|
    ensures forall i :: 0 <= i < |ws| ==> r[i] == ws[i].ptr
  {
    if ws == [] then [] else Handles(ws[..|ws| - 1]) + [ws[|ws| - 1].ptr]
  }

  predicate Distinct<T(==)>(s: seq<T>) {
    forall i, j :: 0 <= i < j < |s| ==> s[i] != s[j]
  }

  /** One childless node per widget, in registration order. */
  function WidgetNodes(tk: Toolkit, ws: seq<Widget>): (r: seq<(NodeId, Node)>)
    ensures |r| == |ws|
  {
    if ws == [] then []
    else WidgetNodes(tk, ws[..|ws| - 1]) + [(IdOf(ws[|ws| - 1]), NodeOf(tk, ws[|ws| - 1], []))]
  }

  /** The full node list: the widgets' nodes, then the root window's. */
  function Snapshot(tk: Toolkit, root: Widget, ws: seq<Widget>): (r: seq<(NodeId, Node)>)
    ensures |r| == |ws| + 1
  {
    var nodes := WidgetNodes(tk, ws);
    nodes + [(IdOf(root), NodeOf(tk, root, Ids(nodes)))]
  }

  /** The node list building of `AccessibilityContext::new` and of the
      key-release handler. */
  method BuildNodes(tk: Toolkit, root: Widget, widgets: seq<Widget>)
    returns (wids: seq<(NodeId, Node)>, winId: NodeId)
    ensures wids == Snapshot(tk, root, widgets)
    ensures winId == IdOf(root) && winId == wids[|wids| - 1].0
  {
    wids := [];
    for i := 0 to |widgets|
      invariant wids == WidgetNodes(tk, widgets[..i])
    {
      var id, n := MakeNode(tk, widgets[i], []);
      wids := wids + [(id, n)];
      assert widgets[..i + 1][..i] == widgets[..i];
    }
    assert widgets[..|widgets|] == widgets;
    var winNode;
    winId, winNode := MakeNode(tk, root, Ids(wids));
    wids := wids + [(winId, winNode)];
  }

  // ---------------------------------------------------------------------
  // Properties of the snapshot
  // ---------------------------------------------------------------------

  /** Entry i of the widget node list is widget i's id and childless node. */
  lemma {:induction false} WidgetNodesAt(tk: Toolkit, ws: seq<Widget>)
    ensures forall i :: 0 <= i < |ws| ==>
      WidgetNodes(tk, ws)[i] == (IdOf(ws[i]), NodeOf(tk, ws[i], []))
  {
    if ws != [] {
      var init := ws[..|ws| - 1];
      WidgetNodesAt(tk, init);
      forall i | 0 <= i < |ws|
        ensures WidgetNodes(tk, ws)[i] == (IdOf(ws[i]), NodeOf(tk, ws[i], []))
      {
        if i < |ws| - 1 {
          assert ws[i] == init[i];
        }
      }
    }
  }

  /** The snapshot has one node per registered widget, in order and with
      no children, then exactly one root-window node whose children are the
      widgets' ids in the same order. */
  lemma SnapshotShape(tk: Toolkit, root: Widget, ws: seq<Widget>)
    ensures var s := Snapshot(tk, root, ws);
      && |s| == |ws| + 1
      && (forall i :: 0 <= i < |ws| ==> s[i].0 == IdOf(ws[i]) && s[i].1 == NodeOf(tk, ws[i], []))
      && (forall i :: 0 <= i < |ws| ==> s[i].1.children == [])
      && s[|ws|].0 == IdOf(root)
      && s[|ws|].1 == NodeOf(tk, root, Ids(s[..|ws|]))
      && |s[|ws|].1.children| == |ws|
      && (forall i :: 0 <= i < |ws| ==> s[|ws|].1.children[i] == IdOf(ws[i]))
  {
    var s := Snapshot(tk, root, ws);
    WidgetNodesAt(tk, ws);
    assert s[..|ws|] == WidgetNodes(tk, ws);
    forall i | 0 <= i < |ws| ensures s[i].1.children == [] {
      CommonFields(tk, ws[i], []);
    }
    CommonFields(tk, root, Ids(s[..|ws|]));
  }

  /** The snapshot's ids are the registered widgets' ids, then the root's. */
  lemma SnapshotIds(tk: Toolkit, root: Widget, ws: seq<Widget>)
    ensures var s := Snapshot(tk, root, ws);
      |s| == |ws| + 1 &&
      forall i :: 0 <= i < |s| ==> Ids(s)[i] == IdOf((ws + [root])[i])
  {
    SnapshotShape(tk, root, ws);
  }

  /** Every child id named by any node of the snapshot is itself the id of
      a node of the snapshot. */
  lemma SnapshotChildrenClosed(tk: Toolkit, root: Widget, ws: seq<Widget>)
    ensures var s := Snapshot(tk, root, ws);
      forall j, c :: 0 <= j < |s| && c in s[j].1.children ==> c in Ids(s)
  {
    var s := Snapshot(tk, root, ws);
    SnapshotShape(tk, root, ws);
    forall j, c | 0 <= j < |s| && c in s[j].1.children ensures c in Ids(s) {
      assert j == |ws|;
      var k :| 0 <= k < |ws| && s[|ws|].1.children[k] == c;
      assert Ids(s)[k] == c;
    }
  }

  /** The snapshot's ids are pairwise distinct exactly when the registered
      widgets and the root are distinct widgets. */
  lemma SnapshotIdsDistinct(tk: Toolkit, root: Widget, ws: seq<Widget>)
    ensures Distinct(Ids(Snapshot(tk, root, ws))) <==> Distinct(Handles(ws + [root]))
  {
    var s := Snapshot(tk, root, ws);
    var all := ws + [root];
    SnapshotIds(tk, root, ws);
    forall i, j | 0 <= i < j < |s| ensures Ids(s)[i] == Ids(s)[j] <==> Handles(all)[i] == Handles(all)[j] {
      IdInjective(all[i], all[j]);
    }
  }

  /** A handle's id names a node of the snapshot exactly when the handle is
      a registered widget's or the root's. */
  lemma FocusedIdInSnapshot(tk: Toolkit, root: Widget, ws: seq<Widget>, h: Handle)
    ensures FocusedId(h) in Ids(Snapshot(tk, root, ws)) <==> h in Handles(ws + [root])
  {
    var s := Snapshot(tk, root, ws);
    var all := ws + [root];
    SnapshotIds(tk, root, ws);
    if FocusedId(h) in Ids(s) {
      var k :| 0 <= k < |s| && Ids(s)[k] == FocusedId(h);
      assert Handles(all)[k] == h;
    }
    if h in Handles(all) {
      var k :| 0 <= k < |all| && Handles(all)[k] == h;
      assert Ids(s)[k] == FocusedId(h);
    }
  }

  /** The initial tree handed to the transport is well formed: its root is
      the last node, a Window node; every child id is a node; and its focus
      is a node exactly when nothing has focus or the focused widget is
      registered (or is the root). */
  lemma InitialTreeWellFormed(tk: Toolkit, root: Widget, ws: seq<Widget>)
    requires root.kind.Window?
    ensures var s := Snapshot(tk, root, ws);
      var u := RequestInitialTree(ActivationHandler(s, IdOf(root)), tk).value;
      && u.tree.Some?
      && u.nodes[|ws|].0 == u.tree.value.root
      && u.nodes[|ws|].1.role == Role.Window
      && (forall j, c :: 0 <= j < |u.nodes| && c in u.nodes[j].1.children ==> c in Ids(u.nodes))
      && (u.focus in Ids(u.nodes) <==> tk.focus.None? || tk.focus.value in Handles(ws + [root]))
  {
    var s := Snapshot(tk, root, ws);
    SnapshotShape(tk, root, ws);
    SnapshotChildrenClosed(tk, root, ws);
    OtherRoles(tk, root, Ids(s[..|ws|]));
    SnapshotIds(tk, root, ws);
    assert Ids(s)[|ws|] == IdOf(root);
    if tk.focus.Some? {
      FocusedIdInSnapshot(tk, root, ws, tk.focus.value);
    }
  }

  datatype Event = KeyUp | Other(code: int)

  /** The state `AccessibilityContext::new` keeps: the adapter, the root
      window and the registered widgets. */
  class AccessibilityContext {
    const adapter: Adapter
    const root: Widget
    const widgets: seq<Widget>

    /** `AccessibilityContext::new`: the activation handler gets the
        snapshot and the root's id as `win_id`. */
    constructor (tk: Toolkit, root: Widget, widgets: seq<Widget>, consumerActive: bool)
      requires root.kind.Window?
      ensures this.root == root && this.widgets == widgets && fresh(adapter)
      ensures adapter.source == ActivationHandler(Snapshot(tk, root, widgets), IdOf(root))
      ensures adapter.source.winId == adapter.source.wids[|widgets|].0
      ensures adapter.active == consumerActive && adapter.published == [] && adapter.rootBounds == None
    {
      var wids, winId := BuildNodes(tk, root, widgets);
      var handler := ActivationHandler(wids, winId);
      this.root := root;
      this.widgets := widgets;
      adapter := new Adapter(handler, consumerActive);
    }

    /** The root window's event handler, given the event, the toolkit state
        and the registered widgets as they are now. On a key release it
        rebuilds the node list and, only if some widget has focus,
        publishes it with no tree root and that widget as focus. It
        reports every event as unhandled. Each registered widget keeps its
        pointer and its concrete type; only its state is read afresh. */
    method HandleEvent(ev: Event, tk: Toolkit, window: Widget, current: seq<Widget>)
      returns (handled: bool)
      requires window.ptr == root.ptr && window.kind.Window?
      requires Handles(current) == Handles(widgets)
      requires forall i :: 0 <= i < |current| ==> SameType(current[i].kind, widgets[i].kind)
      modifies adapter
      ensures !handled
      ensures adapter.active == old(adapter.active) && adapter.rootBounds == old(adapter.rootBounds)
      ensures ev == KeyUp && tk.focus.Some? && adapter.active ==>
        adapter.published == old(adapter.published) +
          [TreeUpdate(Snapshot(tk, window, current), None, FocusedId(tk.focus.value))]
      ensures !(ev == KeyUp && tk.focus.Some? && adapter.active) ==>
        adapter.published == old(adapter.published)
    {
      match ev {
        case KeyUp =>
          var wids, winId := BuildNodes(tk, window, current);
          if tk.focus.Some? {
            var nodeId := NodeId(tk.focus.value);
            adapter.UpdateIfActive(TreeUpdate(wids, None, nodeId));
          }
          handled := false;
        case Other(_) =>
          handled := false;
      }
    }
  }
}
