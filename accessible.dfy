/**
  The node builder: how one FLTK widget's observable state becomes one
  accesskit node. Each recognised widget kind picks a role and sets a few
  kind-specific fields on a fresh NodeBuilder; the shared `node_common` then
  fills in bounds, name, the Click verb, the Focus action and the children.
 */
module Accessible {
  import opened Wrappers

  // ---------------------------------------------------------------------
  // Toolkit values
  // ---------------------------------------------------------------------

  /** A live widget's runtime identity: its (never null) widget pointer. */
  type Handle = p: int | p > 0 witness 1

  const I32_MIN: int := -0x8000_0000
  const I32_MAX: int := 0x7fff_ffff
  const I32_MODULUS: int := 0x1_0000_0000

  /** The toolkit's coordinate and size type. */
  type I32 = x: int | I32_MIN <= x <= I32_MAX

  /** An IEEE-754 double, kept as its bit pattern: it is only copied through. */
  type F64 = bv64

  /** An IEEE-754 single, kept as its bit pattern: it is only copied through. */
  type F32 = bv32

  /** FLTK's callback-trigger flags (an `i32` bit set). */
  type CallbackTrigger = bv32

  /** The "on release" bit of the callback-trigger flags. */
  const RELEASE: CallbackTrigger := 4

  predicate ContainsRelease(t: CallbackTrigger) {
    t & RELEASE == RELEASE
  }

  /** `i32` addition as a release build performs it: wrapping modulo 2^32. */
  function WrappingAdd(a: I32, b: I32): (r: I32)
    ensures I32_MIN <= a + b <= I32_MAX ==> r == a + b
    ensures a + b > I32_MAX ==> r == a + b - I32_MODULUS
    ensures a + b < I32_MIN ==> r == a + b + I32_MODULUS
  {
    var s := (a + b) % I32_MODULUS;
    if s > I32_MAX then s - I32_MODULUS else s
  }

  /** The numeric state every valuator exposes. */
  datatype Range = Range(value: F64, minimum: F64, maximum: F64, step: F64)

  /** The valuator kinds that are sliders to the accessibility consumer. */
  datatype SliderKind =
    | Slider | NiceSlider | ValueSlider | FillSlider
    | HorSlider | HorFillSlider | HorNiceSlider | HorValueSlider
    | Dial | FillDial | LineDial
    | Counter | Roller | ValueInput | ValueOutput

  /** The widget kinds that have an accessible node, with the state each one reads. */
  datatype Kind =
    | Button
    | RadioButton(on: bool)
    | CheckButton(on: bool)
    | ToggleButton(on: bool)
    | Window
    | Frame
    | Output(text: string)
    | Input(text: string)
    | IntInput(text: string)
    | FloatInput(text: string)
    | MultilineInput(text: string)
    | MultilineOutput(text: string)
    | TextDisplay(buffer: Option<string>)
    | TextEditor(buffer: Option<string>)
    | Valuator(slider: SliderKind, range: Range)
    | Scrollbar(range: Range)
    | MenuBar
    | Choice

  /** Two kinds belong to the same concrete widget type, whatever state
      each one currently holds. */
  predicate SameType(a: Kind, b: Kind) {
    || (a.Button? && b.Button?)
    || (a.RadioButton? && b.RadioButton?)
    || (a.CheckButton? && b.CheckButton?)
    || (a.ToggleButton? && b.ToggleButton?)
    || (a.Window? && b.Window?)
    || (a.Frame? && b.Frame?)
    || (a.Output? && b.Output?)
    || (a.Input? && b.Input?)
    || (a.IntInput? && b.IntInput?)
    || (a.FloatInput? && b.FloatInput?)
    || (a.MultilineInput? && b.MultilineInput?)
    || (a.MultilineOutput? && b.MultilineOutput?)
    || (a.TextDisplay? && b.TextDisplay?)
    || (a.TextEditor? && b.TextEditor?)
    || (a.Valuator? && b.Valuator? && a.slider == b.slider)
    || (a.Scrollbar? && b.Scrollbar?)
    || (a.MenuBar? && b.MenuBar?)
    || (a.Choice? && b.Choice?)
  }

  /** A widget as the node builder observes it. */
  datatype Widget = Widget(
    ptr: Handle,
    x: I32, y: I32, w: I32, h: I32,
    hasParent: bool,
    labelText: string,
    trigger: CallbackTrigger,
    takesEvents: bool,
    visibleFocus: bool,
    kind: Kind)

  /** `as_window()` succeeds exactly for windows. */
  predicate IsWindow(w: Widget) {
    w.kind.Window?
  }

  /** Process-wide toolkit state read while building nodes: the scale of
      screen 0 and the widget that currently holds keyboard focus. */
  datatype Toolkit = Toolkit(screenScale: F32, focus: Option<Handle>)

  // ---------------------------------------------------------------------
  // Accessibility nodes
  // ---------------------------------------------------------------------

  datatype NodeId = NodeId(handle: Handle)

  datatype Role =
    | Button | RadioButton | CheckBox | ToggleButton | Window
    | StaticText | TextField | Slider | ScrollBar | MenuBar | PopupButton

  datatype Verb = Click | Focus

  datatype Action = Focus | SetValue

  datatype CheckedState = False | True | Mixed

  datatype Rect = Rect(x0: int, y0: int, x1: int, y1: int)

  datatype Affine = Scale(factor: F32)

  datatype Node = Node(
    role: Role,
    bounds: Option<Rect>,
    name: Option<string>,
    verb: Option<Verb>,
    actions: set<Action>,
    checked: Option<CheckedState>,
    numericValue: Option<F64>,
    minNumericValue: Option<F64>,
    maxNumericValue: Option<F64>,
    numericValueStep: Option<F64>,
    value: Option<string>,
    multiline: bool,
    transform: Option<Affine>,
    children: seq<NodeId>)

  /** The node a fresh builder holds: a role and nothing else. */
  function Empty(role: Role): Node {
    Node(role, None, None, None, {}, None, None, None, None, None, None, false, None, [])
  }

  /** accesskit's NodeBuilder: each setter overwrites its field, `AddAction`
      adds to the action set and `PushChild` appends a child id. */
  class NodeBuilder {
    var node: Node

    constructor (role: Role)
      ensures node == Empty(role)
    {
      node := Empty(role);
    }

    method SetBounds(r: Rect)
      modifies this
      ensures node == old(node).(bounds := Some(r))
    {
      node := node.(bounds := Some(r));
    }

    method SetName(s: string)
      modifies this
      ensures node == old(node).(name := Some(s))
    {
      node := node.(name := Some(s));
    }

    method SetDefaultActionVerb(v: Verb)
      modifies this
      ensures node == old(node).(verb := Some(v))
    {
      node := node.(verb := Some(v));
    }

    method AddAction(a: Action)
      modifies this
      ensures node == old(node).(actions := old(node).actions + {a})
    {
      node := node.(actions := node.actions + {a});
    }

    method SetCheckedState(c: CheckedState)
      modifies this
      ensures node == old(node).(checked := Some(c))
    {
      node := node.(checked := Some(c));
    }

    method SetNumericValue(v: F64)
      modifies this
      ensures node == old(node).(numericValue := Some(v))
    {
      node := node.(numericValue := Some(v));
    }

    method SetMinNumericValue(v: F64)
      modifies this
      ensures node == old(node).(minNumericValue := Some(v))
    {
      node := node.(minNumericValue := Some(v));
    }

    method SetMaxNumericValue(v: F64)
      modifies this
      ensures node == old(node).(maxNumericValue := Some(v))
    {
      node := node.(maxNumericValue := Some(v));
    }

    method SetNumericValueStep(v: F64)
      modifies this
      ensures node == old(node).(numericValueStep := Some(v))
    {
      node := node.(numericValueStep := Some(v));
    }

    method SetValue(s: string)
      modifies this
      ensures node == old(node).(value := Some(s))
    {
      node := node.(value := Some(s));
    }

    method SetMultiline()
      modifies this
      ensures node == old(node).(multiline := true)
    {
      node := node.(multiline := true);
    }

    method SetTransform(t: Affine)
      modifies this
      ensures node == old(node).(transform := Some(t))
    {
      node := node.(transform := Some(t));
    }

    method PushChild(c: NodeId)
      modifies this
      ensures node == old(node).(children := old(node).children + [c])
    {
      node := node.(children := node.children + [c]);
    }

    function Build(): Node
      reads this
    {
      node
    }
  }

  // ---------------------------------------------------------------------
  // Specification of the builder
  // ---------------------------------------------------------------------

  /** The identity scheme: a widget's id is its pointer. */
  function IdOf(w: Widget): NodeId {
    NodeId(w.ptr)
  }

  /** The Focus action's predicate. */
  predicate TakesFocus(w: Widget) {
    w.takesEvents && w.visibleFocus
  }

  /** The bounds rule: parent-relative for a child that is not a window,
      origin-based otherwise. */
  function BoundsOf(w: Widget): (r: Rect)
    ensures w.hasParent && !IsWindow(w) ==> r.x0 == w.x && r.y0 == w.y
    ensures !(w.hasParent && !IsWindow(w)) ==> r == Rect(0, 0, w.w, w.h)
    ensures I32_MIN <= w.x + w.w <= I32_MAX ==> r.x1 - r.x0 == w.w
    ensures I32_MIN <= w.y + w.h <= I32_MAX ==> r.y1 - r.y0 == w.h
  {
    if w.hasParent && !IsWindow(w) then
      Rect(w.x, w.y, WrappingAdd(w.w, w.x), WrappingAdd(w.h, w.y))
    else
      Rect(0, 0, w.w, w.h)
  }

  /** What `node_common` does to a builder holding `n`. */
  function Common(n: Node, w: Widget, children: seq<NodeId>): Node {
    n.(bounds := Some(BoundsOf(w)),
       name := Some(w.labelText),
       verb := if ContainsRelease(w.trigger) then Some(Verb.Click) else n.verb,
       actions := if TakesFocus(w) then n.actions + {Action.Focus} else n.actions,
       children := n.children + children)
  }

  function CheckedOf(on: bool): CheckedState {
    if on then CheckedState.True else CheckedState.False
  }

  /** The fields set on a slider or a scrollbar. */
  function WithRange(n: Node, r: Range): Node {
    n.(numericValue := Some(r.value),
       minNumericValue := Some(r.minimum),
       maxNumericValue := Some(r.maximum),
       numericValueStep := Some(r.step))
  }

  /** What each kind's `make_node` sets before calling `node_common`. */
  function KindNode(tk: Toolkit, k: Kind): Node {
    match k
    case Button => Empty(Role.Button)
    case RadioButton(on) => Empty(Role.RadioButton).(checked := Some(CheckedOf(on)))
    case CheckButton(on) => Empty(Role.CheckBox).(checked := Some(CheckedOf(on)))
    case ToggleButton(on) => Empty(Role.ToggleButton).(checked := Some(CheckedOf(on)))
    case Window => Empty(Role.Window).(transform := Some(Scale(tk.screenScale)))
    case Frame => Empty(Role.StaticText)
    case Output(t) => Empty(Role.StaticText).(value := Some(t))
    case Input(t) => Empty(Role.TextField).(value := Some(t), verb := Some(Verb.Focus))
    case IntInput(t) => Empty(Role.TextField).(value := Some(t), verb := Some(Verb.Focus))
    case FloatInput(t) => Empty(Role.TextField).(value := Some(t), verb := Some(Verb.Focus))
    case MultilineInput(t) =>
      Empty(Role.TextField).(value := Some(t), verb := Some(Verb.Focus), multiline := true)
    case MultilineOutput(t) => Empty(Role.StaticText).(value := Some(t), multiline := true)
    case TextDisplay(buf) => Empty(Role.TextField).(value := buf)
    case TextEditor(buf) => Empty(Role.TextField).(value := buf, verb := Some(Verb.Focus))
    case Valuator(_, r) => WithRange(Empty(Role.Slider), r).(actions := {Action.SetValue})
    case Scrollbar(r) => WithRange(Empty(Role.ScrollBar), r)
    case MenuBar => Empty(Role.MenuBar)
    case Choice => Empty(Role.PopupButton)
  }

  /** The node `make_node(children)` yields for widget `w`. */
  function NodeOf(tk: Toolkit, w: Widget, children: seq<NodeId>): Node {
    Common(KindNode(tk, w.kind), w, children)
  }

  // ---------------------------------------------------------------------
  // The builder code
  // ---------------------------------------------------------------------

  /** `node_common`: bounds, name, Click verb, Focus action, then every
      supplied child id in order; returns the widget's id. */
  method NodeCommon(b: NodeBuilder, w: Widget, children: seq<NodeId>) returns (id: NodeId)
    modifies b
    ensures id == IdOf(w)
    ensures b.node == Common(old(b.node), w, children)
  {
    id := NodeId(w.ptr);
    if w.hasParent && !w.kind.Window? {
      b.SetBounds(Rect(w.x, w.y, WrappingAdd(w.w, w.x), WrappingAdd(w.h, w.y)));
    } else {
      b.SetBounds(Rect(0, 0, w.w, w.h));
    }
    b.SetName(w.labelText);
    if w.trigger & RELEASE == RELEASE {
      b.SetDefaultActionVerb(Verb.Click);
    }
    if w.takesEvents && w.visibleFocus {
      b.AddAction(Action.Focus);
    }
    for i := 0 to |children|
      invariant b.node == Common(old(b.node), w, children[..i])
    {
      b.PushChild(children[i]);
      assert children[..i + 1] == children[..i] + [children[i]];
    }
  }

  /** Sets the numeric fields shared by sliders and scrollbars. */
  method SetRange(b: NodeBuilder, r: Range)
    modifies b
    ensures b.node == WithRange(old(b.node), r)
  {
    b.SetNumericValue(r.value);
    b.SetMinNumericValue(r.minimum);
    b.SetMaxNumericValue(r.maximum);
    b.SetNumericValueStep(r.step);
  }

  /** The kind-specific part of each `make_node`: a fresh builder with the
      kind's role and fields. */
  method KindBuilder(tk: Toolkit, k: Kind) returns (b: NodeBuilder)
    ensures fresh(b)
    ensures b.node == KindNode(tk, k)
  {
    match k {
      case Button =>
        b := new NodeBuilder(Role.Button);
      case RadioButton(on) =>
        b := new NodeBuilder(Role.RadioButton);
        b.SetCheckedState(if on then CheckedState.True else CheckedState.False);
      case CheckButton(on) =>
        b := new NodeBuilder(Role.CheckBox);
        b.SetCheckedState(if on then CheckedState.True else CheckedState.False);
      case ToggleButton(on) =>
        b := new NodeBuilder(Role.ToggleButton);
        b.SetCheckedState(if on then CheckedState.True else CheckedState.False);
      case Window =>
        b := new NodeBuilder(Role.Window);
        b.SetTransform(Scale(tk.screenScale));
      case Frame =>
        b := new NodeBuilder(Role.StaticText);
      case Output(t) =>
        b := new NodeBuilder(Role.StaticText);
        b.SetValue(t);
      case Input(t) =>
        b := new NodeBuilder(Role.TextField);
        b.SetValue(t);
        b.SetDefaultActionVerb(Verb.Focus);
      case IntInput(t) =>
        b := new NodeBuilder(Role.TextField);
        b.SetValue(t);
        b.SetDefaultActionVerb(Verb.Focus);
      case FloatInput(t) =>
        b := new NodeBuilder(Role.TextField);
        b.SetValue(t);
        b.SetDefaultActionVerb(Verb.Focus);
      case MultilineInput(t) =>
        b := new NodeBuilder(Role.TextField);
        b.SetValue(t);
        b.SetDefaultActionVerb(Verb.Focus);
        b.SetMultiline();
      case MultilineOutput(t) =>
        b := new NodeBuilder(Role.StaticText);
        b.SetValue(t);
        b.SetMultiline();
      case TextDisplay(buf) =>
        b := new NodeBuilder(Role.TextField);
        if buf.Some? {
          b.SetValue(buf.value);
        }
      case TextEditor(buf) =>
        b := new NodeBuilder(Role.TextField);
        if buf.Some? {
          b.SetValue(buf.value);
        }
        b.SetDefaultActionVerb(Verb.Focus);
      case Valuator(_, r) =>
        b := new NodeBuilder(Role.Slider);
        SetRange(b, r);
        b.AddAction(Action.SetValue);
      case Scrollbar(r) =>
        b := new NodeBuilder(Role.ScrollBar);
        SetRange(b, r);
      case MenuBar =>
        b := new NodeBuilder(Role.MenuBar);
      case Choice =>
        b := new NodeBuilder(Role.PopupButton);
    }
  }

  /** `Accessible::make_node` for every recognised kind. */
  method MakeNode(tk: Toolkit, w: Widget, children: seq<NodeId>) returns (id: NodeId, node: Node)
    ensures id == IdOf(w)
    ensures node == NodeOf(tk, w, children)
  {
    var b := KindBuilder(tk, w.kind);
    id := NodeCommon(b, w, children);
    node := b.Build();
  }

  // ---------------------------------------------------------------------
  // Properties of the node builder
  // ---------------------------------------------------------------------

  /** Identity is a pure function of the widget pointer: the same widget
      always gets the same id and distinct widgets get distinct ids. */
  lemma IdInjective(a: Widget, b: Widget)
    ensures IdOf(a) == IdOf(b) <==> a.ptr == b.ptr
  {
  }

  /** Common fields: the name is the label, the children are exactly the
      supplied ids in order, and the bounds follow the bounds rule. */
  lemma CommonFields(tk: Toolkit, w: Widget, children: seq<NodeId>)
    ensures NodeOf(tk, w, children).name == Some(w.labelText)
    ensures NodeOf(tk, w, children).children == children
    ensures NodeOf(tk, w, children).bounds == Some(BoundsOf(w))
  {
  }

  /** The Focus action is present exactly when the widget takes events and
      shows a visible focus; SetValue exactly for the slider kinds. */
  lemma ActionsRule(tk: Toolkit, w: Widget, children: seq<NodeId>)
    ensures Action.Focus in NodeOf(tk, w, children).actions <==> TakesFocus(w)
    ensures Action.SetValue in NodeOf(tk, w, children).actions <==> w.kind.Valuator?
  {
  }

  /** The kinds whose `make_node` chooses Focus as default verb. */
  predicate SetsFocusVerb(k: Kind) {
    k.Input? || k.IntInput? || k.FloatInput? || k.MultilineInput? || k.TextEditor?
  }

  /** The verb is Click exactly when the trigger contains "release"; without
      one, only the kinds that choose Focus have a default verb. */
  lemma VerbRule(tk: Toolkit, w: Widget, children: seq<NodeId>)
    ensures NodeOf(tk, w, children).verb == Some(Verb.Click) <==> ContainsRelease(w.trigger)
    ensures !ContainsRelease(w.trigger) ==>
      (NodeOf(tk, w, children).verb == Some(Verb.Focus) <==> SetsFocusVerb(w.kind))
    ensures !ContainsRelease(w.trigger) && !SetsFocusVerb(w.kind) ==>
      NodeOf(tk, w, children).verb.None?
  {
  }

  predicate IsToggle(k: Kind) {
    k.RadioButton? || k.CheckButton? || k.ToggleButton?
  }

  /** Radio, check and toggle buttons carry a checked state that is True
      exactly when the button is on, and never Mixed; no other kind does. */
  lemma ToggleChecked(tk: Toolkit, w: Widget, children: seq<NodeId>)
    ensures NodeOf(tk, w, children).checked.Some? <==> IsToggle(w.kind)
    ensures IsToggle(w.kind) ==>
      (NodeOf(tk, w, children).checked == Some(CheckedState.True) <==> w.kind.on)
    ensures NodeOf(tk, w, children).checked != Some(CheckedState.Mixed)
    ensures NodeOf(tk, w, children).role == Role.RadioButton <==> w.kind.RadioButton?
    ensures NodeOf(tk, w, children).role == Role.CheckBox <==> w.kind.CheckButton?
    ensures NodeOf(tk, w, children).role == Role.ToggleButton <==> w.kind.ToggleButton?
  {
  }

  /** Sliders and scrollbars copy value, minimum, maximum and step
      unchanged; sliders are Slider nodes, scrollbars ScrollBar nodes. */
  lemma ValuatorFields(tk: Toolkit, w: Widget, children: seq<NodeId>)
    ensures var n := NodeOf(tk, w, children);
      (w.kind.Valuator? || w.kind.Scrollbar?) ==>
        && n.numericValue == Some(w.kind.range.value)
        && n.minNumericValue == Some(w.kind.range.minimum)
        && n.maxNumericValue == Some(w.kind.range.maximum)
        && n.numericValueStep == Some(w.kind.range.step)
    ensures var n := NodeOf(tk, w, children);
      !(w.kind.Valuator? || w.kind.Scrollbar?) ==>
        && n.numericValue.None? && n.minNumericValue.None?
        && n.maxNumericValue.None? && n.numericValueStep.None?
    ensures NodeOf(tk, w, children).role == Role.Slider <==> w.kind.Valuator?
    ensures NodeOf(tk, w, children).role == Role.ScrollBar <==> w.kind.Scrollbar?
  {
  }

  predicate IsTextField(k: Kind) {
    k.Input? || k.IntInput? || k.FloatInput? || k.MultilineInput? ||
    k.TextDisplay? || k.TextEditor?
  }

  predicate IsStaticText(k: Kind) {
    k.Frame? || k.Output? || k.MultilineOutput?
  }

  /** The text kinds: which are text fields and which static text, which
      are multi-line, and where the value comes from. */
  lemma TextFields(tk: Toolkit, w: Widget, children: seq<NodeId>)
    ensures NodeOf(tk, w, children).role == Role.TextField <==> IsTextField(w.kind)
    ensures NodeOf(tk, w, children).role == Role.StaticText <==> IsStaticText(w.kind)
    ensures NodeOf(tk, w, children).multiline <==>
      w.kind.MultilineInput? || w.kind.MultilineOutput?
    ensures (w.kind.TextDisplay? || w.kind.TextEditor?) ==>
      NodeOf(tk, w, children).value == w.kind.buffer
    ensures (w.kind.Output? || w.kind.Input? || w.kind.IntInput? || w.kind.FloatInput? ||
             w.kind.MultilineInput? || w.kind.MultilineOutput?) ==>
      NodeOf(tk, w, children).value == Some(w.kind.text)
    ensures NodeOf(tk, w, children).value.Some? ==>
      (IsTextField(w.kind) || IsStaticText(w.kind)) && !w.kind.Frame?
  {
  }

  /** The remaining roles, and the window's scale transform. */
  lemma OtherRoles(tk: Toolkit, w: Widget, children: seq<NodeId>)
    ensures NodeOf(tk, w, children).role == Role.Button <==> w.kind.Button?
    ensures NodeOf(tk, w, children).role == Role.Window <==> w.kind.Window?
    ensures NodeOf(tk, w, children).role == Role.MenuBar <==> w.kind.MenuBar?
    ensures NodeOf(tk, w, children).role == Role.PopupButton <==> w.kind.Choice?
    ensures NodeOf(tk, w, children).transform.Some? <==> w.kind.Window?
    ensures w.kind.Window? ==> NodeOf(tk, w, children).transform == Some(Scale(tk.screenScale))
  {
  }
}
