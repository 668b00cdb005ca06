/**
 * The state one installation of the directive works on, and what each of its
 * operations does to it: the seven event handlers, dispatch of an event to
 * the listener an element has registered, mount and unmount.
 */
module DirectiveState {
  import opened Wrappers
  import opened Directive

  /** The three state-marker classes. */
  const Dragging: string := "dragging"
  const DragOverMark: string := "drag-over"
  const DragEnterMark: string := "drag-enter"
  const StateClasses: set<string> := {Dragging, DragOverMark, DragEnterMark}

  /** One invocation of a host method: an event callback with the event target, or the drop callback. */
  datatype Call =
    | Called(name: string, eventTarget: Elem)
    | DropCalled(name: string, source: Option<Elem>, dropTarget: Option<Elem>)

  /** A registered event listener: the element, the event name and the function. */
  datatype Listener = Listener(el: Elem, kind: EventKind, handler: Handler)

  /**
   * The shared drag source of the installation, the class list and the
   * `draggable` marking of every element, the page's parent relation, the
   * handler table stored on each mounted element, the registered listeners,
   * and the host calls made so far.
   */
  datatype State = State(
    dragSrc: Option<Elem>,
    classes: map<Elem, set<string>>,
    draggableAttr: set<Elem>,
    parent: map<Elem, Elem>,
    handlers: map<Elem, Table>,
    listeners: set<Listener>,
    log: seq<Call>)

  /** The class list of `e`; an element that was never given a class has none. */
  function ClassesOf(classes: map<Elem, set<string>>, e: Elem): set<string> {
    if e in classes then classes[e] else {}
  }

  /** From `s` to `r`, the class list of `e` becomes `cs` and every other class list is untouched. */
  ghost predicate ClassesBecome(s: State, r: State, e: Elem, cs: set<string>) {
    ClassesOf(r.classes, e) == cs &&
    forall x :: x != e ==> ClassesOf(r.classes, x) == ClassesOf(s.classes, x)
  }

  /** From `s` to `r`, neither the markings, the page, the stored tables nor the listeners change. */
  ghost predicate SameRegistration(s: State, r: State) {
    r.draggableAttr == s.draggableAttr && r.parent == s.parent &&
    r.handlers == s.handlers && r.listeners == s.listeners
  }

  /** The host call an event handler makes for target `t`: one when its callback is callable, none otherwise. */
  function Notified(env: Env, k: EventKind, t: Elem): seq<Call> {
    match Callback(env, k)
    case Some(name) => [Called(name, t)]
    case None => []
  }

  function WithClasses(s: State, e: Elem, cs: set<string>): State {
    s.(classes := s.classes[e := cs])
  }

  /** `dragstart`: the target is marked `dragging` and becomes the shared drag source. */
  function OnDragStart(s: State, env: Env, t: Elem): (r: State)
    ensures ClassesBecome(s, r, t, ClassesOf(s.classes, t) + {Dragging})
    ensures r.dragSrc == Some(t)
    ensures r.log == s.log + Notified(env, DragStart, t)
    ensures SameRegistration(s, r)
  {
    WithClasses(s, t, ClassesOf(s.classes, t) + {Dragging})
      .(dragSrc := Some(t), log := s.log + Notified(env, DragStart, t))
  }

  /** `dragover`: the target is marked `drag-over`; the drag source is kept. */
  function OnDragOver(s: State, env: Env, t: Elem): (r: State)
    ensures ClassesBecome(s, r, t, ClassesOf(s.classes, t) + {DragOverMark})
    ensures r.dragSrc == s.dragSrc
    ensures r.log == s.log + Notified(env, DragOver, t)
    ensures SameRegistration(s, r)
  {
    WithClasses(s, t, ClassesOf(s.classes, t) + {DragOverMark})
      .(log := s.log + Notified(env, DragOver, t))
  }

  /** `dragenter`: the target is marked `drag-enter`; the drag source is kept. */
  function OnDragEnter(s: State, env: Env, t: Elem): (r: State)
    ensures ClassesBecome(s, r, t, ClassesOf(s.classes, t) + {DragEnterMark})
    ensures r.dragSrc == s.dragSrc
    ensures r.log == s.log + Notified(env, DragEnter, t)
    ensures SameRegistration(s, r)
  {
    WithClasses(s.(log := s.log + Notified(env, DragEnter, t)), t, ClassesOf(s.classes, t) + {DragEnterMark})
  }

  /** `dragleave`: only the `drag-enter` mark leaves the target. */
  function OnDragLeave(s: State, env: Env, t: Elem): (r: State)
    ensures ClassesBecome(s, r, t, ClassesOf(s.classes, t) - {DragEnterMark})
    ensures r.dragSrc == s.dragSrc
    ensures r.log == s.log + Notified(env, DragLeave, t)
    ensures SameRegistration(s, r)
  {
    WithClasses(s.(log := s.log + Notified(env, DragLeave, t)), t, ClassesOf(s.classes, t) - {DragEnterMark})
  }

  /** `drag`: nothing but the host call. */
  function OnDrag(s: State, env: Env, t: Elem): (r: State)
    ensures r.classes == s.classes && r.dragSrc == s.dragSrc
    ensures r.log == s.log + Notified(env, Drag, t)
    ensures SameRegistration(s, r)
  {
    s.(log := s.log + Notified(env, Drag, t))
  }

  /** `dragend`: exactly the three state marks leave the target; the drag source is NOT cleared. */
  function OnDragEnd(s: State, env: Env, t: Elem): (r: State)
    ensures ClassesBecome(s, r, t, ClassesOf(s.classes, t) - StateClasses)
    ensures r.dragSrc == s.dragSrc
    ensures r.log == s.log + Notified(env, DragEnd, t)
    ensures SameRegistration(s, r)
  {
    WithClasses(s, t, ClassesOf(s.classes, t) - StateClasses)
      .(log := s.log + Notified(env, DragEnd, t))
  }

  /**
   * `drop`: the drop callback runs exactly once, with the drag source and the
   * resolved target, when the recorded source is not the event target and the
   * callback is callable; the drag source is cleared in every case.
   */
  function OnDrop(s: State, env: Env, t: Elem): (r: State)
    ensures r.classes == s.classes && SameRegistration(s, r)
    ensures r.dragSrc == None
    ensures |r.log| == |s.log| || |r.log| == |s.log| + 1
    ensures r.log[..|s.log|] == s.log
    ensures |r.log| == |s.log| + 1 <==> s.dragSrc != Some(t) && Callback(env, Drop).Some?
    ensures |r.log| == |s.log| + 1 ==>
              r.log[|s.log|] == DropCalled(Callback(env, Drop).value, s.dragSrc,
                                           ResolveTarget(env, t, s.draggableAttr, s.parent))
  {
    var calls :=
      if s.dragSrc != Some(t) then
        match Callback(env, Drop)
        case Some(name) => [DropCalled(name, s.dragSrc, ResolveTarget(env, t, s.draggableAttr, s.parent))]
        case None => []
      else [];
    s.(dragSrc := None, log := s.log + calls)
  }

  /** Runs a listener function for an event whose target is `t`; the no-op changes nothing. */
  function Run(s: State, h: Handler, t: Elem): (r: State)
    ensures SameRegistration(s, r)
    ensures h.EmptyFn? ==> r == s
  {
    match h
    case EmptyFn => s
    case Handle(k, env) =>
      match k
      case DragStart => OnDragStart(s, env, t)
      case DragEnter => OnDragEnter(s, env, t)
      case DragOver => OnDragOver(s, env, t)
      case Drag => OnDrag(s, env, t)
      case DragLeave => OnDragLeave(s, env, t)
      case DragEnd => OnDragEnd(s, env, t)
      case Drop => OnDrop(s, env, t)
  }

  /**
   * An event `k` with target `t` reaching element `el`: the function stored
   * for `k` on `el` runs; an element without a stored table reacts to nothing.
   * This runs the entry of the stored table, not the registered listeners the
   * browser runs; the two agree under `Valid` (`DispatchFollowsListener` and
   * `NoListenerNoReaction`), which mounting an already mounted element breaks.
   */
  function Dispatch(s: State, el: Elem, k: EventKind, t: Elem): (r: State)
    ensures SameRegistration(s, r)
    ensures el !in s.handlers ==> r == s
  {
    if el in s.handlers && k in s.handlers[el] then Run(s, s.handlers[el][k], t) else s
  }

  /** The listeners registered for a table stored on `el`, one per entry. */
  function TableListeners(el: Elem, t: Table): set<Listener> {
    set k | k in t :: Listener(el, k, t[k])
  }

  /** Registering the entries in table order registers exactly the table's listeners. */
  lemma TableListenersInOrder(el: Elem, t: Table)
    ensures (set j | 0 <= j < |TableOrder| && TableOrder[j] in t :: Listener(el, TableOrder[j], t[TableOrder[j]]))
            == TableListeners(el, t)
  {
    var inOrder := set j | 0 <= j < |TableOrder| && TableOrder[j] in t :: Listener(el, TableOrder[j], t[TableOrder[j]]);
    forall l | l in TableListeners(el, t) ensures l in inOrder {
      AllKindsListed();
      assert l.kind in TableOrder;
      var j :| 0 <= j < |TableOrder| && TableOrder[j] == l.kind;
    }
  }

  /** A stored table is the handler table of some configuration (the one its `dragover` entry captured). */
  ghost predicate WellFormedTable(t: Table) {
    DragOver in t && t[DragOver].Handle? && t == HandlerTable(t[DragOver].env)
  }

  /** The listener is the one registered for an entry of the table stored on its element. */
  ghost predicate Registered(s: State, l: Listener) {
    l.el in s.handlers && l.kind in s.handlers[l.el] && s.handlers[l.el][l.kind] == l.handler
  }

  /**
   * The installation invariant: every stored table is a handler table, and
   * the registered listeners are exactly the entries of the stored tables.
   */
  ghost predicate Valid(s: State) {
    (forall el :: el in s.handlers ==> WellFormedTable(s.handlers[el])) &&
    (forall l :: l in s.listeners <==> Registered(s, l))
  }

  /**
   * `mounted`: stores the handler table chosen by the parsed flags, marks the
   * element `draggable` when the flag is on, and registers one listener per entry.
   */
  function OnMount(s: State, el: Elem, binding: Option<Params>, host: set<string>): (r: State)
    ensures r.handlers == s.handlers[el := HandlerTable(Configure(binding, host))]
    ensures r.listeners == s.listeners + TableListeners(el, HandlerTable(Configure(binding, host)))
    ensures el in r.draggableAttr <==> el in s.draggableAttr || Configure(binding, host).draggable
    ensures forall e :: e != el ==> (e in r.draggableAttr <==> e in s.draggableAttr)
    ensures r.classes == s.classes && r.dragSrc == s.dragSrc && r.log == s.log && r.parent == s.parent
  {
    var env := Configure(binding, host);
    var table := HandlerTable(env);
    s.(handlers := s.handlers[el := table],
       draggableAttr := if env.draggable then s.draggableAttr + {el} else s.draggableAttr,
       listeners := s.listeners + TableListeners(el, table))
  }

  /**
   * `unmounted`: strips the three state marks and the `draggable` marking,
   * unregisters the listener of every entry of the stored table, and deletes the table.
   */
  function OnUnmount(s: State, el: Elem): (r: State)
    ensures ClassesBecome(s, r, el, ClassesOf(s.classes, el) - StateClasses)
    ensures r.draggableAttr == s.draggableAttr - {el}
    ensures r.handlers == s.handlers - {el}
    ensures r.listeners == if el in s.handlers then s.listeners - TableListeners(el, s.handlers[el]) else s.listeners
    ensures r.dragSrc == s.dragSrc && r.log == s.log && r.parent == s.parent
  {
    var stripped := WithClasses(s, el, ClassesOf(s.classes, el) - StateClasses);
    stripped.(draggableAttr := s.draggableAttr - {el},
              handlers := s.handlers - {el},
              listeners := if el in s.handlers then s.listeners - TableListeners(el, s.handlers[el]) else s.listeners)
  }
}
