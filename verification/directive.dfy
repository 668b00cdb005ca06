/**
 * The configuration side of the `drag-and-drop` directive: how the binding
 * value is read, which handler each of the seven native drag events gets,
 * how a callback name is resolved against the host component, and which
 * element a drop is reported against.
 */
module Directive {
  import opened Wrappers

  /** An element of the page, by identity. */
  type Elem = nat

  /** The seven native drag events the directive listens to. */
  datatype EventKind = DragStart | DragEnter | DragOver | Drag | DragLeave | DragEnd | Drop

  /** The entries of the stored handler table, in the order they are registered and removed. */
  const TableOrder: seq<EventKind> := [DragStart, DragEnter, DragOver, Drag, DragLeave, DragEnd, Drop]

  /** Every event kind is an entry of the table order. */
  lemma AllKindsListed()
    ensures forall k: EventKind :: k in TableOrder
  {
    forall k: EventKind ensures k in TableOrder {
      match k
      case DragStart => assert TableOrder[0] == k;
      case DragEnter => assert TableOrder[1] == k;
      case DragOver => assert TableOrder[2] == k;
      case Drag => assert TableOrder[3] == k;
      case DragLeave => assert TableOrder[4] == k;
      case DragEnd => assert TableOrder[5] == k;
      case Drop => assert TableOrder[6] == k;
    }
  }

  /** The events whose real handler is installed only on a draggable element. */
  const DraggableOnly: set<EventKind> := {DragStart, DragEnter, Drag, DragLeave, DragEnd}

  /** A configuration value, with as much detail as a strict comparison against `false` can see. */
  datatype JsValue = Undefined | Null | Bool(b: bool) | Num(n: int) | Str(s: string)

  /**
   * The binding value of the directive: the `draggable` and `droppable` flags
   * and, per event, the name of a host method (the keys `dragStart`,
   * `dragEnter`, `dragOver`, `drag`, `dragLeave`, `dragEnd` and `drop`).
   * An event without a key has no callback configured.
   */
  datatype Params = Params(draggable: JsValue, droppable: JsValue, callbacks: map<EventKind, string>)

  /** The empty configuration `{}`. */
  const EmptyParams: Params := Params(Undefined, Undefined, map[])

  /**
   * What the handlers of one mounted element capture: its configuration, the
   * two parsed flags, and the names under which the host component has a function.
   */
  datatype Env = Env(params: Params, draggable: bool, droppable: bool, host: set<string>)

  /** A listener function: the shared no-op, or the real handler of one event kind. */
  datatype Handler = EmptyFn | Handle(kind: EventKind, env: Env)

  /** The table stored on an element at mount time, one handler per event name. */
  type Table = map<EventKind, Handler>

  /**
   * Parses the binding value. A missing (falsy) binding value is read as `{}`;
   * each flag is on unless it is literally the boolean `false`.
   */
  function Configure(binding: Option<Params>, host: set<string>): (env: Env)
    ensures env.params == (if binding.Some? then binding.value else EmptyParams)
    ensures env.draggable <==> !(binding.Some? && binding.value.draggable == Bool(false))
    ensures env.droppable <==> !(binding.Some? && binding.value.droppable == Bool(false))
    ensures env.host == host
  {
    var params := if binding.Some? then binding.value else EmptyParams;
    Env(params, params.draggable != Bool(false), params.droppable != Bool(false), host)
  }

  /** Both flags default to true, and a missing binding value behaves as `{}`. */
  lemma FlagDefaults(host: set<string>, v: JsValue)
    ensures Configure(None, host) == Configure(Some(EmptyParams), host)
    ensures Configure(None, host).draggable && Configure(None, host).droppable
    ensures v != Bool(false) ==>
              Configure(Some(Params(v, v, map[])), host).draggable &&
              Configure(Some(Params(v, v, map[])), host).droppable
  {
  }

  /** The real handler of `k` when `on` holds, the no-op otherwise. */
  function Choose(on: bool, k: EventKind, env: Env): Handler {
    if on then Handle(k, env) else EmptyFn
  }

  /**
   * The handler table of an element: every event has an entry; `dragover`
   * always gets its real handler, `drop` only on a droppable element, and the
   * other five only on a draggable element. A real handler is always the one
   * for its own event and captures this element's configuration.
   */
  function HandlerTable(env: Env): (t: Table)
    ensures forall k :: k in t
    ensures t[DragOver] == Handle(DragOver, env)
    ensures t[Drop].Handle? <==> env.droppable
    ensures forall k :: k in DraggableOnly ==> (t[k].Handle? <==> env.draggable)
    ensures forall k :: t[k].Handle? ==> t[k] == Handle(k, env)
  {
    var t := map[
      DragStart := Choose(env.draggable, DragStart, env),
      DragEnter := Choose(env.draggable, DragEnter, env),
      DragOver := Handle(DragOver, env),
      Drag := Choose(env.draggable, Drag, env),
      DragLeave := Choose(env.draggable, DragLeave, env),
      DragEnd := Choose(env.draggable, DragEnd, env),
      Drop := Choose(env.droppable, Drop, env)
    ];
    assert forall k: EventKind :: k in t by {
      AllKindsListed();
      forall k: EventKind ensures k in t {
        assert k in TableOrder;
        var i :| 0 <= i < |TableOrder| && TableOrder[i] == k;
      }
    }
    t
  }

  /**
   * The host method an event's handler calls: the configured name, when the
   * name is non-empty and the host has a function under it; nothing otherwise.
   */
  function Callback(env: Env, k: EventKind): (name: Option<string>)
    ensures name.Some? <==>
              k in env.params.callbacks && env.params.callbacks[k] != "" &&
              env.params.callbacks[k] in env.host
    ensures name.Some? ==> name.value == env.params.callbacks[k] && name.value in env.host
  {
    if k in env.params.callbacks && env.params.callbacks[k] != "" && env.params.callbacks[k] in env.host
    then Some(env.params.callbacks[k])
    else None
  }

  /**
   * The element a drop is reported against: the event target itself when the
   * target carries `draggable` or the listening element's directive is
   * draggable, and otherwise the target's parent (`None` when it has none).
   */
  function ResolveTarget(env: Env, target: Elem, draggableAttr: set<Elem>, parent: map<Elem, Elem>): (r: Option<Elem>)
    ensures target in draggableAttr || env.draggable ==> r == Some(target)
    ensures !(target in draggableAttr || env.draggable) ==>
              (r.Some? <==> target in parent) && (r.Some? ==> r.value == parent[target])
  {
    if target in draggableAttr || env.draggable then Some(target)
    else if target in parent then Some(parent[target])
    else None
  }
}
