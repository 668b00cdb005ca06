/**
 * One installation of the `drag-and-drop` directive as the program runs it:
 * the shared drag source lives in the installation, the handlers update the
 * page in place, and mount and unmount register and unregister listeners one
 * table entry at a time. Each method is proved to do what the corresponding
 * function of `DirectiveState` specifies.
 */
module DragAndDrop {
  import opened Wrappers
  import opened Directive
  import opened DirectiveState
  import DirectiveProperties

  class Installation {
    /** The element the current gesture started from, shared by every element of this installation. */
    var dragSrc: Option<Elem>
    var classes: map<Elem, set<string>>
    var draggableAttr: set<Elem>
    const parent: map<Elem, Elem>
    /** The handler table stored on each mounted element. */
    var handlers: map<Elem, Table>
    var listeners: set<Listener>
    /** The host methods called so far, in order. */
    var log: seq<Call>

    ghost function Model(): State
      reads this
    {
      State(dragSrc, classes, draggableAttr, parent, handlers, listeners, log)
    }

    ghost predicate Valid()
      reads this
    {
      DirectiveState.Valid(Model())
    }

    /** `install`: no drag in progress and nothing mounted yet, on a page with the given classes, markings and tree. */
    constructor (pageClasses: map<Elem, set<string>>, marked: set<Elem>, tree: map<Elem, Elem>)
      ensures Model() == State(None, pageClasses, marked, tree, map[], {}, [])
      ensures Valid()
    {
      dragSrc := None;
      classes := pageClasses;
      draggableAttr := marked;
      parent := tree;
      handlers := map[];
      listeners := {};
      log := [];
    }

    method HandleDragStart(env: Env, t: Elem)
      modifies this
      ensures Model() == OnDragStart(old(Model()), env, t)
    {
      classes := classes[t := ClassesOf(classes, t) + {Dragging}];
      dragSrc := Some(t);
      var cb := Callback(env, DragStart);
      if cb.Some? {
        log := log + [Called(cb.value, t)];
      }
    }

    method HandleDragOver(env: Env, t: Elem)
      modifies this
      ensures Model() == OnDragOver(old(Model()), env, t)
    {
      classes := classes[t := ClassesOf(classes, t) + {DragOverMark}];
      var cb := Callback(env, DragOver);
      if cb.Some? {
        log := log + [Called(cb.value, t)];
      }
    }

    method HandleDragEnter(env: Env, t: Elem)
      modifies this
      ensures Model() == OnDragEnter(old(Model()), env, t)
    {
      var cb := Callback(env, DragEnter);
      if cb.Some? {
        log := log + [Called(cb.value, t)];
      }
      classes := classes[t := ClassesOf(classes, t) + {DragEnterMark}];
    }

    method HandleDragLeave(env: Env, t: Elem)
      modifies this
      ensures Model() == OnDragLeave(old(Model()), env, t)
    {
      var cb := Callback(env, DragLeave);
      if cb.Some? {
        log := log + [Called(cb.value, t)];
      }
      classes := classes[t := ClassesOf(classes, t) - {DragEnterMark}];
    }

    method HandleDrag(env: Env, t: Elem)
      modifies this
      ensures Model() == OnDrag(old(Model()), env, t)
    {
      var cb := Callback(env, Drag);
      if cb.Some? {
        log := log + [Called(cb.value, t)];
      }
    }

    method HandleDragEnd(env: Env, t: Elem)
      modifies this
      ensures Model() == OnDragEnd(old(Model()), env, t)
    {
      classes := classes[t := ClassesOf(classes, t) - StateClasses];
      var cb := Callback(env, DragEnd);
      if cb.Some? {
        log := log + [Called(cb.value, t)];
      }
    }

    method HandleDrop(env: Env, t: Elem)
      modifies this
      ensures Model() == OnDrop(old(Model()), env, t)
    {
      if dragSrc != Some(t) {
        var cb := Callback(env, Drop);
        if cb.Some? {
          var targetEl := ResolveTarget(env, t, draggableAttr, parent);
          log := log + [DropCalled(cb.value, dragSrc, targetEl)];
        }
      }
      dragSrc := None;
    }

    /** Delivers event `k` with target `t` to the listener `el` registered for it. */
    method Deliver(el: Elem, k: EventKind, t: Elem)
      modifies this
      ensures Model() == Dispatch(old(Model()), el, k, t)
      ensures old(Valid()) ==> Valid()
    {
      ghost var before := Model();
      if el in handlers && k in handlers[el] {
        match handlers[el][k]
        case EmptyFn =>
        case Handle(kind, env) =>
          match kind
          case DragStart => HandleDragStart(env, t);
          case DragEnter => HandleDragEnter(env, t);
          case DragOver => HandleDragOver(env, t);
          case Drag => HandleDrag(env, t);
          case DragLeave => HandleDragLeave(env, t);
          case DragEnd => HandleDragEnd(env, t);
          case Drop => HandleDrop(env, t);
      }
      if DirectiveState.Valid(before) {
        DirectiveProperties.DispatchPreservesValid(before, el, k, t);
      }
    }

    /**
     * `mounted`: parses the binding value, stores the handler table, marks the
     * element `draggable` when the flag is on, and registers each entry.
     */
    method Mounted(el: Elem, binding: Option<Params>, host: set<string>)
      modifies this
      ensures Model() == OnMount(old(Model()), el, binding, host)
      ensures old(Valid()) && el !in old(handlers) ==> Valid()
    {
      ghost var before := Model();
      var env := Configure(binding, host);
      var table := HandlerTable(env);
      handlers := handlers[el := table];
      if env.draggable {
        draggableAttr := draggableAttr + {el};
      }
      for i := 0 to |TableOrder|
        invariant handlers == before.handlers[el := table]
        invariant classes == before.classes && dragSrc == before.dragSrc && log == before.log
        invariant draggableAttr == if env.draggable then before.draggableAttr + {el} else before.draggableAttr
        invariant listeners == before.listeners +
                    set j | 0 <= j < i && TableOrder[j] in table :: Listener(el, TableOrder[j], table[TableOrder[j]])
      {
        assert TableOrder[i] in table;
        listeners := listeners + {Listener(el, TableOrder[i], table[TableOrder[i]])};
      }
      TableListenersInOrder(el, table);
      if DirectiveState.Valid(before) && el !in before.handlers {
        DirectiveProperties.MountPreservesValid(before, el, binding, host);
      }
    }

    /**
     * `unmounted`: strips the state marks and the `draggable` marking, and,
     * when a table is stored, unregisters each of its entries and deletes it.
     */
    method Unmounted(el: Elem)
      modifies this
      ensures Model() == OnUnmount(old(Model()), el)
      ensures old(Valid()) ==> Valid()
    {
      ghost var before := Model();
      classes := classes[el := ClassesOf(classes, el) - StateClasses];
      draggableAttr := draggableAttr - {el};
      if el in handlers {
        var table := handlers[el];
        for i := 0 to |TableOrder|
          invariant handlers == before.handlers && dragSrc == before.dragSrc && log == before.log
          invariant classes == before.classes[el := ClassesOf(before.classes, el) - StateClasses]
          invariant draggableAttr == before.draggableAttr - {el}
          invariant listeners == before.listeners -
                      set j | 0 <= j < i && TableOrder[j] in table :: Listener(el, TableOrder[j], table[TableOrder[j]])
        {
          if TableOrder[i] in table {
            listeners := listeners - {Listener(el, TableOrder[i], table[TableOrder[i]])};
          }
        }
        TableListenersInOrder(el, table);
        handlers := handlers - {el};
      }
      if DirectiveState.Valid(before) {
        DirectiveProperties.UnmountPreservesValid(before, el);
      }
    }
  }
}
