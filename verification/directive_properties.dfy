/**
 * What the directive guarantees across operations: the installation
 * invariant is kept, unmount undoes mount, the flags switch handlers off,
 * and the drop rule over whole drag gestures.
 */
module DirectiveProperties {
  import opened Wrappers
  import opened Directive
  import opened DirectiveState

  /** Mounting an element that is not mounted keeps the installation invariant. */
  lemma MountPreservesValid(s: State, el: Elem, binding: Option<Params>, host: set<string>)
    requires Valid(s) && el !in s.handlers
    ensures Valid(OnMount(s, el, binding, host))
  {
    var env := Configure(binding, host);
    var r := OnMount(s, el, binding, host);
    assert WellFormedTable(r.handlers[el]) by {
      assert r.handlers[el][DragOver] == Handle(DragOver, env);
    }
    forall l ensures l in r.listeners <==> Registered(r, l) {
      if l in s.listeners {
        assert Registered(s, l);
      }
    }
  }

  /** Unmounting keeps the installation invariant. */
  lemma UnmountPreservesValid(s: State, el: Elem)
    requires Valid(s)
    ensures Valid(OnUnmount(s, el))
  {
    var r := OnUnmount(s, el);
    forall l ensures l in r.listeners <==> Registered(r, l) {
      if l in s.listeners {
        assert Registered(s, l);
      }
      if Registered(r, l) {
        assert Registered(s, l);
      }
    }
  }

  /** Event handling never touches registration, so it keeps the installation invariant. */
  lemma DispatchPreservesValid(s: State, el: Elem, k: EventKind, t: Elem)
    requires Valid(s)
    ensures Valid(Dispatch(s, el, k, t))
  {
    var r := Dispatch(s, el, k, t);
    forall l ensures Registered(r, l) <==> Registered(s, l) {
    }
  }

  /** Under the invariant, dispatch runs exactly the function registered for the element and event. */
  lemma DispatchFollowsListener(s: State, el: Elem, k: EventKind, t: Elem, h: Handler)
    requires Valid(s) && Listener(el, k, h) in s.listeners
    ensures Dispatch(s, el, k, t) == Run(s, h, t)
  {
    assert Registered(s, Listener(el, k, h));
  }

  /** Under the invariant, an element with no listener for an event does not react to it. */
  lemma NoListenerNoReaction(s: State, el: Elem, k: EventKind, t: Elem)
    requires Valid(s) && forall h :: Listener(el, k, h) !in s.listeners
    ensures Dispatch(s, el, k, t) == s
  {
    if el in s.handlers && k in s.handlers[el] {
      assert Registered(s, Listener(el, k, s.handlers[el][k]));
      assert false;
    }
  }

  /**
   * After unmount the element has no listener, no state mark and no
   * `draggable` marking, and no event reaching it has any effect.
   */
  lemma UnmountLeavesNoBehaviour(s: State, el: Elem)
    requires Valid(s)
    ensures var r := OnUnmount(s, el);
      (forall l :: l in r.listeners ==> l.el != el) &&
      el !in r.draggableAttr && ClassesOf(r.classes, el) !! StateClasses &&
      forall k, t :: Dispatch(r, el, k, t) == r
  {
    var r := OnUnmount(s, el);
    forall l | l in r.listeners ensures l.el != el {
      assert Registered(s, l);
    }
  }

  /**
   * Unmount undoes mount: the stored tables and the registered listeners are
   * back to what they were, and the element is left unmarked.
   */
  lemma MountUnmountRoundTrip(s: State, el: Elem, binding: Option<Params>, host: set<string>)
    requires Valid(s) && el !in s.handlers
    ensures var r := OnUnmount(OnMount(s, el, binding, host), el);
      r.handlers == s.handlers && r.listeners == s.listeners &&
      r.draggableAttr == s.draggableAttr - {el} &&
      ClassesBecome(s, r, el, ClassesOf(s.classes, el) - StateClasses) &&
      r.dragSrc == s.dragSrc && r.log == s.log
  {
    var m := OnMount(s, el, binding, host);
    var r := OnUnmount(m, el);
    var added := TableListeners(el, HandlerTable(Configure(binding, host)));
    assert r.listeners == (s.listeners + added) - added;
    forall l | l in s.listeners ensures l !in added {
      assert Registered(s, l);
    }
    assert r.listeners == s.listeners;
    assert r.handlers == s.handlers;
  }

  /** On an element whose directive is not draggable, the five drag-source events do nothing. */
  lemma NotDraggableIgnoresDrag(s: State, el: Elem, env: Env, k: EventKind, t: Elem)
    requires el in s.handlers && s.handlers[el] == HandlerTable(env)
    requires !env.draggable && k in DraggableOnly
    ensures Dispatch(s, el, k, t) == s
  {
  }

  /** On an element whose directive is not droppable, a drop does nothing, and the drag source is kept. */
  lemma NotDroppableIgnoresDrop(s: State, el: Elem, env: Env, t: Elem)
    requires el in s.handlers && s.handlers[el] == HandlerTable(env)
    requires !env.droppable
    ensures Dispatch(s, el, Drop, t) == s
  {
  }

  /** `dragover` is handled on every mounted element, whatever its flags. */
  lemma DragOverAlwaysHandled(s: State, el: Elem, env: Env, t: Elem)
    requires el in s.handlers && s.handlers[el] == HandlerTable(env)
    ensures DragOverMark in ClassesOf(Dispatch(s, el, DragOver, t).classes, t)
  {
  }

  /**
   * A callback that is absent or not callable only drops the host call: the
   * class and drag-source updates of a handler do not depend on anything its
   * configuration holds.
   */
  lemma CallbacksOnlyAffectLog(s: State, k: EventKind, env1: Env, env2: Env, t: Elem)
    ensures Run(s, Handle(k, env1), t).(log := s.log) == Run(s, Handle(k, env2), t).(log := s.log)
  {
  }

  /** Dropping on the element the drag started from calls nothing and clears the drag source. */
  lemma DropOnSourceIsSilent(s: State, src: Elem, envSrc: Env, dst: Elem, envDst: Env, t: Elem)
    requires src in s.handlers && s.handlers[src] == HandlerTable(envSrc) && envSrc.draggable
    requires dst in s.handlers && s.handlers[dst] == HandlerTable(envDst) && envDst.droppable
    ensures var s1 := Dispatch(s, src, DragStart, t);
      var s2 := Dispatch(s1, dst, Drop, t);
      s1.dragSrc == Some(t) && Dragging in ClassesOf(s1.classes, t) &&
      s2.log == s1.log && s2.dragSrc == None
  {
  }

  /**
   * A drag from `a` dropped on a different element `b` of a droppable
   * directive with a callable drop callback calls it once, with `a` and the
   * resolved target.
   */
  lemma DragToOtherCallsOnce(s: State, src: Elem, envSrc: Env, dst: Elem, envDst: Env, a: Elem, b: Elem, name: string)
    requires src in s.handlers && s.handlers[src] == HandlerTable(envSrc) && envSrc.draggable
    requires dst in s.handlers && s.handlers[dst] == HandlerTable(envDst) && envDst.droppable
    requires a != b && Callback(envDst, Drop) == Some(name)
    ensures var s1 := Dispatch(s, src, DragStart, a);
      var s2 := Dispatch(s1, dst, Drop, b);
      s2.log == s1.log + [DropCalled(name, Some(a), ResolveTarget(envDst, b, s.draggableAttr, s.parent))] &&
      s2.dragSrc == None
  {
    var s1 := Dispatch(s, src, DragStart, a);
    var s2 := Dispatch(s1, dst, Drop, b);
    assert s2 == OnDrop(s1, envDst, b);
  }

  /**
   * `dragend` does not clear the drag source: after a gesture from `a` that
   * ended without a drop, a later drop on another element still reports `a`
   * as its source.
   */
  lemma StaleSourceAfterCancelledDrag(s: State, src: Elem, envSrc: Env, dst: Elem, envDst: Env, a: Elem, b: Elem, name: string)
    requires src in s.handlers && s.handlers[src] == HandlerTable(envSrc) && envSrc.draggable
    requires dst in s.handlers && s.handlers[dst] == HandlerTable(envDst) && envDst.droppable
    requires a != b && Callback(envDst, Drop) == Some(name)
    ensures var s1 := Dispatch(s, src, DragStart, a);
      var s2 := Dispatch(s1, src, DragEnd, a);
      var s3 := Dispatch(s2, dst, Drop, b);
      ClassesOf(s2.classes, a) !! StateClasses &&
      s3.log == s2.log + [DropCalled(name, Some(a), ResolveTarget(envDst, b, s.draggableAttr, s.parent))]
  {
    var s1 := Dispatch(s, src, DragStart, a);
    var s2 := Dispatch(s1, src, DragEnd, a);
    var s3 := Dispatch(s2, dst, Drop, b);
    assert s2.dragSrc == Some(a);
    assert s3 == OnDrop(s2, envDst, b);
  }

  /** Drop removes no class: a drop target keeps the `drag-over` mark that `dragover` gave it. */
  lemma DropTargetKeepsDragOver(s: State, dst: Elem, envDst: Env, b: Elem)
    requires dst in s.handlers && s.handlers[dst] == HandlerTable(envDst)
    ensures var s1 := Dispatch(s, dst, DragOver, b);
      DragOverMark in ClassesOf(Dispatch(s1, dst, Drop, b).classes, b)
  {
  }
}
