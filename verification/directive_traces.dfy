/**
 * Runs of one installation: any sequence of mounts, unmounts and delivered
 * events, as the framework and the browser produce them.
 */
module DirectiveTraces {
  import opened Wrappers
  import opened Directive
  import opened DirectiveState
  import DirectiveProperties

  /** One thing that can happen to an installation. */
  datatype Step =
    | MountStep(el: Elem, binding: Option<Params>, host: set<string>)
    | UnmountStep(el: Elem)
    | EventStep(el: Elem, kind: EventKind, target: Elem)

  function Apply(s: State, step: Step): State {
    match step
    case MountStep(el, binding, host) => OnMount(s, el, binding, host)
    case UnmountStep(el) => OnUnmount(s, el)
    case EventStep(el, k, t) => Dispatch(s, el, k, t)
  }

  function ApplyAll(s: State, steps: seq<Step>): State
    decreases |steps|
  {
    if steps == [] then s else ApplyAll(Apply(s, steps[0]), steps[1..])
  }

  /** The framework's lifecycle: an element is only mounted while it is not mounted. */
  ghost predicate Lifecycle(s: State, steps: seq<Step>)
    decreases |steps|
  {
    steps == [] ||
    ((steps[0].MountStep? ==> steps[0].el !in s.handlers) && Lifecycle(Apply(s, steps[0]), steps[1..]))
  }

  /** One step allowed by the lifecycle keeps the installation invariant. */
  lemma StepPreservesValid(s: State, step: Step)
    requires Valid(s) && (step.MountStep? ==> step.el !in s.handlers)
    ensures Valid(Apply(s, step))
  {
    match step {
      case MountStep(el, binding, host) => DirectiveProperties.MountPreservesValid(s, el, binding, host);
      case UnmountStep(el) => DirectiveProperties.UnmountPreservesValid(s, el);
      case EventStep(el, k, t) => DirectiveProperties.DispatchPreservesValid(s, el, k, t);
    }
  }

  /** Every run that respects the lifecycle keeps the installation invariant. */
  lemma {:induction false} RunPreservesValid(s: State, steps: seq<Step>)
    requires Valid(s) && Lifecycle(s, steps)
    ensures Valid(ApplyAll(s, steps))
    decreases |steps|
  {
    if steps != [] {
      StepPreservesValid(s, steps[0]);
      RunPreservesValid(Apply(s, steps[0]), steps[1..]);
    }
  }

  /** One step sets the drag source to an element only as the target of a `dragstart`. */
  lemma SourceSetOnlyByDragStart(s: State, step: Step)
    requires Valid(s)
    ensures var r := Apply(s, step);
      r.dragSrc.Some? && r.dragSrc != s.dragSrc ==>
        step.EventStep? && step.kind == DragStart && r.dragSrc == Some(step.target)
  {
    if step.EventStep? && step.el in s.handlers {
      var table := s.handlers[step.el];
      assert WellFormedTable(table);
      assert table[step.kind].Handle? ==> table[step.kind] == Handle(step.kind, table[DragOver].env);
    }
  }

  /**
   * The drag source at the end of a run is the one it started with, or the
   * target of some `dragstart` delivered during the run.
   */
  lemma {:induction false} SourceComesFromDragStart(s: State, steps: seq<Step>)
    requires Valid(s) && Lifecycle(s, steps)
    ensures var r := ApplyAll(s, steps);
      r.dragSrc.Some? ==>
        r.dragSrc == s.dragSrc ||
        exists i :: 0 <= i < |steps| && steps[i] == EventStep(steps[i].el, DragStart, r.dragSrc.value)
    decreases |steps|
  {
    if steps != [] {
      var s1 := Apply(s, steps[0]);
      var r := ApplyAll(s, steps);
      StepPreservesValid(s, steps[0]);
      SourceComesFromDragStart(s1, steps[1..]);
      SourceSetOnlyByDragStart(s, steps[0]);
      if r.dragSrc.Some? && r.dragSrc != s.dragSrc {
        if r.dragSrc == s1.dragSrc {
          assert steps[0] == EventStep(steps[0].el, DragStart, r.dragSrc.value);
        } else {
          var i :| 0 <= i < |steps[1..]| && steps[1..][i] == EventStep(steps[1..][i].el, DragStart, r.dragSrc.value);
          assert steps[i + 1] == steps[1..][i];
        }
      }
    }
  }
}
