# Drag-and-drop directive, modelled in Dafny

This project models the `drag-and-drop` directive of `drag-and-drop/vue3.drag-and-drop.js`.
The directive is installed once into an application. It then attaches to any number of elements.
All elements of one installation share a single drag-source reference (`dragSrcEl`).

On mount the directive reads two flags from its binding value, `draggable` and `droppable`.
Each flag is on unless it is literally `false`, and a missing binding value counts as `{}`.
The flags choose a table of seven listener functions, one per native drag event.
The table is stored on the element and each entry is registered as a listener.
Each event handler toggles the state-marker classes `dragging`, `drag-over` and `drag-enter` on the event's target.
Dragstart records the target as the drag source.
A handler may call a host method named in the configuration, when the host component has a function under that name.
Drop calls the drop callback with the source and a resolved target, unless the source is the target.
Drop then clears the drag source.
Unmount strips the marks and the `draggable` marking, unregisters the stored listeners and deletes the table.

Layout:

- `wrappers.dfy`, module `Wrappers`: `Option`, which stands for a nullable element reference.
- `directive.dfy`, module `Directive`: the pure part. It covers flag parsing, the handler-table choice, callback lookup by name, and drop-target resolution.
- `directive_state.dfy`, module `DirectiveState`: the state of one installation as a value. It holds the drag source, the class lists, the `draggable` markings, the parent relation, the stored tables, the registered listeners and the log of host calls. Each operation is a function on that state, and `Valid` is the installation invariant.
- `directive_properties.dfy`, module `DirectiveProperties`: lemmas that relate several operations.
- `directive_traces.dfy`, module `DirectiveTraces`: runs of an installation, meaning any sequence of mounts, unmounts and delivered events. It proves what holds over whole runs.
- `drag_and_drop.dfy`, module `DragAndDrop`: class `Installation`, the imperative model. Its fields are updated in place and mount and unmount loop over the table entries. Every method is proved equal to the matching `DirectiveState` function on `Model()`.

The host component is abstracted as the set of names under which it has a function.
A call to a host method is recorded as an entry of `log`.
Event target and listening element are kept apart: `Deliver(el, k, t)` runs the listener that element `el` registered for event `k` on an event whose target is `t`.
The handlers then act on `t`.

Five behaviours of the code that are easy to misread, and that the model keeps as written:

- `dragend` does not clear the drag source; only `drop` does (line 83). The lemma `StaleSourceAfterCancelledDrag` shows what follows: a later drop elsewhere still reports the old source.
- The drop target falls back to the parent unless the target carries `draggable` or the listening element's directive is draggable (line 79). It does not depend on whether the target accepts drops.
- `dragenter` and `dragleave` get their real handlers only on a draggable element (lines 90, 93).
- `dragend` clears the marks of the event target (line 65), which is not necessarily the listening element.
- `dragleave` removes only `drag-enter` (line 55), and `drop` removes no class. So every element that a drag passes over keeps `drag-over`. The mark stays until that element is itself the target of a `dragend`, or until it is unmounted. `DropTargetKeepsDragOver` shows this for a drop target; `OnDragLeave` states it for any element left.

## Model

| member | source | states |
|---|---|---|
| Directive.Configure | drag-and-drop/vue3.drag-and-drop.js:12-16 | a missing binding value is read as `{}`; each flag is on exactly when its value is not the boolean `false` |
| Directive.FlagDefaults | drag-and-drop/vue3.drag-and-drop.js:12-16 | with no binding value, or with `{}`, both flags are on; any value other than `false` leaves a flag on |
| Directive.HandlerTable | drag-and-drop/vue3.drag-and-drop.js:88-96 | all seven events have an entry; `dragover` always gets its real handler; `drop` gets it iff droppable; the other five get it iff draggable; a real handler is the one for its own event |
| Directive.Callback | drag-and-drop/vue3.drag-and-drop.js:26-28 | a host method is called iff a non-empty name is configured for the event and the host has a function under that name (the same test recurs at lines 38, 45, 52, 59, 66, 78) |
| Directive.ResolveTarget | drag-and-drop/vue3.drag-and-drop.js:79 | the drop is reported against the target when it carries `draggable` or the directive is draggable, otherwise against the target's parent, or null when there is none |
| DirectiveState.OnDragStart | drag-and-drop/vue3.drag-and-drop.js:20-29 | the target gains `dragging` and every other class list is untouched; the target becomes the drag source; at most the dragStart callback is logged, with the target |
| DirectiveState.OnDragOver | drag-and-drop/vue3.drag-and-drop.js:31-42 | the target gains `drag-over`, nothing else changes but the optional dragOver call |
| DirectiveState.OnDragEnter | drag-and-drop/vue3.drag-and-drop.js:44-49 | the target gains `drag-enter`, nothing else changes but the optional dragEnter call |
| DirectiveState.OnDragLeave | drag-and-drop/vue3.drag-and-drop.js:51-56 | only `drag-enter` leaves the target, nothing else changes but the optional dragLeave call |
| DirectiveState.OnDrag | drag-and-drop/vue3.drag-and-drop.js:58-62 | no class or source change; only the optional drag call |
| DirectiveState.OnDragEnd | drag-and-drop/vue3.drag-and-drop.js:64-69 | exactly `dragging`, `drag-over` and `drag-enter` leave the target; the drag source is kept |
| DirectiveState.OnDrop | drag-and-drop/vue3.drag-and-drop.js:71-85 | one drop call, with (source, resolved target), is logged iff the source is not the target and the callback is callable; otherwise none; the drag source is null afterwards in every case; no class changes |
| DirectiveState.Run | drag-and-drop/vue3.drag-and-drop.js:17-85 | a handler never changes the markings, stored tables or listeners; the shared no-op changes nothing |
| DirectiveState.Dispatch | drag-and-drop/vue3.drag-and-drop.js:103-105 | an event never changes registration; an element with no stored table does not react |
| DirectiveState.TableListenersInOrder | drag-and-drop/vue3.drag-and-drop.js:103-105 | registering the entries one by one in table order registers exactly one listener per table entry |
| DirectiveState.OnMount | drag-and-drop/vue3.drag-and-drop.js:88-105 | the chosen table is stored; the element is marked `draggable` iff the flag is on (other markings untouched); exactly the table's listeners are added |
| DirectiveState.OnUnmount | drag-and-drop/vue3.drag-and-drop.js:108-118 | the three marks and the `draggable` marking are removed, the stored table's listeners and only they are unregistered, and the table is deleted |
| DirectiveProperties.MountPreservesValid | drag-and-drop/vue3.drag-and-drop.js:88-105 | mounting an unmounted element keeps the invariant that listeners are exactly the entries of the stored tables |
| DirectiveProperties.UnmountPreservesValid | drag-and-drop/vue3.drag-and-drop.js:108-118 | unmounting keeps that invariant |
| DirectiveProperties.DispatchPreservesValid | drag-and-drop/vue3.drag-and-drop.js:20-85 | handling any event keeps that invariant |
| DirectiveProperties.DispatchFollowsListener | drag-and-drop/vue3.drag-and-drop.js:103-104 | under the invariant, an event reaching an element runs exactly the function registered for it there |
| DirectiveProperties.NoListenerNoReaction | drag-and-drop/vue3.drag-and-drop.js:103-104 | under the invariant, an element with no listener for an event leaves the state unchanged |
| DirectiveProperties.UnmountLeavesNoBehaviour | drag-and-drop/vue3.drag-and-drop.js:108-118 | after unmount the element has no listener, no state mark and no `draggable` marking, and every event reaching it is without effect |
| DirectiveProperties.MountUnmountRoundTrip | drag-and-drop/vue3.drag-and-drop.js:99-118 | unmount after mount restores the stored tables and the listeners exactly and leaves the element unmarked |
| DirectiveProperties.NotDraggableIgnoresDrag | drag-and-drop/vue3.drag-and-drop.js:89-94 | on a non-draggable element, dragstart, dragenter, drag, dragleave and dragend change nothing: no source is recorded and no `dragging` mark is added |
| DirectiveProperties.NotDroppableIgnoresDrop | drag-and-drop/vue3.drag-and-drop.js:95 | on a non-droppable element a drop changes nothing, so no callback runs and the source is kept |
| DirectiveProperties.DragOverAlwaysHandled | drag-and-drop/vue3.drag-and-drop.js:91 | on every mounted element, whatever its flags, dragover marks the target `drag-over` |
| DirectiveProperties.CallbacksOnlyAffectLog | drag-and-drop/vue3.drag-and-drop.js:20-69 | with the log set aside, a handler's effect does not depend on its configuration at all: whether a callback is configured or callable, and even the `draggable` flag that resolves a drop target, change only the host-call log |
| DirectiveProperties.DropOnSourceIsSilent | drag-and-drop/vue3.drag-and-drop.js:77-83 | dragstart then drop on the same target calls nothing and leaves the drag source null |
| DirectiveProperties.DragToOtherCallsOnce | drag-and-drop/vue3.drag-and-drop.js:77-83 | dragstart on `a` then drop on `b` != `a` at a droppable element with a callable drop callback logs exactly one call, with `a` and the resolved target |
| DirectiveProperties.StaleSourceAfterCancelledDrag | drag-and-drop/vue3.drag-and-drop.js:64-83 | dragend clears the marks of `a` but not the source, so a later drop on `b` still reports `a` as source |
| DirectiveProperties.DropTargetKeepsDragOver | drag-and-drop/vue3.drag-and-drop.js:36-85 | drop removes no class, so a target keeps the `drag-over` mark that dragover gave it |
| DirectiveTraces.StepPreservesValid | drag-and-drop/vue3.drag-and-drop.js:88-118 | a mount of an unmounted element, an unmount, or any delivered event keeps the invariant |
| DirectiveTraces.RunPreservesValid | drag-and-drop/vue3.drag-and-drop.js:88-118 | every run that mounts elements only while they are unmounted keeps the invariant from start to end |
| DirectiveTraces.SourceSetOnlyByDragStart | drag-and-drop/vue3.drag-and-drop.js:20-22 | under the invariant, a step that sets the drag source to an element is a dragstart delivered with that element as target |
| DirectiveTraces.SourceComesFromDragStart | drag-and-drop/vue3.drag-and-drop.js:7-83 | at the end of any lifecycle-respecting run, the drag source is null, the one the run started with, or the target of a dragstart delivered during the run |
| DragAndDrop.Installation.constructor | drag-and-drop/vue3.drag-and-drop.js:5-7 | a new installation has no drag source, no stored tables, no listeners and no calls, and satisfies the invariant |
| DragAndDrop.Installation.HandleDragStart | drag-and-drop/vue3.drag-and-drop.js:20-29 | updates the fields in place exactly as `OnDragStart` specifies |
| DragAndDrop.Installation.HandleDragOver | drag-and-drop/vue3.drag-and-drop.js:31-42 | updates the fields in place exactly as `OnDragOver` specifies |
| DragAndDrop.Installation.HandleDragEnter | drag-and-drop/vue3.drag-and-drop.js:44-49 | updates the fields in place exactly as `OnDragEnter` specifies |
| DragAndDrop.Installation.HandleDragLeave | drag-and-drop/vue3.drag-and-drop.js:51-56 | updates the fields in place exactly as `OnDragLeave` specifies |
| DragAndDrop.Installation.HandleDrag | drag-and-drop/vue3.drag-and-drop.js:58-62 | updates the fields in place exactly as `OnDrag` specifies |
| DragAndDrop.Installation.HandleDragEnd | drag-and-drop/vue3.drag-and-drop.js:64-69 | updates the fields in place exactly as `OnDragEnd` specifies |
| DragAndDrop.Installation.HandleDrop | drag-and-drop/vue3.drag-and-drop.js:71-85 | updates the fields in place exactly as `OnDrop` specifies |
| DragAndDrop.Installation.Deliver | drag-and-drop/vue3.drag-and-drop.js:103-105 | runs the registered listener as `Dispatch` specifies and keeps the invariant |
| DragAndDrop.Installation.Mounted | drag-and-drop/vue3.drag-and-drop.js:10-106 | the registration loop leaves the state `OnMount` specifies, and keeps the invariant when the element was not mounted |
| DragAndDrop.Installation.Unmounted | drag-and-drop/vue3.drag-and-drop.js:108-119 | the unregistration loop leaves the state `OnUnmount` specifies, and keeps the invariant |

## Left out

- The `dataTransfer` effects (`effectAllowed`, `setData`, `dropEffect`), `preventDefault`, `stopPropagation` and the `return false` of the handlers (lines 23-24, 32-35, 41, 72-75, 84). They leave no state the directive reads back.
- Event propagation. `Deliver` runs the listener of one element. Which ancestors of the target an event reaches, and the stop after a handled drop, belong to the browser.
- The event object passed to every callback. A log entry records the method name and the element arguments only.
- The order of a host call relative to its handler's class update (dragenter and dragleave call first, the others update first). A host method is modelled only as a log entry, so the model does not capture what it could observe of the page at the moment of the call.
- DirectiveState.OnDrop: host methods are assumed to return normally. A drop callback that throws (line 80) leaves the drag source set, because the reset at line 83 is never reached; the model clears it in every case.
- A throwing dragEnter or dragLeave callback (lines 45-47, 52-54) skips the class change that follows it (lines 48, 55); a throwing dragStart, dragOver or dragEnd callback only skips the rest of its handler, which does nothing after the call. The model's handlers always complete.
- Callback names are read at event time. The handlers read `params.dragStart` … `params.drop` from the captured binding object on every event (lines 26, 38, 45, 52, 59, 66, 78). The model freezes the configuration in `Env` at mount, so a later mutation of that object is not seen.
- The page tree is fixed. `parent` never changes in the model, while line 79 reads `parentElement` at drop time; moving elements between mount and drop is not modelled.
- The framework plumbing: `app.directive`, the `vnode.ctx.instance` lookup and the module export shim (lines 9, 11, 124-130). The host is the set of its function names, captured at mount.
- A falsy binding value other than a missing one (`null`, `0`, `""`, `false`) is read as `{}` by `binding.value || {}`; the model represents all of them as `None`.
- Non-string callback values. A configured callback name is a string; an empty string counts as not configured.
- Default draggability of images and links. `draggableAttr` is the set of elements whose `draggable` property is true. After unmount such an element leaves the set, where the browser would fall back to its default.
- Mounting an element that is already mounted. The framework unmounts before it mounts again, so the invariant lemmas and `Mounted`'s invariant clause assume the element is not mounted.
- The rest of the repository: example views, styling configuration, application bootstrap and the browser test script. None of it is part of the directive.
