/**
 The document click listener that `Home` registers from its `useEffect`.

 Every render creates a fresh `closeModal` closure; a registration is named by
 the render that created it. The effect depends on `isOpen` only, so it re-runs
 exactly when `isOpen` changes: first the previous run's cleanup removes the
 closure that run registered, then the new run adds the current closure (open)
 or asks to remove it (closed, which removes nothing).
 */
module Listener {

  datatype Listeners = Listeners(
    effectOf: nat,        // the render whose effect run is the active one
    registered: set<nat>) // closures currently registered on the document

  /** After the mount commit (render 0, `isOpen` false): the effect ran and registered nothing. */
  const AfterMount: Listeners := Listeners(0, {})

  /** The attach/detach rule: exactly the active run's closure while open, nothing while closed. */
  predicate Exact(l: Listeners, isOpen: bool)
  {
    l.registered == if isOpen then {l.effectOf} else {}
  }

  /** What a commit of `render` does to the listeners when `isOpen` went from `wasOpen` to `isOpen`. */
  function Commit(l: Listeners, wasOpen: bool, isOpen: bool, render: nat): (r: Listeners)
    ensures wasOpen == isOpen ==> r == l
    ensures Exact(l, wasOpen) ==> Exact(r, isOpen)
    ensures r.registered <= l.registered + {render}
    ensures wasOpen && !isOpen ==> l.effectOf !in r.registered
  {
    if wasOpen == isOpen then l
    else
      var afterCleanup := l.registered - {l.effectOf};
      var afterBody := if isOpen then afterCleanup + {render} else afterCleanup - {render};
      Listeners(render, afterBody)
  }

  /** Unmounting runs the active effect's cleanup. */
  function Teardown(l: Listeners): (r: Listeners)
    ensures Exact(l, false) || Exact(l, true) ==> r.registered == {}
    ensures r.registered <= l.registered
  {
    l.(registered := l.registered - {l.effectOf})
  }
}
