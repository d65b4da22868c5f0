/**
 The `Home` page as an event-driven state machine: the modal state, the render
 counter and the document click listeners, driven by the user's events.

 A save is handled in one step with its outcome supplied by the event; the
 asynchronous gap between the click and the response is not modelled.
 */
module Page {
  import opened Wrappers
  import opened Modal
  import opened Listener
  import opened Submission

  datatype PageState = PageState(modal: ModalState, render: nat, listeners: Listeners)

  /** The page right after mounting. */
  const Mounted: PageState := PageState(Initial, 0, AfterMount)

  /** The element a click lands on: its id, and whether it lies inside the content panel. */
  datatype ClickTarget = ClickTarget(id: string, inPanel: bool)

  /** A click on the backdrop itself, which lies outside the panel. */
  const Overlay: ClickTarget := ClickTarget(OverlayId, false)

  datatype Event =
    | OpenCategory               // the "Add Category" button
    | OpenAnimal                 // the "Add Animal" button
    | TypeName(text: string)     // the name input's onChange
    | PickImage(files: seq<FileHandle>) // the file input's onChange
    | Click(target: ClickTarget) // any click, as seen by the document
    | Save(outcome: Outcome)     // the save button, with what the server answered

  /** The requests sent and toasts shown, in order. */
  datatype Log = Log(requests: seq<Request>, toasts: seq<Notification>)

  const NoEffects: Log := Log([], [])

  function Append(a: Log, b: Log): Log
  {
    Log(a.requests + b.requests, a.toasts + b.toasts)
  }

  /**
   Whether the event can reach its handler at all. The name input and the save
   button are rendered only while the modal is shown, and the file input only
   while it is shown for animals. The two open buttons are always rendered: the
   backdrop hides them from the pointer while the modal is shown, but they stay
   in the tab order, so the keyboard can still activate them.
   */
  predicate Deliverable(m: ModalState, e: Event)
    // These ensures only spell out the markup facts above, arm by arm, for the reader.
    ensures (e.OpenCategory? || e.OpenAnimal? || e.Click?) ==> Deliverable(m, e)
    ensures (e.TypeName? || e.Save?) ==> (Deliverable(m, e) <==> m.isOpen)
    ensures e.PickImage? ==> (Deliverable(m, e) <==> m.isOpen && KindOf(m.modalType) == Some(Animal))
  {
    match e
    case OpenCategory => true
    case OpenAnimal => true
    case TypeName(_) => m.isOpen
    case PickImage(_) => m.isOpen && m.modalType == "animal"
    case Click(_) => true
    case Save(_) => m.isOpen
  }

  /**
   Whether a document click takes the close branch: a closure is registered and
   the click did not come from the content panel. A panel click may still run
   `closeModal`, since the panel's `stopPropagation` need not keep it from a
   listener on the document, but no element in the panel has the id
   "modalOverlay", so `closeModal` would do nothing; `inPanel` records that.
   */
  predicate ListenerFires(p: PageState, t: ClickTarget)
  {
    p.listeners.registered != {} && !t.inPanel
  }

  /** The handler's effect on the modal state and on the outside world. */
  function Handle(p: PageState, e: Event): (r: (PageState, Log))
    ensures r.0.render == p.render && r.0.listeners == p.listeners
    ensures !e.Save? ==> r.1 == NoEffects
    ensures e.Save? ==> r.0.modal == HandleSave(p.modal, e.outcome).after
    ensures e.Save? ==> r.1.toasts == HandleSave(p.modal, e.outcome).toasts
    ensures e.Save? ==>
              r.1.requests == (if PlanRequest(p.modal).Some? then [PlanRequest(p.modal).value] else [])
    ensures e.OpenCategory? ==> r.0.modal == OpenModal(p.modal, Category)
    ensures e.OpenAnimal? ==> r.0.modal == OpenModal(p.modal, Animal)
    ensures e.TypeName? ==> r.0.modal == SetInputValue(p.modal, e.text)
    ensures e.PickImage? ==> r.0.modal == SetImageFile(p.modal, e.files)
    ensures e.Click? && ListenerFires(p, e.target) ==> r.0.modal == CloseModal(p.modal, e.target.id)
    ensures e.Click? && !ListenerFires(p, e.target) ==> r.0 == p
  {
    match e
    case OpenCategory => (p.(modal := OpenModal(p.modal, Category)), NoEffects)
    case OpenAnimal => (p.(modal := OpenModal(p.modal, Animal)), NoEffects)
    case TypeName(text) => (p.(modal := SetInputValue(p.modal, text)), NoEffects)
    case PickImage(files) => (p.(modal := SetImageFile(p.modal, files)), NoEffects)
    case Click(t) =>
      if ListenerFires(p, t) then (p.(modal := CloseModal(p.modal, t.id)), NoEffects)
      else (p, NoEffects)
    case Save(o) =>
      var r := HandleSave(p.modal, o);
      var requests := if r.request.Some? then [r.request.value] else [];
      (p.(modal := r.after), Log(requests, r.toasts))
  }

  /** One event: the handler, then the re-render and its effect commit. */
  function Step(p: PageState, e: Event): (r: (PageState, Log))
    ensures !Deliverable(p.modal, e) ==> r == (p, NoEffects)
    ensures Deliverable(p.modal, e) ==>
              r.0.modal == Handle(p, e).0.modal && r.1 == Handle(p, e).1 && r.0.render == p.render + 1
    ensures Exact(p.listeners, p.modal.isOpen) ==> Exact(r.0.listeners, r.0.modal.isOpen)
  {
    if !Deliverable(p.modal, e) then (p, NoEffects)
    else
      var (q, log) := Handle(p, e);
      var render := p.render + 1;
      var listeners := Commit(p.listeners, p.modal.isOpen, q.modal.isOpen, render);
      (q.(render := render, listeners := listeners), log)
  }

  /** A sequence of events, with everything they sent and showed. */
  function Run(p: PageState, events: seq<Event>): (PageState, Log)
    decreases |events|
  {
    if events == [] then (p, NoEffects)
    else
      var (q, log) := Step(p, events[0]);
      var (r, rest) := Run(q, events[1..]);
      (r, Append(log, rest))
  }

  // ---------------------------------------------------------------------------
  // Invariants of every reachable page

  /**
   The kind is one of the two strings; the listener is attached exactly while
   the modal is open; and a closed modal has empty inputs.
   */
  predicate Inv(p: PageState)
  {
    && WellKinded(p.modal)
    && Exact(p.listeners, p.modal.isOpen)
    && (!p.modal.isOpen ==> p.modal.inputValue == "" && p.modal.imageFile == None)
  }

  /** Every toast answers the request logged beside it: one of each per save, about the same kind. */
  predicate Paired(log: Log)
  {
    && |log.requests| == |log.toasts|
    && forall i :: 0 <= i < |log.requests| ==>
         ParseMessage(log.toasts[i].message).Some? &&
         RequestKind(log.requests[i]) == Some(ParseMessage(log.toasts[i].message).value.0)
  }

  lemma MountedInv()
    ensures Inv(Mounted)
  {
  }

  /** One event keeps the invariant and logs one request and its toast per save. */
  lemma StepInv(p: PageState, e: Event)
    requires Inv(p)
    ensures Inv(Step(p, e).0)
    ensures Paired(Step(p, e).1)
    ensures |Step(p, e).1.requests| == if e.Save? && p.modal.isOpen then 1 else 0
  {
    if Deliverable(p.modal, e) && e.Save? {
      var r := HandleSave(p.modal, e.outcome);
      var k := KindOf(p.modal.modalType).value;
      assert RequestKind(r.request.value) == Some(k);
      assert ParseMessage(r.toasts[0].message) == Some((k, ReportOf(e.outcome)));
    }
  }

  lemma PairedAppend(a: Log, b: Log)
    requires Paired(a) && Paired(b)
    ensures Paired(Append(a, b))
  {
    var c := Append(a, b);
    forall i | 0 <= i < |c.requests|
      ensures ParseMessage(c.toasts[i].message).Some?
      ensures RequestKind(c.requests[i]) == Some(ParseMessage(c.toasts[i].message).value.0)
    {
      if i >= |a.requests| {
        var j := i - |a.requests|;
        assert c.requests[i] == b.requests[j] && c.toasts[i] == b.toasts[j];
      }
    }
  }

  /** How many save clicks of a run reach an open modal. */
  function SavesDelivered(p: PageState, events: seq<Event>): nat
    decreases |events|
  {
    if events == [] then 0
    else
      (if events[0].Save? && p.modal.isOpen then 1 else 0)
      + SavesDelivered(Step(p, events[0]).0, events[1..])
  }

  /**
   From any invariant page, every run keeps the invariant, sends exactly one
   request per delivered save, and shows exactly one toast per request, about
   the same kind.
   */
  lemma {:induction false} RunInv(p: PageState, events: seq<Event>)
    requires Inv(p)
    ensures Inv(Run(p, events).0)
    ensures Paired(Run(p, events).1)
    ensures |Run(p, events).1.requests| == SavesDelivered(p, events)
    decreases |events|
  {
    if events != [] {
      StepInv(p, events[0]);
      var (q, log) := Step(p, events[0]);
      RunInv(q, events[1..]);
      PairedAppend(log, Run(q, events[1..]).1);
    }
  }

  /**
   On every page reachable from mount: `modalType` is "category" or "animal", so
   a save always plans a request; a listener is registered exactly while the
   modal is open; a closed modal holds no input.
   */
  lemma Reachable(events: seq<Event>)
    ensures var p := Run(Mounted, events).0;
            && (p.modal.modalType == "category" || p.modal.modalType == "animal")
            && PlanRequest(p.modal).Some?
            && (p.listeners.registered != {} <==> p.modal.isOpen)
            && (!p.modal.isOpen ==> p.modal.inputValue == "" && p.modal.imageFile == None)
  {
    MountedInv();
    RunInv(Mounted, events);
  }

  // ---------------------------------------------------------------------------
  // Single events

  /** On an invariant page, opening the modal shows it with empty inputs for the chosen kind. */
  lemma OpenStartsEmpty(p: PageState, e: Event)
    requires Inv(p) && !p.modal.isOpen && (e.OpenCategory? || e.OpenAnimal?)
    ensures var q := Step(p, e).0;
            q.modal.isOpen && q.modal.inputValue == "" && q.modal.imageFile == None
            && KindOf(q.modal.modalType) == Some(if e.OpenCategory? then Category else Animal)
            && q.listeners.registered == {q.render}
  {
  }

  /** A click inside the content panel changes nothing but the render count. */
  lemma PanelClickIsInert(p: PageState, t: ClickTarget)
    requires t.inPanel
    ensures Step(p, Click(t)).0.modal == p.modal
    ensures Step(p, Click(t)).0.listeners == p.listeners
    ensures Step(p, Click(t)).1 == NoEffects
  {
  }

  /** A click outside the panel on anything but the backdrop changes nothing either. */
  lemma OtherClickIsInert(p: PageState, t: ClickTarget)
    requires t.id != OverlayId
    ensures Step(p, Click(t)).0.modal == p.modal
    ensures Step(p, Click(t)).0.listeners == p.listeners
  {
  }

  /** A backdrop click on an open modal closes it, clears both inputs and detaches the listener. */
  lemma OverlayClickDismisses(p: PageState)
    requires Inv(p) && p.modal.isOpen
    ensures var q := Step(p, Click(Overlay)).0;
            !q.modal.isOpen && q.modal.inputValue == "" && q.modal.imageFile == None
            && q.modal.modalType == p.modal.modalType
            && q.listeners.registered == {}
  {
    assert p.listeners.registered == {p.listeners.effectOf};
  }

  /** Saving never closes the modal nor changes the kind, and always clears both inputs. */
  lemma SaveKeepsModalOpen(p: PageState, o: Outcome)
    requires p.modal.isOpen
    ensures var q := Step(p, Save(o)).0;
            q.modal.isOpen && q.modal.modalType == p.modal.modalType
            && q.modal.inputValue == "" && q.modal.imageFile == None
            && q.listeners == p.listeners
  {
  }

  /** The page stays open along a run. */
  predicate StaysOpen(p: PageState, events: seq<Event>)
    decreases |events|
  {
    events == [] ||
    (Step(p, events[0]).0.modal.isOpen && StaysOpen(Step(p, events[0]).0, events[1..]))
  }

  /**
   No open button is activated while the modal is shown along the run: what a
   mouse alone allows, since the backdrop covers the buttons.
   */
  predicate PointerOnly(p: PageState, events: seq<Event>)
    decreases |events|
  {
    events == [] ||
    ((p.modal.isOpen ==> !events[0].OpenCategory? && !events[0].OpenAnimal?)
     && PointerOnly(Step(p, events[0]).0, events[1..]))
  }

  /**
   The kind is fixed for one open episode as long as the open buttons are not
   activated from the keyboard behind the backdrop.
   */
  lemma {:induction false} KindFixedWhileOpen(p: PageState, events: seq<Event>)
    requires p.modal.isOpen && StaysOpen(p, events) && PointerOnly(p, events)
    ensures Run(p, events).0.modal.modalType == p.modal.modalType
    decreases |events|
  {
    if events != [] {
      var q := Step(p, events[0]).0;
      assert q.modal.modalType == p.modal.modalType;
      KindFixedWhileOpen(q, events[1..]);
    }
  }

  /**
   Without that restriction the kind can change mid-episode: open for animals,
   pick a file, then activate "Add Category" from the keyboard. The modal stays
   open as a category modal that still holds the file, although a save from
   there sends only the name to the category endpoint.
   */
  lemma KeyboardReopenSwitchesKind()
    ensures var p := Run(Mounted, [OpenAnimal, PickImage([FileHandle(7)]), OpenCategory]).0;
            && p.modal.isOpen
            && p.modal.modalType == "category"
            && p.modal.imageFile == Some(FileHandle(7))
            && PlanRequest(p.modal) == Some(Post(CategoriesPath, Json(p.modal.inputValue)))
  {
    var p1 := Step(Mounted, OpenAnimal).0;
    var p2 := Step(p1, PickImage([FileHandle(7)])).0;
    var p3 := Step(p2, OpenCategory).0;
    assert p3.modal == ModalState(true, "category", "", Some(FileHandle(7)));
    assert Run(Mounted, [OpenAnimal, PickImage([FileHandle(7)]), OpenCategory]).0 == p3 by {
      assert [OpenAnimal, PickImage([FileHandle(7)]), OpenCategory][1..] == [PickImage([FileHandle(7)]), OpenCategory];
      assert [PickImage([FileHandle(7)]), OpenCategory][1..] == [OpenCategory];
      assert [OpenCategory][1..] == [];
    }
  }

  /** Unmounting a reachable page leaves no listener registered. */
  lemma TeardownDetaches(events: seq<Event>)
    ensures Teardown(Run(Mounted, events).0.listeners).registered == {}
  {
    MountedInv();
    RunInv(Mounted, events);
  }
}
