# Catalog editor: the modal and save workflow of `Home`

The page lets a user add "categories" and "animals" (an animal with an optional
image) through one modal dialog. This project models the state machine under
the React component `Home` in `src/app/page.js` as pure Dafny functions:

- `Modal` — the four state variables (`isModalOpen`, `modalType`, `inputValue`,
  `imageFile`) and the handlers that change them: opening for a kind, closing on
  a backdrop click, typing a name, picking a file, and the reset after a save.
  `modalType` stays a string, as in the component; `Kind` is the tagged variant
  its two legal values stand for.
- `Listener` — the document click listener that the `useEffect` attaches while
  the modal is open. Each render makes a new `closeModal` closure, so
  registrations are named by render number.
- `Submission` — `handleSave` split in three. `PlanRequest` gives the single
  request planned from the state: endpoint and encoding. `NotificationFor` gives
  the single toast for a kind and an outcome. `HandleSave` puts them together
  and clears both inputs.
- `Page` — the page as an event machine, with `Step` and `Run` over user
  events. It proves the invariants every reachable page keeps. `modalType` is
  always one of the two strings. The listener is attached exactly while the
  modal is open. A closed modal holds no input. Each delivered save sends
  exactly one request and shows exactly one toast, about the same kind.

The network and the toast library are opaque. A request is a value of type
`Request`. The server's answer is an `Outcome` given as part of the `Save`
event. A toast is a value of type `Notification`.

In these places the model follows what the code does:

- A transport failure is not shown to the user the same way as a rejection.
  A non-2xx status shows "Failed to add category." (or "animal."). A thrown
  error shows "Error saving category." (or "animal."). `NotificationsDistinguish`
  proves that the two texts differ.
- A 2xx response whose body `response.json()` cannot parse throws inside the
  `try`. It therefore ends in the `catch`, with the "Error saving …" text. This
  is the `OkUnreadableBody` outcome.
- Opening the modal does not clear the inputs. They are empty when the modal
  opens only because every path to a closed modal clears them (`OpenStartsEmpty`).
- There is no cancel button. The backdrop click is the only way to close the
  modal, and saving never closes it.
- The kind is not fixed for one open episode. The two open buttons stay in the
  tab order behind the backdrop, so the keyboard can switch the kind while the
  modal is shown, and a switch from animal to category keeps the picked file
  (`KeyboardReopenSwitchesKind`). A category save from there still sends only
  the name.
- A click inside the content panel can still reach `closeModal`: the panel's
  `stopPropagation` need not keep it from a listener on the document. It does
  nothing there, because no element in the panel has the id "modalOverlay",
  the only target `closeModal` acts on.

## Model

| member | source | states |
|---|---|---|
| Modal.KindOf | src/app/page.js:8-20 | reading a `modalType` string gives kind k exactly when the string is k's literal ("category" or "animal") |
| Modal.InitialWellKinded | src/app/page.js:7-10 | the initial state is closed, of kind Category, with an empty name and no image |
| Modal.OpenModal | src/app/page.js:13-22 | opening for k shows the modal with kind k and leaves the name and image as they were |
| Modal.ReopenSameKind | src/app/page.js:13-22 | opening a modal that is already open for k changes nothing |
| Modal.CloseModal | src/app/page.js:25-31 | a target other than "modalOverlay" leaves the state unchanged; the overlay closes the modal and clears both inputs; the kind is always kept |
| Modal.CloseIdempotent | src/app/page.js:26-30 | closing twice with the same target is the same as closing once |
| Modal.OpenThenDismiss | src/app/page.js:13-31 | opening for any kind and then clicking the backdrop gives a closed modal with empty inputs; the result for two kinds differs only in the kind |
| Modal.SetInputValue | src/app/page.js:120 | typing replaces the name with the typed text and changes nothing else |
| Modal.SetImageFile | src/app/page.js:130 | picking files holds an image exactly when the selection is non-empty, and then it is the first file; nothing else changes |
| Modal.ClearInputs | src/app/page.js:91-92 | the reset empties the name and the image and keeps visibility and kind |
| Modal.TransitionsKeepKind | src/app/page.js:13-31 | every handler maps a state whose kind is one of the two strings to another such state |
| Listener.Commit | src/app/page.js:33-41 | the effect re-runs only when `isOpen` changes; attachment exactly while open is preserved; a commit adds at most the current closure; closing removes the previously attached one |
| Listener.Teardown | src/app/page.js:40 | unmounting a page that respects the attach rule leaves no listener registered, and never adds one |
| Submission.PlanRequest | src/app/page.js:44-75 | a request is planned exactly when the kind is one of the two strings; its endpoint names that kind and its encoding agrees with the endpoint; it carries the name input, and an animal request carries the image input as it is |
| Submission.PlanIsFaithful | src/app/page.js:44-75 | two states with the same planned request agree on kind and name, and for animals also on image |
| Submission.EveryWellFormedRequestIsPlanned | src/app/page.js:44-75 | every well-formed request (JSON to the category endpoint, multipart to the animal endpoint) is the plan of some open state |
| Submission.CategorySaveSendsNoImage | src/app/page.js:44-52 | a category save is one JSON POST to /api/categories carrying only the name, never to /api/animals |
| Submission.AnimalSaveSendsImageField | src/app/page.js:66-75 | an animal save is one multipart POST to /api/animals with the name and image fields, even when no image is held |
| Submission.MessageRoundTrip | src/app/page.js:54-88 | each of the six toast texts reads back as the kind and report it was written for |
| Submission.MessagesDiffer | src/app/page.js:54-88 | different kind/report pairs produce different toast texts |
| Submission.NotificationFor | src/app/page.js:54-88 | the toast is a success exactly when the outcome is Ok, and its text names the kind and the report of the outcome |
| Submission.NotificationsDistinguish | src/app/page.js:54-88 | two saves show the same toast exactly when they are of the same kind and their outcomes lead to the same report: success, rejection and thrown error are told apart |
| Submission.HandleSave | src/app/page.js:43-93 | whatever the outcome, both inputs are cleared and visibility and kind are kept; the request is the planned one, so it exists exactly when the kind is recognised, goes to that kind's endpoint in that kind's encoding and carries the name (and for animals the image); exactly one toast is shown then, matching outcome and kind |
| Page.Deliverable | src/app/page.js:98-134 | the open buttons and document clicks always reach their handlers (the buttons stay keyboard-reachable behind the backdrop); typing and saving only while the modal is shown; picking a file only while it is shown for animals |
| Page.Handle | src/app/page.js:13-93 | each event runs its own handler (open for its kind, set the name, set the image, close on a click the listener takes) and changes only the modal state; only a save has outside effects, and they are exactly `handleSave`'s planned request and its toasts; a click the listener does not take changes nothing |
| Page.Step | src/app/page.js:33-41 | an undeliverable event changes nothing; a delivered one applies its handler and re-renders once; the commit keeps the listener attached exactly while the modal is open |
| Page.StepInv | src/app/page.js:7-93 | one event keeps the page invariant and logs one request with its matching toast per save on an open modal |
| Page.RunInv | src/app/page.js:7-93 | every run from an invariant page keeps it, sends one request per delivered save and pairs each request with a toast about the same kind |
| Page.Reachable | src/app/page.js:8-22 | on every page reachable from mount, the kind is "category" or "animal" and a save always plans a request; a listener is registered iff open; closed means empty inputs |
| Page.OpenStartsEmpty | src/app/page.js:13-22 | opening a closed invariant page shows the modal for the chosen kind with empty inputs and attaches exactly the new closure |
| Page.PanelClickIsInert | src/app/page.js:108-111 | a click inside the content panel is stopped and changes neither the modal nor the listeners, and sends nothing |
| Page.OtherClickIsInert | src/app/page.js:25-31 | a document click on anything other than the backdrop leaves the modal and the listeners unchanged |
| Page.OverlayClickDismisses | src/app/page.js:25-41 | a backdrop click on an open invariant page closes the modal, clears both inputs, keeps the kind and detaches the listener |
| Page.SaveKeepsModalOpen | src/app/page.js:43-93 | a save on an open modal keeps it open with the same kind and listeners, and clears both inputs |
| Page.KindFixedWhileOpen | src/app/page.js:98-107 | while the modal stays open and no open button is activated while it is shown (as with the mouse, the backdrop covering the buttons), the kind cannot change |
| Page.KeyboardReopenSwitchesKind | src/app/page.js:13-22 | opening for animals, picking a file and then activating "Add Category" leaves an open category modal still holding the file, whose save sends only the name to /api/categories |
| Page.TeardownDetaches | src/app/page.js:40 | unmounting any reachable page leaves no listener registered |

## Left out

- Rendering: the JSX markup and CSS classes are not modelled. The markup is
  used only for two facts. The inputs and the save button exist only while the
  modal is shown. The file input exists only for animals. `Page.Deliverable`
  encodes these facts. Focus handling is not modelled: any event may come from
  the pointer or the keyboard.
- Page.KindFixedWhileOpen: holds only for runs in which no open button is
  activated while the modal is shown. The mouse cannot do that through the
  backdrop, but the keyboard can reach the buttons behind it.
- Page.Reachable: does not promise that only an animal modal holds an image,
  because a keyboard switch from animal to category keeps the picked file.
- The `fetch` calls, the `http://localhost:5000` base address, the
  `Content-Type` header, `JSON.stringify` and `FormData` are left out. A request
  is the value `Post(path, body)`. `FormData` would turn a `null` image into the
  text "null"; the model keeps the image field as the held value, `None`
  included.
- `response.json()`'s data, `console.log` and `console.error` are left out.
  They are only logged. `response.statusText` is not modelled either.
- `sonner` toasts are values, not side effects.
- Asynchronous interleaving is not modelled. `Save` is handled in one step, so
  the model leaves out events arriving between the click and the response, and
  overlapping saves. The code has no guard against either.
- Modal.SetImageFile: an empty file selection makes `files[0]` `undefined`.
  The model treats this the same as `null`.
- React may skip a re-render when a state update changes nothing. The model
  counts a render for every delivered event. Only the identity of registered
  closures depends on this.
- The listener is a set of closure ids, not real DOM registration. A
  registered closure takes the close branch for clicks outside the panel. The
  click target's `inPanel` flag marks panel clicks, on which `closeModal` does
  nothing because no panel element has the id "modalOverlay".
