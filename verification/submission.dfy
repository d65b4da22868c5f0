/**
 The save workflow of the catalog editor (`handleSave` in src/app/page.js),
 split into the request it plans, the one notification it emits for the
 request's outcome, and the input reset it always performs.

 The network is opaque: a planned request is a value, and what came back is an
 `Outcome` supplied by the caller.
 */
module Submission {
  import opened Wrappers
  import opened Modal

  const CategoriesPath: string := "/api/categories"
  const AnimalsPath: string := "/api/animals"

  /** How the request body is encoded. */
  datatype Body =
    | Json(name: string)                               // `{ name }`, sent as application/json
    | Multipart(name: string, image: Option<FileHandle>) // form fields `name` and `image`

  /** Every request the page sends is a POST to one endpoint path. */
  datatype Request = Post(path: string, body: Body)

  /** The endpoint that creates resources of a kind. */
  function Endpoint(k: Kind): string
  {
    match k
    case Category => CategoriesPath
    case Animal => AnimalsPath
  }

  /** Which kind of resource a request creates, read from its endpoint; `None` for any other path. */
  function RequestKind(req: Request): (r: Option<Kind>)
    ensures forall k :: r == Some(k) <==> req.path == Endpoint(k)
  {
    if req.path == CategoriesPath then Some(Category)
    else if req.path == AnimalsPath then Some(Animal)
    else None
  }

  /** The encoding agrees with the endpoint: JSON for categories, multipart for animals. */
  predicate WellFormed(req: Request)
  {
    match RequestKind(req)
    case Some(Category) => req.body.Json?
    case Some(Animal) => req.body.Multipart?
    case None => false
  }

  /** The request `handleSave` sends from state s; `None` when `modalType` is neither kind string. */
  function PlanRequest(s: ModalState): (r: Option<Request>)
    ensures r.Some? <==> WellKinded(s)
    ensures r.Some? ==> WellFormed(r.value) && RequestKind(r.value) == KindOf(s.modalType)
    ensures r.Some? ==> r.value.body.name == s.inputValue
    ensures r.Some? && r.value.body.Multipart? ==> r.value.body.image == s.imageFile
  {
    if s.modalType == "category" then
      Some(Post(CategoriesPath, Json(s.inputValue)))
    else if s.modalType == "animal" then
      Some(Post(AnimalsPath, Multipart(s.inputValue, s.imageFile)))
    else
      None
  }

  /** The state a well-formed request could have been planned from. */
  function SourceState(req: Request): (s: ModalState)
    requires WellFormed(req)
  {
    var image := if req.body.Multipart? then req.body.image else None;
    ModalState(true, Literal(RequestKind(req).value), req.body.name, image)
  }

  /** Planning loses nothing but the image of a category save: the request determines kind, name and (for animals) image. */
  lemma PlanIsFaithful(s: ModalState, t: ModalState)
    requires PlanRequest(s).Some? && PlanRequest(s) == PlanRequest(t)
    ensures s.modalType == t.modalType && s.inputValue == t.inputValue
    ensures s.modalType == Literal(Animal) ==> s.imageFile == t.imageFile
  {
    var k :| KindOf(s.modalType) == Some(k);
    assert Literal(k) == s.modalType;
    assert KindOf(t.modalType) == RequestKind(PlanRequest(t).value) == Some(k);
  }

  /** Every well-formed request is the plan of some state: the plans are exactly the well-formed requests. */
  lemma EveryWellFormedRequestIsPlanned(req: Request)
    requires WellFormed(req)
    ensures PlanRequest(SourceState(req)) == Some(req)
  {
  }

  /** A category save never reaches the animal endpoint, and its body carries no image. */
  lemma CategorySaveSendsNoImage(s: ModalState)
    requires KindOf(s.modalType) == Some(Category)
    ensures PlanRequest(s) == Some(Post(CategoriesPath, Json(s.inputValue)))
    ensures PlanRequest(s).value.path != AnimalsPath
  {
  }

  /** An animal save sends the image field even when no file is picked. */
  lemma AnimalSaveSendsImageField(s: ModalState)
    requires KindOf(s.modalType) == Some(Animal)
    ensures PlanRequest(s) == Some(Post(AnimalsPath, Multipart(s.inputValue, s.imageFile)))
  {
  }

  // ---------------------------------------------------------------------------
  // Outcomes and notifications

  /** What happened to the request. */
  datatype Outcome =
    | Ok               // 2xx status, body parsed as JSON
    | OkUnreadableBody // 2xx status, but `response.json()` rejected
    | HttpError        // any other status
    | TransportError   // `fetch` itself rejected

  /** The three reports a toast can make. */
  datatype Report = Added | FailedToAdd | ErrorSaving

  datatype Severity = Success | Error

  datatype Notification = Toast(severity: Severity, message: string)

  /** Which report an outcome leads to: anything thrown inside the `try` lands in the same `catch`. */
  function ReportOf(o: Outcome): Report
  {
    match o
    case Ok => Added
    case HttpError => FailedToAdd
    case OkUnreadableBody => ErrorSaving
    case TransportError => ErrorSaving
  }

  /** The toast texts. */
  function Message(k: Kind, rep: Report): string
  {
    match (k, rep)
    case (Category, Added) => "Category added successfully!"
    case (Category, FailedToAdd) => "Failed to add category."
    case (Category, ErrorSaving) => "Error saving category."
    case (Animal, Added) => "Animal added successfully!"
    case (Animal, FailedToAdd) => "Failed to add animal."
    case (Animal, ErrorSaving) => "Error saving animal."
  }

  /** Every (kind, report) pair, in a fixed order. */
  const AllReports: seq<(Kind, Report)> :=
    [(Category, Added), (Category, FailedToAdd), (Category, ErrorSaving),
     (Animal, Added), (Animal, FailedToAdd), (Animal, ErrorSaving)]

  /** The first pair in `candidates` whose toast text is `msg`. */
  function Find(msg: string, candidates: seq<(Kind, Report)>): (r: Option<(Kind, Report)>)
    ensures r.Some? ==> r.value in candidates && Message(r.value.0, r.value.1) == msg
    ensures r.None? ==> forall i :: 0 <= i < |candidates| ==> Message(candidates[i].0, candidates[i].1) != msg
  {
    if candidates == [] then None
    else if Message(candidates[0].0, candidates[0].1) == msg then Some(candidates[0])
    else Find(msg, candidates[1..])
  }

  /** Reads a toast text back as the kind and report it announces. */
  function ParseMessage(msg: string): Option<(Kind, Report)>
  {
    Find(msg, AllReports)
  }

  /** The six toast texts are pairwise distinct, so each one names its kind and report. */
  lemma {:induction false} MessageRoundTrip(k: Kind, rep: Report)
    ensures ParseMessage(Message(k, rep)) == Some((k, rep))
  {
    var m := Message(k, rep);
    var i := (if k == Category then 0 else 3) + (match rep case Added => 0 case FailedToAdd => 1 case ErrorSaving => 2);
    assert AllReports[i] == (k, rep);
    forall j | 0 <= j < i
      ensures Message(AllReports[j].0, AllReports[j].1) != m
    {
      MessagesDiffer(AllReports[j].0, AllReports[j].1, k, rep);
    }
    FindFirst(m, AllReports, i);
  }

  /** The six texts have six different lengths. */
  lemma MessagesDiffer(k1: Kind, r1: Report, k2: Kind, r2: Report)
    requires (k1, r1) != (k2, r2)
    ensures Message(k1, r1) != Message(k2, r2)
  {
  }

  lemma {:induction false} FindFirst(msg: string, candidates: seq<(Kind, Report)>, i: nat)
    requires i < |candidates| && Message(candidates[i].0, candidates[i].1) == msg
    requires forall j :: 0 <= j < i ==> Message(candidates[j].0, candidates[j].1) != msg
    ensures Find(msg, candidates) == Some(candidates[i])
    decreases i
  {
    if i > 0 {
      FindFirst(msg, candidates[1..], i - 1);
    }
  }

  /** The single toast `handleSave` shows for kind k and outcome o. */
  function NotificationFor(k: Kind, o: Outcome): (n: Notification)
    ensures n.severity == Success <==> o == Ok
    ensures ParseMessage(n.message) == Some((k, ReportOf(o)))
  {
    MessageRoundTrip(k, ReportOf(o));
    Toast(if o == Ok then Success else Error, Message(k, ReportOf(o)))
  }

  /** A rejected request and a failed one are told apart by their texts, and neither is mistaken for the other kind. */
  lemma NotificationsDistinguish(k1: Kind, o1: Outcome, k2: Kind, o2: Outcome)
    ensures NotificationFor(k1, o1) == NotificationFor(k2, o2) <==> k1 == k2 && ReportOf(o1) == ReportOf(o2)
  {
    if NotificationFor(k1, o1) == NotificationFor(k2, o2) {
      assert ParseMessage(NotificationFor(k1, o1).message) == Some((k2, ReportOf(o2)));
    }
  }

  // ---------------------------------------------------------------------------
  // The whole save

  /** What one save leaves behind: the next state, the request sent, the toasts shown. */
  datatype SaveResult = SaveResult(after: ModalState, request: Option<Request>, toasts: seq<Notification>)

  /** `handleSave` with the response's outcome supplied: no outcome escapes it as a failure. */
  function HandleSave(s: ModalState, o: Outcome): (r: SaveResult)
    ensures r.after.inputValue == "" && r.after.imageFile == None
    ensures r.after.isOpen == s.isOpen && r.after.modalType == s.modalType
    ensures r.request == PlanRequest(s)
    ensures r.request.Some? <==> WellKinded(s)
    ensures r.request.Some? ==> WellFormed(r.request.value) && RequestKind(r.request.value) == KindOf(s.modalType)
    ensures r.request.Some? ==> r.request.value.body.name == s.inputValue
    ensures r.request.Some? && r.request.value.body.Multipart? ==> r.request.value.body.image == s.imageFile
    ensures WellKinded(s) ==> |r.toasts| == 1
    ensures !WellKinded(s) ==> r.toasts == []
    ensures forall i :: 0 <= i < |r.toasts| ==>
              (r.toasts[i].severity == Success <==> o == Ok) &&
              ParseMessage(r.toasts[i].message) == Some((KindOf(s.modalType).value, ReportOf(o)))
  {
    var request := PlanRequest(s);
    var toasts := match KindOf(s.modalType)
      case Some(k) => [NotificationFor(k, o)]
      case None => [];
    SaveResult(ClearInputs(s), request, toasts)
  }
}
