/**
 The modal state of the catalog editor page (`Home` in src/app/page.js) and the
 pure transitions its handlers perform on it.

 The page keeps the active resource kind as a string (`modalType`), exactly as
 the component does; `Kind` is the tagged variant the two legal strings stand
 for, and `KindOf` reads one back from the other.
 */
module Modal {
  import opened Wrappers

  /** An opaque handle on a browser `File` object picked in the file input. */
  datatype FileHandle = FileHandle(id: nat)

  /** The two kinds of resource the page can create. */
  datatype Kind = Category | Animal

  /** The id of the full-screen backdrop around the content panel. */
  const OverlayId: string := "modalOverlay"

  /** The string the component stores in `modalType` for a kind. */
  function Literal(k: Kind): string
  {
    match k
    case Category => "category"
    case Animal => "animal"
  }

  /** Reads a `modalType` string back as a kind; `None` for any other string. */
  function KindOf(t: string): (r: Option<Kind>)
    ensures forall k :: r == Some(k) <==> Literal(k) == t
  {
    if t == "category" then Some(Category)
    else if t == "animal" then Some(Animal)
    else None
  }

  /** The four state variables declared at the top of `Home`. */
  datatype ModalState = ModalState(
    isOpen: bool,
    modalType: string,
    inputValue: string,
    imageFile: Option<FileHandle>)

  /** The initial values passed to `useState`. */
  const Initial: ModalState := ModalState(false, "category", "", None)

  /** The state holds one of the two kind strings. */
  predicate WellKinded(s: ModalState)
  {
    KindOf(s.modalType).Some?
  }

  lemma InitialWellKinded()
    ensures WellKinded(Initial) && KindOf(Initial.modalType) == Some(Category)
    ensures !Initial.isOpen && Initial.inputValue == "" && Initial.imageFile == None
  {
  }

  /** `openCategoryModal` (k = Category) and `openAnimalModal` (k = Animal). */
  function OpenModal(s: ModalState, k: Kind): (r: ModalState)
    ensures r.isOpen
    ensures KindOf(r.modalType) == Some(k)
    ensures r.inputValue == s.inputValue && r.imageFile == s.imageFile
  {
    s.(isOpen := true, modalType := Literal(k))
  }

  /** `closeModal(e)` for a click whose target has the given id. */
  function CloseModal(s: ModalState, targetId: string): (r: ModalState)
    ensures targetId != OverlayId ==> r == s
    ensures targetId == OverlayId ==>
              !r.isOpen && r.inputValue == "" && r.imageFile == None
    ensures r.modalType == s.modalType
  {
    if targetId == OverlayId then
      s.(isOpen := false, inputValue := "", imageFile := None)
    else
      s
  }

  /** The text input's `onChange`: the typed text replaces the name as-is. */
  function SetInputValue(s: ModalState, text: string): (r: ModalState)
    ensures r.inputValue == text
    ensures r.isOpen == s.isOpen && r.modalType == s.modalType && r.imageFile == s.imageFile
  {
    s.(inputValue := text)
  }

  /** The file input's `onChange`: the first selected file, or none when the selection is empty. */
  function SetImageFile(s: ModalState, files: seq<FileHandle>): (r: ModalState)
    ensures r.imageFile.Some? <==> |files| > 0
    ensures r.imageFile.Some? ==> r.imageFile.value == files[0]
    ensures r.isOpen == s.isOpen && r.modalType == s.modalType && r.inputValue == s.inputValue
  {
    s.(imageFile := if |files| > 0 then Some(files[0]) else None)
  }

  /** The reset at the end of `handleSave`: both inputs cleared, nothing else touched. */
  function ClearInputs(s: ModalState): (r: ModalState)
    ensures r.inputValue == "" && r.imageFile == None
    ensures r.isOpen == s.isOpen && r.modalType == s.modalType
  {
    s.(inputValue := "", imageFile := None)
  }

  /** Re-opening an already open modal for its own kind changes nothing. */
  lemma ReopenSameKind(s: ModalState, k: Kind)
    requires s.isOpen && KindOf(s.modalType) == Some(k)
    ensures OpenModal(s, k) == s
  {
  }

  /** Every transition keeps the state well-kinded. */
  lemma TransitionsKeepKind(s: ModalState, k: Kind, id: string, text: string, files: seq<FileHandle>)
    requires WellKinded(s)
    ensures WellKinded(OpenModal(s, k)) && WellKinded(CloseModal(s, id))
    ensures WellKinded(SetInputValue(s, text)) && WellKinded(SetImageFile(s, files))
    ensures WellKinded(ClearInputs(s))
  {
  }

  /** Dismissing is idempotent: a second overlay click changes nothing. */
  lemma CloseIdempotent(s: ModalState, id: string)
    ensures CloseModal(CloseModal(s, id), id) == CloseModal(s, id)
  {
  }

  /** Opening for any kind and then dismissing gives a closed modal with empty inputs, whatever the kind. */
  lemma OpenThenDismiss(s: ModalState, k1: Kind, k2: Kind)
    ensures var a := CloseModal(OpenModal(s, k1), OverlayId);
            var b := CloseModal(OpenModal(s, k2), OverlayId);
            !a.isOpen && a.inputValue == "" && a.imageFile == None
            && a == b.(modalType := Literal(k1))
  {
  }
}
