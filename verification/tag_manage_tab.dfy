/**
 * The tag-management form: a list of tags, a form that either adds a new tag or edits the
 * selected one, and three handlers that validate the form, call the store, and then either
 * clear the form and reload the list or record the error.
 *
 * The store calls (`addTag`, `updateTag`, `deleteTag`, `getAllTags`) are represented by their
 * outcomes, passed in as parameters, and the `confirm` dialog by the user's answer. Each
 * handler runs to completion in one step: the model has no interleaving inside an `await`.
 */
module TagManageTab {
  import opened Wrappers
  import opened Js
  import opened SupabaseClient

  /** The component's reactive state. */
  datatype Form = Form(
    tags: seq<TagRow>,
    loading: bool,
    error: Option<string>,
    selectedTagId: Option<TagId>,
    saving: bool,
    isEditMode: bool,
    formTagId: IdValue,
    formTag: string,
    formLevel: int)

  /** The part of the state the form's inputs show and `clearForm` resets. */
  datatype Fields = Fields(isEditMode: bool, selectedTagId: Option<TagId>, formTagId: IdValue, formTag: string, formLevel: int)

  function FieldsOf(s: Form): Fields {
    Fields(s.isEditMode, s.selectedTagId, s.formTagId, s.formTag, s.formLevel)
  }

  /** The store call a handler makes. */
  datatype Request =
    | AddTag(tag: string, level: int)
    | UpdateTag(tagId: TagId, tag: string, level: int)
    | DeleteTag(tagId: TagId)

  /** Why a handler returned before calling the store. */
  datatype Rejection = BlankName | NoTagSelected | Declined

  /** What a handler's guards decide: stop, or send this request. */
  datatype Dispatch = Rejected(reason: Rejection) | Sent(request: Request)

  /** The state before the component is mounted: no tags, loading, an empty add form at level 2. */
  function Initial(): Form {
    Form([], true, None, None, false, false, Blank, "", 2)
  }

  /** `fetchTags` once `getAllTags` has settled: the list is replaced, or the error is shown and the list kept. */
  function AfterFetch(s: Form, fetched: Result<seq<TagRow>, StoreError>): Form {
    match fetched
    case Success(rows) => s.(loading := false, error := None, tags := rows)
    case Failure(e) => s.(loading := false, error := Some(e.message))
  }

  /** `tag.level || 2`: a missing level, or level 0, falls back to 2. */
  function LevelOrDefault(level: Option<int>): int {
    if level.Some? && level.value != 0 then level.value else 2
  }

  /** `selectTag(tag)`. */
  function AfterSelectTag(s: Form, tag: TagRow): Form {
    s.(selectedTagId := Some(tag.tag_id), isEditMode := true, formTagId := Id(tag.tag_id),
       formTag := tag.tag, formLevel := LevelOrDefault(tag.level))
  }

  /** `clearForm()`. */
  function Cleared(s: Form): Form {
    s.(isEditMode := false, selectedTagId := None, formTagId := Blank, formTag := "", formLevel := 2, error := None)
  }

  /** The guard of `handleAdd`: the name must not be blank. */
  function AddDispatch(s: Form): Dispatch {
    if IsBlank(s.formTag) then Rejected(BlankName) else Sent(AddTag(s.formTag, s.formLevel))
  }

  /** The guards of `handleUpdate`: the name is checked first, then the id. */
  function UpdateDispatch(s: Form): Dispatch {
    if IsBlank(s.formTag) then Rejected(BlankName)
    else if !s.formTagId.Truthy() then Rejected(NoTagSelected)
    else Sent(UpdateTag(s.formTagId.id, s.formTag, s.formLevel))
  }

  /** The guards of `handleDelete`: an id is needed, then the user's confirmation. */
  function DeleteDispatch(s: Form, confirmed: bool): Dispatch {
    if !s.formTagId.Truthy() then Rejected(NoTagSelected)
    else if !confirmed then Rejected(Declined)
    else Sent(DeleteTag(s.formTagId.id))
  }

  /**
   * A handler after its guards: `saving` and `error` are set, the store is called, and then
   * either the form is cleared and the list fetched again, or the error is recorded; `saving`
   * is reset in every case.
   */
  function Settled(s: Form, stored: Result<(), StoreError>, fetched: Result<seq<TagRow>, StoreError>): Form {
    var busy := s.(saving := true, error := None);
    var done := match stored
      case Success(_) => AfterFetch(Cleared(busy), fetched)
      case Failure(e) => busy.(error := Some(e.message));
    done.(saving := false)
  }

  /** A handler as a whole: a rejected request changes nothing; a sent one settles. */
  function AfterHandler(s: Form, d: Dispatch, stored: Result<(), StoreError>, fetched: Result<seq<TagRow>, StoreError>): Form {
    if d.Rejected? then s else Settled(s, stored, fetched)
  }

  // ---------------------------------------------------------------------------------------
  // Selecting and clearing

  /** Selecting a row enters edit mode on that tag, and takes its level unless the level is missing or 0. */
  lemma SelectTagEditsThatTag(s: Form, tag: TagRow)
    ensures var r := AfterSelectTag(s, tag);
      r.isEditMode && r.selectedTagId == Some(tag.tag_id) && r.formTagId == Id(tag.tag_id) && r.formTag == tag.tag &&
      (tag.level.Some? && tag.level.value != 0 ==> r.formLevel == tag.level.value) &&
      (tag.level.None? || tag.level == Some(0) ==> r.formLevel == 2) &&
      r.tags == s.tags && r.error == s.error && r.saving == s.saving && r.loading == s.loading
  {
  }

  /** Clearing puts the form fields back to what the component starts with, clears the error, and is idempotent. */
  lemma ClearFormResets(s: Form)
    ensures FieldsOf(Cleared(s)) == FieldsOf(Initial())
    ensures Cleared(s).error.None?
    ensures Cleared(s).tags == s.tags && Cleared(s).saving == s.saving && Cleared(s).loading == s.loading
    ensures Cleared(Cleared(s)) == Cleared(s)
  {
  }

  // ---------------------------------------------------------------------------------------
  // Guards

  /** `handleAdd` stops exactly when the name is empty or white space only, and otherwise sends the name untrimmed. */
  lemma AddGuard(s: Form)
    ensures AddDispatch(s).Rejected? <==> AllWhiteSpace(s.formTag)
    ensures AddDispatch(s).Sent? ==> AddDispatch(s).request == AddTag(s.formTag, s.formLevel)
  {
    BlankIffAllWhiteSpace(s.formTag);
  }

  /** `handleUpdate` rejects a blank name first and a falsy id second; it sends only when both pass. */
  lemma UpdateGuard(s: Form)
    ensures UpdateDispatch(s) == Rejected(BlankName) <==> AllWhiteSpace(s.formTag)
    ensures UpdateDispatch(s) == Rejected(NoTagSelected) <==> !AllWhiteSpace(s.formTag) && !s.formTagId.Truthy()
    ensures UpdateDispatch(s).Sent? <==> !AllWhiteSpace(s.formTag) && s.formTagId.Truthy()
    ensures UpdateDispatch(s).Sent? ==> UpdateDispatch(s).request == UpdateTag(s.formTagId.id, s.formTag, s.formLevel)
  {
    BlankIffAllWhiteSpace(s.formTag);
  }

  /** `handleDelete` asks for confirmation only when an id is set, and sends only when the user agrees. */
  lemma DeleteGuard(s: Form, confirmed: bool)
    ensures DeleteDispatch(s, confirmed) == Rejected(NoTagSelected) <==> !s.formTagId.Truthy()
    ensures DeleteDispatch(s, confirmed) == Rejected(Declined) <==> s.formTagId.Truthy() && !confirmed
    ensures DeleteDispatch(s, confirmed).Sent? <==> s.formTagId.Truthy() && confirmed
    ensures DeleteDispatch(s, confirmed).Sent? ==> DeleteDispatch(s, confirmed).request == DeleteTag(s.formTagId.id)
  {
  }

  /** A handler whose guards stop it makes no store call and changes no state. */
  lemma RejectedChangesNothing(s: Form, reason: Rejection, stored: Result<(), StoreError>, fetched: Result<seq<TagRow>, StoreError>)
    ensures AfterHandler(s, Rejected(reason), stored, fetched) == s
  {
  }

  // ---------------------------------------------------------------------------------------
  // Outcomes

  /**
   * After a successful store call the form fields are back at their start values, the list
   * holds the fetched rows (or is kept, with the fetch error shown), and nothing is saving.
   */
  lemma SuccessClearsForm(s: Form, req: Request, fetched: Result<seq<TagRow>, StoreError>)
    ensures var r := AfterHandler(s, Sent(req), Success(()), fetched);
      FieldsOf(r) == FieldsOf(Initial()) && !r.saving && !r.loading &&
      (fetched.Success? ==> r.tags == fetched.value && r.error.None?) &&
      (fetched.Failure? ==> r.tags == s.tags && r.error == Some(fetched.error.message))
  {
  }

  /** After a failed store call the error holds its message and the form fields and the list are as they were. */
  lemma FailureKeepsForm(s: Form, req: Request, e: StoreError, fetched: Result<seq<TagRow>, StoreError>)
    ensures var r := AfterHandler(s, Sent(req), Failure(e), fetched);
      FieldsOf(r) == FieldsOf(s) && r.error == Some(e.message) && r.tags == s.tags && r.loading == s.loading && !r.saving
  {
  }

  // ---------------------------------------------------------------------------------------
  // The invariant over every sequence of user actions

  /** What the user can do on the tab. */
  datatype Event =
    | Reload(fetched: Result<seq<TagRow>, StoreError>)
    | SelectRow(tag: TagRow)
    | TypeName(name: string)
    | TypeLevel(level: int)
    | Cancel
    | ClickAdd(stored: Result<(), StoreError>, fetched: Result<seq<TagRow>, StoreError>)
    | ClickUpdate(stored: Result<(), StoreError>, fetched: Result<seq<TagRow>, StoreError>)
    | ClickDelete(confirmed: bool, stored: Result<(), StoreError>, fetched: Result<seq<TagRow>, StoreError>)

  function Step(s: Form, e: Event): Form {
    match e
    case Reload(fetched) => AfterFetch(s, fetched)
    case SelectRow(tag) => AfterSelectTag(s, tag)
    case TypeName(name) => s.(formTag := name)
    case TypeLevel(level) => s.(formLevel := level)
    case Cancel => Cleared(s)
    case ClickAdd(stored, fetched) => AfterHandler(s, AddDispatch(s), stored, fetched)
    case ClickUpdate(stored, fetched) => AfterHandler(s, UpdateDispatch(s), stored, fetched)
    case ClickDelete(confirmed, stored, fetched) => AfterHandler(s, DeleteDispatch(s, confirmed), stored, fetched)
  }

  function Run(s: Form, es: seq<Event>): Form
    decreases |es|
  {
    if es == [] then s else Run(Step(s, es[0]), es[1..])
  }

  /** Edit mode is on exactly when a tag is selected, the id field then holds that tag's id, and in add mode it is empty. */
  predicate SelectionAgrees(s: Form) {
    (s.isEditMode <==> s.selectedTagId.Some?) &&
    (s.isEditMode ==> s.formTagId == Id(s.selectedTagId.value)) &&
    (!s.isEditMode ==> s.formTagId == Blank)
  }

  /**
   * Between handler runs nothing is saving and the selection agrees with the form. The `!saving`
   * part holds because each handler runs to completion in one step here.
   */
  predicate Consistent(s: Form) {
    !s.saving && SelectionAgrees(s)
  }

  /**
   * The table rows stay clickable while a store call is pending, so `selectTag` can run with
   * `saving` true; it still keeps the selection in agreement with the form and leaves `saving` alone.
   */
  lemma SelectDuringSaveKeepsAgreement(s: Form, tag: TagRow)
    requires SelectionAgrees(s) && s.saving
    ensures SelectionAgrees(AfterSelectTag(s, tag)) && AfterSelectTag(s, tag).saving
  {
  }

  /** A handler keeps the form consistent, whether its guards stop it, the store fails or the store succeeds. */
  lemma HandlerKeepsConsistent(s: Form, d: Dispatch, stored: Result<(), StoreError>, fetched: Result<seq<TagRow>, StoreError>)
    requires Consistent(s)
    ensures Consistent(AfterHandler(s, d, stored, fetched))
  {
    if d.Sent? && stored.Success? {
      assert FieldsOf(AfterHandler(s, d, stored, fetched)) == FieldsOf(Initial());
    }
  }

  lemma StepKeepsConsistent(s: Form, e: Event)
    requires Consistent(s)
    ensures Consistent(Step(s, e))
  {
    match e
    case ClickAdd(stored, fetched) => HandlerKeepsConsistent(s, AddDispatch(s), stored, fetched);
    case ClickUpdate(stored, fetched) => HandlerKeepsConsistent(s, UpdateDispatch(s), stored, fetched);
    case ClickDelete(confirmed, stored, fetched) => HandlerKeepsConsistent(s, DeleteDispatch(s, confirmed), stored, fetched);
    case _ =>
  }

  /** Whatever the user does and whatever the store answers, the form stays consistent. */
  lemma {:induction false} RunKeepsConsistent(s: Form, es: seq<Event>)
    requires Consistent(s)
    ensures Consistent(Run(s, es))
    decreases |es|
  {
    if es != [] {
      StepKeepsConsistent(s, es[0]);
      RunKeepsConsistent(Step(s, es[0]), es[1..]);
    }
  }

  /** In particular every handler, once it has finished, leaves `saving` false. */
  lemma ReachableNeverSaving(es: seq<Event>)
    ensures !Run(Initial(), es).saving
  {
    RunKeepsConsistent(Initial(), es);
  }

  /** In a consistent edit session on a tag whose id is not 0, the update and delete guards never report a missing id. */
  lemma EditModeHasId(s: Form, confirmed: bool)
    requires Consistent(s) && s.isEditMode && s.selectedTagId.value != 0
    ensures UpdateDispatch(s) != Rejected(NoTagSelected)
    ensures DeleteDispatch(s, confirmed) != Rejected(NoTagSelected)
  {
  }

  // ---------------------------------------------------------------------------------------
  // Editing a level-1 tag

  /**
   * As written, a tag listed by `getAllTags` carries no level, so selecting it fills in level 2
   * and an update sends level 2: a level-1 tag is demoted when its name is edited.
   */
  lemma ListedTagIsDemoted(s: Form, t: StoredTag)
    requires t.level == 1
    requires t.tag_id != 0 && !AllWhiteSpace(t.tag)
    ensures var edit := AfterSelectTag(s, AllTagsRow(t));
      edit.formLevel == 2 && UpdateDispatch(edit) == Sent(UpdateTag(t.tag_id, t.tag, 2))
  {
    BlankIffAllWhiteSpace(t.tag);
  }

  /** With the level selected, editing a stored tag of level 1 or 2 sends its own level back. */
  lemma ListedTagKeepsLevel(s: Form, t: StoredTag)
    requires t.level == 1 || t.level == 2
    requires t.tag_id != 0 && !AllWhiteSpace(t.tag)
    ensures var edit := AfterSelectTag(s, AllTagsRowWithLevel(t));
      edit.formLevel == t.level && UpdateDispatch(edit) == Sent(UpdateTag(t.tag_id, t.tag, t.level))
  {
    BlankIffAllWhiteSpace(t.tag);
  }

  // ---------------------------------------------------------------------------------------
  // The component, assigning its fields step by step

  class TagManager {
    var tags: seq<TagRow>
    var loading: bool
    var error: Option<string>
    var selectedTagId: Option<TagId>
    var saving: bool
    var isEditMode: bool
    var formTagId: IdValue
    var formTag: string
    var formLevel: int

    ghost function Model(): Form
      reads this
    {
      Form(tags, loading, error, selectedTagId, saving, isEditMode, formTagId, formTag, formLevel)
    }

    /** Between user actions the form is consistent. */
    ghost predicate Valid()
      reads this
    {
      Consistent(Model())
    }

    constructor ()
      ensures Valid()
      ensures Model() == Initial()
    {
      tags := [];
      loading := true;
      error := None;
      selectedTagId := None;
      saving := false;
      isEditMode := false;
      formTagId := Blank;
      formTag := "";
      formLevel := 2;
    }

    /** `fetchTags()`, given what `getAllTags` settles to. */
    method FetchTags(fetched: Result<seq<TagRow>, StoreError>)
      modifies this
      ensures old(Valid()) ==> Valid()
      ensures Model() == AfterFetch(old(Model()), fetched)
    {
      loading := true;
      error := None;
      match fetched {
        case Success(rows) =>
          tags := rows;
        case Failure(e) =>
          error := Some(e.message);
      }
      loading := false;
    }

    /** `selectTag(tag)`. */
    method SelectTag(tag: TagRow)
      requires Valid()
      modifies this
      ensures Valid()
      ensures Model() == AfterSelectTag(old(Model()), tag)
    {
      selectedTagId := Some(tag.tag_id);
      isEditMode := true;
      formTagId := Id(tag.tag_id);
      formTag := tag.tag;
      formLevel := if tag.level.Some? && tag.level.value != 0 then tag.level.value else 2;
    }

    /** `clearForm()`. */
    method ClearForm()
      modifies this
      ensures old(Valid()) ==> Valid()
      ensures Model() == Cleared(old(Model()))
    {
      isEditMode := false;
      selectedTagId := None;
      formTagId := Blank;
      formTag := "";
      formLevel := 2;
      error := None;
    }

    /** The common tail of the three handlers, from `saving = true` to the `finally`. */
    method Submit(stored: Result<(), StoreError>, fetched: Result<seq<TagRow>, StoreError>)
      modifies this
      ensures Model() == Settled(old(Model()), stored, fetched)
    {
      saving := true;
      error := None;
      match stored {
        case Success(_) =>
          ClearForm();
          FetchTags(fetched);
        case Failure(e) =>
          error := Some(e.message);
      }
      saving := false;
    }

    /** `handleAdd()`; `stored` is what `addTag` settles to. */
    method HandleAdd(stored: Result<(), StoreError>, fetched: Result<seq<TagRow>, StoreError>) returns (d: Dispatch)
      requires Valid()
      modifies this
      ensures Valid()
      ensures d == AddDispatch(old(Model()))
      ensures Model() == AfterHandler(old(Model()), d, stored, fetched)
    {
      HandlerKeepsConsistent(Model(), AddDispatch(Model()), stored, fetched);
      if IsBlank(formTag) {
        return Rejected(BlankName);
      }
      d := Sent(AddTag(formTag, formLevel));
      Submit(stored, fetched);
    }

    /** `handleUpdate()`; `stored` is what `updateTag` settles to. */
    method HandleUpdate(stored: Result<(), StoreError>, fetched: Result<seq<TagRow>, StoreError>) returns (d: Dispatch)
      requires Valid()
      modifies this
      ensures Valid()
      ensures d == UpdateDispatch(old(Model()))
      ensures Model() == AfterHandler(old(Model()), d, stored, fetched)
    {
      HandlerKeepsConsistent(Model(), UpdateDispatch(Model()), stored, fetched);
      if IsBlank(formTag) {
        return Rejected(BlankName);
      }
      if !formTagId.Truthy() {
        return Rejected(NoTagSelected);
      }
      d := Sent(UpdateTag(formTagId.id, formTag, formLevel));
      Submit(stored, fetched);
    }

    /** `handleDelete()`; `confirmed` is the answer to the dialog, `stored` what `deleteTag` settles to. */
    method HandleDelete(confirmed: bool, stored: Result<(), StoreError>, fetched: Result<seq<TagRow>, StoreError>) returns (d: Dispatch)
      requires Valid()
      modifies this
      ensures Valid()
      ensures d == DeleteDispatch(old(Model()), confirmed)
      ensures Model() == AfterHandler(old(Model()), d, stored, fetched)
    {
      HandlerKeepsConsistent(Model(), DeleteDispatch(Model(), confirmed), stored, fetched);
      if !formTagId.Truthy() {
        return Rejected(NoTagSelected);
      }
      if !confirmed {
        return Rejected(Declined);
      }
      d := Sent(DeleteTag(formTagId.id));
      Submit(stored, fetched);
    }
  }
}
