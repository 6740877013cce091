/**
 * `getPostRevisionsSelectedRevisionId`: the revision currently selected in the
 * post-revisions UI, read from `posts.revisions.selection.revisionId` with 0 as
 * the default.
 */
module RevisionSelection {
  import opened Js

  /**
   * The part of the application state on the lookup path. Every level may be
   * missing (`None` stands for undefined or null, where the lookup stops);
   * `revisionId: None` is a key that is absent or holds `undefined`.
   */
  datatype Selection = Selection(revisionId: Option<JsValue>)
  datatype Revisions = Revisions(selection: Option<Selection>)
  datatype Posts = Posts(revisions: Option<Revisions>)
  datatype State = State(posts: Option<Posts>)

  /**
   * The value stored at the end of the path, if the whole path exists: a
   * reference definition that follows the path one level at a time.
   */
  function StoredRevisionId(state: State): Option<JsValue>
  {
    match state.posts
    case None => None
    case Some(posts) =>
      match posts.revisions
      case None => None
      case Some(revisions) =>
        match revisions.selection
        case None => None
        case Some(selection) => selection.revisionId
  }

  /** The lookup with the default 0 for a value that resolves to undefined. */
  function GetPostRevisionsSelectedRevisionId(state: State): (id: JsValue)
    ensures StoredRevisionId(state).Some? ==> id == StoredRevisionId(state).value
    ensures StoredRevisionId(state).None? ==> id == Number(0)
    ensures id == Number(0) <==> StoredRevisionId(state) in {None, Some(Number(0))}
  {
    if state.posts.Some? && state.posts.value.revisions.Some? &&
       state.posts.value.revisions.value.selection.Some? &&
       state.posts.value.revisions.value.selection.value.revisionId.Some?
    then state.posts.value.revisions.value.selection.value.revisionId.value
    else Number(0)
  }

  /** A stored `null` is a present value: it is returned, not replaced by the default. */
  lemma StoredNullIsReturned(state: State)
    requires StoredRevisionId(state) == Some(Null)
    ensures GetPostRevisionsSelectedRevisionId(state) == Null
  {
  }

  /** A missing `posts`, `revisions` or `selection` level yields the default. */
  lemma MissingLevelGivesDefault(state: State)
    requires state.posts.None? || state.posts.value.revisions.None? ||
             state.posts.value.revisions.value.selection.None?
    ensures GetPostRevisionsSelectedRevisionId(state) == Number(0)
  {
  }
}
