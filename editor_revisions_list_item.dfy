/**
 * One entry of the editor's revisions list: which change labels it shows,
 * whether it names the author, and what a click dispatches.
 */
module EditorRevisionsListItem {
  import opened Js
  import opened ReduxStore

  /** Word counts of a revision's change. */
  datatype Changes = Changes(added: int, removed: int)

  /** A revision's author; `displayName: None` is a missing `display_name`. */
  datatype Author = Author(displayName: Option<string>)

  datatype Revision = Revision(id: int, author: Option<Author>, changes: Changes)

  /**
   * What the item shows: the author name (if any), the additions and deletions
   * counts (if any), and whether it shows the "minor" label.
   */
  datatype ItemView = ItemView(authorName: Option<string>, additions: Option<int>, deletions: Option<int>, minor: bool)

  /** `get(revision, 'author.display_name')`. */
  function AuthorName(revision: Revision): Option<string>
  {
    if revision.author.Some? then revision.author.value.displayName else None
  }

  /** The `isMultiUserSite` prop: the negation of the single-user-site selector. */
  function IsMultiUserSite(isSingleUserSite: bool): (r: bool)
    ensures r != isSingleUserSite
  {
    !isSingleUserSite
  }

  /** The label decisions of `render`. */
  function RenderItem(revision: Revision, isMultiUserSite: bool): (v: ItemView)
    ensures v.authorName.Some? <==> TruthyOption(AuthorName(revision)) && isMultiUserSite
    ensures v.authorName.Some? ==> v.authorName == AuthorName(revision)
    ensures v.additions.Some? <==> revision.changes.added > 0
    ensures v.additions.Some? ==> v.additions.value == revision.changes.added
    ensures v.deletions.Some? <==> revision.changes.removed > 0
    ensures v.deletions.Some? ==> v.deletions.value == revision.changes.removed
    ensures v.minor <==> revision.changes.added == 0 && revision.changes.removed == 0
  {
    var name := AuthorName(revision);
    var added := revision.changes.added;
    var removed := revision.changes.removed;
    ItemView(
      if TruthyOption(name) && isMultiUserSite then name else None,
      if added > 0 then Some(added) else None,
      if removed > 0 then Some(removed) else None,
      added == 0 && removed == 0)
  }

  /** The "minor" label never appears beside an additions or deletions count. */
  lemma MinorExcludesCounts(revision: Revision, isMultiUserSite: bool)
    ensures var v := RenderItem(revision, isMultiUserSite);
            v.minor ==> v.additions.None? && v.deletions.None?
  {
  }

  /** With non-negative counts every item shows at least one change label. */
  lemma SomeChangeLabelShown(revision: Revision, isMultiUserSite: bool)
    requires revision.changes.added >= 0 && revision.changes.removed >= 0
    ensures var v := RenderItem(revision, isMultiUserSite);
            v.minor || v.additions.Some? || v.deletions.Some?
  {
  }

  /** On a single-user site no author name is shown, whatever the revision says. */
  lemma SingleUserSiteHidesAuthor(revision: Revision)
    ensures RenderItem(revision, IsMultiUserSite(true)).authorName == None
  {
  }

  /** `selectRevision`: a click selects exactly this revision. */
  function SelectRevision(revision: Revision): (a: Action)
    ensures a.SelectPostRevision? && a.revisionId == revision.id
  {
    SelectPostRevision(revision.id)
  }
}
