/**
 * The administrators' announcement form: its schema, the author fields
 * derived from the signed-in user, and the choice between creating and
 * updating.
 */
module AnnouncementForm {
  import opened Text
  import opened Domain
  import DataService
  import MockStore

  /** Title of five characters or more, content of ten or more. */
  predicate ValidAnnouncementForm(title: string, content: string) {
    |title| >= 5 && |content| >= 10
  }

  /** `user.name || user.email || 'System'`. */
  function AuthorName(user: User): (r: string)
    ensures r != ""
    ensures Truthy(user.name) ==> r == user.name.value
    ensures !Truthy(user.name) && user.email != "" ==> r == user.email
    ensures !Truthy(user.name) && user.email == "" ==> r == "System"
  {
    if Truthy(user.name) then user.name.value
    else if user.email != "" then user.email
    else "System"
  }

  datatype AnnouncementCall =
    | NoCall
    | CreateAnnouncementCall(title: string, content: string, authorId: string, authorName: string)
    | UpdateAnnouncementCall(annId: string, patch: AnnouncementPatch)

  /**
   * Submitting the form: `handleSubmit` calls `onSubmit` only for values
   * the schema accepts; without a signed-in user or a loaded dictionary
   * `onSubmit` sends nothing; otherwise an existing
   * announcement is updated, else one is created, with the author fields
   * of the signed-in user.
   */
  function Dispatch(user: Option<User>, dictLoaded: bool, existing: Option<Announcement>, title: string, content: string)
    : (c: AnnouncementCall)
    ensures c.NoCall? <==> !ValidAnnouncementForm(title, content) || user.None? || !dictLoaded
    ensures c.UpdateAnnouncementCall? <==> ValidAnnouncementForm(title, content) && user.Some? && dictLoaded && existing.Some?
    ensures c.UpdateAnnouncementCall? ==> c.annId == existing.value.id && c.patch.title == Some(title) &&
                                          c.patch.content == Some(content) && c.patch.authorId == Some(user.value.id)
    ensures c.CreateAnnouncementCall? ==> c.authorId == user.value.id && c.authorName == AuthorName(user.value) &&
                                          c.title == title && c.content == content
  {
    if !ValidAnnouncementForm(title, content) || user.None? || !dictLoaded then NoCall
    else
      var u := user.value;
      match existing
      case Some(a) =>
        UpdateAnnouncementCall(a.id, AnnouncementPatch(None, Some(title), Some(content), None, Some(u.id), Some(Some(AuthorName(u)))))
      case None => CreateAnnouncementCall(title, content, u.id, AuthorName(u))
  }

  /**
   * An edit by another user changes title and content but keeps the
   * original author in the database, while the in-memory store's spread
   * would record the editor as the author.
   */
  lemma EditKeepsAuthor(a: Announcement, editor: User, title: string, content: string)
    requires ValidAnnouncementForm(title, content)
    ensures var c := Dispatch(Some(editor), true, Some(a), title, content);
            var stored := DataService.MergeAnnouncementStored(a, c.patch);
            stored.title == title && stored.content == content &&
            stored.authorId == a.authorId && stored.authorName == a.authorName &&
            MockStore.SpreadAnnouncement(a, c.patch).authorId == editor.id
  {
  }
}
