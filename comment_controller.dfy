/** The comment handlers, working on the Comments table of a `Store`. */
module CommentController {
  import opened Http
  import opened Validation
  import opened PhotoModel
  import opened CommentModel
  import opened UserModel
  import opened Db
  import opened Ownership
  import ErrorMiddleware

  const CommentGuard := Guard("silahkan login terlebih dahulu", "Comment not found", "Tidak memiliki hak untuk mengubah social media milik user lain.")
  const NothingUpdatedMessage := "No Comments updated"
  const DeletedMessage := "Your comment has been successfully deleted"

  /** The body fields the handlers read. */
  datatype Body = Body(comment: Field<string>, photoId: Field<int>)

  /** The `Photo` included with a comment. */
  datatype PhotoBrief = PhotoBrief(id: int, title: string, caption: string, posterImageUrl: string)

  /** The `User` included with a comment. */
  datatype UserBrief = UserBrief(id: int, username: string, profileImageUrl: string, phoneNumber: string)

  /** One element of the listing: the comment's own columns, the ids copied from the included rows, and those rows. */
  datatype Entry = Entry(comment: string, userId: int, photoId: int, photo: PhotoBrief, user: UserBrief)

  /** The data bodies the handlers send. */
  datatype Data = Row(id: int, row: Comment) | Listing(comments: map<int, Entry>)

  /** The error a foreign-key violation on the Comments table carries: the table and the constraint's name. */
  function ForeignKeyError(constraint: string): AppError
  {
    AppError("SequelizeForeignKeyConstraintError", [], "Comments", constraint)
  }

  /**
   * What `Comment.create` throws, if anything: the validation error first, then
   * the `fk_user` constraint, then the `fk_photo` constraint.
   */
  function CreateError(users: map<int, User>, photos: map<int, Photo>, userId: int, body: Body): (r: Option<AppError>)
    ensures r.None? <==> && body.comment.Given? && !IsBlank(body.comment.value)
                         && body.photoId.Given? && userId in users && body.photoId.value in photos
  {
    var errors := CommentModel.Errors(Given(userId), body.photoId, body.comment);
    CommentModel.AcceptedIff(Given(userId), body.photoId, body.comment);
    if errors != [] then Some(ValidationError(errors))
    else if userId !in users then Some(ForeignKeyError("fk_user"))
    else if body.photoId.value !in photos then Some(ForeignKeyError("fk_photo"))
    else None
  }

  /**
   * A valid comment on a photo that does not exist is answered with the
   * generic relationship sentence: the constraint is named 'fk_photo', while
   * the error middleware looks for 'photo_fk'.
   */
  lemma MissingPhotoAnswer(users: map<int, User>, photos: map<int, Photo>, userId: int, text: string, photoId: int)
    requires !IsBlank(text) && userId in users && photoId !in photos
    ensures CreateError(users, photos, userId, Body(Given(text), Given(photoId))) == Some(ForeignKeyError("fk_photo"))
    ensures ErrorMiddleware.Normalized(ForeignKeyError("fk_photo")) == (400, Message.Text(ErrorMiddleware.RelationMessage))
  {
    CommentModel.AcceptedIff(Given(userId), Given(photoId), Given(text));
    ErrorMiddleware.ForeignKeyMessage(ForeignKeyError("fk_photo"));
  }

  /**
   * `create`: the author is the authenticated user, the photo and the text
   * come from the body. A row refused by a foreign key has already drawn its
   * id from the table's sequence, which does not give it back.
   */
  method Create(db: Store, user: Identity, body: Body) returns (out: Outcome<Data>)
    requires db.Valid()
    modifies db`comments, db`nextComment
    ensures db.Valid()
    ensures var e := CreateError(old(db.users), old(db.photos), user.id, body);
      if e.Some? then
        && out == Failed(e.value) && db.comments == old(db.comments)
        && db.nextComment == if CommentModel.Errors(Given(user.id), body.photoId, body.comment) != [] then old(db.nextComment) else old(db.nextComment) + 1
      else
        && body.comment.Given? && body.photoId.Given?
        && var id := old(db.nextComment);
           var row := Comment(user.id, body.photoId.value, body.comment.value);
           && id !in old(db.comments)
           && db.comments == old(db.comments)[id := row]
           && db.nextComment == id + 1
           && out == Sent(Response(201, DataBody(Row(id, row))))
  {
    var e := CreateError(db.users, db.photos, user.id, body);
    if CommentModel.Errors(Given(user.id), body.photoId, body.comment) != [] {
      return Failed(e.value);
    }
    var id := db.nextComment;
    db.nextComment := id + 1;
    if e.Some? {
      return Failed(e.value);
    }
    var row := Comment(user.id, body.photoId.value, body.comment.value);
    db.comments := db.comments[id := row];
    out := Sent(Response(201, DataBody(Row(id, row))));
  }

  /** An update always writes the `comment` column, '' when the body has none, so it is always validated. */
  lemma UpdateWritesText(body: Body)
    ensures body.comment.Absent? || body.comment == Given("")
        ==> CommentModel.UpdateErrorsOf(OrEmpty(body.comment)) == [ErrorItem(CommentEmpty, "comment")]
    ensures CommentModel.UpdateErrorsOf(OrEmpty(body.comment)) == []
        <==> body.comment.Given? && !IsBlank(body.comment.value)
  {
    CommentModel.UpdateAcceptedIff(OrEmpty(body.comment));
  }

  /**
   * `update`: validates the text, then answers 400 when no row matched, else
   * writes the text of row `commentId` alone.
   */
  method Update(db: Store, commentId: int, body: Body) returns (out: Outcome<Data>)
    requires db.Valid()
    modifies db`comments
    ensures db.Valid()
    ensures var text := OrEmpty(body.comment);
      var errors := CommentModel.UpdateErrorsOf(text);
      if errors != [] then
        out == Failed(ValidationError(errors)) && db.comments == old(db.comments)
      else if commentId !in old(db.comments) then
        out == Sent(Reply(400, NothingUpdatedMessage)) && db.comments == old(db.comments)
      else
        && db.comments == old(db.comments)[commentId := old(db.comments)[commentId].(comment := text)]
        && out == Sent(Response(200, DataBody(Row(commentId, db.comments[commentId]))))
  {
    var text := OrEmpty(body.comment);
    var errors := CommentModel.UpdateErrorsOf(text);
    if errors != [] {
      return Failed(ValidationError(errors));
    }
    if commentId !in db.comments {
      return Sent(Reply(400, NothingUpdatedMessage));
    }
    var row := db.comments[commentId].(comment := text);
    db.comments := db.comments[commentId := row];
    out := Sent(Response(200, DataBody(Row(commentId, row))));
  }

  /** `delete`: removes row `commentId` and nothing else. */
  method Delete(db: Store, commentId: int) returns (out: Outcome<Data>)
    requires db.Valid()
    modifies db`comments
    ensures db.Valid()
    ensures db.comments == old(db.comments) - {commentId}
    ensures out == Sent(Reply(200, DeletedMessage))
  {
    db.comments := db.comments - {commentId};
    out := Sent(Reply(200, DeletedMessage));
  }

  /** `authorize`: reads the table, never writes it. */
  function Authorize(db: Store, user: Option<Identity>, commentId: int): (r: Step)
    reads db
    ensures r == Next <==> user.Some? && commentId in db.comments && db.comments[commentId].userId == user.value.id
    ensures user.None? ==> r == Respond(401, "silahkan login terlebih dahulu")
    ensures user.Some? && commentId !in db.comments ==> r == Respond(404, "Comment not found")
    ensures user.Some? && commentId in db.comments && db.comments[commentId].userId != user.value.id
        ==> r == Respond(403, "Tidak memiliki hak untuk mengubah social media milik user lain.")
  {
    Ownership.Authorize(user, OwnerOf(db.comments, commentId, (c: Comment) => c.userId), CommentGuard)
  }

  /**
   * `findAll`: every comment with its photo and its user, `UserId` and
   * `PhotoId` read back from them. A comment whose user or photo is missing
   * makes the read throw a `TypeError`; the foreign keys rule that out.
   */
  function FindAll(db: Store): (r: Outcome<Data>)
    reads db
    ensures r.Sent? <==> Referenced(db.comments, db.users, db.photos)
    ensures db.Valid() ==> r.Sent?
    ensures r.Failed? ==> r.error == Plain("TypeError")
    ensures r.Sent? ==> r.response.status == 200 && r.response.payload.DataBody? && r.response.payload.data.Listing?
    ensures r.Sent? ==> var listing := r.response.payload.data.comments;
      && listing.Keys == db.comments.Keys
      && forall id :: id in listing ==>
           && listing[id].userId == listing[id].user.id == db.comments[id].userId
           && listing[id].photoId == listing[id].photo.id == db.comments[id].photoId
           && listing[id].comment == db.comments[id].comment
  {
    if !Referenced(db.comments, db.users, db.photos) then Failed(Plain("TypeError"))
    else
      Sent(Response(200, DataBody(Listing(map id | id in db.comments :: Flattened(db.comments[id], db.users, db.photos)))))
  }

  /** One comment with its included rows, the ids copied up from them. */
  function Flattened(c: Comment, users: map<int, User>, photos: map<int, Photo>): Entry
    requires c.userId in users && c.photoId in photos
  {
    var u := users[c.userId];
    var p := photos[c.photoId];
    var user := UserBrief(c.userId, u.username, u.profileImageUrl, u.phoneNumber);
    var photo := PhotoBrief(c.photoId, p.title, p.caption, p.posterImageUrl);
    Entry(c.comment, user.id, photo.id, photo, user)
  }
}
