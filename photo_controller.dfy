/** The photo handlers, working on the Photos table of a `Store`. */
module PhotoController {
  import opened Http
  import opened Validation
  import opened PhotoModel
  import opened CommentModel
  import opened UserModel
  import opened Db
  import opened Ownership

  const PhotoGuard := Guard("invalid token", "photo doesn't exist", "Tidak memiliki hak untuk mengubah photo milik user lain.")
  const DeletedMessage := "Your photo has been successfully deleted"

  /** The body fields the handlers read; any other field, `UserId` included, is ignored. */
  datatype Body = Body(title: Field<string>, caption: Field<string>, posterImageUrl: Field<string>)

  /** A comment included with a photo: its text and its author's username. */
  datatype CommentBrief = CommentBrief(comment: string, username: Option<string>)

  /** One element of the listing: the photo, its owner (`null` when missing) and its comments. */
  datatype Entry = Entry(photo: Photo, user: Option<Summary>, comments: map<int, CommentBrief>)

  /** The data bodies the handlers send. */
  datatype Data =
    | Created(id: int, photo: Photo)
    | Updated(row: Option<(int, Photo)>)
    | Listing(photos: map<int, Entry>)

  /** `authorize`: reads the table, never writes it. */
  function Authorize(db: Store, user: Option<Identity>, photoId: int): (r: Step)
    reads db
    ensures r == Next <==> user.Some? && photoId in db.photos && db.photos[photoId].userId == user.value.id
    ensures user.None? ==> r == Respond(401, "invalid token")
    ensures user.Some? && photoId !in db.photos ==> r == Respond(404, "photo doesn't exist")
    ensures user.Some? && photoId in db.photos && db.photos[photoId].userId != user.value.id
        ==> r == Respond(403, "Tidak memiliki hak untuk mengubah photo milik user lain.")
  {
    Ownership.Authorize(user, OwnerOf(db.photos, photoId, (p: Photo) => p.userId), PhotoGuard)
  }

  /** `create`: the owner is the authenticated user; the new row gets the next key. */
  method Create(db: Store, user: Identity, body: Body, c: Checks) returns (out: Outcome<Data>)
    requires db.Valid()
    modifies db`photos, db`nextPhoto
    ensures db.Valid()
    ensures var errors := PhotoModel.Errors(c, body.title, body.caption, body.posterImageUrl, Given(user.id));
      if errors != [] then
        out == Failed(ValidationError(errors)) && db.photos == old(db.photos) && db.nextPhoto == old(db.nextPhoto)
      else
        && body.title.Given? && body.caption.Given? && body.posterImageUrl.Given?
        && var id := old(db.nextPhoto);
           var row := Photo(body.title.value, body.caption.value, body.posterImageUrl.value, user.id);
           && id !in old(db.photos)
           && db.photos == old(db.photos)[id := row]
           && db.nextPhoto == id + 1
           && out == Sent(Response(201, DataBody(Created(id, row))))
  {
    var errors := PhotoModel.Errors(c, body.title, body.caption, body.posterImageUrl, Given(user.id));
    if errors != [] {
      return Failed(ValidationError(errors));
    }
    PhotoModel.AcceptedIff(c, body.title, body.caption, body.posterImageUrl, Given(user.id));
    var id := db.nextPhoto;
    var row := Photo(body.title.value, body.caption.value, body.posterImageUrl.value, user.id);
    db.photos := db.photos[id := row];
    db.nextPhoto := id + 1;
    out := Sent(Response(201, DataBody(Created(id, row))));
  }

  /** The row after an update: each given field replaced, the others and `UserId` kept. */
  function Patched(p: Photo, body: Body): (r: Photo)
    ensures r.userId == p.userId
  {
    Photo(
      if body.title.Given? then body.title.value else p.title,
      if body.caption.Given? then body.caption.value else p.caption,
      if body.posterImageUrl.Given? then body.posterImageUrl.value else p.posterImageUrl,
      p.userId)
  }

  /** The update validates only the given fields; with none given no row is written. */
  function UpdateErrorsOf(c: Checks, body: Body): seq<ErrorItem>
  {
    UpdateErrors(TextColumns(c), [body.title, body.caption, body.posterImageUrl])
  }

  /**
   * `update`: the given fields are validated and written to row `photoId`
   * alone. A body with none of the three fields updates nothing and reading the
   * missing returned row throws a `TypeError`; a missing row is answered 200
   * with no `photo`.
   */
  method Update(db: Store, photoId: int, body: Body, c: Checks) returns (out: Outcome<Data>)
    requires db.Valid()
    modifies db`photos
    ensures db.Valid()
    ensures var errors := UpdateErrorsOf(c, body);
      if errors != [] then
        out == Failed(ValidationError(errors)) && db.photos == old(db.photos)
      else if body == Body(Absent, Absent, Absent) then
        out == Failed(Plain("TypeError")) && db.photos == old(db.photos)
      else if photoId !in old(db.photos) then
        out == Sent(Response(200, DataBody(Updated(None)))) && db.photos == old(db.photos)
      else
        && db.photos == old(db.photos)[photoId := Patched(old(db.photos)[photoId], body)]
        && out == Sent(Response(200, DataBody(Updated(Some((photoId, db.photos[photoId]))))))
  {
    var errors := UpdateErrorsOf(c, body);
    if errors != [] {
      return Failed(ValidationError(errors));
    }
    if body == Body(Absent, Absent, Absent) {
      return Failed(Plain("TypeError"));
    }
    if photoId !in db.photos {
      return Sent(Response(200, DataBody(Updated(None))));
    }
    var row := Patched(db.photos[photoId], body);
    db.photos := db.photos[photoId := row];
    out := Sent(Response(200, DataBody(Updated(Some((photoId, row))))));
  }

  /** `delete`: the row goes, and with it, by the cascade, the photo's comments. */
  method Delete(db: Store, photoId: int) returns (out: Outcome<Data>)
    requires db.Valid()
    modifies db`photos, db`comments
    ensures db.Valid()
    ensures db.photos == old(db.photos) - {photoId}
    ensures db.comments == WithoutPhoto(old(db.comments), photoId)
    ensures out == Sent(Reply(200, DeletedMessage))
  {
    CascadeKeepsReferences(db.comments, db.users, db.photos, photoId);
    db.photos := db.photos - {photoId};
    db.comments := WithoutPhoto(db.comments, photoId);
    out := Sent(Reply(200, DeletedMessage));
  }

  /** The comments included with photo `photoId`, each with its author's username. */
  function CommentsOf(comments: map<int, Comment>, users: map<int, User>, photoId: int): (r: map<int, CommentBrief>)
    ensures forall id :: id in r <==> id in comments && comments[id].photoId == photoId
    ensures forall id :: id in r ==> r[id].comment == comments[id].comment
    ensures forall id :: id in r ==> (r[id].username.Some? <==> comments[id].userId in users)
    ensures forall id :: id in r && r[id].username.Some? ==> r[id].username.value == users[comments[id].userId].username
  {
    map id | id in comments && comments[id].photoId == photoId
      :: CommentBrief(comments[id].comment, if comments[id].userId in users then Some(users[comments[id].userId].username) else None)
  }

  /** `get`: every photo, with its owner and its comments. */
  function Get(db: Store): (r: Outcome<Data>)
    reads db
    ensures r.Sent? && r.response.status == 200 && r.response.payload.DataBody? && r.response.payload.data.Listing?
    ensures var listing := r.response.payload.data.photos;
      && listing.Keys == db.photos.Keys
      && forall id :: id in listing ==> listing[id].photo == db.photos[id]
    ensures var listing := r.response.payload.data.photos;
      forall id :: id in listing ==>
        && (listing[id].user.Some? <==> db.photos[id].userId in db.users)
        && (listing[id].user.Some? ==>
              var owner := db.photos[id].userId;
              listing[id].user.value == Summary(owner, db.users[owner].username, db.users[owner].profileImageUrl))
        && listing[id].comments == CommentsOf(db.comments, db.users, id)
    ensures db.Valid() ==>
      forall id, k :: id in db.photos && k in db.comments && db.comments[k].photoId == id ==>
        k in r.response.payload.data.photos[id].comments && r.response.payload.data.photos[id].comments[k].username.Some?
  {
    Sent(Response(200, DataBody(Listing(map id | id in db.photos
      :: Entry(db.photos[id], SummaryOf(db.users, db.photos[id].userId), CommentsOf(db.comments, db.users, id))))))
  }
}
