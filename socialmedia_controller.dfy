/** The social-media handlers, working on the SocialMedia table of a `Store`. */
module SocialMediaController {
  import opened Http
  import opened Validation
  import opened SocialMediaModel
  import opened UserModel
  import opened Db
  import opened Ownership

  const SocialMediaGuard := Guard("Silahkan login terlebih dahulu.", "Social Media tidak ditemukan", "Tidak memiliki hak untuk mengubah social media milik user lain.")
  const NothingUpdatedMessage := "Tidak ada yang diupdate"
  const DeletedMessage := "Your social media has been successfully deleted"

  /** The body fields the handlers read; any other field, `UserId` included, is ignored. */
  datatype Body = Body(name: Field<string>, socialMediaUrl: Field<string>)

  /** One element of the listing: the link and its owner (`null` when missing). */
  datatype Entry = Entry(socialMedia: SocialMedia, user: Option<Summary>)

  /** The data bodies the handlers send. */
  datatype Data = Row(id: int, row: SocialMedia) | Listing(socialMedias: map<int, Entry>)

  /** `create`: the owner is the authenticated user; the new row gets the next key. */
  method Create(db: Store, user: Identity, body: Body, c: Checks) returns (out: Outcome<Data>)
    requires db.Valid()
    modifies db`socialMedia, db`nextSocialMedia
    ensures db.Valid()
    ensures var errors := SocialMediaModel.Errors(c, body.name, body.socialMediaUrl, Given(user.id));
      if errors != [] then
        out == Failed(ValidationError(errors)) && db.socialMedia == old(db.socialMedia)
        && db.nextSocialMedia == old(db.nextSocialMedia)
      else
        && body.name.Given? && body.socialMediaUrl.Given?
        && var id := old(db.nextSocialMedia);
           var row := SocialMedia(body.name.value, body.socialMediaUrl.value, user.id);
           && id !in old(db.socialMedia)
           && db.socialMedia == old(db.socialMedia)[id := row]
           && db.nextSocialMedia == id + 1
           && out == Sent(Response(201, DataBody(Row(id, row))))
  {
    var errors := SocialMediaModel.Errors(c, body.name, body.socialMediaUrl, Given(user.id));
    if errors != [] {
      return Failed(ValidationError(errors));
    }
    SocialMediaModel.AcceptedIff(c, body.name, body.socialMediaUrl, Given(user.id));
    var id := db.nextSocialMedia;
    var row := SocialMedia(body.name.value, body.socialMediaUrl.value, user.id);
    db.socialMedia := db.socialMedia[id := row];
    db.nextSocialMedia := id + 1;
    out := Sent(Response(201, DataBody(Row(id, row))));
  }

  /** `get`: every row, each with its owner's id, username and profile image. */
  function Get(db: Store): (r: Outcome<Data>)
    reads db
    ensures r.Sent? && r.response.status == 200 && r.response.payload.DataBody? && r.response.payload.data.Listing?
    ensures var listing := r.response.payload.data.socialMedias;
      && listing.Keys == db.socialMedia.Keys
      && forall id :: id in listing ==>
           && listing[id].socialMedia == db.socialMedia[id]
           && (listing[id].user.Some? <==> db.socialMedia[id].userId in db.users)
           && (listing[id].user.Some? ==>
                 var owner := db.socialMedia[id].userId;
                 listing[id].user.value == Summary(owner, db.users[owner].username, db.users[owner].profileImageUrl))
  {
    Sent(Response(200, DataBody(Listing(map id | id in db.socialMedia
      :: Entry(db.socialMedia[id], SummaryOf(db.users, db.socialMedia[id].userId))))))
  }

  /**
   * An update always writes both columns, '' for a field the body lacks, so
   * it is accepted exactly when both given values pass; a left-out field is
   * always refused.
   */
  lemma UpdateWritesBoth(c: Checks, body: Body)
    ensures SocialMediaModel.UpdateErrorsOf(c, OrEmpty(body.name), OrEmpty(body.socialMediaUrl)) == []
        <==> && body.name.Given? && !IsBlank(body.name.value)
             && body.socialMediaUrl.Given? && !IsBlank(body.socialMediaUrl.value) && c.isUrl(body.socialMediaUrl.value)
  {
    SocialMediaModel.UpdateAcceptedIff(c, OrEmpty(body.name), OrEmpty(body.socialMediaUrl));
  }

  /**
   * `update`: validates both columns, then answers 400 when no row matched,
   * else writes the name and URL of row `socialMediaId` alone.
   */
  method Update(db: Store, socialMediaId: int, body: Body, c: Checks) returns (out: Outcome<Data>)
    requires db.Valid()
    modifies db`socialMedia
    ensures db.Valid()
    ensures var name, url := OrEmpty(body.name), OrEmpty(body.socialMediaUrl);
      var errors := SocialMediaModel.UpdateErrorsOf(c, name, url);
      if errors != [] then
        out == Failed(ValidationError(errors)) && db.socialMedia == old(db.socialMedia)
      else if socialMediaId !in old(db.socialMedia) then
        out == Sent(Reply(400, NothingUpdatedMessage)) && db.socialMedia == old(db.socialMedia)
      else
        var row := SocialMedia(name, url, old(db.socialMedia)[socialMediaId].userId);
        && db.socialMedia == old(db.socialMedia)[socialMediaId := row]
        && out == Sent(Response(200, DataBody(Row(socialMediaId, row))))
  {
    var name, url := OrEmpty(body.name), OrEmpty(body.socialMediaUrl);
    var errors := SocialMediaModel.UpdateErrorsOf(c, name, url);
    if errors != [] {
      return Failed(ValidationError(errors));
    }
    if socialMediaId !in db.socialMedia {
      return Sent(Reply(400, NothingUpdatedMessage));
    }
    var row := SocialMedia(name, url, db.socialMedia[socialMediaId].userId);
    db.socialMedia := db.socialMedia[socialMediaId := row];
    out := Sent(Response(200, DataBody(Row(socialMediaId, row))));
  }

  /** `delete`: removes row `socialMediaId` and nothing else. */
  method Delete(db: Store, socialMediaId: int) returns (out: Outcome<Data>)
    requires db.Valid()
    modifies db`socialMedia
    ensures db.Valid()
    ensures db.socialMedia == old(db.socialMedia) - {socialMediaId}
    ensures out == Sent(Reply(200, DeletedMessage))
  {
    db.socialMedia := db.socialMedia - {socialMediaId};
    out := Sent(Reply(200, DeletedMessage));
  }

  /** `authorize`: reads the table, never writes it. */
  function Authorize(db: Store, user: Option<Identity>, socialMediaId: int): (r: Step)
    reads db
    ensures r == Next <==> user.Some? && socialMediaId in db.socialMedia && db.socialMedia[socialMediaId].userId == user.value.id
    ensures user.None? ==> r == Respond(401, "Silahkan login terlebih dahulu.")
    ensures user.Some? && socialMediaId !in db.socialMedia ==> r == Respond(404, "Social Media tidak ditemukan")
    ensures user.Some? && socialMediaId in db.socialMedia && db.socialMedia[socialMediaId].userId != user.value.id
        ==> r == Respond(403, "Tidak memiliki hak untuk mengubah social media milik user lain.")
  {
    Ownership.Authorize(user, OwnerOf(db.socialMedia, socialMediaId, (s: SocialMedia) => s.userId), SocialMediaGuard)
  }
}
