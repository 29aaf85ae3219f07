/**
 * The photo and social-media routers: the token check runs first, the
 * resource's `authorize` runs before update and delete, then the handler; an
 * error handed to `next` ends at the error middleware.
 */
module Routes {
  import opened Http
  import opened Validation
  import opened Ownership
  import opened Auth
  import opened Db
  import PhotoController
  import SocialMediaController
  import ErrorMiddleware

  datatype PhotoCall =
    | ListPhotos
    | CreatePhoto(body: PhotoController.Body)
    | UpdatePhoto(photoId: int, body: PhotoController.Body)
    | DeletePhoto(photoId: int)

  datatype SocialMediaCall =
    | ListSocialMedia
    | CreateSocialMedia(body: SocialMediaController.Body)
    | UpdateSocialMedia(socialMediaId: int, body: SocialMediaController.Body)
    | DeleteSocialMedia(socialMediaId: int)

  /** The response a middleware that did not call `next()` leads to. */
  function Ended<B>(step: Step): (r: Response<B>)
    requires !step.Next?
    ensures step.Respond? ==> r == Reply(step.status, step.message)
    ensures step.NextError? ==> r == ErrorMiddleware.Answer(step.error)
  {
    match step
    case Respond(status, message) => Reply(status, message)
    case NextError(e) => ErrorMiddleware.Answer(e)
  }

  /** The response a handler leads to: what it sent, or the error middleware's answer. */
  function Finished<B>(out: Outcome<B>): (r: Response<B>)
    ensures out.Sent? ==> r == out.response
    ensures out.Failed? ==> r == ErrorMiddleware.Answer(out.error)
  {
    match out
    case Sent(response) => response
    case Failed(e) => ErrorMiddleware.Answer(e)
  }

  /**
   * One request to the photo router. Without a token that passes the check
   * nothing is written; a row is changed or removed only by its owner; a
   * created row belongs to the authenticated user.
   */
  method Photos(db: Store, token: Option<string>, verify: string -> Verification, c: Checks, call: PhotoCall)
    returns (response: Response<PhotoController.Data>)
    requires db.Valid()
    modifies db`photos, db`nextPhoto, db`comments
    ensures db.Valid()
    ensures Decide(token, verify) != Next
        ==> response == Ended(Decide(token, verify)) && db.photos == old(db.photos) && db.comments == old(db.comments)
    ensures !HasToken(token) ==> response == Reply(401, MissingTokenMessage)
    ensures (call.UpdatePhoto? || call.DeletePhoto?) && (db.photos != old(db.photos) || db.comments != old(db.comments))
        ==> && Authenticated(token, verify).Some? && call.photoId in old(db.photos)
            && old(db.photos)[call.photoId].userId == Authenticated(token, verify).value.id
    ensures forall id :: id in db.photos && id !in old(db.photos) ==>
              && call.CreatePhoto? && Authenticated(token, verify).Some?
              && db.photos[id].userId == Authenticated(token, verify).value.id
    ensures call.ListPhotos? || call.CreatePhoto? ==> db.comments == old(db.comments)
  {
    var req := new Request(token);
    var step := Authenticate(req, verify);
    if step != Next {
      return Ended(step);
    }
    var user := req.user.value;
    match call {
      case ListPhotos =>
        response := Finished(PhotoController.Get(db));
      case CreatePhoto(body) =>
        var out := PhotoController.Create(db, user, body, c);
        response := Finished(out);
      case UpdatePhoto(photoId, body) =>
        var gate := PhotoController.Authorize(db, req.user, photoId);
        if gate != Next {
          return Ended(gate);
        }
        var out := PhotoController.Update(db, photoId, body, c);
        response := Finished(out);
      case DeletePhoto(photoId) =>
        var gate := PhotoController.Authorize(db, req.user, photoId);
        if gate != Next {
          return Ended(gate);
        }
        var out := PhotoController.Delete(db, photoId);
        response := Finished(out);
    }
  }

  /**
   * One request to the social-media router, with the same guarantees: no
   * write without a passing token, changes and removals only by the owner,
   * new rows owned by the authenticated user.
   */
  method SocialMedia(db: Store, token: Option<string>, verify: string -> Verification, c: Checks, call: SocialMediaCall)
    returns (response: Response<SocialMediaController.Data>)
    requires db.Valid()
    modifies db`socialMedia, db`nextSocialMedia
    ensures db.Valid()
    ensures Decide(token, verify) != Next
        ==> response == Ended(Decide(token, verify)) && db.socialMedia == old(db.socialMedia)
    ensures !HasToken(token) ==> response == Reply(401, MissingTokenMessage)
    ensures (call.UpdateSocialMedia? || call.DeleteSocialMedia?) && db.socialMedia != old(db.socialMedia)
        ==> && Authenticated(token, verify).Some? && call.socialMediaId in old(db.socialMedia)
            && old(db.socialMedia)[call.socialMediaId].userId == Authenticated(token, verify).value.id
    ensures forall id :: id in db.socialMedia && id !in old(db.socialMedia) ==>
              && call.CreateSocialMedia? && Authenticated(token, verify).Some?
              && db.socialMedia[id].userId == Authenticated(token, verify).value.id
  {
    var req := new Request(token);
    var step := Authenticate(req, verify);
    if step != Next {
      return Ended(step);
    }
    var user := req.user.value;
    match call {
      case ListSocialMedia =>
        response := Finished(SocialMediaController.Get(db));
      case CreateSocialMedia(body) =>
        var out := SocialMediaController.Create(db, user, body, c);
        response := Finished(out);
      case UpdateSocialMedia(socialMediaId, body) =>
        var gate := SocialMediaController.Authorize(db, req.user, socialMediaId);
        if gate != Next {
          return Ended(gate);
        }
        var out := SocialMediaController.Update(db, socialMediaId, body, c);
        response := Finished(out);
      case DeleteSocialMedia(socialMediaId) =>
        var gate := SocialMediaController.Authorize(db, req.user, socialMediaId);
        if gate != Next {
          return Ended(gate);
        }
        var out := SocialMediaController.Delete(db, socialMediaId);
        response := Finished(out);
    }
  }
}
