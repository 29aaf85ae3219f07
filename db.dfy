/**
 * The database the controllers work on: one table per model, each a map from
 * primary key to record, and the auto-increment counter that hands out the
 * next key. The constraints of the Comments table (both foreign keys, with
 * `ON DELETE CASCADE`) and the unique columns of Users are invariants.
 */
module Db {
  import opened PhotoModel
  import opened CommentModel
  import opened SocialMediaModel
  import opened UserModel

  /** Every key lies in [1, next), so `next` is a key no row has. */
  ghost predicate KeysBelow<T>(table: map<int, T>, next: int)
  {
    1 <= next && forall id :: id in table ==> 1 <= id < next
  }

  /** Both foreign keys of the Comments table: each comment's user and photo exist. */
  predicate Referenced(comments: map<int, Comment>, users: map<int, User>, photos: map<int, Photo>)
  {
    forall id :: id in comments ==> comments[id].userId in users && comments[id].photoId in photos
  }

  /** The unique columns of Users: no two rows share an email or a username. */
  ghost predicate Unique(users: map<int, User>)
  {
    forall a, b :: a in users && b in users && a != b
      ==> users[a].email != users[b].email && users[a].username != users[b].username
  }

  /** Some stored user already has this email. */
  predicate EmailTaken(users: map<int, User>, email: string)
  {
    exists id :: id in users && users[id].email == email
  }

  /** Some stored user already has this username. */
  predicate UsernameTaken(users: map<int, User>, username: string)
  {
    exists id :: id in users && users[id].username == username
  }

  /** The comments left once the photo `photoId` is gone: the foreign key cascades. */
  function WithoutPhoto(comments: map<int, Comment>, photoId: int): (r: map<int, Comment>)
    ensures forall id :: id in r <==> id in comments && comments[id].photoId != photoId
    ensures forall id :: id in r ==> r[id] == comments[id]
  {
    map id | id in comments && comments[id].photoId != photoId :: comments[id]
  }

  class Store {
    var users: map<int, User>
    var photos: map<int, Photo>
    var comments: map<int, Comment>
    var socialMedia: map<int, SocialMedia>
    var nextUser: int
    var nextPhoto: int
    var nextComment: int
    var nextSocialMedia: int

    ghost predicate Valid()
      reads this
    {
      && KeysBelow(users, nextUser) && KeysBelow(photos, nextPhoto)
      && KeysBelow(comments, nextComment) && KeysBelow(socialMedia, nextSocialMedia)
      && Referenced(comments, users, photos)
      && Unique(users)
    }

    /** Empty tables, every counter at 1. */
    constructor ()
      ensures Valid()
      ensures users == map[] && photos == map[] && comments == map[] && socialMedia == map[]
      ensures nextUser == nextPhoto == nextComment == nextSocialMedia == 1
    {
      users, photos, comments, socialMedia := map[], map[], map[], map[];
      nextUser, nextPhoto, nextComment, nextSocialMedia := 1, 1, 1, 1;
    }

    /** `nextval` on the Users sequence: a key no row has, never handed out again. */
    method DrawUserId() returns (id: int)
      requires Valid()
      modifies this`nextUser
      ensures Valid()
      ensures id == old(nextUser) && nextUser == id + 1 && id !in users
    {
      id := nextUser;
      nextUser := id + 1;
    }

    /** The row is written under a drawn key once both unique columns accept it. */
    method AddUser(id: int, u: User)
      requires Valid() && 1 <= id < nextUser && id !in users
      requires !EmailTaken(users, u.email) && !UsernameTaken(users, u.username)
      modifies this`users
      ensures Valid()
      ensures users == old(users)[id := u]
    {
      InsertKeepsUnique(users, id, u);
      users := users[id := u];
    }
  }

  /** Deleting a photo along with its comments keeps the foreign keys of the comments that are left. */
  lemma CascadeKeepsReferences(comments: map<int, Comment>, users: map<int, User>, photos: map<int, Photo>, photoId: int)
    requires Referenced(comments, users, photos)
    ensures Referenced(WithoutPhoto(comments, photoId), users, photos - {photoId})
  {
  }

  /** A user whose email and username are both new keeps the unique columns unique. */
  lemma InsertKeepsUnique(users: map<int, User>, id: int, u: User)
    requires Unique(users) && id !in users
    requires !EmailTaken(users, u.email) && !UsernameTaken(users, u.username)
    ensures Unique(users[id := u])
  {
    var after := users[id := u];
    forall a, b | a in after && b in after && a != b
      ensures after[a].email != after[b].email && after[a].username != after[b].username
    {
      if a == id {
        assert b in users && users[b].email != u.email && users[b].username != u.username;
      } else if b == id {
        assert a in users && users[a].email != u.email && users[a].username != u.username;
      }
    }
  }
}
