# Photo-sharing REST API: request gating, table handlers, validation and error answers

This project models the core of a small Express and Sequelize REST API. Users
register, then post photos, comments on photos, and links to their social-media
profiles. The model covers the following parts.

- **The token check** (`Auth`). It reads the `token` header and verifies it. Then
  it either answers 401, hands the verifier's error to `next(error)`, or sets
  `req.user` to `{ id }` and calls `next()`. The request is a class whose `user`
  field the check assigns.
- **The ownership gate** (`Ownership`) that each resource runs before update and
  delete. The order is: 401 without a user, 404 without the row, 403 when the row
  belongs to someone else, otherwise continue. Each controller's `Authorize`
  instantiates it with that resource's sentences.
- **The database** (`Db.Store`). It is a class with one map per table (key to
  record) and one auto-increment counter per table. Its invariant holds:
  - every key is below its counter;
  - both foreign keys of the Comments table hold;
  - the unique columns of Users (email and username) are unique.
- **The handlers**:
  - photos: `create`, `update`, `delete`, `get`;
  - comments: `create`, `update`, `delete`, `findAll`;
  - social media: `create`, `update`, `delete`, `get`;
  - users: `register`.

  Each state-changing handler is a method over the `Store`. It modifies only the
  table fields it writes, and it states the new table in terms of the old one.
  Each read-only handler is a function that reads the `Store`.
- **The rule tables of the four models** (`Validation` and the `*Model` modules).
  Validating a record gives the ordered list of error items a failed `create` or
  `update` reports.
- **The error middleware** (`ErrorMiddleware`). It maps an error's name, sub-errors,
  table and index to a status and a `{ message }` body. It is written twice: as
  the function `Normalized`, and as the method `Handle`, which assigns `code` and
  `message` branch by branch. `Handle` overwrites `message` once per sub-error in
  the uniqueness case.
- **The photo and social-media routers** (`Routes`): token check, then `authorize`
  for update and delete, then the handler, then the error middleware.

Sequelize's behaviour is part of what the handlers do, and the model states it as follows:

- Every missing-column (`notNull`) message of a record comes before every validator message.
- Within each group, messages follow the column declaration order.
- Within a column, validator messages follow the key order of its `validate` table.
- `notEmpty` refuses a string made only of JavaScript `\s` characters (`/^[\s\t\r\n]*$/`).
- Integer columns are validated on their decimal text.
- `Model.update` drops fields whose value is `undefined`, and validates only the fields it is given.
- An update that is given no field writes nothing and returns `[0]`. The photo update then reads `photo[1][0]` and throws a `TypeError`, which the error middleware answers with 500.
- A violated unique column reports one entry, `'<column> must be unique'`. Email is checked before username.
- A violated foreign key of the Comments table reports table `'Comments'` and the constraint's name as the index.
- `fk_user` is checked before `fk_photo`.
- The user model's `beforeCreate` hook runs after validation, so the password is hashed only in the stored row.
- The database is PostgreSQL. An INSERT draws its key from the table's sequence before any constraint is checked, and a refused row does not give the key back. A row refused by validation never reaches the database, so it draws nothing.

The comments migration names its photo constraint `fk_photo`. The error middleware looks for `photo_fk`. So a comment on a missing photo is answered with the generic "Can't find relationship between table on database", never with "Fail to create comment. Can't find photo". `CommentController.MissingPhotoAnswer` states this. Both names are modelled as written.

Two behaviours of the handlers are easy to misread:

- Each `authorize` gate answers 401, 403 and 404 itself. It does not raise a typed error for the error middleware.
- A photo update whose row is gone answers 200 with no `photo` key. It does not fail.

## Model

| member | source | states |
|---|---|---|
| `ErrorMiddleware.Normalized` | middlewares/errorMiddleware.js:11-78 | every error gets exactly one status, always one of 400, 401, 403, 404, 500; the status is 500 exactly when the name is not one the switch lists, and 401 exactly for JsonWebTokenError, 'Invalid Token' and Unauthorized |
| `ErrorMiddleware.Handle` | middlewares/errorMiddleware.js:7-81 | the branch-by-branch assignments, including the overwrite-per-sub-error loop of the uniqueness case, end with the same (code, message) as `Normalized` |
| `ErrorMiddleware.Answer` | middlewares/errorMiddleware.js:80 | the response body has the single key `message`, with the status and message of `Normalized` |
| `ErrorMiddleware.MessagesOf` | middlewares/errorMiddleware.js:18 | mapping the sub-errors to their messages keeps the length and the order |
| `ErrorMiddleware.UnlistedIsInternal` | middlewares/errorMiddleware.js:74-77 | any unlisted name is answered 500 'Internal Server Error' |
| `ErrorMiddleware.ValidationListsEveryMessage` | middlewares/errorMiddleware.js:16-19 | a validation error is answered 400 with the list of all sub-error messages, same length, same order |
| `ErrorMiddleware.UniqueLastEntryDecides` | middlewares/errorMiddleware.js:20-29 | a uniqueness error is answered 400, with the email sentence exactly when the LAST sub-error is 'email must be unique', otherwise with the full message list; with no sub-errors there is no message |
| `ErrorMiddleware.ForeignKeyMessage` | middlewares/errorMiddleware.js:30-37 | a foreign-key error is answered 400, with the photo sentence exactly when table is 'Comments' and index is 'photo_fk', else the generic relationship sentence |
| `ErrorMiddleware.TokenErrorsAgree` | middlewares/errorMiddleware.js:38-45 | JsonWebTokenError and 'Invalid Token' are both answered 401 'Invalid Token' |
| `ErrorMiddleware.NamedStatuses` | middlewares/errorMiddleware.js:46-73 | Forbidden gives 403; userNotFound, CommentNotFound, SocialMediaNotFound, PageNotFound give 404; BadRequest and WrongPassword give 400 |
| `Auth.Authenticated` | middlewares/auth.js:3-18 | a request gets an identity exactly when the token is present and non-empty, verifies, and carries a truthy id; the identity is that id alone, never 0 |
| `Auth.Decide` | middlewares/auth.js:4-17 | exactly one outcome per token: 401 'Memerlukan header token' without a token, the verifier's error to `next`, 401 'Invalid token' for a falsy id, otherwise `next()` exactly when an identity is attached |
| `Auth.Authenticate` | middlewares/auth.js:3-18 | the middleware takes the step `Decide` gives; `req.user` becomes `{ id }` on `next()` and is left untouched on every other path |
| `Auth.RejectedTokenAnswer` | middlewares/auth.js:9-16 | a token the verifier rejects with JsonWebTokenError goes to `next(error)`, and the error middleware answers it 401 'Invalid Token' |
| `Auth.ZeroIdRefused` | middlewares/auth.js:10-12 | a payload id of 0 is refused with 401 'Invalid token' and no identity |
| `Ownership.Authorize` | controllers/PhotoController.js:90-112 | the ordered gate: 401 without a user, then 404 without the row, then 403 for another owner; it continues exactly when the row exists and belongs to the user |
| `Ownership.OwnerOf` | controllers/CommentController.js:118-119 | the looked-up owner is present exactly when the row exists, and is that row's `UserId` |
| `Http.OrEmpty` | controllers/CommentController.js:71 | `field \|\| ''` keeps any given text, so a given '' stays '', and writes '' for a missing field |
| `Validation.RuleErrors` | models/photo.js:39-48 | each item is on the value's column, there are at most as many items as validators, and there are none exactly when every validator passes |
| `Validation.Failing` | models/photo.js:39-48 | the positions it lists from `k` on lie between `k` and the number of validators |
| `Validation.FailingSound` | models/photo.js:39-48 | every listed position is a validator the value fails |
| `Validation.FailingAscending` | models/photo.js:39-48 | the listed positions ascend, so none appears twice |
| `Validation.FailingComplete` | models/photo.js:39-48 | every validator the value fails is listed |
| `Validation.RuleErrorsFrom` | models/photo.js:39-48 | the items of the validators from `k` on are, one for one, the messages at the failing positions from `k` on |
| `Validation.RuleErrorsInOrder` | models/photo.js:39-48 | a value's items are exactly the messages of the validators it fails, one per failing validator, in declaration order |
| `Validation.NullErrors` | models/photo.js:14-17 | no missing-column message exactly when every column from `k` on is present |
| `Validation.ValueErrors` | models/photo.js:15-22 | no validator message exactly when every present column from `k` on passes its validators |
| `Validation.Validate` | models/photo.js:12-59 | a create reports nothing exactly when every column is present and passes its validators |
| `Validation.UpdateErrors` | models/comment.js:42-53 | an update reports nothing exactly when every given column passes; columns not given are skipped |
| `Validation.NullReported` | models/user.js:17-25 | every missing column's `notNull` message is reported |
| `Validation.RuleReported` | models/user.js:26-35 | every validator a value fails reports its message |
| `Validation.ValueReported` | models/user.js:53-61 | every validator a present column fails is reported among the validator messages |
| `Validation.ValidateReports` | models/user.js:62-79 | a present column failing a validator makes the create report that validator's message |
| `Validation.NullBeforeValue` | models/user.js:17-79 | a missing column's message lies in the prefix of missing-column messages, and everything after that prefix is the validator messages |
| `Validation.IdField` | models/comment.js:18-41 | an integer field reaches the validators as non-blank text exactly when it is given |
| `Validation.DecimalText` | models/comment.js:25-27 | the text of an integer is never blank, so `notEmpty` never refuses an integer id |
| `PhotoModel.AcceptedIff` | models/photo.js:12-59 | a photo is accepted exactly when title, caption, poster URL and UserId are all present, the texts are not blank and the poster is a URL |
| `PhotoModel.AllOmitted` | models/photo.js:12-50 | with the three text fields absent the messages are exactly the three 'ommitted' ones, in field order |
| `PhotoModel.TitleMessages` | models/photo.js:12-23 | an absent title gives only 'Title cannot be ommitted', an empty one only 'Title cannot be an empty string' |
| `PhotoModel.EmptyCaption` | models/photo.js:24-35 | an empty caption gives exactly ['Caption cannot be an empty sting'] |
| `PhotoModel.EmptyPoster` | models/photo.js:36-50 | an empty poster URL gives ['Wrong url format', 'Url poster image cannot be an empty string'], in that order |
| `SocialMediaModel.AcceptedIff` | models/socialmedia.js:17-55 | a link is accepted exactly when name, URL and UserId are present, name and URL are not blank and the URL is a URL |
| `SocialMediaModel.UpdateAcceptedIff` | models/socialmedia.js:17-43 | an update writing name and URL is accepted exactly when both are non-blank and the URL is a URL |
| `SocialMediaModel.NameOmittedMessage` | models/socialmedia.js:17-23 | an absent name gives exactly 'Name cannot be omitted' |
| `SocialMediaModel.NameEmptyMessage` | models/socialmedia.js:24-26 | an empty name gives exactly 'Name cannot be an empty string' |
| `SocialMediaModel.EmptyUrl` | models/socialmedia.js:29-43 | an empty URL gives 'Social Media URL cannot be an empty string', followed by the format message unless '' counts as a URL |
| `SocialMediaModel.NotAUrl` | models/socialmedia.js:39-41 | a non-blank value that is not a URL gives exactly 'Social Media URL must be in URL format' |
| `CommentModel.AcceptedIff` | models/comment.js:18-53 | a comment is accepted exactly when UserId, PhotoId and a non-blank text are present |
| `CommentModel.UpdateAcceptedIff` | models/comment.js:42-53 | an update text is accepted exactly when it is not blank; '' gives exactly 'Comment cannot be an empty string' |
| `CommentModel.UserIdOmittedMessage` | models/comment.js:18-29 | a missing UserId gives exactly 'User ID cannot be omitted' |
| `CommentModel.PhotoIdOmittedMessage` | models/comment.js:30-41 | a missing PhotoId gives exactly 'Photo ID cannot be omitted' |
| `CommentModel.CommentOmittedMessage` | models/comment.js:42-53 | a missing text gives exactly 'Comment cannot be omitted' |
| `UserModel.AcceptedIff` | models/user.js:17-79 | a registration is accepted exactly when all seven fields are present and not blank, the email is an email, the image a URL, the age an integer and the phone number numeric |
| `UserModel.OmittedReported` | models/user.js:17-79 | each missing field reports 'User.<column> cannot be null' among the leading missing-column messages, and every validator message comes after them |
| `UserModel.BadEmailReported` | models/user.js:26-35 | an email that is not an email reports 'Validation isEmail on email failed' |
| `UserModel.BadUrlReported` | models/user.js:53-61 | a profile image that is not a URL reports 'Validation isUrl on profile_image_url failed' |
| `UserModel.BadAgeReported` | models/user.js:62-70 | an age that is not an integer reports 'Validation isInt on age failed' |
| `UserModel.BadPhoneReported` | models/user.js:71-79 | a phone number that is not numeric reports 'Validation isNumeric on phone_number failed' |
| `UserModel.AcceptedIsComplete` | models/user.js:17-79 | an accepted registration has all seven fields |
| `Db.WithoutPhoto` | migrations/20221204152200-create-comment.js:45-55 | deleting a photo keeps exactly the comments on other photos, unchanged |
| `Db.CascadeKeepsReferences` | migrations/20221204152200-create-comment.js:32-55 | after the cascade every remaining comment still references an existing user and photo |
| `Db.InsertKeepsUnique` | models/user.js:26-44 | adding a user whose email and username are both new keeps email and username unique |
| `Db.Store.DrawUserId` | controllers/UserController.js:16-24 | the drawn key is the counter's value, no row has it, and the counter moves past it |
| `Db.Store.AddUser` | models/user.js:26-44 | the row is stored under the drawn key and the store invariant, unique email and username included, still holds |
| `PhotoController.Authorize` | controllers/PhotoController.js:88-116 | 401 'invalid token', then 404 "photo doesn't exist", then 403 for another owner; continues exactly for the owner; reads the table only |
| `PhotoController.Create` | controllers/PhotoController.js:30-49 | refused input leaves the table unchanged and goes to `next`; otherwise exactly one row is added under a fresh key, owned by the authenticated user whatever the body says, and 201 carries that key and row |
| `PhotoController.Patched` | controllers/PhotoController.js:55-65 | an update never changes a photo's owner |
| `PhotoController.Update` | controllers/PhotoController.js:51-72 | the given fields are validated; no given field is a TypeError; a missing row is 200 without a photo; otherwise only row `photoId` changes, only in the given fields, and the response is the new row |
| `PhotoController.Delete` | controllers/PhotoController.js:74-86 | only row `photoId` leaves the Photos table, only its comments leave the Comments table, and the answer is 200 'Your photo has been successfully deleted' |
| `UserModel.SummaryOf` | controllers/PhotoController.js:8-11 | the included owner is present exactly when the user exists, with exactly id, username and profile image |
| `PhotoController.CommentsOf` | controllers/PhotoController.js:12-19 | the included comments are exactly the photo's comments, with their text; the username is present exactly when the author exists and is then the author's username |
| `PhotoController.Get` | controllers/PhotoController.js:4-28 | 200 with every photo, each with its stored row, its owner's id, username and profile image exactly when the owner exists, and its comments; under the store invariant every comment on a photo is included with its author |
| `CommentController.CreateError` | controllers/CommentController.js:45-57 | creating fails exactly unless the text is non-blank, PhotoId is given, and both the user and the photo exist |
| `CommentController.MissingPhotoAnswer` | controllers/CommentController.js:45-57 | a valid comment on a missing photo fails with the 'fk_photo' error, which is answered 400 with the generic relationship sentence |
| `CommentController.Create` | controllers/CommentController.js:45-58 | a failure leaves the table unchanged; a foreign-key failure still uses up the next key, a validation failure does not; otherwise exactly one row is added under a fresh key with the authenticated user, the body's PhotoId and text, and 201 carries it |
| `CommentController.UpdateWritesText` | controllers/CommentController.js:71 | an absent or empty text is written as '' and refused with 'Comment cannot be an empty string'; the update is accepted exactly for a non-blank given text |
| `CommentController.Update` | controllers/CommentController.js:65-84 | validation first; then a missing row gives 400 'No Comments updated' and no change; otherwise only the text of row `commentId` changes and 200 returns the row |
| `CommentController.Delete` | controllers/CommentController.js:91-101 | only row `commentId` is removed; 200 'Your comment has been successfully deleted' |
| `CommentController.Authorize` | controllers/CommentController.js:108-137 | 401 'silahkan login terlebih dahulu', then 404 'Comment not found', then 403; continues exactly for the comment's author; reads the table only |
| `CommentController.FindAll` | controllers/CommentController.js:9-38 | 200 exactly when every comment's user and photo exist, which the store invariant guarantees, else a TypeError; each entry's UserId and PhotoId equal its included User.id and Photo.id and the stored row's ids |
| `SocialMediaController.Create` | controllers/SocialMediaController.js:4-16 | a failure leaves the table unchanged; otherwise exactly one row is added under a fresh key, owned by the authenticated user, and 201 returns it |
| `SocialMediaController.Get` | controllers/SocialMediaController.js:18-32 | 200 with every row, each unchanged, with its owner's id, username and profile image exactly when the owner exists |
| `SocialMediaController.UpdateWritesBoth` | controllers/SocialMediaController.js:38 | both columns are always written, '' for a missing field, so the update is accepted exactly when both given values pass |
| `SocialMediaController.Update` | controllers/SocialMediaController.js:34-60 | validation first; a missing row gives 400 'Tidak ada yang diupdate' and no change; otherwise only name and URL of that row change, the owner kept, and 200 returns the row |
| `SocialMediaController.Delete` | controllers/SocialMediaController.js:61-72 | only that row is removed; 200 'Your social media has been successfully deleted' |
| `SocialMediaController.Authorize` | controllers/SocialMediaController.js:73-101 | 401, then 404 'Social Media tidak ditemukan', then 403; continues exactly for the owner; reads the table only |
| `UserController.RegisterError` | controllers/UserController.js:16-24 | registration fails exactly when validation reports something, the email is taken or the username is taken; past validation the failure is a uniqueness error |
| `UserController.Register` | controllers/UserController.js:4-39 | a failure goes to `next` with the table unchanged; a uniqueness failure still uses up the next key, a validation failure does not; otherwise exactly one row is added under a fresh key with the password hashed once, and 201 returns its projection |
| `UserController.ProjectionShowsInput` | controllers/UserController.js:26-35 | the response holds the registered email, full name, username, image, age and phone number, and does not depend on the password |
| `UserController.TakenEmailAnswer` | middlewares/errorMiddleware.js:20-29 | a valid registration with a taken email is answered 400 'Email is alredy exist, please replace your email' |
| `UserController.TakenUsernameAnswer` | middlewares/errorMiddleware.js:22-28 | a valid registration with a new email and a taken username is answered 400 ['username must be unique'] |
| `UserController.InvalidAnswer` | middlewares/errorMiddleware.js:16-19 | a refused registration is answered 400 with all its validation messages in order |
| `Routes.Ended` | routers/photoRouter.js:5-8 | a middleware that stops the chain leads to its own response, or to the error middleware's answer for `next(error)` |
| `Routes.Finished` | routers/index.js:10 | a handler's failure is answered by the error middleware |
| `Routes.Photos` | routers/photoRouter.js:5-10 | without a passing token nothing is written and a missing token is 401 'Memerlukan header token'; a photo is changed or deleted only by its owner; a new photo belongs to the authenticated user |
| `Routes.SocialMedia` | routers/socialMediaRouter.js:5-10 | the same guarantees for social-media links |

## Left out

- Token signing and verification are not modelled. Verification is a function parameter giving either the claims or the error it throws. The signing helper and the secret are not part of this model.
- Password hashing is a function parameter `hash`. The bcrypt helper is not part of this model.
- `isUrl`, `isEmail`, `isInt` and `isNumeric` are function parameters, not definitions.
- The JavaScript `\s` class is written out for the code points it has today.
- Timestamps (`createdAt`, `updatedAt`) are not modelled, so the rows in responses carry no timestamps.
- The database may fail while reading (`findOne`, `findAll`), which would send the error to `next`. Reads here cannot fail.
- JSON `null` is treated as a missing field.
- A body value of the wrong JSON type (a number for a text, a string for an id) is not modelled. `age` is kept as the text the validators see.
- Ids are integers, and the loose `!=` between a string parameter and a number id is not modelled.
- Listings are maps from key to entry. The order in which rows are listed is not modelled.
- The Photos and SocialMedia migrations are not part of this model. So the store keeps no foreign key for them, and a listing's included owner may be `null`.
- No user is ever deleted, so the user-side cascades are not exercised.
- The comment router is not composed in `Routes`, because it imports a middleware file that is not part of this model. Its handlers and gate are modelled one by one.
- The user router's login, update, delete and authorize are not modelled, because `UserController` has only `register`.
- `routers/index.js` mounts only `/users`. The photo and social-media chains are modelled as their routers declare them, ending at the error middleware.
- When the two foreign keys, or the two unique columns, are violated at once, only the first is reported. That order is an assumption about the database, not something the code states.
- `CommentController.Create`: the response's `comment` object is the stored row without its timestamps.
