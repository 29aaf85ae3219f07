/** User registration, working on the Users table of a `Store`. */
module UserController {
  import opened Http
  import opened Validation
  import opened UserModel
  import opened Db
  import ErrorMiddleware

  /** The `user` object of the response: every stored column except the password. */
  datatype View = View(
    email: string, fullName: string, username: string,
    profileImageUrl: string, age: string, phoneNumber: string)

  /** The response's projection of a stored row. */
  function Project(u: User): View
  {
    View(u.email, u.fullName, u.username, u.profileImageUrl, u.age, u.phoneNumber)
  }

  const UsernameNotUnique := "username must be unique"

  /** The error a unique-column violation carries: one entry, '<column> must be unique'. */
  function UniqueError(message: string, column: string): AppError
  {
    AppError("SequelizeUniqueConstraintError", [ErrorItem(message, column)], "", "")
  }

  /**
   * What `User.create` throws, if anything: the validation error first, then
   * the unique email, then the unique username.
   */
  function RegisterError(users: map<int, User>, input: Input, c: Checks): (r: Option<AppError>)
    ensures r.None? <==> && UserModel.Errors(c, input) == []
                         && input.email.Given? && !EmailTaken(users, input.email.value)
                         && input.username.Given? && !UsernameTaken(users, input.username.value)
    ensures r.None? ==> Complete(input)
    ensures r.Some? && UserModel.Errors(c, input) == [] ==> r.value.name == "SequelizeUniqueConstraintError"
  {
    var errors := UserModel.Errors(c, input);
    UserModel.AcceptedIsComplete(c, input);
    if errors != [] then Some(ValidationError(errors))
    else if EmailTaken(users, input.email.value) then Some(UniqueError(ErrorMiddleware.EmailNotUnique, "email"))
    else if UsernameTaken(users, input.username.value) then Some(UniqueError(UsernameNotUnique, "username"))
    else None
  }

  /** The row stored for an accepted input: the `beforeCreate` hook has replaced the password by its hash. */
  function Stored(input: Input, hash: string -> string): User
    requires Complete(input)
  {
    User(input.fullName.value, input.email.value, input.username.value, hash(input.password.value),
      input.profileImageUrl.value, input.age.value, input.phoneNumber.value)
  }

  /**
   * `register`: one new row from the seven body fields, answered 201 with its
   * projection; any failure goes to `next(error)` and the table is unchanged.
   * A row refused by a unique column has already drawn its id from the
   * table's sequence, which does not give it back.
   */
  method Register(db: Store, input: Input, c: Checks, hash: string -> string) returns (out: Outcome<View>)
    requires db.Valid()
    modifies db`users, db`nextUser
    ensures db.Valid()
    ensures var e := RegisterError(old(db.users), input, c);
      if e.Some? then
        && out == Failed(e.value) && db.users == old(db.users)
        && db.nextUser == if UserModel.Errors(c, input) != [] then old(db.nextUser) else old(db.nextUser) + 1
      else
        && Complete(input)
        && var id := old(db.nextUser);
           && id !in old(db.users)
           && db.users == old(db.users)[id := Stored(input, hash)]
           && db.nextUser == id + 1
           && out == Sent(Response(201, DataBody(Project(db.users[id]))))
  {
    var e := RegisterError(db.users, input, c);
    if UserModel.Errors(c, input) != [] {
      return Failed(e.value);
    }
    var id := db.DrawUserId();
    if e.Some? {
      return Failed(e.value);
    }
    var row := Stored(input, hash);
    db.AddUser(id, row);
    out := Sent(Response(201, DataBody(Project(row))));
  }

  /** The projection shows the registered values as given: every field but the password, which it drops. */
  lemma ProjectionShowsInput(input: Input, hash: string -> string)
    requires Complete(input)
    ensures Project(Stored(input, hash))
         == View(input.email.value, input.fullName.value, input.username.value,
                 input.profileImageUrl.value, input.age.value, input.phoneNumber.value)
    ensures forall p :: Project(Stored(input.(password := Given(p)), hash)) == Project(Stored(input, hash))
  {
  }

  /** A taken email is answered 400 'Email is alredy exist, please replace your email'. */
  lemma TakenEmailAnswer(users: map<int, User>, input: Input, c: Checks)
    requires UserModel.Errors(c, input) == []
    requires input.email.Given? && EmailTaken(users, input.email.value)
    ensures RegisterError(users, input, c) == Some(UniqueError(ErrorMiddleware.EmailNotUnique, "email"))
    ensures ErrorMiddleware.Normalized(UniqueError(ErrorMiddleware.EmailNotUnique, "email")) == (400, Message.Text(ErrorMiddleware.EmailTakenMessage))
  {
    var e := UniqueError(ErrorMiddleware.EmailNotUnique, "email");
    assert e.errors[|e.errors| - 1].message == ErrorMiddleware.EmailNotUnique;
    ErrorMiddleware.UniqueLastEntryDecides(e);
  }

  /** A new email with a taken username is answered 400 with the list ['username must be unique']. */
  lemma TakenUsernameAnswer(users: map<int, User>, input: Input, c: Checks)
    requires UserModel.Errors(c, input) == []
    requires input.email.Given? && !EmailTaken(users, input.email.value)
    requires input.username.Given? && UsernameTaken(users, input.username.value)
    ensures RegisterError(users, input, c) == Some(UniqueError(UsernameNotUnique, "username"))
    ensures ErrorMiddleware.Normalized(UniqueError(UsernameNotUnique, "username")) == (400, Message.List([UsernameNotUnique]))
  {
    var e := UniqueError(UsernameNotUnique, "username");
    assert e.errors[0].message != ErrorMiddleware.EmailNotUnique;
    ErrorMiddleware.UniqueLastEntryDecides(e);
    assert ErrorMiddleware.MessagesOf(e.errors) == [UsernameNotUnique];
  }

  /** A refused input is answered 400 with every validation message, in order. */
  lemma InvalidAnswer(users: map<int, User>, input: Input, c: Checks)
    requires UserModel.Errors(c, input) != []
    ensures RegisterError(users, input, c) == Some(ValidationError(UserModel.Errors(c, input)))
    ensures ErrorMiddleware.Normalized(ValidationError(UserModel.Errors(c, input)))
         == (400, Message.List(ErrorMiddleware.MessagesOf(UserModel.Errors(c, input))))
  {
  }
}
