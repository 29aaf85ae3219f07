/**
 * The terminal error handler: every error handed to `next(error)` becomes a
 * status code and a `{ message }` body.
 */
module ErrorMiddleware {
  import opened Http

  const EmailNotUnique := "email must be unique"
  const EmailTakenMessage := "Email is alredy exist, please replace your email"
  const PhotoMissingMessage := "Fail to create comment. Can't find photo"
  const RelationMessage := "Can't find relationship between table on database"
  const InvalidTokenMessage := "Invalid Token"
  const InternalMessage := "Internal Server Error"

  /** The error names the switch lists; every other name takes the default branch. */
  const HandledNames: set<string> := {
    "BadRequest", "SequelizeValidationError", "SequelizeUniqueConstraintError",
    "SequelizeForeignKeyConstraintError", "JsonWebTokenError", "Invalid Token",
    "Unauthorized", "Forbidden", "userNotFound", "CommentNotFound",
    "SocialMediaNotFound", "PageNotFound", "WrongPassword"
  }

  /** `error.errors.map((e) => e.message)`. */
  function MessagesOf(items: seq<ErrorItem>): (r: seq<string>)
    ensures |r| == |items|
    ensures forall i :: 0 <= i < |items| ==> r[i] == items[i].message
  {
    if items == [] then [] else [items[0].message] + MessagesOf(items[1..])
  }

  /** The message one pass of the uniqueness loop writes, for the entry `item` of `all`. */
  function UniqueWrite(item: ErrorItem, all: seq<ErrorItem>): Message
  {
    if item.message == EmailNotUnique then Text(EmailTakenMessage) else List(MessagesOf(all))
  }

  /**
   * The uniqueness case's message: the loop overwrites it once per entry, so
   * the last entry decides; with no entries it is never written.
   */
  function UniqueMessage(items: seq<ErrorItem>): Message
  {
    if items == [] then Undefined else UniqueWrite(items[|items| - 1], items)
  }

  /** The (status, message) pair the middleware answers `e` with. */
  function Normalized(e: AppError): (r: (int, Message))
    ensures r.0 in {400, 401, 403, 404, 500}
    ensures r.0 == 500 <==> e.name !in HandledNames
    ensures r.0 == 401 <==> e.name in {"JsonWebTokenError", "Invalid Token", "Unauthorized"}
  {
    match e.name
    case "BadRequest" => (400, Text("Bad Request"))
    case "SequelizeValidationError" => (400, List(MessagesOf(e.errors)))
    case "SequelizeUniqueConstraintError" => (400, UniqueMessage(e.errors))
    case "SequelizeForeignKeyConstraintError" =>
      (400, Text(if e.table == "Comments" && e.index == "photo_fk" then PhotoMissingMessage else RelationMessage))
    case "JsonWebTokenError" => (401, Text(InvalidTokenMessage))
    case "Invalid Token" => (401, Text(InvalidTokenMessage))
    case "Unauthorized" => (401, Text("Unauthorized"))
    case "Forbidden" => (403, Text("Forbidden, you does not have acces to this resource"))
    case "userNotFound" => (404, Text("Fail, Login User not found"))
    case "CommentNotFound" => (404, Text("Fail, Comment not found"))
    case "SocialMediaNotFound" => (404, Text("Fail, Social Media not found"))
    case "PageNotFound" => (404, Text("404 Page Not Found"))
    case "WrongPassword" => (400, Text("Fail, Your password incorrect"))
    case _ => (500, Text(InternalMessage))
  }

  /** The response the middleware sends: the body is `{ message }` and nothing else. */
  function Answer<B>(e: AppError): (r: Response<B>)
    ensures r.payload.MessageBody?
    ensures (r.status, r.payload.message) == Normalized(e)
  {
    var (code, message) := Normalized(e);
    Response(code, MessageBody(message))
  }

  /**
   * The middleware as written: `code` and `message` are assigned branch by
   * branch, and the uniqueness branch assigns `message` once per entry.
   */
  method Handle(e: AppError) returns (code: int, message: Message)
    ensures (code, message) == Normalized(e)
  {
    if e.name == "BadRequest" {
      code, message := 400, Text("Bad Request");
    } else if e.name == "SequelizeValidationError" {
      code, message := 400, List(MessagesOf(e.errors));
    } else if e.name == "SequelizeUniqueConstraintError" {
      code, message := 400, Undefined;
      var i := 0;
      while i < |e.errors|
        invariant 0 <= i <= |e.errors|
        invariant message == if i == 0 then Undefined else UniqueWrite(e.errors[i - 1], e.errors)
      {
        if e.errors[i].message == EmailNotUnique {
          message := Text(EmailTakenMessage);
        } else {
          message := List(MessagesOf(e.errors));
        }
        i := i + 1;
      }
    } else if e.name == "SequelizeForeignKeyConstraintError" {
      code := 400;
      if e.table == "Comments" && e.index == "photo_fk" {
        message := Text(PhotoMissingMessage);
      } else {
        message := Text(RelationMessage);
      }
    } else if e.name == "JsonWebTokenError" {
      code, message := 401, Text(InvalidTokenMessage);
    } else if e.name == "Invalid Token" {
      code, message := 401, Text(InvalidTokenMessage);
    } else if e.name == "Unauthorized" {
      code, message := 401, Text("Unauthorized");
    } else if e.name == "Forbidden" {
      code, message := 403, Text("Forbidden, you does not have acces to this resource");
    } else if e.name == "userNotFound" {
      code, message := 404, Text("Fail, Login User not found");
    } else if e.name == "CommentNotFound" {
      code, message := 404, Text("Fail, Comment not found");
    } else if e.name == "SocialMediaNotFound" {
      code, message := 404, Text("Fail, Social Media not found");
    } else if e.name == "PageNotFound" {
      code, message := 404, Text("404 Page Not Found");
    } else if e.name == "WrongPassword" {
      code, message := 400, Text("Fail, Your password incorrect");
    } else {
      code, message := 500, Text(InternalMessage);
    }
  }

  /** Any name the switch does not list is answered 500 'Internal Server Error'. */
  lemma UnlistedIsInternal(e: AppError)
    requires e.name !in HandledNames
    ensures Normalized(e) == (500, Text(InternalMessage))
  {
  }

  /** A validation error lists every sub-error's message, in order. */
  lemma ValidationListsEveryMessage(e: AppError)
    requires e.name == "SequelizeValidationError"
    ensures Normalized(e).0 == 400 && Normalized(e).1.List?
    ensures |Normalized(e).1.items| == |e.errors|
    ensures forall i :: 0 <= i < |e.errors| ==> Normalized(e).1.items[i] == e.errors[i].message
  {
  }

  /**
   * A uniqueness error answers with the email sentence exactly when its LAST
   * entry is 'email must be unique'; an email entry earlier in the array is
   * overwritten by the entries after it.
   */
  lemma UniqueLastEntryDecides(e: AppError)
    requires e.name == "SequelizeUniqueConstraintError"
    ensures Normalized(e).0 == 400
    ensures Normalized(e).1 == Text(EmailTakenMessage)
        <==> |e.errors| > 0 && e.errors[|e.errors| - 1].message == EmailNotUnique
    ensures |e.errors| > 0 && e.errors[|e.errors| - 1].message != EmailNotUnique
        ==> Normalized(e).1 == List(MessagesOf(e.errors))
    ensures e.errors == [] ==> Normalized(e).1 == Undefined
  {
    if |e.errors| > 0 && e.errors[|e.errors| - 1].message != EmailNotUnique {
      assert Normalized(e).1 == List(MessagesOf(e.errors));
    }
  }

  /** The photo-specific foreign-key sentence needs table 'Comments' and index 'photo_fk'. */
  lemma ForeignKeyMessage(e: AppError)
    requires e.name == "SequelizeForeignKeyConstraintError"
    ensures Normalized(e).0 == 400
    ensures Normalized(e).1 == Text(PhotoMissingMessage) <==> e.table == "Comments" && e.index == "photo_fk"
    ensures Normalized(e).1 != Text(PhotoMissingMessage) ==> Normalized(e).1 == Text(RelationMessage)
  {
  }

  /** A token the signature check rejects and an 'Invalid Token' error read the same. */
  lemma TokenErrorsAgree(e: AppError, f: AppError)
    requires e.name == "JsonWebTokenError" && f.name == "Invalid Token"
    ensures Normalized(e) == Normalized(f) == (401, Text(InvalidTokenMessage))
  {
  }

  /** The statuses of the remaining named cases. */
  lemma NamedStatuses(e: AppError)
    ensures e.name == "Forbidden" ==> Normalized(e).0 == 403
    ensures e.name in {"userNotFound", "CommentNotFound", "SocialMediaNotFound", "PageNotFound"}
        ==> Normalized(e).0 == 404
    ensures e.name in {"BadRequest", "WrongPassword"} ==> Normalized(e).0 == 400
  {
  }
}
