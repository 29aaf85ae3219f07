/** The Comment record and its column rules. */
module CommentModel {
  import opened Http
  import opened Validation

  /** A stored comment: its author, the photo it is on, and its text. */
  datatype Comment = Comment(userId: int, photoId: int, comment: string)

  const UserIdOmitted := "User ID cannot be omitted"
  const UserIdEmpty := "User ID cannot be an empty string"
  const PhotoIdOmitted := "Photo ID cannot be omitted"
  const PhotoIdEmpty := "Photo ID cannot be an empty string"
  const CommentOmitted := "Comment cannot be omitted"
  const CommentEmpty := "Comment cannot be an empty string"

  /** The `comment` column, the only one an update writes. */
  const TextColumn := Column("comment", CommentOmitted, [NotEmpty(CommentEmpty)])

  function Columns(): (r: seq<Column>)
    ensures |r| == 3
  {
    [ Column("UserId", UserIdOmitted, [NotEmpty(UserIdEmpty)]),
      Column("PhotoId", PhotoIdOmitted, [NotEmpty(PhotoIdEmpty)]),
      TextColumn ]
  }

  /** The error items creating a comment from these values reports. */
  function Errors(userId: Field<int>, photoId: Field<int>, comment: Field<string>): seq<ErrorItem>
  {
    Validate(Columns(), [IdField(userId), IdField(photoId), comment])
  }

  /** The error items an update writing `text` reports. */
  function UpdateErrorsOf(text: string): seq<ErrorItem>
  {
    UpdateErrors([TextColumn], [Given(text)])
  }

  /** A comment is accepted exactly when both ids are present and the text is present and not blank. */
  lemma AcceptedIff(userId: Field<int>, photoId: Field<int>, comment: Field<string>)
    ensures Errors(userId, photoId, comment) == []
        <==> userId.Given? && photoId.Given? && comment.Given? && !IsBlank(comment.value)
  {
    var values := [IdField(userId), IdField(photoId), comment];
    var cols := Columns();
    Accepts3(cols, values);
    if userId.Given? {
      PassesOne(NotEmpty(UserIdEmpty), values[0].value);
    }
    if photoId.Given? {
      PassesOne(NotEmpty(PhotoIdEmpty), values[1].value);
    }
    if comment.Given? {
      PassesOne(NotEmpty(CommentEmpty), comment.value);
    }
  }

  /** An update is accepted exactly when its text is not blank; '' reports 'Comment cannot be an empty string'. */
  lemma UpdateAcceptedIff(text: string)
    ensures UpdateErrorsOf(text) == [] <==> !IsBlank(text)
    ensures UpdateErrorsOf("") == [ErrorItem(CommentEmpty, "comment")]
  {
    PassesOne(NotEmpty(CommentEmpty), text);
    assert ValueErrors([TextColumn], [Given("")], 1) == [];
  }

  /** Columns whose values pass report nothing. */
  lemma PassingColumns(userId: int, photoId: int, text: string)
    ensures RuleErrors("UserId", [NotEmpty(UserIdEmpty)], DecimalText(userId)) == []
    ensures RuleErrors("PhotoId", [NotEmpty(PhotoIdEmpty)], DecimalText(photoId)) == []
    ensures !IsBlank(text) ==> RuleErrors("comment", [NotEmpty(CommentEmpty)], text) == []
  {
  }

  /** A missing `UserId` reports exactly 'User ID cannot be omitted'. */
  lemma UserIdOmittedMessage(photoId: int, text: string)
    requires !IsBlank(text)
    ensures Errors(Absent, Given(photoId), Given(text)) == [ErrorItem(UserIdOmitted, "UserId")]
  {
    var values := [Absent, IdField(Given(photoId)), Given(text)];
    NullErrors3(Columns(), values);
    ValueErrors3(Columns(), values);
    PassingColumns(0, photoId, text);
  }

  /** A missing `PhotoId` reports exactly 'Photo ID cannot be omitted'. */
  lemma PhotoIdOmittedMessage(userId: int, text: string)
    requires !IsBlank(text)
    ensures Errors(Given(userId), Absent, Given(text)) == [ErrorItem(PhotoIdOmitted, "PhotoId")]
  {
    var values := [IdField(Given(userId)), Absent, Given(text)];
    NullErrors3(Columns(), values);
    ValueErrors3(Columns(), values);
    PassingColumns(userId, 0, text);
  }

  /** A missing text reports exactly 'Comment cannot be omitted'. */
  lemma CommentOmittedMessage(userId: int, photoId: int)
    ensures Errors(Given(userId), Given(photoId), Absent) == [ErrorItem(CommentOmitted, "comment")]
  {
    var values := [IdField(Given(userId)), IdField(Given(photoId)), Absent];
    NullErrors3(Columns(), values);
    ValueErrors3(Columns(), values);
    PassingColumns(userId, photoId, "");
  }
}
