/** The Photo record and its column rules. */
module PhotoModel {
  import opened Http
  import opened Validation

  /** A stored photo; its id is the key it is stored under. */
  datatype Photo = Photo(title: string, caption: string, posterImageUrl: string, userId: int)

  const TitleOmitted := "Title cannot be ommitted"
  const TitleEmpty := "Title cannot be an empty string"
  const CaptionOmitted := "Caption cannot be ommitted"
  const CaptionEmpty := "Caption cannot be an empty sting"
  const UrlFormat := "Wrong url format"
  const PosterOmitted := "Url poster image cannot be ommitted"
  const PosterEmpty := "Url poster image cannot be an empty string"
  const UserIdOmitted := "User Id cannot be ommitted"

  /** The three text columns, in declaration order. */
  function TextColumns(c: Checks): (r: seq<Column>)
    ensures |r| == 3
  {
    [ Column("title", TitleOmitted, [NotEmpty(TitleEmpty)]),
      Column("caption", CaptionOmitted, [NotEmpty(CaptionEmpty)]),
      Column("poster_image_url", PosterOmitted, [Format(c.isUrl, UrlFormat), NotEmpty(PosterEmpty)]) ]
  }

  /** All four columns: the text columns, then `UserId`, which has only `notNull`. */
  function Columns(c: Checks): (r: seq<Column>)
    ensures |r| == 4
  {
    TextColumns(c) + [Column("UserId", UserIdOmitted, [])]
  }

  /** The error items creating a photo from these values reports. */
  function Errors(c: Checks, title: Field<string>, caption: Field<string>, poster: Field<string>, userId: Field<int>): seq<ErrorItem>
  {
    Validate(Columns(c), [title, caption, poster, IdField(userId)])
  }

  /** A photo is accepted exactly when all four values are present, the texts are not blank and the poster is a URL. */
  lemma AcceptedIff(c: Checks, title: Field<string>, caption: Field<string>, poster: Field<string>, userId: Field<int>)
    ensures Errors(c, title, caption, poster, userId) == []
        <==> && title.Given? && !IsBlank(title.value)
             && caption.Given? && !IsBlank(caption.value)
             && poster.Given? && c.isUrl(poster.value) && !IsBlank(poster.value)
             && userId.Given?
  {
    var values := [title, caption, poster, IdField(userId)];
    var cols := Columns(c);
    assert cols[0].rules == [NotEmpty(TitleEmpty)];
    assert cols[1].rules == [NotEmpty(CaptionEmpty)];
    assert cols[2].rules == [Format(c.isUrl, UrlFormat), NotEmpty(PosterEmpty)];
    assert cols[3].rules == [];
    Accepts4(cols, values);
    if poster.Given? {
      PassesTwo(Format(c.isUrl, UrlFormat), NotEmpty(PosterEmpty), poster.value);
    }
    if title.Given? {
      PassesOne(NotEmpty(TitleEmpty), title.value);
    }
    if caption.Given? {
      PassesOne(NotEmpty(CaptionEmpty), caption.value);
    }
    if userId.Given? {
      assert Passes(cols[3].rules, values[3].value);
    }
  }

  /** A body with none of the three text fields gives the three 'ommitted' messages, in column order. */
  lemma AllOmitted(c: Checks, userId: int)
    ensures Errors(c, Absent, Absent, Absent, Given(userId))
         == [ErrorItem(TitleOmitted, "title"), ErrorItem(CaptionOmitted, "caption"), ErrorItem(PosterOmitted, "poster_image_url")]
  {
    var values := [Absent, Absent, Absent, IdField(Given(userId))];
    NullErrors4(Columns(c), values);
    ValueErrors4(Columns(c), values);
  }

  /** An omitted title reports only its `notNull` message, an empty one only its `notEmpty` message. */
  lemma TitleMessages(c: Checks, caption: string, poster: string, userId: int)
    requires !IsBlank(caption) && !IsBlank(poster) && c.isUrl(poster)
    ensures Errors(c, Absent, Given(caption), Given(poster), Given(userId)) == [ErrorItem(TitleOmitted, "title")]
    ensures Errors(c, Given(""), Given(caption), Given(poster), Given(userId)) == [ErrorItem(TitleEmpty, "title")]
  {
    var omitted := [Absent, Given(caption), Given(poster), IdField(Given(userId))];
    NullErrors4(Columns(c), omitted);
    ValueErrors4(Columns(c), omitted);
    var empty := [Given(""), Given(caption), Given(poster), IdField(Given(userId))];
    NullErrors4(Columns(c), empty);
    ValueErrors4(Columns(c), empty);
    PassingColumns(c, caption, poster);
  }

  /** An empty caption reports exactly 'Caption cannot be an empty sting'. */
  lemma EmptyCaption(c: Checks, title: string, poster: string, userId: int)
    requires !IsBlank(title) && !IsBlank(poster) && c.isUrl(poster)
    ensures Errors(c, Given(title), Given(""), Given(poster), Given(userId)) == [ErrorItem(CaptionEmpty, "caption")]
  {
    var values := [Given(title), Given(""), Given(poster), IdField(Given(userId))];
    NullErrors4(Columns(c), values);
    ValueErrors4(Columns(c), values);
    PassingColumns(c, title, poster);
  }

  /** An empty poster URL reports the format message, then the `notEmpty` one, when '' is not a URL. */
  lemma EmptyPoster(c: Checks, title: string, caption: string, userId: int)
    requires !IsBlank(title) && !IsBlank(caption) && !c.isUrl("")
    ensures Errors(c, Given(title), Given(caption), Given(""), Given(userId))
         == [ErrorItem(UrlFormat, "poster_image_url"), ErrorItem(PosterEmpty, "poster_image_url")]
  {
    var values := [Given(title), Given(caption), Given(""), IdField(Given(userId))];
    NullErrors4(Columns(c), values);
    ValueErrors4(Columns(c), values);
    PassingColumns(c, title, caption);
    var rules := [Format(c.isUrl, UrlFormat), NotEmpty(PosterEmpty)];
    assert rules[1..] == [NotEmpty(PosterEmpty)];
    assert RuleErrors("poster_image_url", rules[1..], "") == [ErrorItem(PosterEmpty, "poster_image_url")];
  }

  /** Columns whose values pass report nothing. */
  lemma PassingColumns(c: Checks, text: string, url: string)
    requires !IsBlank(text)
    ensures RuleErrors("title", [NotEmpty(TitleEmpty)], text) == []
    ensures RuleErrors("caption", [NotEmpty(CaptionEmpty)], text) == []
    ensures !IsBlank(url) && c.isUrl(url)
        ==> RuleErrors("poster_image_url", [Format(c.isUrl, UrlFormat), NotEmpty(PosterEmpty)], url) == []
  {
  }
}
