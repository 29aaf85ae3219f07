/** The SocialMedia record and its column rules. */
module SocialMediaModel {
  import opened Http
  import opened Validation

  /** A stored social-media link; its id is the key it is stored under. */
  datatype SocialMedia = SocialMedia(name: string, socialMediaUrl: string, userId: int)

  const NameOmitted := "Name cannot be omitted"
  const NameEmpty := "Name cannot be an empty string"
  const UrlOmitted := "Social Media URL cannot be omitted"
  const UrlEmpty := "Social Media URL cannot be an empty string"
  const UrlFormat := "Social Media URL must be in URL format"
  const UserIdOmitted := "User ID cannot be omitted"
  const UserIdEmpty := "User ID cannot be an empty string"

  /** `name` and `social_media_url`, the columns a client writes. */
  function TextColumns(c: Checks): (r: seq<Column>)
    ensures |r| == 2
  {
    [ Column("name", NameOmitted, [NotEmpty(NameEmpty)]),
      Column("social_media_url", UrlOmitted, [NotEmpty(UrlEmpty), Format(c.isUrl, UrlFormat)]) ]
  }

  function Columns(c: Checks): (r: seq<Column>)
    ensures |r| == 3
  {
    TextColumns(c) + [Column("UserId", UserIdOmitted, [NotEmpty(UserIdEmpty)])]
  }

  /** The error items creating a link from these values reports. */
  function Errors(c: Checks, name: Field<string>, url: Field<string>, userId: Field<int>): seq<ErrorItem>
  {
    Validate(Columns(c), [name, url, IdField(userId)])
  }

  /** The error items an update writing both text columns reports. */
  function UpdateErrorsOf(c: Checks, name: string, url: string): seq<ErrorItem>
  {
    UpdateErrors(TextColumns(c), [Given(name), Given(url)])
  }

  /** A link is accepted exactly when the three values are present, the name is not blank and the URL is a non-blank URL. */
  lemma AcceptedIff(c: Checks, name: Field<string>, url: Field<string>, userId: Field<int>)
    ensures Errors(c, name, url, userId) == []
        <==> && name.Given? && !IsBlank(name.value)
             && url.Given? && !IsBlank(url.value) && c.isUrl(url.value)
             && userId.Given?
  {
    var values := [name, url, IdField(userId)];
    var cols := Columns(c);
    assert cols[0].rules == [NotEmpty(NameEmpty)];
    assert cols[1].rules == [NotEmpty(UrlEmpty), Format(c.isUrl, UrlFormat)];
    assert cols[2].rules == [NotEmpty(UserIdEmpty)];
    Accepts3(cols, values);
    if name.Given? {
      PassesOne(NotEmpty(NameEmpty), name.value);
    }
    if url.Given? {
      PassesTwo(NotEmpty(UrlEmpty), Format(c.isUrl, UrlFormat), url.value);
    }
    if userId.Given? {
      PassesOne(NotEmpty(UserIdEmpty), values[2].value);
    }
  }

  /** An update is accepted exactly when the name is not blank and the URL is a non-blank URL. */
  lemma UpdateAcceptedIff(c: Checks, name: string, url: string)
    ensures UpdateErrorsOf(c, name, url) == [] <==> !IsBlank(name) && !IsBlank(url) && c.isUrl(url)
  {
    var cols := TextColumns(c);
    assert cols[0].rules == [NotEmpty(NameEmpty)];
    assert cols[1].rules == [NotEmpty(UrlEmpty), Format(c.isUrl, UrlFormat)];
    PassesOne(NotEmpty(NameEmpty), name);
    PassesTwo(NotEmpty(UrlEmpty), Format(c.isUrl, UrlFormat), url);
  }

  /** Columns whose values pass report nothing. */
  lemma PassingColumns(c: Checks, name: string, url: string, userId: int)
    ensures RuleErrors("UserId", [NotEmpty(UserIdEmpty)], DecimalText(userId)) == []
    ensures !IsBlank(name) ==> RuleErrors("name", [NotEmpty(NameEmpty)], name) == []
    ensures !IsBlank(url) && c.isUrl(url)
        ==> RuleErrors("social_media_url", [NotEmpty(UrlEmpty), Format(c.isUrl, UrlFormat)], url) == []
  {
  }

  /** An omitted name reports exactly 'Name cannot be omitted'. */
  lemma NameOmittedMessage(c: Checks, url: string, userId: int)
    requires !IsBlank(url) && c.isUrl(url)
    ensures Errors(c, Absent, Given(url), Given(userId)) == [ErrorItem(NameOmitted, "name")]
  {
    var values := [Absent, Given(url), IdField(Given(userId))];
    NullErrors3(Columns(c), values);
    ValueErrors3(Columns(c), values);
    PassingColumns(c, "", url, userId);
  }

  /** An empty name reports exactly 'Name cannot be an empty string'. */
  lemma NameEmptyMessage(c: Checks, url: string, userId: int)
    requires !IsBlank(url) && c.isUrl(url)
    ensures Errors(c, Given(""), Given(url), Given(userId)) == [ErrorItem(NameEmpty, "name")]
  {
    var values := [Given(""), Given(url), IdField(Given(userId))];
    NullErrors3(Columns(c), values);
    ValueErrors3(Columns(c), values);
    PassingColumns(c, "", url, userId);
  }

  /** An empty URL reports the `notEmpty` message, followed by the format message unless '' counts as a URL. */
  lemma EmptyUrl(c: Checks, name: string, userId: int)
    requires !IsBlank(name)
    ensures Errors(c, Given(name), Given(""), Given(userId))
         == [ErrorItem(UrlEmpty, "social_media_url")] + (if c.isUrl("") then [] else [ErrorItem(UrlFormat, "social_media_url")])
  {
    var values := [Given(name), Given(""), IdField(Given(userId))];
    NullErrors3(Columns(c), values);
    ValueErrors3(Columns(c), values);
    var rules := [NotEmpty(UrlEmpty), Format(c.isUrl, UrlFormat)];
    assert rules[1..] == [Format(c.isUrl, UrlFormat)];
    assert RuleErrors("social_media_url", [Format(c.isUrl, UrlFormat)], "")
        == if c.isUrl("") then [] else [ErrorItem(UrlFormat, "social_media_url")];
    PassingColumns(c, name, "", userId);
  }

  /** A non-blank value that is not a URL reports exactly 'Social Media URL must be in URL format'. */
  lemma NotAUrl(c: Checks, name: string, url: string, userId: int)
    requires !IsBlank(name) && !IsBlank(url) && !c.isUrl(url)
    ensures Errors(c, Given(name), Given(url), Given(userId)) == [ErrorItem(UrlFormat, "social_media_url")]
  {
    var values := [Given(name), Given(url), IdField(Given(userId))];
    NullErrors3(Columns(c), values);
    ValueErrors3(Columns(c), values);
    var rules := [NotEmpty(UrlEmpty), Format(c.isUrl, UrlFormat)];
    assert rules[1..] == [Format(c.isUrl, UrlFormat)];
    assert RuleErrors("social_media_url", [Format(c.isUrl, UrlFormat)], url) == [ErrorItem(UrlFormat, "social_media_url")];
    PassingColumns(c, name, "", userId);
  }
}
