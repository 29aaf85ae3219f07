/**
 * The User record and its column rules. None of the columns gives its own
 * messages, so a missing value reports '<Model>.<column> cannot be null' and a
 * failed validator 'Validation <validator> on <column> failed'.
 */
module UserModel {
  import opened Http
  import opened Validation

  /** A stored user. `age` is kept as the text the validators receive. */
  datatype User = User(
    fullName: string, email: string, username: string, password: string,
    profileImageUrl: string, age: string, phoneNumber: string)

  /** A user as the photo and social-media listings include it: id, username and profile image. */
  datatype Summary = Summary(id: int, username: string, profileImageUrl: string)

  /** The included user with key `id`, `null` when there is none. */
  function SummaryOf(users: map<int, User>, id: int): (r: Option<Summary>)
    ensures r.Some? <==> id in users
    ensures r.Some? ==> r.value == Summary(id, users[id].username, users[id].profileImageUrl)
  {
    if id in users then Some(Summary(id, users[id].username, users[id].profileImageUrl)) else None
  }

  /** The seven fields of a registration body, each possibly left out. */
  datatype Input = Input(
    fullName: Field<string>, email: Field<string>, username: Field<string>, password: Field<string>,
    profileImageUrl: Field<string>, age: Field<string>, phoneNumber: Field<string>)

  /** A column whose only validator is `notEmpty`. */
  function Required(column: string, nullMessage: string, emptyMessage: string): Column
  {
    Column(column, nullMessage, [NotEmpty(emptyMessage)])
  }

  /** A column validated by a format check first and `notEmpty` second. */
  function Checked(column: string, nullMessage: string, holds: string -> bool, formatMessage: string, emptyMessage: string): Column
  {
    Column(column, nullMessage, [Format(holds, formatMessage), NotEmpty(emptyMessage)])
  }

  /** The columns in declaration order. */
  function Columns(c: Checks): (r: seq<Column>)
    ensures |r| == 7
  {
    [ Required("full_name", "User.full_name cannot be null", "Validation notEmpty on full_name failed"),
      Checked("email", "User.email cannot be null", c.isEmail,
        "Validation isEmail on email failed", "Validation notEmpty on email failed"),
      Required("username", "User.username cannot be null", "Validation notEmpty on username failed"),
      Required("password", "User.password cannot be null", "Validation notEmpty on password failed"),
      Checked("profile_image_url", "User.profile_image_url cannot be null", c.isUrl,
        "Validation isUrl on profile_image_url failed", "Validation notEmpty on profile_image_url failed"),
      Checked("age", "User.age cannot be null", c.isInt,
        "Validation isInt on age failed", "Validation notEmpty on age failed"),
      Checked("phone_number", "User.phone_number cannot be null", c.isNumeric,
        "Validation isNumeric on phone_number failed", "Validation notEmpty on phone_number failed") ]
  }

  function Values(input: Input): (r: seq<Field<string>>)
    ensures |r| == 7
  {
    [ input.fullName, input.email, input.username, input.password,
      input.profileImageUrl, input.age, input.phoneNumber ]
  }

  /** The error items creating a user from `input` reports. */
  function Errors(c: Checks, input: Input): seq<ErrorItem>
  {
    Validate(Columns(c), Values(input))
  }

  /** Every field of the body is given. */
  predicate Complete(input: Input)
  {
    && input.fullName.Given? && input.email.Given? && input.username.Given? && input.password.Given?
    && input.profileImageUrl.Given? && input.age.Given? && input.phoneNumber.Given?
  }

  /** A value for a `notEmpty`-only column. */
  predicate FilledIn(f: Field<string>)
  {
    f.Given? && !IsBlank(f.value)
  }

  /** A value for a column with a format check. */
  predicate Shaped(f: Field<string>, holds: string -> bool)
  {
    f.Given? && !IsBlank(f.value) && holds(f.value)
  }

  /**
   * A registration is accepted exactly when every field is present and not
   * blank, the email is an email, the image a URL, the age an integer and the
   * phone number numeric.
   */
  lemma AcceptedIff(c: Checks, input: Input)
    ensures Errors(c, input) == []
        <==> && FilledIn(input.fullName) && Shaped(input.email, c.isEmail)
             && FilledIn(input.username) && FilledIn(input.password)
             && Shaped(input.profileImageUrl, c.isUrl) && Shaped(input.age, c.isInt)
             && Shaped(input.phoneNumber, c.isNumeric)
  {
    var cols := Columns(c);
    var values := Values(input);
    RequiredPasses(cols[0], input.fullName);
    CheckedPasses(cols[1], input.email, c.isEmail);
    RequiredPasses(cols[2], input.username);
    RequiredPasses(cols[3], input.password);
    CheckedPasses(cols[4], input.profileImageUrl, c.isUrl);
    CheckedPasses(cols[5], input.age, c.isInt);
    CheckedPasses(cols[6], input.phoneNumber, c.isNumeric);
    assert Accepts(cols, values)
        <==> forall i :: 0 <= i < 7 ==> values[i].Given? && Passes(cols[i].rules, values[i].value);
    if !Accepts(cols, values) {
      var i :| 0 <= i < 7 && !(values[i].Given? && Passes(cols[i].rules, values[i].value));
      assert i in {0, 1, 2, 3, 4, 5, 6};
    }
  }

  /** An accepted registration has all seven fields. */
  lemma AcceptedIsComplete(c: Checks, input: Input)
    ensures Errors(c, input) == [] ==> Complete(input)
  {
    AcceptedIff(c, input);
  }

  lemma RequiredPasses(column: Column, f: Field<string>)
    requires |column.rules| == 1 && column.rules[0].NotEmpty?
    ensures (f.Given? && Passes(column.rules, f.value)) <==> FilledIn(f)
  {
    assert column.rules == [column.rules[0]];
    if f.Given? {
      PassesOne(column.rules[0], f.value);
    }
  }

  lemma CheckedPasses(column: Column, f: Field<string>, holds: string -> bool)
    requires |column.rules| == 2 && column.rules[0].Format? && column.rules[0].holds == holds && column.rules[1].NotEmpty?
    ensures (f.Given? && Passes(column.rules, f.value)) <==> Shaped(f, holds)
  {
    assert column.rules == [column.rules[0], column.rules[1]];
    if f.Given? {
      PassesTwo(column.rules[0], column.rules[1], f.value);
    }
  }

  /**
   * Each left-out field reports 'User.<column> cannot be null' among the
   * leading missing-column messages; every validator message comes after them.
   */
  lemma OmittedReported(c: Checks, input: Input, i: nat)
    requires i < 7 && Values(input)[i].Absent?
    ensures ErrorItem(Columns(c)[i].nullMessage, Columns(c)[i].name) in Errors(c, input)
    ensures var n := |NullErrors(Columns(c), Values(input), 0)|;
      && ErrorItem(Columns(c)[i].nullMessage, Columns(c)[i].name) in Errors(c, input)[..n]
      && Errors(c, input)[n..] == ValueErrors(Columns(c), Values(input), 0)
  {
    NullBeforeValue(Columns(c), Values(input), i);
  }

  /** An email that is not an email reports 'Validation isEmail on email failed'. */
  lemma BadEmailReported(c: Checks, input: Input)
    requires input.email.Given? && !c.isEmail(input.email.value)
    ensures ErrorItem("Validation isEmail on email failed", "email") in Errors(c, input)
  {
    ValidateReports(Columns(c), Values(input), 1, 0);
  }

  /** A profile image that is not a URL reports 'Validation isUrl on profile_image_url failed'. */
  lemma BadUrlReported(c: Checks, input: Input)
    requires input.profileImageUrl.Given? && !c.isUrl(input.profileImageUrl.value)
    ensures ErrorItem("Validation isUrl on profile_image_url failed", "profile_image_url") in Errors(c, input)
  {
    ValidateReports(Columns(c), Values(input), 4, 0);
  }

  /** An age that is not an integer reports 'Validation isInt on age failed'. */
  lemma BadAgeReported(c: Checks, input: Input)
    requires input.age.Given? && !c.isInt(input.age.value)
    ensures ErrorItem("Validation isInt on age failed", "age") in Errors(c, input)
  {
    ValidateReports(Columns(c), Values(input), 5, 0);
  }

  /** A phone number that is not numeric reports 'Validation isNumeric on phone_number failed'. */
  lemma BadPhoneReported(c: Checks, input: Input)
    requires input.phoneNumber.Given? && !c.isNumeric(input.phoneNumber.value)
    ensures ErrorItem("Validation isNumeric on phone_number failed", "phone_number") in Errors(c, input)
  {
    ValidateReports(Columns(c), Values(input), 6, 0);
  }
}
