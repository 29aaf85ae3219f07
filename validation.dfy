/**
 * How the models' `validate` tables are applied to a record before it is
 * written. A column with `allowNull: false` whose value is missing yields its
 * `notNull` message; a present value is run through the column's validators in
 * the order they are declared. All missing-column messages are collected
 * before any validator message, each group in column order.
 */
module Validation {
  import opened Http

  /**
   * The validator.js format checks the models name. Their definitions are not
   * part of this model: they are whatever functions the caller supplies.
   */
  datatype Checks = Checks(
    isUrl: string -> bool,
    isEmail: string -> bool,
    isInt: string -> bool,
    isNumeric: string -> bool)

  /** A character of the JavaScript class `\s`. */
  predicate IsSpace(c: char)
  {
    c in {' ', '\t', '\n', '\r', '\U{000B}', '\U{000C}', '\U{00A0}', '\U{1680}',
          '\U{2000}', '\U{2001}', '\U{2002}', '\U{2003}', '\U{2004}', '\U{2005}',
          '\U{2006}', '\U{2007}', '\U{2008}', '\U{2009}', '\U{200A}', '\U{2028}',
          '\U{2029}', '\U{202F}', '\U{205F}', '\U{3000}', '\U{FEFF}'}
  }

  /** What `notEmpty` rejects: a string matching `/^[\s\t\r\n]*$/`. */
  predicate IsBlank(s: string)
  {
    forall i :: 0 <= i < |s| ==> IsSpace(s[i])
  }

  /** One entry of a column's `validate` table, other than `notNull`. */
  datatype Rule = NotEmpty(message: string) | Format(holds: string -> bool, message: string)

  /** A column with `allowNull: false`: its name, its `notNull` message and its other validators. */
  datatype Column = Column(name: string, nullMessage: string, rules: seq<Rule>)

  predicate Fails(rule: Rule, s: string)
  {
    match rule
    case NotEmpty(_) => IsBlank(s)
    case Format(holds, _) => !holds(s)
  }

  /** The validators of `rules` that `s` passes, all of them. */
  predicate Passes(rules: seq<Rule>, s: string)
  {
    forall k :: 0 <= k < |rules| ==> !Fails(rules[k], s)
  }

  /** The error items of the validators `s` fails, in declaration order. */
  function RuleErrors(name: string, rules: seq<Rule>, s: string): (r: seq<ErrorItem>)
    ensures |r| <= |rules|
    ensures r == [] <==> Passes(rules, s)
    ensures forall i :: 0 <= i < |r| ==> r[i].path == name
  {
    if rules == [] then []
    else
      var rest := RuleErrors(name, rules[1..], s);
      assert Passes(rules, s) <==> !Fails(rules[0], s) && Passes(rules[1..], s) by {
        if !Fails(rules[0], s) && Passes(rules[1..], s) {
          forall k | 0 <= k < |rules| ensures !Fails(rules[k], s) {
            if k > 0 { assert rules[k] == rules[1..][k - 1]; }
          }
        }
      }
      if Fails(rules[0], s) then [ErrorItem(rules[0].message, name)] + rest else rest
  }

  /** The positions from `k` on in `rules` of the validators `s` fails, scanning forward. */
  function Failing(rules: seq<Rule>, s: string, k: nat): (r: seq<int>)
    requires k <= |rules|
    decreases |rules| - k
    ensures forall i :: 0 <= i < |r| ==> k <= r[i] < |rules|
  {
    if k == |rules| then []
    else (if Fails(rules[k], s) then [k] else []) + Failing(rules, s, k + 1)
  }

  /** `Failing` lists only positions whose validator fails. */
  lemma {:induction false} FailingSound(rules: seq<Rule>, s: string, k: nat)
    requires k <= |rules|
    decreases |rules| - k
    ensures forall i :: 0 <= i < |Failing(rules, s, k)| ==> Fails(rules[Failing(rules, s, k)[i]], s)
  {
    if k < |rules| {
      FailingSound(rules, s, k + 1);
      var tail := Failing(rules, s, k + 1);
      var r := Failing(rules, s, k);
      if Fails(rules[k], s) {
        assert r == [k] + tail;
        forall i | 0 <= i < |r| ensures Fails(rules[r[i]], s) {
          if i > 0 { assert r[i] == tail[i - 1]; }
        }
      } else {
        assert r == tail;
      }
    }
  }

  /** `Failing` lists its positions in ascending order, so each at most once. */
  lemma {:induction false} FailingAscending(rules: seq<Rule>, s: string, k: nat)
    requires k <= |rules|
    decreases |rules| - k
    ensures forall i, j :: 0 <= i < j < |Failing(rules, s, k)| ==> Failing(rules, s, k)[i] < Failing(rules, s, k)[j]
  {
    if k < |rules| {
      FailingAscending(rules, s, k + 1);
      var tail := Failing(rules, s, k + 1);
      var r := Failing(rules, s, k);
      if Fails(rules[k], s) {
        assert r == [k] + tail;
        forall i, j | 0 <= i < j < |r| ensures r[i] < r[j] {
          assert r[j] == tail[j - 1];
          if i > 0 { assert r[i] == tail[i - 1]; }
        }
      } else {
        assert r == tail;
      }
    }
  }

  /** `Failing` misses no failing position from `k` on. */
  lemma {:induction false} FailingComplete(rules: seq<Rule>, s: string, k: nat, j: nat)
    requires k <= j < |rules| && Fails(rules[j], s)
    decreases j - k
    ensures j in Failing(rules, s, k)
  {
    var tail := Failing(rules, s, k + 1);
    if Fails(rules[k], s) {
      assert Failing(rules, s, k) == [k] + tail;
    } else {
      assert Failing(rules, s, k) == tail;
    }
    if j > k {
      FailingComplete(rules, s, k + 1, j);
    }
  }

  /** The items the validators from `k` on report, matched with the failing positions from `k` on. */
  lemma {:induction false} RuleErrorsFrom(name: string, rules: seq<Rule>, s: string, k: nat)
    requires k <= |rules|
    decreases |rules| - k
    ensures |RuleErrors(name, rules[k..], s)| == |Failing(rules, s, k)|
    ensures forall i :: 0 <= i < |Failing(rules, s, k)| ==>
              RuleErrors(name, rules[k..], s)[i] == ErrorItem(rules[Failing(rules, s, k)[i]].message, name)
  {
    if k < |rules| {
      RuleErrorsFrom(name, rules, s, k + 1);
      var tail := Failing(rules, s, k + 1);
      var rest := RuleErrors(name, rules[k + 1..], s);
      assert rules[k..][0] == rules[k];
      assert rules[k..][1..] == rules[k + 1..];
      var all := Failing(rules, s, k);
      var items := RuleErrors(name, rules[k..], s);
      if Fails(rules[k], s) {
        assert all == [k] + tail;
        assert items == [ErrorItem(rules[k].message, name)] + rest;
        forall i | 0 <= i < |all| ensures items[i] == ErrorItem(rules[all[i]].message, name) {
          if i > 0 {
            assert all[i] == tail[i - 1] && items[i] == rest[i - 1];
          }
        }
      } else {
        assert all == tail;
        assert items == rest;
        forall i | 0 <= i < |all| ensures items[i] == ErrorItem(rules[all[i]].message, name) {
          assert all[i] == tail[i] && items[i] == rest[i];
        }
      }
    }
  }

  /**
   * The items a column reports are the messages of its failing validators,
   * one per failing validator, in declaration order: the i-th item belongs to
   * the i-th failing position, and those positions ascend and miss none.
   */
  lemma RuleErrorsInOrder(name: string, rules: seq<Rule>, s: string)
    ensures var f := Failing(rules, s, 0);
      && (forall i :: 0 <= i < |f| ==> 0 <= f[i] < |rules| && Fails(rules[f[i]], s))
      && (forall i, j :: 0 <= i < j < |f| ==> f[i] < f[j])
      && (forall j :: 0 <= j < |rules| && Fails(rules[j], s) ==> j in f)
    ensures |RuleErrors(name, rules, s)| == |Failing(rules, s, 0)|
    ensures forall i :: 0 <= i < |Failing(rules, s, 0)| ==>
              RuleErrors(name, rules, s)[i] == ErrorItem(rules[Failing(rules, s, 0)[i]].message, name)
  {
    FailingSound(rules, s, 0);
    FailingAscending(rules, s, 0);
    forall j | 0 <= j < |rules| && Fails(rules[j], s) ensures j in Failing(rules, s, 0) {
      FailingComplete(rules, s, 0, j);
    }
    RuleErrorsFrom(name, rules, s, 0);
    assert rules[0..] == rules;
  }

  /** The `notNull` message of `column` when its value is missing. */
  function NullError(column: Column, value: Field<string>): seq<ErrorItem>
  {
    if value.Absent? then [ErrorItem(column.nullMessage, column.name)] else []
  }

  /** The validator messages of `column` when its value is present. */
  function ValueError(column: Column, value: Field<string>): seq<ErrorItem>
  {
    if value.Given? then RuleErrors(column.name, column.rules, value.value) else []
  }

  /** The `notNull` messages of the columns from `k` on whose value is missing, in column order. */
  function NullErrors(columns: seq<Column>, values: seq<Field<string>>, k: nat): (r: seq<ErrorItem>)
    requires |columns| == |values| && k <= |values|
    decreases |values| - k
    ensures r == [] <==> forall i :: k <= i < |values| ==> values[i].Given?
  {
    if k == |values| then [] else NullError(columns[k], values[k]) + NullErrors(columns, values, k + 1)
  }

  /** The validator messages of the columns from `k` on whose value is present, in column order. */
  function ValueErrors(columns: seq<Column>, values: seq<Field<string>>, k: nat): (r: seq<ErrorItem>)
    requires |columns| == |values| && k <= |values|
    decreases |values| - k
    ensures r == [] <==> forall i :: k <= i < |values| && values[i].Given? ==> Passes(columns[i].rules, values[i].value)
  {
    if k == |values| then [] else ValueError(columns[k], values[k]) + ValueErrors(columns, values, k + 1)
  }

  /** Every column is present and passes its validators. */
  predicate Accepts(columns: seq<Column>, values: seq<Field<string>>)
    requires |columns| == |values|
  {
    forall i :: 0 <= i < |values| ==> values[i].Given? && Passes(columns[i].rules, values[i].value)
  }

  /** The error items a create reports: missing columns first, then failed validators. */
  function Validate(columns: seq<Column>, values: seq<Field<string>>): (r: seq<ErrorItem>)
    requires |columns| == |values|
    ensures r == [] <==> Accepts(columns, values)
  {
    NullErrors(columns, values, 0) + ValueErrors(columns, values, 0)
  }

  /** What an update reports: only the present columns are validated, the others are skipped. */
  function UpdateErrors(columns: seq<Column>, values: seq<Field<string>>): (r: seq<ErrorItem>)
    requires |columns| == |values|
    ensures r == [] <==> forall i :: 0 <= i < |values| && values[i].Given? ==> Passes(columns[i].rules, values[i].value)
  {
    ValueErrors(columns, values, 0)
  }

  /** The missing-column messages of three columns, column by column. */
  lemma NullErrors3(columns: seq<Column>, values: seq<Field<string>>)
    requires |columns| == |values| == 3
    ensures NullErrors(columns, values, 0)
         == NullError(columns[0], values[0]) + (NullError(columns[1], values[1]) + NullError(columns[2], values[2]))
  {
    assert NullErrors(columns, values, 3) == [];
    assert NullErrors(columns, values, 2) == NullError(columns[2], values[2]) + [];
  }

  /** The validator messages of three columns, column by column. */
  lemma ValueErrors3(columns: seq<Column>, values: seq<Field<string>>)
    requires |columns| == |values| == 3
    ensures ValueErrors(columns, values, 0)
         == ValueError(columns[0], values[0]) + (ValueError(columns[1], values[1]) + ValueError(columns[2], values[2]))
  {
    assert ValueErrors(columns, values, 3) == [];
    assert ValueErrors(columns, values, 2) == ValueError(columns[2], values[2]) + [];
  }

  /** The missing-column messages of four columns, column by column. */
  lemma NullErrors4(columns: seq<Column>, values: seq<Field<string>>)
    requires |columns| == |values| == 4
    ensures NullErrors(columns, values, 0)
         == NullError(columns[0], values[0]) + (NullError(columns[1], values[1])
          + (NullError(columns[2], values[2]) + NullError(columns[3], values[3])))
  {
    assert NullErrors(columns, values, 4) == [];
    assert NullErrors(columns, values, 3) == NullError(columns[3], values[3]) + [];
    assert NullErrors(columns, values, 2) == NullError(columns[2], values[2]) + NullError(columns[3], values[3]);
  }

  /** The validator messages of four columns, column by column. */
  lemma ValueErrors4(columns: seq<Column>, values: seq<Field<string>>)
    requires |columns| == |values| == 4
    ensures ValueErrors(columns, values, 0)
         == ValueError(columns[0], values[0]) + (ValueError(columns[1], values[1])
          + (ValueError(columns[2], values[2]) + ValueError(columns[3], values[3])))
  {
    assert ValueErrors(columns, values, 4) == [];
    assert ValueErrors(columns, values, 3) == ValueError(columns[3], values[3]) + [];
    assert ValueErrors(columns, values, 2) == ValueError(columns[2], values[2]) + ValueError(columns[3], values[3]);
  }

  /** `Accepts` over four columns, column by column. */
  lemma Accepts4(columns: seq<Column>, values: seq<Field<string>>)
    requires |columns| == |values| == 4
    ensures Accepts(columns, values)
        <==> && values[0].Given? && Passes(columns[0].rules, values[0].value)
             && values[1].Given? && Passes(columns[1].rules, values[1].value)
             && values[2].Given? && Passes(columns[2].rules, values[2].value)
             && values[3].Given? && Passes(columns[3].rules, values[3].value)
  {
  }

  /** A missing column's `notNull` message is among the missing-column messages from any `k` at or before it. */
  lemma {:induction false} NullReported(columns: seq<Column>, values: seq<Field<string>>, k: nat, i: nat)
    requires |columns| == |values| && k <= i < |values|
    requires values[i].Absent?
    ensures ErrorItem(columns[i].nullMessage, columns[i].name) in NullErrors(columns, values, k)
    decreases i - k
  {
    var here := NullError(columns[k], values[k]);
    var rest := NullErrors(columns, values, k + 1);
    assert NullErrors(columns, values, k) == here + rest;
    if k < i {
      NullReported(columns, values, k + 1, i);
      assert ErrorItem(columns[i].nullMessage, columns[i].name) in rest;
    } else {
      assert ErrorItem(columns[i].nullMessage, columns[i].name) in here;
    }
  }

  /** A failing validator's message is among the validator messages of its column. */
  lemma {:induction false} RuleReported(name: string, rules: seq<Rule>, s: string, j: nat)
    requires j < |rules| && Fails(rules[j], s)
    ensures ErrorItem(rules[j].message, name) in RuleErrors(name, rules, s)
    decreases j
  {
    if j > 0 {
      RuleReported(name, rules[1..], s, j - 1);
      assert rules[1..][j - 1] == rules[j];
    }
  }

  /** A present value failing a validator of its column reports that validator's message. */
  lemma {:induction false} ValueReported(columns: seq<Column>, values: seq<Field<string>>, k: nat, i: nat, j: nat)
    requires |columns| == |values| && k <= i < |values|
    requires values[i].Given? && j < |columns[i].rules| && Fails(columns[i].rules[j], values[i].value)
    ensures ErrorItem(columns[i].rules[j].message, columns[i].name) in ValueErrors(columns, values, k)
    decreases i - k
  {
    var here := ValueError(columns[k], values[k]);
    var rest := ValueErrors(columns, values, k + 1);
    assert ValueErrors(columns, values, k) == here + rest;
    var item := ErrorItem(columns[i].rules[j].message, columns[i].name);
    if k < i {
      ValueReported(columns, values, k + 1, i, j);
      assert item in rest;
    } else {
      RuleReported(columns[i].name, columns[i].rules, values[i].value, j);
      assert item in here;
    }
  }

  /** A present value failing a validator of its column makes a create report that validator's message. */
  lemma ValidateReports(columns: seq<Column>, values: seq<Field<string>>, i: nat, j: nat)
    requires |columns| == |values| && i < |values|
    requires values[i].Given? && j < |columns[i].rules| && Fails(columns[i].rules[j], values[i].value)
    ensures ErrorItem(columns[i].rules[j].message, columns[i].name) in Validate(columns, values)
  {
    ValueReported(columns, values, 0, i, j);
  }

  /** Every missing-column message comes before every validator message. */
  lemma NullBeforeValue(columns: seq<Column>, values: seq<Field<string>>, i: nat)
    requires |columns| == |values| && i < |values| && values[i].Absent?
    ensures |Validate(columns, values)| > 0
    ensures ErrorItem(columns[i].nullMessage, columns[i].name) in Validate(columns, values)[..|NullErrors(columns, values, 0)|]
    ensures Validate(columns, values)[|NullErrors(columns, values, 0)|..] == ValueErrors(columns, values, 0)
  {
    NullReported(columns, values, 0, i);
    var n := NullErrors(columns, values, 0);
    assert Validate(columns, values)[..|n|] == n;
    assert Validate(columns, values)[|n|..] == ValueErrors(columns, values, 0);
  }

  /** `Accepts` over three columns, column by column. */
  lemma Accepts3(columns: seq<Column>, values: seq<Field<string>>)
    requires |columns| == |values| == 3
    ensures Accepts(columns, values)
        <==> && values[0].Given? && Passes(columns[0].rules, values[0].value)
             && values[1].Given? && Passes(columns[1].rules, values[1].value)
             && values[2].Given? && Passes(columns[2].rules, values[2].value)
  {
  }

  /** A single validator passes exactly when it does not fail. */
  lemma PassesOne(a: Rule, s: string)
    ensures Passes([a], s) <==> !Fails(a, s)
  {
    assert [a][0] == a;
  }

  /** Two validators pass exactly when neither fails. */
  lemma PassesTwo(a: Rule, b: Rule, s: string)
    ensures Passes([a, b], s) <==> !Fails(a, s) && !Fails(b, s)
  {
    assert [a, b][0] == a && [a, b][1] == b;
  }

  /** The error a failed validation throws. */
  function ValidationError(items: seq<ErrorItem>): AppError
  {
    AppError("SequelizeValidationError", items, "", "")
  }

  function DigitChar(d: int): char
    requires 0 <= d < 10
  {
    "0123456789"[d]
  }

  /** The decimal digits of `n`, most significant first. */
  function Digits(n: nat): (s: string)
    decreases n
    ensures |s| > 0 && '0' <= s[0] <= '9'
  {
    if n < 10 then [DigitChar(n)] else Digits(n / 10) + [DigitChar(n % 10)]
  }

  /** `String(n)`: the text a validator receives for an integer column. */
  function DecimalText(n: int): (s: string)
    ensures !IsBlank(s)
  {
    var s := if n < 0 then "-" + Digits(-n) else Digits(n);
    assert !IsSpace(s[0]);
    s
  }

  /** An integer body field as the validators see it. */
  function IdField(f: Field<int>): (r: Field<string>)
    ensures r.Given? <==> f.Given?
    ensures r.Given? ==> !IsBlank(r.value)
  {
    match f
    case Absent => Absent
    case Given(n) => Given(DecimalText(n))
  }
}
