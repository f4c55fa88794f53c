/** The "add habit" form (`components/habits/add-habit-dialog.tsx`): the validation schema the
    form is resolved against, its default values, the parsing of the target field, and the
    reminder-day buttons. */
module AddHabit {
  import opened Text
  import opened Lists
  import opened Entities

  const HabitTypes: seq<string> := ["good", "bad"]
  const Categories: seq<string> :=
    ["business", "learning", "creativity", "wellness", "mindfulness", "networking", "productivity"]
  const Frequencies: seq<string> := ["daily", "weekly", "monthly"]
  const WeekDays: seq<string> := ["Mon", "Tue", "Wed", "Thu", "Fri", "Sat", "Sun"]

  /** The form values as the resolver receives them; `None` is a field the user never set.
      `target` is `None` when the number input parsed to NaN. */
  datatype HabitForm = HabitForm(
    name: Option<string>,
    habitType: Option<string>,
    category: Option<string>,
    description: Option<string>,
    target: Option<int>,
    unit: Option<string>,
    frequency: Option<string>,
    reminder: Option<bool>,
    reminderTime: Option<string>,
    reminderDays: Option<seq<string>>)

  /** The schema's keys that can be rejected, in declaration order (the optional ones accept
      every value the form can hold). */
  datatype Field = NameField | TypeField | CategoryField | TargetField | FrequencyField | ReminderField

  const CheckedFields: seq<Field> :=
    [NameField, TypeField, CategoryField, TargetField, FrequencyField, ReminderField]

  /** `s` is one of the enumeration's options. */
  predicate Among(s: string, options: seq<string>)
    decreases |options|
  {
    options != [] && (options[0] == s || Among(s, options[1..]))
  }

  /** One key of the schema: a name of at least 2 characters, a type, category and frequency
      from their enumerations, a target of at least 1, and a reminder flag that is set. */
  predicate FieldOk(f: HabitForm, field: Field)
  {
    match field
    case NameField => f.name.Some? && |f.name.value| >= 2
    case TypeField => f.habitType.Some? && Among(f.habitType.value, HabitTypes)
    case CategoryField => f.category.Some? && Among(f.category.value, Categories)
    case TargetField => f.target.Some? && f.target.value >= 1
    case FrequencyField => f.frequency.Some? && Among(f.frequency.value, Frequencies)
    case ReminderField => f.reminder.Some?
  }

  lemma EveryFieldChecked()
    ensures forall field :: field in CheckedFields
  {
    forall field ensures field in CheckedFields {
      match field
      case NameField => assert CheckedFields[0] == field;
      case TypeField => assert CheckedFields[1] == field;
      case CategoryField => assert CheckedFields[2] == field;
      case TargetField => assert CheckedFields[3] == field;
      case FrequencyField => assert CheckedFields[4] == field;
      case ReminderField => assert CheckedFields[5] == field;
    }
  }

  /** The form passes the schema. */
  predicate Valid(f: HabitForm)
  {
    forall field :: FieldOk(f, field)
  }

  /** The keys among `fields` whose check fails, in the order given. */
  function Failing(f: HabitForm, fields: seq<Field>): (r: seq<Field>)
    ensures forall field :: field in r <==> field in fields && !FieldOk(f, field)
    decreases |fields|
  {
    if fields == [] then []
    else
      var rest := Failing(f, fields[1..]);
      assert forall field :: field in fields <==> field == fields[0] || field in fields[1..];
      (if FieldOk(f, fields[0]) then [] else [fields[0]]) + rest
  }

  /** The keys the resolver reports, in schema order: exactly the ones whose check fails. */
  function Issues(f: HabitForm): (r: seq<Field>)
    ensures forall field :: field in r <==> !FieldOk(f, field)
    ensures r == [] <==> Valid(f)
  {
    EveryFieldChecked();
    var r := Failing(f, CheckedFields);
    assert r != [] ==> r[0] in r;
    r
  }

  /** `defaultValues`: a good, daily, business habit with target 1 and no reminder, and no name. */
  function Defaults(): (f: HabitForm)
    ensures f.name.None? && f.target == Some(1) && f.reminder == Some(false)
    ensures f.habitType == Some("good") && f.category == Some("business") && f.frequency == Some("daily")
    ensures f.description.None? && f.unit.None? && f.reminderTime.None? && f.reminderDays.None?
  {
    HabitForm(None, Some("good"), Some("business"), None, Some(1), None, Some("daily"), Some(false),
              None, None)
  }

  /** The untouched form is rejected, and only because the name is missing. */
  lemma UntouchedFormRejected()
    ensures Issues(Defaults()) == [NameField]
  {
    var f := Defaults();
    assert "good" == HabitTypes[0] && "business" == Categories[0] && "daily" == Frequencies[0];
    assert Failing(f, CheckedFields[5..]) == [];
    assert Failing(f, CheckedFields[4..]) == [];
    assert Failing(f, CheckedFields[3..]) == [];
    assert Failing(f, CheckedFields[2..]) == [];
    assert Failing(f, CheckedFields[1..]) == [];
  }

  /** Typing a name into the untouched form makes it valid exactly when the name has at
      least 2 characters. */
  lemma NamedDefaultsValid(n: string)
    ensures Valid(Defaults().(name := Some(n))) <==> |n| >= 2
  {
    var f := Defaults().(name := Some(n));
    assert "good" == HabitTypes[0] && "business" == Categories[0] && "daily" == Frequencies[0];
    if |n| >= 2 {
      forall field ensures FieldOk(f, field) {
      }
    } else {
      assert !FieldOk(f, NameField);
    }
  }

  /** The leading run of decimal digits of `s`. */
  function LeadingDigits(s: string): (r: string)
    ensures IsDigits(r) && r <= s
    ensures |r| < |s| ==> !IsDigit(s[|r|])
    decreases |s|
  {
    if s == [] || !IsDigit(s[0]) then [] else [s[0]] + LeadingDigits(s[1..])
  }

  /** `r` is what is left of `s` once some prefix is removed. */
  predicate EndOf(r: string, s: string)
  {
    |r| <= |s| && r == s[|s| - |r|..]
  }

  /** `s` without its leading white space. */
  function TrimStart(s: string): (r: string)
    ensures EndOf(r, s)
    ensures r != [] ==> !IsWhiteSpace(r[0])
    decreases |s|
  {
    if s != [] && IsWhiteSpace(s[0]) then
      var r := TrimStart(s[1..]);
      assert s[1..][|s| - 1 - |r|..] == s[|s| - |r|..];
      r
    else s
  }

  /** `TrimStart` removes exactly a leading run of white space: what it returns is a suffix of
      `s`, and every character before that suffix is white space. */
  lemma {:induction false} TrimStartStripsBlank(s: string)
    ensures |TrimStart(s)| <= |s| && TrimStart(s) == s[|s| - |TrimStart(s)|..]
    ensures forall i :: 0 <= i < |s| - |TrimStart(s)| ==> IsWhiteSpace(s[i])
    decreases |s|
  {
    if s != [] && IsWhiteSpace(s[0]) {
      TrimStartStripsBlank(s[1..]);
      var r := TrimStart(s[1..]);
      assert TrimStart(s) == r;
      assert s[1..][|s| - 1 - |r|..] == s[|s| - |r|..];
      forall i | 1 <= i < |s| - |r|
        ensures IsWhiteSpace(s[i])
      {
        assert s[i] == s[1..][i - 1];
      }
    }
  }

  /** `parseInt(text)` in base 10, as the target input's change handler applies it: leading
      white space is skipped, then `ParseSigned` reads the rest; with no digit the result is
      NaN (`None`). */
  function ParseInt(text: string): (r: Option<int>)
    ensures r.Some? ==> exists k :: 0 <= k < |text| && IsDigit(text[k])
  {
    TrimStartSuffix(text);
    ParseSigned(TrimStart(text))
  }

  /** An optional sign, then as many digits as follow; `None` when no digit follows. */
  function ParseSigned(t: string): (r: Option<int>)
    ensures r.Some? ==> exists k :: 0 <= k < |t| && IsDigit(t[k])
  {
    var negative := t != [] && t[0] == '-';
    var unsigned := if t != [] && (t[0] == '-' || t[0] == '+') then t[1..] else t;
    var digits := LeadingDigits(unsigned);
    if digits == [] then None
    else
      assert IsDigit(unsigned[0]);
      assert exists k :: 0 <= k < |t| && IsDigit(t[k]) by {
        if t != [] && (t[0] == '-' || t[0] == '+') {
          assert t[1] == unsigned[0];
        } else {
          assert t[0] == unsigned[0];
        }
      }
      var value: int := ParseNat(digits);
      Some(if negative then -value else value)
  }

  /** Text that does not start with white space is left as it is. */
  lemma TrimStartKeeps(s: string)
    requires s == [] || !IsWhiteSpace(s[0])
    ensures TrimStart(s) == s
  {
  }

  /** A digit found after trimming is a digit of the original text. */
  lemma TrimStartSuffix(s: string)
    ensures (exists k :: 0 <= k < |TrimStart(s)| && IsDigit(TrimStart(s)[k])) ==>
            exists k :: 0 <= k < |s| && IsDigit(s[k])
  {
    var r := TrimStart(s);
    if exists k :: 0 <= k < |r| && IsDigit(r[k]) {
      var k :| 0 <= k < |r| && IsDigit(r[k]);
      assert s[|s| - |r| + k] == r[k];
    }
  }

  /** A string of digits is its own leading run. */
  lemma {:induction false} LeadingDigitsOfDigits(s: string, rest: string)
    requires IsDigits(s)
    requires rest == [] || !IsDigit(rest[0])
    ensures LeadingDigits(s + rest) == s
    decreases |s|
  {
    if s == [] {
      assert s + rest == rest;
    } else {
      assert (s + rest)[1..] == s[1..] + rest;
      LeadingDigitsOfDigits(s[1..], rest);
    }
  }

  /** Digits followed by a non-digit parse to the value of the digits. */
  lemma ParseIntOfDigits(s: string, rest: string)
    requires s != [] && IsDigits(s)
    requires rest == [] || !IsDigit(rest[0])
    ensures ParseInt(s + rest) == Some(ParseNat(s))
  {
    var t := s + rest;
    assert t[0] == s[0] && IsDigit(t[0]);
    assert !IsWhiteSpace(t[0]);
    TrimStartKeeps(t);
    LeadingDigitsOfDigits(s, rest);
  }

  /** Digits alone, or digits followed by a decimal point, parse to the value of the digits. */
  lemma ParseIntOfDigitsAndFraction(s: string, fraction: string)
    requires s != [] && IsDigits(s)
    ensures ParseInt(s) == Some(ParseNat(s))
    ensures ParseInt(s + "." + fraction) == Some(ParseNat(s))
  {
    ParseIntOfDigitsAlone(s);
    ParseIntOfDigitsPoint(s, fraction);
  }

  /** Digits alone parse to their value. */
  lemma ParseIntOfDigitsAlone(s: string)
    requires s != [] && IsDigits(s)
    ensures ParseInt(s) == Some(ParseNat(s))
  {
    assert s + [] == s;
    ParseIntOfDigits(s, []);
  }

  /** Digits followed by a decimal point parse to the value of the digits. */
  lemma ParseIntOfDigitsPoint(s: string, fraction: string)
    requires s != [] && IsDigits(s)
    ensures ParseInt(s + "." + fraction) == Some(ParseNat(s))
  {
    var rest := "." + fraction;
    assert s + "." + fraction == s + rest;
    ParseIntOfDigits(s, rest);
  }

  /** Typing a whole number gives that number; a decimal part is cut off, as `parseInt`
      stops at the point. */
  lemma ParseIntOfNat(n: nat, fraction: string)
    ensures ParseInt(NatToString(n)) == Some(n)
    ensures ParseInt(NatToString(n) + "." + fraction) == Some(n)
  {
    ParseNatToString(n);
    ParseIntOfDigitsAndFraction(NatToString(n), fraction);
  }

  /** Typing a negative whole number gives that negative number. */
  lemma ParseIntNegative(n: nat)
    ensures ParseInt("-" + NatToString(n)) == Some(-(n as int))
  {
    ParseNatToString(n);
    ParseIntMinusDigits(NatToString(n));
  }

  /** A minus sign followed by digits parses to the negated value of the digits. */
  lemma ParseIntMinusDigits(digits: string)
    requires digits != [] && IsDigits(digits)
    ensures ParseInt("-" + digits) == Some(-(ParseNat(digits) as int))
  {
    var t := "-" + digits;
    assert t[0] == '-' && t[1..] == digits;
    TrimStartKeeps(t);
    ParseIntMinus(t);
  }

  /** Text made of a minus sign and digits parses to the negated value of the digits. */
  lemma ParseIntMinus(t: string)
    requires |t| >= 2 && t[0] == '-' && IsDigits(t[1..])
    ensures ParseInt(t) == Some(-(ParseNat(t[1..]) as int))
  {
    TrimStartKeeps(t);
    LeadingDigitsOfDigits(t[1..], []);
    assert t[1..] + [] == t[1..];
  }

  /** A target of zero or below, as typed into the number input, is rejected by the schema
      (`min(1)`), whatever the other fields hold. */
  lemma NonPositiveTargetRejected(f: HabitForm, n: nat)
    ensures !Valid(f.(target := ParseInt("-" + NatToString(n))))
    ensures !Valid(f.(target := ParseInt("0")))
  {
    ParseIntNegative(n);
    assert !FieldOk(f.(target := ParseInt("-" + NatToString(n))), TargetField);
    ParseIntOfNat(0, "");
    assert NatToString(0) == "0";
    assert !FieldOk(f.(target := ParseInt("0")), TargetField);
  }

  /** Clearing the target input gives NaN, which the schema rejects. */
  lemma ClearedTargetRejected(f: HabitForm)
    ensures ParseInt("") == None
    ensures !Valid(f.(target := ParseInt("")))
  {
    assert !FieldOk(f.(target := ParseInt("")), TargetField);
  }

  /** The reminder-day buttons: a selected day is removed (every copy of it), any other day
      is appended; an unset list counts as empty. */
  function ToggleDay(days: Option<seq<string>>, day: string): (r: seq<string>)
    ensures day in r <==> !(days.Some? && day in days.value)
    ensures forall d :: d != day ==> (d in r <==> d in days.GetOr([]))
  {
    if days.Some? && day in days.value then
      var r := Filter((d: string) => d != day, days.value);
      assert forall d :: d != day && d in days.value ==> d in r by {
        forall d | d != day && d in days.value
          ensures d in r
        {
          var i :| 0 <= i < |days.value| && days.value[i] == d;
        }
      }
      assert forall d :: d in r ==> d in days.value && d != day by {
        forall d | d in r
          ensures d in days.value && d != day
        {
          var i :| 0 <= i < |r| && r[i] == d;
        }
      }
      r
    else days.GetOr([]) + [day]
  }

  /** Pressing an unselected day twice gives the list back as it was. */
  lemma ToggleDayTwiceAbsent(days: seq<string>, day: string)
    requires day !in days
    ensures ToggleDay(Some(ToggleDay(Some(days), day)), day) == days
  {
    var p := (d: string) => d != day;
    FilterConcat(p, days, [day]);
    FilterKeepsAll(p, days);
    assert Filter(p, [day]) == [];
  }

  /** Pressing a selected day twice keeps the other days in their order and moves the day to
      the end. */
  lemma ToggleDayTwicePresent(days: seq<string>, day: string)
    requires day in days
    ensures ToggleDay(Some(ToggleDay(Some(days), day)), day) ==
            Filter((d: string) => d != day, days) + [day]
  {
    var p := (d: string) => d != day;
    assert day !in Filter(p, days);
  }
}
