/** The input check `_validate_inputs`: which of the four filters are absent or blank. */
module Validation {
  import opened Options
  import opened Text
  import opened Exceptions

  /** The four inputs the host supplies, in the order the check visits them. */
  datatype Field = Crop | Region | StartDate | EndDate

  const Fields: seq<Field> := [Crop, Region, StartDate, EndDate]

  function Name(f: Field): string {
    match f
    case Crop => "crop"
    case Region => "region"
    case StartDate => "start_date"
    case EndDate => "end_date"
  }

  /** Position of a field in `Fields`. */
  function Rank(f: Field): (k: nat)
    ensures k < |Fields| && Fields[k] == f
  {
    match f
    case Crop => 0
    case Region => 1
    case StartDate => 2
    case EndDate => 3
  }

  /** The field a name stands for, if any. */
  function FieldNamed(name: string): (r: Option<Field>)
    ensures r.Some? ==> Name(r.value) == name
  {
    if name == "crop" then Some(Crop)
    else if name == "region" then Some(Region)
    else if name == "start_date" then Some(StartDate)
    else if name == "end_date" then Some(EndDate)
    else None
  }

  lemma FieldNamedName(f: Field)
    ensures FieldNamed(Name(f)) == Some(f)
  {
  }

  /** The host's values; `None` stands for a value the host did not supply. */
  datatype Inputs = Inputs(
    crop: Option<string>,
    region: Option<string>,
    startDate: Option<string>,
    endDate: Option<string>)
  {
    function Value(f: Field): Option<string> {
      match f
      case Crop => crop
      case Region => region
      case StartDate => startDate
      case EndDate => endDate
    }
  }

  /**
   * `not value or not str(value).strip()`. An absent value is missing; a
   * value whose first character is not whitespace is present (`IsMissingIff`
   * gives the full characterisation).
   */
  predicate IsMissing(v: Option<string>): (b: bool)
    ensures v.None? ==> b
    ensures v.Some? && v.value != "" && !IsSpace(v.value[0]) ==> !b
  {
    if v.None? || v.value == "" then true
    else
      StripEmptyIff(v.value);
      Strip(v.value) == ""
  }

  /** A value is missing exactly when it is absent or made of whitespace only. */
  lemma IsMissingIff(v: Option<string>)
    ensures IsMissing(v) <==> v.None? || AllSpace(v.value)
  {
    if v.Some? {
      StripEmptyIff(v.value);
    }
  }

  /** Fields listed in strictly increasing rank: ordered as in `Fields`, none twice. */
  predicate Ascending(fs: seq<Field>) {
    forall i, j :: 0 <= i < j < |fs| ==> Rank(fs[i]) < Rank(fs[j])
  }

  /** The list comprehension: the fields of `fields` whose value is missing, in order. */
  function MissingAmong(inputs: Inputs, fields: seq<Field>): (r: seq<Field>)
    ensures forall f :: f in r <==> f in fields && IsMissing(inputs.Value(f))
    ensures Ascending(fields) ==> Ascending(r)
    decreases |fields|
  {
    if fields == [] then []
    else
      var rest := MissingAmong(inputs, fields[1..]);
      var keep := IsMissing(inputs.Value(fields[0]));
      var r := if keep then [fields[0]] + rest else rest;
      assert forall f :: f in fields <==> f == fields[0] || f in fields[1..] by {
        assert fields == [fields[0]] + fields[1..];
      }
      assert Ascending(fields) ==> Ascending(r) by {
        if Ascending(fields) && keep {
          AscendingTail(fields);
          AscendingPrepend(fields, rest);
        }
      }
      r
  }

  lemma AscendingTail(fields: seq<Field>)
    requires Ascending(fields) && fields != []
    ensures forall f :: f in fields[1..] ==> Rank(fields[0]) < Rank(f)
  {
    forall f | f in fields[1..] ensures Rank(fields[0]) < Rank(f) {
      var j :| 0 <= j < |fields[1..]| && fields[1..][j] == f;
      assert fields[j + 1] == f;
    }
  }

  lemma AscendingPrepend(fields: seq<Field>, rest: seq<Field>)
    requires fields != [] && Ascending(rest)
    requires forall f :: f in rest ==> f in fields[1..]
    requires forall f :: f in fields[1..] ==> Rank(fields[0]) < Rank(f)
    ensures Ascending([fields[0]] + rest)
  {
    var r := [fields[0]] + rest;
    forall i, j | 0 <= i < j < |r| ensures Rank(r[i]) < Rank(r[j]) {
      assert r[j] == rest[j - 1];
      if i > 0 {
        assert r[i] == rest[i - 1];
      } else {
        assert r[j] in rest;
      }
    }
  }

  /**
   * The fields `_validate_inputs` reports: exactly the missing ones, in the
   * order crop, region, start_date, end_date, each at most once.
   */
  function Missing(inputs: Inputs): (r: seq<Field>)
    ensures forall f :: f in r <==> IsMissing(inputs.Value(f))
    ensures Ascending(r)
    ensures forall i, j :: 0 <= i < j < |r| ==> r[i] != r[j]
    ensures |r| <= |Fields|
  {
    var r := MissingAmong(inputs, Fields);
    assert forall f :: f in Fields by {
      forall f ensures f in Fields { assert Fields[Rank(f)] == f; }
    }
    AscendingBound(r);
    r
  }

  lemma {:induction false} AscendingBound(fs: seq<Field>)
    requires Ascending(fs)
    ensures |fs| <= |Fields|
  {
    if |fs| > |Fields| {
      // Ranks strictly increase, so the (|Fields|+1)-th element would lie beyond the last rank.
      AscendingRanks(fs, |Fields|);
      assert false;
    }
  }

  lemma {:induction false} AscendingRanks(fs: seq<Field>, k: nat)
    requires Ascending(fs) && k < |fs|
    ensures Rank(fs[k]) >= k
    decreases k
  {
    if k > 0 {
      AscendingRanks(fs, k - 1);
    }
  }

  function Names(fs: seq<Field>): (names: seq<string>)
    ensures |names| == |fs|
    ensures forall i :: 0 <= i < |fs| ==> names[i] == Name(fs[i])
  {
    seq(|fs|, i requires 0 <= i < |fs| => Name(fs[i]))
  }

  const MissingPrefix := "The following required inputs are missing or empty: "
  const NameSeparator := ", "

  /**
   * The `ValueError` message: the fixed prefix, then the names joined with
   * ", " (`MissingMessageRoundTrip` shows the list can be read back).
   */
  function MissingMessage(fs: seq<Field>): (msg: string)
    ensures MissingPrefix <= msg
    ensures fs != [] ==> Name(fs[0]) <= msg[|MissingPrefix|..]
    ensures fs != [] ==> msg[|msg| - |Name(fs[|fs| - 1])|..] == Name(fs[|fs| - 1])
  {
    MissingPrefix + Join(Names(fs), NameSeparator)
  }

  /** `_validate_inputs`: raises `ValueError` exactly when some field is missing. */
  function Validate(inputs: Inputs): (r: Check)
    ensures r.Raise? <==> Missing(inputs) != []
    ensures r.Raise? ==> r.exc == ValueError(MissingMessage(Missing(inputs)))
  {
    var missing := Missing(inputs);
    if missing != [] then Raise(ValueError(MissingMessage(missing))) else Pass
  }

  /** Inputs that pass validation carry a non-blank value for every field. */
  lemma ValidatedInputsPresent(inputs: Inputs, f: Field)
    requires Validate(inputs).Pass?
    ensures inputs.Value(f).Some?
    ensures Strip(inputs.Value(f).value) != ""
  {
    assert f !in Missing(inputs);
  }

  /** Maps names back to fields; `None` if some name is not a field's. */
  function FieldsNamed(names: seq<string>): (r: Option<seq<Field>>)
    ensures r.Some? ==> |r.value| == |names|
    decreases |names|
  {
    if names == [] then Some([])
    else
      match (FieldNamed(names[0]), FieldsNamed(names[1..]))
      case (Some(f), Some(fs)) => Some([f] + fs)
      case _ => None
  }

  lemma {:induction false} FieldsNamedNames(fs: seq<Field>)
    ensures FieldsNamed(Names(fs)) == Some(fs)
    decreases |fs|
  {
    if fs != [] {
      assert Names(fs)[1..] == Names(fs[1..]);
      FieldNamedName(fs[0]);
      FieldsNamedNames(fs[1..]);
      assert [fs[0]] + fs[1..] == fs;
    }
  }

  /** Reads the reported fields back out of a validation message. */
  function ParseMissingMessage(msg: string): Option<seq<Field>> {
    if MissingPrefix <= msg then FieldsNamed(Split(msg[|MissingPrefix|..], NameSeparator))
    else None
  }

  /** The message names the missing fields recoverably: it decodes to exactly the reported list. */
  lemma MissingMessageRoundTrip(fs: seq<Field>)
    requires fs != []
    ensures ParseMissingMessage(MissingMessage(fs)) == Some(fs)
  {
    var names := Names(fs);
    forall i | 0 <= i < |names| ensures NameSeparator[0] !in names[i] {
      assert names[i] == Name(fs[i]);
    }
    SplitJoin(names, NameSeparator);
    assert MissingMessage(fs)[|MissingPrefix|..] == Join(names, NameSeparator);
    FieldsNamedNames(fs);
  }

  /** Different missing lists give different messages. */
  lemma MissingMessageInjective(a: Inputs, b: Inputs)
    requires Validate(a).Raise? && Validate(b).Raise?
    requires Validate(a).exc.message == Validate(b).exc.message
    ensures Missing(a) == Missing(b)
  {
    MissingMessageRoundTrip(Missing(a));
    MissingMessageRoundTrip(Missing(b));
  }

  /** One worked case: an absent crop, a blank region and an empty end date are reported in order. */
  lemma ExampleReport()
    ensures Validate(Inputs(None, Some(" \t"), Some("2023-01-01"), Some(""))) ==
      Raise(ValueError("The following required inputs are missing or empty: crop, region, end_date"))
  {
    var inputs := Inputs(None, Some(" \t"), Some("2023-01-01"), Some(""));
    assert IsMissing(inputs.region) by {
      StripEmptyIff(" \t");
    }
    assert !IsMissing(inputs.startDate) by {
      assert !IsSpace("2023-01-01"[0]);
      StripEmptyIff("2023-01-01");
    }
    ExactlyOrdered(inputs);
    ExampleMessage();
  }

  lemma ExampleMessage()
    ensures MissingMessage([Crop, Region, EndDate]) ==
      "The following required inputs are missing or empty: crop, region, end_date"
  {
    var names := Names([Crop, Region, EndDate]);
    assert names == ["crop", "region", "end_date"];
    JoinThree("crop", "region", "end_date", NameSeparator);
    Concatenated();
  }

  lemma Concatenated()
    ensures MissingPrefix + ("crop" + ", " + "region" + ", " + "end_date") ==
      "The following required inputs are missing or empty: crop, region, end_date"
  {
  }

  lemma JoinThree(a: string, b: string, c: string, sep: string)
    ensures Join([a, b, c], sep) == a + sep + b + sep + c
  {
    assert Join([b, c], sep) == b + sep + c by {
      assert [b, c][1..] == [c];
    }
    assert Join([a, b, c], sep) == a + sep + Join([b, c], sep) by {
      assert [a, b, c][1..] == [b, c];
    }
  }

  lemma ExactlyOrdered(inputs: Inputs)
    requires IsMissing(inputs.crop) && IsMissing(inputs.region)
    requires !IsMissing(inputs.startDate) && IsMissing(inputs.endDate)
    ensures Missing(inputs) == [Crop, Region, EndDate]
  {
  }
}
