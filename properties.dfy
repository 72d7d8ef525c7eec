/** What `validate` promises about its result as a whole: when it is valid,
    which errors it lists and in what order, which info it fills in, and
    that spaces in the input do not matter. */
module ValidatorProperties {
  import opened Wrappers
  import opened Text
  import opened Calendar
  import opened CheckCode
  import opened IdValidator

  /** A number that fails the format check gets the format error alone and
      no info; any other number never gets the format error. */
  lemma FormatGate(input: Option<string>, today: Date)
    requires IsValidDate(today)
    ensures var r := Outcome(input, today);
      (FormatInvalid in r.errors <==> !CheckFormat(Normalize(input)))
      && (!CheckFormat(Normalize(input)) ==> r.errors == [FormatInvalid] && r.info == NoInfo && !r.valid)
  {
    var id := Normalize(input);
    if CheckFormat(id) {
      LaterErrors(id, today);
    }
  }

  /** For a number that passes the format check, an error is listed exactly
      when its check fails, and the errors come in the order of the checks,
      none twice. */
  lemma ErrorsAreFailingChecks(input: Option<string>, today: Date)
    requires IsValidDate(today) && CheckFormat(Normalize(input))
    ensures var id := Normalize(input);
      var errors := Outcome(input, today).errors;
      && (AreaUnknown in errors <==> !CheckAreaCode(id[..2]))
      && (BirthDateInvalid in errors <==> CheckBirthDate(id[6..14], today).None?)
      && (CheckCodeInvalid in errors <==> !CheckVerificationCode(id))
      && InCheckOrder(errors)
  {
    var id := Normalize(input);
    assert Outcome(input, today).errors == FailingChecks(LaterChecks, id, today);
    LaterErrors(id, today);
  }

  /** For a number that passes the format check the error list is, in this
      order, the area error if the region is unknown, the date error if the
      birth date is rejected and the check-character error if that check
      fails: one check failing alone gives exactly one error. */
  lemma ExactErrors(input: Option<string>, today: Date)
    requires IsValidDate(today) && CheckFormat(Normalize(input))
    ensures var id := Normalize(input);
      Outcome(input, today).errors
        == (if CheckAreaCode(id[..2]) then [] else [AreaUnknown])
         + (if CheckBirthDate(id[6..14], today).Some? then [] else [BirthDateInvalid])
         + (if CheckVerificationCode(id) then [] else [CheckCodeInvalid])
  {
    var id := Normalize(input);
    assert Outcome(input, today).errors == FailingChecks(LaterChecks, id, today);
    LaterChecksUnfold(id, today);
  }

  /** The verdict is valid exactly when every check passes. */
  lemma ValidIffAllChecksPass(input: Option<string>, today: Date)
    requires IsValidDate(today)
    ensures var id := Normalize(input);
      Outcome(input, today).valid <==>
        && CheckFormat(id)
        && CheckAreaCode(id[..2])
        && CheckBirthDate(id[6..14], today).Some?
        && CheckVerificationCode(id)
  {
    var id := Normalize(input);
    var r := Outcome(input, today);
    if CheckFormat(id) {
      assert r.valid == (r.errors == []) && r.errors == FailingChecks(LaterChecks, id, today);
      LaterErrors(id, today);
    } else {
      assert !r.valid;
    }
  }

  /** For a number that passes the format check the sex is always reported,
      odd sequence digit male; the region is reported exactly when its code
      is known; the birth date and the age are reported exactly when the
      date error is not, the date as the number's own digits with dashes and
      the age never negative. */
  lemma InfoReported(input: Option<string>, today: Date)
    requires IsValidDate(today) && CheckFormat(Normalize(input))
    ensures var id := Normalize(input);
      var r := Outcome(input, today);
      && r.info.gender == Some(if id[16] in "13579" then Male else Female)
      && (r.info.area.Some? <==> id[..2] in AreaCodes)
      && (r.info.area.Some? ==> r.info.area.value == AreaCodes[id[..2]])
      && (r.info.birthDate.Some? <==> BirthDateInvalid !in r.errors)
      && (r.info.age.Some? <==> r.info.birthDate.Some?)
      && (r.info.birthDate.Some? ==> r.info.birthDate.value == id[6..10] + "-" + id[10..12] + "-" + id[12..14])
      && (r.info.age.Some? ==> r.info.age.value >= 0)
  {
    var id := Normalize(input);
    var r := Outcome(input, today);
    assert r.info == InfoOf(id, today) && r.errors == FailingChecks(LaterChecks, id, today);
    LaterErrors(id, today);
    InfoOfFields(id, today);
  }

  /** Two inputs that differ only in their spaces get the same result, but
      for the echoed original input. */
  lemma SpacesDoNotMatter(a: string, b: string, today: Date)
    requires RemoveSpaces(a) == RemoveSpaces(b) && IsValidDate(today)
    ensures Outcome(Some(a), today) == Outcome(Some(b), today).(originalInput := Some(a))
  {
    assert Normalize(Some(a)) == Normalize(Some(b)) by {
      if a == "" || b == "" {
        assert RemoveSpaces("") == "" && Strip("") == "";
      }
    }
  }

  /** In particular a space inserted anywhere changes nothing but the echoed
      original input. */
  lemma InsertedSpaceDoesNotMatter(s: string, i: nat, today: Date)
    requires i <= |s| && IsValidDate(today)
    ensures var spaced := InsertAt(s, i, ' ');
      Outcome(Some(spaced), today) == Outcome(Some(s), today).(originalInput := Some(spaced))
  {
    RemoveSpacesIgnoresInsertedSpace(s, i);
    SpacesDoNotMatter(InsertAt(s, i, ' '), s, today);
  }

  /** Seventeen digits followed by the character generated for them are a
      number that passes the format and check-character checks. */
  lemma GeneratedNumberHasValidCheckCode(p: string, today: Date)
    requires |p| == 17 && AllDigits(p) && IsValidDate(today)
    ensures GenerateCheckCode(p).Success?
    ensures var r := Outcome(Some(p + [GenerateCheckCode(p).value]), today);
      FormatInvalid !in r.errors && CheckCodeInvalid !in r.errors
  {
    var c := GenerateCheckCode(p).value;
    var id := p + [c];
    AppendedCheckCodeVerifies(p);
    assert ' ' !in id && !IsSpace(id[0]) && !IsSpace(id[17]) by {
      assert forall j :: 0 <= j < 17 ==> id[j] == p[j];
    }
    NormalizePlain(id);
    assert CheckFormat(id) by {
      assert forall j :: 0 <= j < 17 ==> id[j] == p[j];
    }
    FormatGate(Some(id), today);
    ErrorsAreFailingChecks(Some(id), today);
  }

  /** A number that normalisation leaves unchanged and that passes every
      check is valid, is reported as written, and reports its region, its birth date, the age
      on `today` and its sex. */
  lemma ValidNumberResult(s: string, today: Date, birth: Date)
    requires IsValidDate(today) && Normalize(Some(s)) == s && CheckFormat(s)
    requires CheckAreaCode(s[..2]) && CheckBirthDate(s[6..14], today) == Some(birth) && CheckVerificationCode(s)
    ensures Outcome(Some(s), today)
      == ValidationResult(true, s, Some(s), [],
           Info(Some(AreaCodes[s[..2]]), Some(IsoFormat(birth)), Some(Age(birth, today)), Some(GenderOf(s[16]))))
  {
    ExactErrors(Some(s), today);
  }
}
