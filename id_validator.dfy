/** `ChineseIDValidator`: validation of an 18-character resident identity
    number and extraction of the region, birth date, age and sex it encodes.
    The current date, which the source reads from the clock, is a parameter
    `today` throughout. */
module IdValidator {
  import opened Wrappers
  import opened Text
  import opened Calendar
  import opened CheckCode

  // ---------------------------------------------------------------------------
  // Constants and result shape
  // ---------------------------------------------------------------------------

  /** `AREA_CODES`: the two-digit province-level codes the validator knows. */
  const AreaCodes: map<string, string> := map[
    "11" := "北京市", "12" := "天津市", "13" := "河北省", "14" := "山西省", "15" := "内蒙古自治区",
    "21" := "辽宁省", "22" := "吉林省", "23" := "黑龙江省",
    "31" := "上海市", "32" := "江苏省", "33" := "浙江省", "34" := "安徽省", "35" := "福建省",
    "36" := "江西省", "37" := "山东省",
    "41" := "河南省", "42" := "湖北省", "43" := "湖南省", "44" := "广东省",
    "45" := "广西壮族自治区", "46" := "海南省",
    "50" := "重庆市", "51" := "四川省", "52" := "贵州省", "53" := "云南省", "54" := "西藏自治区",
    "61" := "陕西省", "62" := "甘肃省", "63" := "青海省", "64" := "宁夏回族自治区",
    "65" := "新疆维吾尔自治区",
    "71" := "台湾省", "81" := "香港特别行政区", "82" := "澳门特别行政区"
  ]

  /** The sex encoded by the parity of the sequence digit. */
  datatype Gender = Male | Female

  function GenderLabel(g: Gender): string {
    match g
    case Male => "男"
    case Female => "女"
  }

  /** The errors `validate` reports, in the order it checks for them. */
  datatype ValidationError = FormatInvalid | AreaUnknown | BirthDateInvalid | CheckCodeInvalid

  function Message(e: ValidationError): string {
    match e
    case FormatInvalid => "身份证号码格式不正确"
    case AreaUnknown => "地区代码不存在"
    case BirthDateInvalid => "出生日期不合法"
    case CheckCodeInvalid => "校验码不正确"
  }

  /** Position of each check in the order of the checks. */
  function Rank(e: ValidationError): nat {
    match e
    case FormatInvalid => 0
    case AreaUnknown => 1
    case BirthDateInvalid => 2
    case CheckCodeInvalid => 3
  }

  /** The `info` dictionary: each key present or absent. */
  datatype Info = Info(area: Option<string>, birthDate: Option<string>, age: Option<int>, gender: Option<Gender>)

  const NoInfo: Info := Info(None, None, None, None)

  /** The dictionary `validate` returns. */
  datatype ValidationResult = ValidationResult(
    valid: bool,
    idNumber: string,
    originalInput: Option<string>,
    errors: seq<ValidationError>,
    info: Info)

  // ---------------------------------------------------------------------------
  // Normalisation
  // ---------------------------------------------------------------------------

  /** `id_number.replace(' ', '').strip() if id_number else ''`, `None`
      standing for Python's `None`. The result has no space in it and no
      whitespace at either end, and is made of characters of the input. */
  function Normalize(input: Option<string>): (r: string)
    ensures ' ' !in r
    ensures r == [] || (!IsSpace(r[0]) && !IsSpace(r[|r| - 1]))
    ensures input.None? ==> r == []
    ensures input.Some? ==> |r| <= |input.value|
  {
    match input
    case None => ""
    case Some(s) =>
      if s == "" then ""
      else
        var t := RemoveSpaces(s);
        StripKeepsAbsent(t, ' ');
        Strip(t)
  }

  /** Inserting a space anywhere in the input leaves the normalised number
      unchanged. */
  lemma NormalizeIgnoresInsertedSpace(s: string, i: nat)
    requires i <= |s|
    ensures Normalize(Some(InsertAt(s, i, ' '))) == Normalize(Some(s))
  {
    RemoveSpacesIgnoresInsertedSpace(s, i);
    if s == "" {
      assert InsertAt(s, i, ' ') == " ";
      assert RemoveSpaces(" ") == "";
    }
  }

  /** Normalising a normalised number changes nothing. */
  lemma NormalizeIdempotent(input: Option<string>)
    ensures Normalize(Some(Normalize(input))) == Normalize(input)
  {
    NormalizePlain(Normalize(input));
  }

  /** A number without whitespace or spaces at its ends normalises to itself. */
  lemma NormalizePlain(s: string)
    requires ' ' !in s && (s == [] || (!IsSpace(s[0]) && !IsSpace(s[|s| - 1])))
    ensures Normalize(Some(s)) == s
  {
    if s != "" {
      RemoveSpacesNoSpace(s);
      StripStripped(s);
      assert Normalize(Some(s)) == Strip(RemoveSpaces(s));
    }
  }

  // ---------------------------------------------------------------------------
  // The four checks
  // ---------------------------------------------------------------------------

  /** `^\d{17}[\dX]$` matched against the upper-cased number. */
  predicate MatchesIdPattern(u: string) {
    |u| == 18 && DigitsBelow(u, 17) && IsCheckChar(u[17])
  }

  /** `_check_format`: exactly 18 characters, 17 digits and then a digit or an
      'X' in either case. */
  function CheckFormat(id: string): (ok: bool)
    ensures ok <==> |id| == 18 && DigitsBelow(id, 17) && (IsDigit(id[17]) || id[17] == 'X' || id[17] == 'x')
    ensures ok ==> IsCheckable(id)
  {
    if id == [] || |id| != 18 then false
    else
      var u := Upper(id);
      assert DigitsBelow(u, 17) <==> DigitsBelow(id, 17) by {
        forall i | 0 <= i < 17 ensures IsDigit(u[i]) <==> IsDigit(id[i]) {
          assert u[i] == UpperChar(id[i]);
        }
      }
      MatchesIdPattern(u)
  }

  /** The fields a format-checked number is cut into are digits. */
  lemma FormatFields(id: string)
    requires CheckFormat(id)
    ensures AllDigits(id[..2]) && AllDigits(id[6..14]) && IsDigit(id[16])
  {
    assert forall i :: 0 <= i < 2 ==> id[..2][i] == id[i];
    assert forall i :: 0 <= i < 8 ==> id[6..14][i] == id[6 + i];
  }

  /** `_check_area_code`: the first two characters are a key of the table. */
  predicate CheckAreaCode(code: string) {
    code in AreaCodes
  }

  /** Every code the area check accepts is two digits, the first of them
      1 to 8. */
  lemma AcceptedAreaCodesAreTwoDigits(code: string)
    requires CheckAreaCode(code)
    ensures |code| == 2 && AllDigits(code) && '1' <= code[0] <= '8'
  {
  }

  /** The birth date the digits `YYYYMMDD` name, before any check. */
  function BirthDigitsDate(s: string): Date
    requires |s| == 8 && AllDigits(s)
  {
    Date(NumberValue(s[..4]), NumberValue(s[4..6]), NumberValue(s[6..]))
  }

  /** `_check_birth_date` on the eight digits `validate` passes it: the date
      is accepted exactly when it exists, its year is 1900 or later and it is
      not after today (so its year is at most today's). */
  function CheckBirthDate(s: string, today: Date): (r: Option<Date>)
    requires |s| == 8 && AllDigits(s) && IsValidDate(today)
    ensures r.Some? <==>
      var d := BirthDigitsDate(s);
      1900 <= d.year && IsValidDate(d) && !Before(today, d)
    ensures r.Some? ==> r.value == BirthDigitsDate(s) && 1900 <= r.value.year <= today.year
  {
    var year := NumberValue(s[..4]);
    var month := NumberValue(s[4..6]);
    var day := NumberValue(s[6..8]);
    assert s[6..8] == s[6..];
    if year < 1900 || year > today.year then None
    else
      match MakeDate(year, month, day)
      case None => None
      case Some(birthDate) => if Before(today, birthDate) then None else Some(birthDate)
  }

  /** An accepted birth date is printed as its own digits with dashes. */
  lemma {:induction false} BirthDateText(s: string, today: Date)
    requires |s| == 8 && AllDigits(s) && IsValidDate(today)
    requires CheckBirthDate(s, today).Some?
    ensures IsoFormat(CheckBirthDate(s, today).value) == s[..4] + "-" + s[4..6] + "-" + s[6..]
  {
    var d := CheckBirthDate(s, today).value;
    var t := IsoFormat(d);
    assert AllDigits(s[..4]) && AllDigits(s[4..6]) && AllDigits(s[6..]) by {
      assert forall i :: 0 <= i < 4 ==> s[..4][i] == s[i];
      assert forall i :: 0 <= i < 2 ==> s[4..6][i] == s[4 + i];
      assert forall i :: 0 <= i < 2 ==> s[6..][i] == s[6 + i];
    }
    DecimalOfNumberValue(s[..4]);
    DecimalOfNumberValue(s[4..6]);
    DecimalOfNumberValue(s[6..]);
    DecimalOfNumberValue(t[..4]);
    DecimalOfNumberValue(t[5..7]);
    DecimalOfNumberValue(t[8..]);
    assert t == t[..4] + "-" + t[5..7] + "-" + t[8..];
  }

  /** The anniversary of `birth` in year `birth.year + n` falls on or before
      `today` (month and day compared as they are, so the anniversary of
      29 February in a common year counts as reached on 1 March). */
  predicate AnniversaryReached(birth: Date, n: int, today: Date) {
    !Before(today, Date(birth.year + n, birth.month, birth.day))
  }

  /** `_calculate_age`: the difference of the years, less one while this
      year's birthday is still to come. It is the number of completed years:
      the last anniversary reached. */
  function Age(birth: Date, today: Date): (age: int)
    ensures AnniversaryReached(birth, age, today) && !AnniversaryReached(birth, age + 1, today)
    ensures !Before(today, birth) ==> age >= 0
    ensures today.month == birth.month && today.day == birth.day ==> age == today.year - birth.year
  {
    var age := today.year - birth.year;
    if MonthDayBefore(today.month, today.day, birth.month, birth.day) then age - 1 else age
  }

  /** The sex the sequence digit encodes: odd male, even female. */
  function GenderOf(sequenceDigit: char): (g: Gender)
    requires IsDigit(sequenceDigit)
    ensures g == Male <==> sequenceDigit in "13579"
  {
    if DigitValue(sequenceDigit) % 2 == 1 then Male else Female
  }

  // ---------------------------------------------------------------------------
  // validate
  // ---------------------------------------------------------------------------

  /** Whether the check that reports `e` fails on a number that passed the
      format check. */
  predicate Fails(e: ValidationError, id: string, today: Date)
    requires CheckFormat(id) && IsValidDate(today)
  {
    match e
    case FormatInvalid => false
    case AreaUnknown => !CheckAreaCode(id[..2])
    case BirthDateInvalid => CheckBirthDate(id[6..14], today).None?
    case CheckCodeInvalid => !CheckVerificationCode(id)
  }

  /** Errors listed in the order of the checks that report them, none twice. */
  predicate InCheckOrder(errors: seq<ValidationError>) {
    forall i, j :: 0 <= i < j < |errors| ==> Rank(errors[i]) < Rank(errors[j])
  }

  /** The checks that run after the format check, in the order they run. */
  const LaterChecks: seq<ValidationError> := [AreaUnknown, BirthDateInvalid, CheckCodeInvalid]

  /** The checks of `checks` that fail, in their order. */
  function FailingChecks(checks: seq<ValidationError>, id: string, today: Date): seq<ValidationError>
    requires CheckFormat(id) && IsValidDate(today)
  {
    if checks == [] then []
    else (if Fails(checks[0], id, today) then [checks[0]] else []) + FailingChecks(checks[1..], id, today)
  }

  /** The failing checks are exactly those of `checks` whose check fails, and
      they keep the order `checks` gives them. */
  lemma {:induction false} FailingChecksAreFailures(checks: seq<ValidationError>, id: string, today: Date)
    requires CheckFormat(id) && IsValidDate(today)
    ensures forall e :: e in FailingChecks(checks, id, today) <==> e in checks && Fails(e, id, today)
    ensures InCheckOrder(checks) ==> InCheckOrder(FailingChecks(checks, id, today))
  {
    if checks != [] {
      var rest := FailingChecks(checks[1..], id, today);
      FailingChecksAreFailures(checks[1..], id, today);
      assert forall e :: e in checks <==> e == checks[0] || e in checks[1..];
      if InCheckOrder(checks) {
        forall e | e in rest ensures Rank(checks[0]) < Rank(e) {
          var j :| 0 <= j < |checks[1..]| && checks[1..][j] == e;
          assert checks[j + 1] == e;
        }
      }
    }
  }

  /** The later checks' errors are the area error, the date error and the
      check-character error, each present exactly when its check fails. */
  lemma LaterChecksUnfold(id: string, today: Date)
    requires CheckFormat(id) && IsValidDate(today)
    ensures FailingChecks(LaterChecks, id, today)
      == (if Fails(AreaUnknown, id, today) then [AreaUnknown] else [])
       + (if Fails(BirthDateInvalid, id, today) then [BirthDateInvalid] else [])
       + (if Fails(CheckCodeInvalid, id, today) then [CheckCodeInvalid] else [])
  {
    var a := if Fails(AreaUnknown, id, today) then [AreaUnknown] else [];
    var b := if Fails(BirthDateInvalid, id, today) then [BirthDateInvalid] else [];
    var c := if Fails(CheckCodeInvalid, id, today) then [CheckCodeInvalid] else [];
    var last: seq<ValidationError> := [CheckCodeInvalid];
    var tail: seq<ValidationError> := [BirthDateInvalid, CheckCodeInvalid];
    assert last[1..] == [];
    assert FailingChecks(last, id, today) == c + [];
    assert tail[1..] == last;
    assert FailingChecks(tail, id, today) == b + c;
    assert LaterChecks[1..] == tail;
    assert FailingChecks(LaterChecks, id, today) == a + (b + c);
  }

  /** Each later check's error is listed exactly when that check fails, and
      the list is in the order of the checks. */
  lemma LaterErrors(id: string, today: Date)
    requires CheckFormat(id) && IsValidDate(today)
    ensures var errors := FailingChecks(LaterChecks, id, today);
      && FormatInvalid !in errors
      && (AreaUnknown in errors <==> !CheckAreaCode(id[..2]))
      && (BirthDateInvalid in errors <==> Fails(BirthDateInvalid, id, today))
      && (CheckCodeInvalid in errors <==> !CheckVerificationCode(id))
      && (errors == [] <==> AreaUnknown !in errors && BirthDateInvalid !in errors && CheckCodeInvalid !in errors)
      && InCheckOrder(errors)
  {
    LaterChecksUnfold(id, today);
    assert InCheckOrder(LaterChecks);
    FailingChecksAreFailures(LaterChecks, id, today);
  }

  /** The info a format-checked number yields. */
  function InfoOf(id: string, today: Date): Info
    requires CheckFormat(id) && IsValidDate(today)
  {
    var areaCode := id[..2];
    var birth := CheckBirthDate(id[6..14], today);
    Info(
      if CheckAreaCode(areaCode) then Some(AreaCodes[areaCode]) else None,
      if birth.Some? then Some(IsoFormat(birth.value)) else None,
      if birth.Some? then Some(Age(birth.value, today)) else None,
      Some(GenderOf(id[16])))
  }

  /** The info of a format-checked number, field by field. */
  lemma InfoOfFields(id: string, today: Date)
    requires CheckFormat(id) && IsValidDate(today)
    ensures var info := InfoOf(id, today);
      && info.gender == Some(if id[16] in "13579" then Male else Female)
      && (info.area.Some? <==> id[..2] in AreaCodes)
      && (info.area.Some? ==> info.area.value == AreaCodes[id[..2]])
      && (info.birthDate.Some? <==> CheckBirthDate(id[6..14], today).Some?)
      && (info.age.Some? <==> info.birthDate.Some?)
      && (info.birthDate.Some? ==> info.birthDate.value == id[6..10] + "-" + id[10..12] + "-" + id[12..14])
      && (info.age.Some? ==> info.age.value >= 0)
  {
    FormatFields(id);
    var s := id[6..14];
    if CheckBirthDate(s, today).Some? {
      BirthDateText(s, today);
      assert s[..4] == id[6..10] && s[4..6] == id[10..12] && s[6..] == id[12..14];
    }
  }

  /** What `validate` returns, stated as a whole: a number that fails the
      format check gets that error alone and no info; any other gets the
      errors of the later checks that fail, in order, and the info they
      yield; it is valid when there is no error. */
  function Outcome(input: Option<string>, today: Date): (r: ValidationResult)
    requires IsValidDate(today)
    ensures r.idNumber == Normalize(input) && r.originalInput == input
    ensures r.valid <==> r.errors == []
  {
    var id := Normalize(input);
    if !CheckFormat(id) then ValidationResult(false, id, input, [FormatInvalid], NoInfo)
    else
      var errors := FailingChecks(LaterChecks, id, today);
      ValidationResult(errors == [], id, input, errors, InfoOf(id, today))
  }

  /** The part of `validate` after the format check: the area, birth-date
      and check-character checks each run and append their error in turn,
      then the sex is read from the sequence digit. */
  method RunChecks(idNumber: string, today: Date) returns (errors: seq<ValidationError>, info: Info)
    requires CheckFormat(idNumber) && IsValidDate(today)
    ensures errors == FailingChecks(LaterChecks, idNumber, today)
    ensures info == InfoOf(idNumber, today)
  {
    FormatFields(idNumber);
    errors := [];
    info := NoInfo;
    // The errors each check contributes, kept alongside to tie the list the
    // checks build to the list of failing checks.
    ghost var areaError, dateError, codeError: seq<ValidationError> := [], [], [];

    var areaCode := idNumber[..2];
    if !CheckAreaCode(areaCode) {
      errors := errors + [AreaUnknown];
      areaError := [AreaUnknown];
    } else {
      info := info.(area := Some(AreaCodes[areaCode]));
    }
    assert errors == areaError;

    var birth := CheckBirthDate(idNumber[6..14], today);
    if birth.None? {
      errors := errors + [BirthDateInvalid];
      dateError := [BirthDateInvalid];
      assert errors == areaError + dateError;
    } else {
      info := info.(birthDate := Some(IsoFormat(birth.value)), age := Some(Age(birth.value, today)));
      assert errors == areaError + dateError;
    }

    if !CheckVerificationCode(idNumber) {
      errors := errors + [CheckCodeInvalid];
      codeError := [CheckCodeInvalid];
      assert errors == areaError + dateError + codeError;
    } else {
      assert errors == areaError + dateError + codeError;
    }

    var sequenceCode := DigitValue(idNumber[16]);
    info := info.(gender := Some(if sequenceCode % 2 == 1 then Male else Female));
    LaterChecksUnfold(idNumber, today);
  }

  /** `validate`: normalises the input, returns at once with the format
      error when the format check fails, and otherwise runs the later checks;
      the verdict is valid exactly when no error was recorded. */
  method Validate(input: Option<string>, today: Date) returns (result: ValidationResult)
    requires IsValidDate(today)
    ensures result == Outcome(input, today)
    ensures result.idNumber == Normalize(input) && result.originalInput == input
    ensures result.valid <==> result.errors == []
  {
    var originalInput := input;
    var idNumber := Normalize(input);

    if !CheckFormat(idNumber) {
      return ValidationResult(false, idNumber, originalInput, [FormatInvalid], NoInfo);
    }

    var errors, info := RunChecks(idNumber, today);

    var valid := false;
    if errors == [] {
      valid := true;
    }
    result := ValidationResult(valid, idNumber, originalInput, errors, info);
  }
}
