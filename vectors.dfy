/** Concrete identity numbers and what `validate` makes of them: the cases
    the validator's own demonstration lists, with the current date fixed at
    15 October 2026. */
module ValidatorVectors {
  import opened Wrappers
  import opened Text
  import opened Calendar
  import opened CheckCode
  import opened IdValidator
  import opened ValidatorProperties

  const Today: Date := Date(2026, 10, 15)

  // ---------------------------------------------------------------------------
  // Weighted sums of the first seventeen digits
  // ---------------------------------------------------------------------------

  /** The weighted sum of 11010119900307489 is 234, 3 modulo 11. */
  lemma SumValid()
    ensures DigitsBelow("110101199003074899", 17) && WeightedSumTo("110101199003074899", 17) == 234
  {
    var s := "110101199003074899";
    SumValidHalf();
    assert WeightedSumTo(s, 9) == 90;
    assert WeightedSumTo(s, 10) == 90;
    assert WeightedSumTo(s, 11) == 90;
    assert WeightedSumTo(s, 12) == 117;
    assert WeightedSumTo(s, 13) == 117;
    assert WeightedSumTo(s, 14) == 152;
    assert WeightedSumTo(s, 15) == 184;
    assert WeightedSumTo(s, 16) == 216;
  }

  lemma SumValidHalf()
    ensures DigitsBelow("110101199003074899", 17) && WeightedSumTo("110101199003074899", 8) == 36
  {
    var s := "110101199003074899";
    assert DigitsBelow(s, 17);
    assert WeightedSumTo(s, 1) == 7;
    assert WeightedSumTo(s, 2) == 16;
    assert WeightedSumTo(s, 3) == 16;
    assert WeightedSumTo(s, 4) == 21;
    assert WeightedSumTo(s, 5) == 21;
    assert WeightedSumTo(s, 6) == 25;
    assert WeightedSumTo(s, 7) == 27;
  }

  /** The same seventeen digits with another last character. */
  lemma SumWrongCheckCode()
    ensures DigitsBelow("110101199003074897", 17) && WeightedSumTo("110101199003074897", 17) == 234
  {
    var s, t := "110101199003074899", "110101199003074897";
    SumValid();
    assert s[..17] == t[..17];
    assert forall j :: 0 <= j < 17 ==> s[j] == s[..17][j] == t[..17][j] == t[j];
    WeightedSumAgree(s, t, 17);
  }

  /** The weighted sum of 11010119900230489 is 220, 0 modulo 11. */
  lemma SumFebruary30()
    ensures DigitsBelow("110101199002304896", 17) && WeightedSumTo("110101199002304896", 17) == 220
  {
    var s := "110101199002304896";
    SumFebruary30Half();
    assert WeightedSumTo(s, 9) == 90;
    assert WeightedSumTo(s, 10) == 90;
    assert WeightedSumTo(s, 11) == 90;
    assert WeightedSumTo(s, 12) == 108;
    assert WeightedSumTo(s, 13) == 138;
    assert WeightedSumTo(s, 14) == 138;
    assert WeightedSumTo(s, 15) == 170;
    assert WeightedSumTo(s, 16) == 202;
  }

  lemma SumFebruary30Half()
    ensures DigitsBelow("110101199002304896", 17) && WeightedSumTo("110101199002304896", 8) == 36
  {
    var s := "110101199002304896";
    assert DigitsBelow(s, 17);
    assert WeightedSumTo(s, 1) == 7;
    assert WeightedSumTo(s, 2) == 16;
    assert WeightedSumTo(s, 3) == 16;
    assert WeightedSumTo(s, 4) == 21;
    assert WeightedSumTo(s, 5) == 21;
    assert WeightedSumTo(s, 6) == 25;
    assert WeightedSumTo(s, 7) == 27;
  }

  /** The weighted sum of 99010119900307489 is 362, 10 modulo 11. */
  lemma SumUnknownArea()
    ensures DigitsBelow("99010119900307489X", 17) && WeightedSumTo("99010119900307489X", 17) == 362
  {
    var s := "99010119900307489X";
    SumUnknownAreaHalf();
    assert WeightedSumTo(s, 9) == 218;
    assert WeightedSumTo(s, 10) == 218;
    assert WeightedSumTo(s, 11) == 218;
    assert WeightedSumTo(s, 12) == 245;
    assert WeightedSumTo(s, 13) == 245;
    assert WeightedSumTo(s, 14) == 280;
    assert WeightedSumTo(s, 15) == 312;
    assert WeightedSumTo(s, 16) == 344;
  }

  lemma SumUnknownAreaHalf()
    ensures DigitsBelow("99010119900307489X", 17) && WeightedSumTo("99010119900307489X", 8) == 164
  {
    var s := "99010119900307489X";
    assert DigitsBelow(s, 17);
    assert WeightedSumTo(s, 1) == 63;
    assert WeightedSumTo(s, 2) == 144;
    assert WeightedSumTo(s, 3) == 144;
    assert WeightedSumTo(s, 4) == 149;
    assert WeightedSumTo(s, 5) == 149;
    assert WeightedSumTo(s, 6) == 153;
    assert WeightedSumTo(s, 7) == 155;
  }

  /** The weighted sum of 11010120000230489 is 159, 5 modulo 11. */
  lemma SumFutureLabel()
    ensures DigitsBelow("110101200002304896", 17) && WeightedSumTo("110101200002304896", 17) == 159
  {
    var s := "110101200002304896";
    SumFutureLabelHalf();
    assert WeightedSumTo(s, 9) == 29;
    assert WeightedSumTo(s, 10) == 29;
    assert WeightedSumTo(s, 11) == 29;
    assert WeightedSumTo(s, 12) == 47;
    assert WeightedSumTo(s, 13) == 77;
    assert WeightedSumTo(s, 14) == 77;
    assert WeightedSumTo(s, 15) == 109;
    assert WeightedSumTo(s, 16) == 141;
  }

  lemma SumFutureLabelHalf()
    ensures DigitsBelow("110101200002304896", 17) && WeightedSumTo("110101200002304896", 8) == 29
  {
    var s := "110101200002304896";
    assert DigitsBelow(s, 17);
    assert WeightedSumTo(s, 1) == 7;
    assert WeightedSumTo(s, 2) == 16;
    assert WeightedSumTo(s, 3) == 16;
    assert WeightedSumTo(s, 4) == 21;
    assert WeightedSumTo(s, 5) == 21;
    assert WeightedSumTo(s, 6) == 25;
    assert WeightedSumTo(s, 7) == 29;
  }

  // ---------------------------------------------------------------------------
  // generate_check_code
  // ---------------------------------------------------------------------------

  /** The check character of 11010119900307489 is '9'; sixteen digits, or a
      letter among the seventeen, are refused. */
  lemma CheckCodeVector()
    ensures GenerateCheckCode("11010119900307489") == Success('9')
    ensures GenerateCheckCode("1101011990030748") == Failure(NotSeventeenDigits)
    ensures GenerateCheckCode("1101011990030748a") == Failure(NotSeventeenDigits)
  {
    var id := "110101199003074899";
    SumValid();
    WeightedSumOfPrefix(id);
    assert id[..17] == "11010119900307489";
    assert !IsDigit("1101011990030748a"[16]);
  }

  // ---------------------------------------------------------------------------
  // The birth-date check
  // ---------------------------------------------------------------------------

  lemma Numerals()
    ensures NumberValue("1990") == 1990 && NumberValue("1900") == 1900 && NumberValue("2027") == 2027
    ensures NumberValue("01") == 1 && NumberValue("02") == 2 && NumberValue("03") == 3
    ensures NumberValue("07") == 7 && NumberValue("13") == 13 && NumberValue("30") == 30
    ensures NumberValue("2000") == 2000
  {
    assert "1990"[..3] == "199" && "199"[..2] == "19" && "19"[..1] == "1" && "1"[..0] == "";
    assert "1900"[..3] == "190" && "190"[..2] == "19";
    assert "2027"[..3] == "202" && "202"[..2] == "20" && "20"[..1] == "2" && "2"[..0] == "";
    assert "01"[..1] == "0" && "02"[..1] == "0" && "03"[..1] == "0" && "07"[..1] == "0" && "0"[..0] == "";
    assert "13"[..1] == "1" && "30"[..1] == "3" && "3"[..0] == "";
    assert "2000"[..3] == "200" && "200"[..2] == "20";
  }

  /** 19900307 is 7 March 1990, printed 1990-03-07; on 15 October 2026 the
      person is 36. */
  lemma BirthDate19900307()
    ensures CheckBirthDate("19900307", Today) == Some(Date(1990, 3, 7))
    ensures IsoFormat(Date(1990, 3, 7)) == "1990-03-07"
    ensures Age(Date(1990, 3, 7), Today) == 36
  {
    var s := "19900307";
    assert s[..4] == "1990" && s[4..6] == "03" && s[6..] == "07" && s[6..8] == "07";
    Numerals();
    Printed19900307();
  }

  lemma Printed19900307()
    ensures IsoFormat(Date(1990, 3, 7)) == "1990-03-07"
  {
    var t := IsoFormat(Date(1990, 3, 7));
    DecimalOfNumberValue(t[..4]);
    DecimalOfNumberValue(t[5..7]);
    DecimalOfNumberValue(t[8..]);
    Numerals();
    assert t == t[..4] + "-" + t[5..7] + "-" + t[8..];
  }

  /** 30 February 1990 does not exist. */
  lemma February30Rejected()
    ensures CheckBirthDate("19900230", Today) == None
  {
    Numerals();
    var d := "19900230";
    assert d[..4] == "1990" && d[4..6] == "02" && d[6..] == "30" && d[6..8] == "30";
  }

  /** The boundaries of the birth-date check: the year 1900 is accepted,
      next year is not, and neither are a thirteenth month or 30 February. */
  lemma BirthDateBoundaries()
    ensures CheckBirthDate("19000101", Today) == Some(Date(1900, 1, 1))
    ensures CheckBirthDate("20270101", Today) == None
    ensures CheckBirthDate("19901301", Today) == None
    ensures CheckBirthDate("19900230", Today) == None
  {
    Numerals();
    var a, b, c := "19000101", "20270101", "19901301";
    assert a[..4] == "1900" && a[4..6] == "01" && a[6..] == "01" && a[6..8] == "01";
    assert b[..4] == "2027" && b[4..6] == "01" && b[6..] == "01" && b[6..8] == "01";
    assert c[..4] == "1990" && c[4..6] == "13" && c[6..] == "01" && c[6..8] == "01";
    February30Rejected();
  }

  /** 30 February 2000 does not exist either, although 2000 is a leap year. */
  lemma February30Of2000Rejected()
    ensures CheckBirthDate("20000230", Today) == None
  {
    Numerals();
    var d := "20000230";
    assert d[..4] == "2000" && d[4..6] == "02" && d[6..] == "30" && d[6..8] == "30";
  }

  // ---------------------------------------------------------------------------
  // The region check
  // ---------------------------------------------------------------------------

  /** 11 is Beijing; 99 is no region. */
  lemma AreaVector()
    ensures CheckAreaCode("11") && AreaCodes["11"] == "北京市"
    ensures !CheckAreaCode("99")
  {
    if CheckAreaCode("99") {
      AcceptedAreaCodesAreTwoDigits("99");
    }
  }

  // ---------------------------------------------------------------------------
  // The format and check-character checks on the demonstration numbers
  // ---------------------------------------------------------------------------

  /** Seventeen digits, and a letter other than 'X' in the last place, fail
      the format check; a lower-case 'x' passes it. */
  lemma FormatVector()
    ensures CheckFormat("110101199003074899")
    ensures !CheckFormat("11010119900307489")
    ensures !CheckFormat("11010119900307489A")
    ensures CheckFormat("11010119900307489x")
  {
  }

  /** 110101199003074899 carries the right check character. */
  lemma ValidCheckCode()
    ensures CheckVerificationCode("110101199003074899")
  {
    SumValid();
    assert UpperChar("110101199003074899"[17]) == '9';
  }

  /** 110101199003074897 does not: the sum 234 wants '9', not '7'. */
  lemma WrongCheckCode()
    ensures !CheckVerificationCode("110101199003074897")
  {
    SumWrongCheckCode();
    assert UpperChar("110101199003074897"[17]) == '7';
  }

  /** 110101199002304896 does not: the sum 220 wants '1', not '6'. */
  lemma February30CheckCode()
    ensures !CheckVerificationCode("110101199002304896")
  {
    SumFebruary30();
    assert UpperChar("110101199002304896"[17]) == '6';
  }

  /** 99010119900307489X does not: the sum 362 wants '2', not 'X'. */
  lemma UnknownAreaCheckCode()
    ensures !CheckVerificationCode("99010119900307489X")
  {
    SumUnknownArea();
    assert UpperChar("99010119900307489X"[17]) == 'X';
  }

  /** 110101200002304896 does not: the sum 159 wants '7', not '6'. */
  lemma FutureLabelCheckCode()
    ensures !CheckVerificationCode("110101200002304896")
  {
    SumFutureLabel();
    assert UpperChar("110101200002304896"[17]) == '6';
  }

  // ---------------------------------------------------------------------------
  // Whole results of validate
  // ---------------------------------------------------------------------------

  // Each demonstration number is taken apart one fact per lemma: it is its
  // own normalised form, it passes the format check, and its region and
  // birth-date fields pass or fail their checks.

  lemma ValidNumberNormalized()
    ensures Normalize(Some("110101199003074899")) == "110101199003074899"
  {
    NormalizePlain("110101199003074899");
  }

  lemma ValidNumberFormat()
    ensures CheckFormat("110101199003074899")
  {
  }

  lemma ValidNumberRegion()
    ensures CheckAreaCode("110101199003074899"[..2]) && AreaCodes["110101199003074899"[..2]] == "北京市"
  {
    assert "110101199003074899"[..2] == "11";
    AreaVector();
  }

  lemma ValidNumberBirthDate()
    ensures CheckBirthDate("110101199003074899"[6..14], Today) == Some(Date(1990, 3, 7))
  {
    assert "110101199003074899"[6..14] == "19900307";
    BirthDate19900307();
  }

  lemma WrongCheckCodeNormalized()
    ensures Normalize(Some("110101199003074897")) == "110101199003074897"
  {
    NormalizePlain("110101199003074897");
  }

  lemma WrongCheckCodeFormat()
    ensures CheckFormat("110101199003074897")
  {
  }

  lemma WrongCheckCodeRegion()
    ensures CheckAreaCode("110101199003074897"[..2]) && AreaCodes["110101199003074897"[..2]] == "北京市"
  {
    assert "110101199003074897"[..2] == "11";
    AreaVector();
  }

  lemma WrongCheckCodeBirthDate()
    ensures CheckBirthDate("110101199003074897"[6..14], Today) == Some(Date(1990, 3, 7))
  {
    assert "110101199003074897"[6..14] == "19900307";
    BirthDate19900307();
  }

  lemma UnknownAreaNormalized()
    ensures Normalize(Some("99010119900307489X")) == "99010119900307489X"
  {
    NormalizePlain("99010119900307489X");
  }

  lemma UnknownAreaFormat()
    ensures CheckFormat("99010119900307489X")
  {
  }

  lemma UnknownAreaRegion()
    ensures !CheckAreaCode("99010119900307489X"[..2])
  {
    assert "99010119900307489X"[..2] == "99";
    AreaVector();
  }

  lemma UnknownAreaBirthDate()
    ensures CheckBirthDate("99010119900307489X"[6..14], Today) == Some(Date(1990, 3, 7))
  {
    assert "99010119900307489X"[6..14] == "19900307";
    BirthDate19900307();
  }

  lemma February30Normalized()
    ensures Normalize(Some("110101199002304896")) == "110101199002304896"
  {
    NormalizePlain("110101199002304896");
  }

  lemma February30Format()
    ensures CheckFormat("110101199002304896")
  {
  }

  lemma February30Region()
    ensures CheckAreaCode("110101199002304896"[..2]) && AreaCodes["110101199002304896"[..2]] == "北京市"
  {
    assert "110101199002304896"[..2] == "11";
    AreaVector();
  }

  lemma February30BirthDate()
    ensures CheckBirthDate("110101199002304896"[6..14], Today) == None
  {
    assert "110101199002304896"[6..14] == "19900230";
    February30Rejected();
  }

  lemma FutureLabelNormalized()
    ensures Normalize(Some("110101200002304896")) == "110101200002304896"
  {
    NormalizePlain("110101200002304896");
  }

  lemma FutureLabelFormat()
    ensures CheckFormat("110101200002304896")
  {
  }

  lemma FutureLabelRegion()
    ensures CheckAreaCode("110101200002304896"[..2]) && AreaCodes["110101200002304896"[..2]] == "北京市"
  {
    assert "110101200002304896"[..2] == "11";
    AreaVector();
  }

  lemma FutureLabelBirthDate()
    ensures CheckBirthDate("110101200002304896"[6..14], Today) == None
  {
    assert "110101200002304896"[6..14] == "20000230";
    February30Of2000Rejected();
  }

  /** The shapes the error list of `ExactErrors` takes for the numbers below. */
  lemma ErrorListShapes(x: ValidationError, y: ValidationError)
    ensures [] + [] + [x] == [x]
    ensures [x] + [] + [y] == [x, y]
    ensures [] + [x] + [y] == [x, y]
  {
  }

  /** The info of 110101199003074899: from Beijing, born 7 March 1990, 36 years old on 15 October 2026, male. */
  lemma ValidNumberInfo()
    ensures InfoOf("110101199003074899", Today)
      == Info(Some("北京市"), Some("1990-03-07"), Some(36), Some(Male))
  {
    ValidNumberFormat();
    ValidNumberRegion();
    ValidNumberBirthDate();
    BirthDate19900307();
    assert GenderOf("110101199003074899"[16]) == Male;
  }

  /** The info of 110101199003074897: from Beijing, born 7 March 1990, 36 years old on 15 October 2026, male. */
  lemma WrongCheckCodeInfo()
    ensures InfoOf("110101199003074897", Today)
      == Info(Some("北京市"), Some("1990-03-07"), Some(36), Some(Male))
  {
    WrongCheckCodeFormat();
    WrongCheckCodeRegion();
    WrongCheckCodeBirthDate();
    BirthDate19900307();
    assert GenderOf("110101199003074897"[16]) == Male;
  }

  /** The info of 99010119900307489X: no region, born 7 March 1990, 36 years old on 15 October 2026, male. */
  lemma UnknownAreaInfo()
    ensures InfoOf("99010119900307489X", Today)
      == Info(None, Some("1990-03-07"), Some(36), Some(Male))
  {
    UnknownAreaFormat();
    UnknownAreaRegion();
    UnknownAreaBirthDate();
    BirthDate19900307();
    assert GenderOf("99010119900307489X"[16]) == Male;
  }

  /** The info of 110101199002304896: from Beijing, no birth date and no age, male. */
  lemma February30Info()
    ensures InfoOf("110101199002304896", Today)
      == Info(Some("北京市"), None, None, Some(Male))
  {
    February30Format();
    February30Region();
    February30BirthDate();
    assert GenderOf("110101199002304896"[16]) == Male;
  }

  /** The info of 110101200002304896: from Beijing, no birth date and no age, male. */
  lemma FutureLabelInfo()
    ensures InfoOf("110101200002304896", Today)
      == Info(Some("北京市"), None, None, Some(Male))
  {
    FutureLabelFormat();
    FutureLabelRegion();
    FutureLabelBirthDate();
    assert GenderOf("110101200002304896"[16]) == Male;
  }

  /** 110101199003074899 is valid: no error, reported as written, with its info. */
  lemma ValidNumberVector()
    ensures Outcome(Some("110101199003074899"), Today)
      == ValidationResult(true, "110101199003074899", Some("110101199003074899"), [],
           Info(Some("北京市"), Some("1990-03-07"), Some(36), Some(Male)))
  {
    ValidNumberNormalized();
    ValidNumberFormat();
    ValidNumberRegion();
    ValidNumberBirthDate();
    ValidCheckCode();
    ValidNumberInfo();
    ExactErrors(Some("110101199003074899"), Today);
    ErrorListShapes(CheckCodeInvalid, CheckCodeInvalid);
  }

  /** 110101199003074897 fails the check-character check alone; its info is reported in full. */
  lemma WrongCheckCodeVector()
    ensures Outcome(Some("110101199003074897"), Today)
      == ValidationResult(false, "110101199003074897", Some("110101199003074897"), [CheckCodeInvalid],
           Info(Some("北京市"), Some("1990-03-07"), Some(36), Some(Male)))
  {
    WrongCheckCodeNormalized();
    WrongCheckCodeFormat();
    WrongCheckCodeRegion();
    WrongCheckCodeBirthDate();
    WrongCheckCode();
    WrongCheckCodeInfo();
    ExactErrors(Some("110101199003074897"), Today);
    ErrorListShapes(CheckCodeInvalid, CheckCodeInvalid);
  }

  /** 99010119900307489X fails the region check and, since its check
      character should be '2', the check-character check too. */
  lemma UnknownAreaVector()
    ensures Outcome(Some("99010119900307489X"), Today)
      == ValidationResult(false, "99010119900307489X", Some("99010119900307489X"), [AreaUnknown, CheckCodeInvalid],
           Info(None, Some("1990-03-07"), Some(36), Some(Male)))
  {
    UnknownAreaNormalized();
    UnknownAreaFormat();
    UnknownAreaRegion();
    UnknownAreaBirthDate();
    UnknownAreaCheckCode();
    UnknownAreaInfo();
    ExactErrors(Some("99010119900307489X"), Today);
    ErrorListShapes(AreaUnknown, CheckCodeInvalid);
  }

  /** 110101199002304896 fails the birth-date check (30 February) and the
      check-character check; its sequence digit 9 makes it a man's number. */
  lemma February30Vector()
    ensures Outcome(Some("110101199002304896"), Today)
      == ValidationResult(false, "110101199002304896", Some("110101199002304896"), [BirthDateInvalid, CheckCodeInvalid],
           Info(Some("北京市"), None, None, Some(Male)))
  {
    February30Normalized();
    February30Format();
    February30Region();
    February30BirthDate();
    February30CheckCode();
    February30Info();
    ExactErrors(Some("110101199002304896"), Today);
    ErrorListShapes(BirthDateInvalid, CheckCodeInvalid);
  }

  /** 110101200002304896 fails the birth-date check because 30 February 2000
      does not exist, not because the date lies in the future, and fails the
      check-character check because its check character should be '7'. */
  lemma FutureLabelVector()
    ensures Outcome(Some("110101200002304896"), Today)
      == ValidationResult(false, "110101200002304896", Some("110101200002304896"), [BirthDateInvalid, CheckCodeInvalid],
           Info(Some("北京市"), None, None, Some(Male)))
  {
    FutureLabelNormalized();
    FutureLabelFormat();
    FutureLabelRegion();
    FutureLabelBirthDate();
    FutureLabelCheckCode();
    FutureLabelInfo();
    ExactErrors(Some("110101200002304896"), Today);
    ErrorListShapes(BirthDateInvalid, CheckCodeInvalid);
  }

  /** Seventeen characters get the format error alone and no info. */
  lemma ShortNumberVector()
    ensures Outcome(Some("11010119900307489"), Today)
      == ValidationResult(false, "11010119900307489", Some("11010119900307489"), [FormatInvalid], NoInfo)
  {
    var s := "11010119900307489";
    FormatVector();
    NormalizePlain(s);
    FormatGate(Some(s), Today);
  }

  // The spaced demonstration inputs are the numbers above with spaces
  // inserted one at a time; each lemma below spells out two insertions.

  lemma SurroundingSpaces()
    ensures InsertAt("110101199003074899", 0, ' ') == " 110101199003074899"
    ensures InsertAt(" 110101199003074899", 19, ' ') == " 110101199003074899 "
  {
  }

  lemma GroupingSpacesFront()
    ensures InsertAt("110101199003074899", 4, ' ') == "1101 01199003074899"
    ensures InsertAt("1101 01199003074899", 9, ' ') == "1101 0119 9003074899"
  {
  }

  lemma GroupingSpacesBack()
    ensures InsertAt("1101 0119 9003074899", 14, ' ') == "1101 0119 9003 074899"
    ensures InsertAt("1101 0119 9003 074899", 19, ' ') == "1101 0119 9003 0748 99"
  {
  }

  lemma SpacedGroupsFront()
    ensures InsertAt("110101199002304896", 0, ' ') == " 110101199002304896"
    ensures InsertAt(" 110101199002304896", 5, ' ') == " 1101 01199002304896"
  {
  }

  lemma SpacedGroupsMiddle()
    ensures InsertAt(" 1101 01199002304896", 10, ' ') == " 1101 0119 9002304896"
    ensures InsertAt(" 1101 0119 9002304896", 15, ' ') == " 1101 0119 9002 304896"
  {
  }

  lemma SpacedGroupsBack()
    ensures InsertAt(" 1101 0119 9002 304896", 20, ' ') == " 1101 0119 9002 3048 96"
    ensures InsertAt(" 1101 0119 9002 3048 96", 23, ' ') == " 1101 0119 9002 3048 96 "
  {
  }

  /** Spaces around 110101199003074899 change nothing but the echoed input. */
  lemma SpacedNumberVector()
    ensures Outcome(Some(" 110101199003074899 "), Today)
      == ValidationResult(true, "110101199003074899", Some(" 110101199003074899 "), [],
           Info(Some("北京市"), Some("1990-03-07"), Some(36), Some(Male)))
  {
    SurroundingSpaces();
    InsertedSpaceDoesNotMatter("110101199003074899", 0, Today);
    InsertedSpaceDoesNotMatter(" 110101199003074899", 19, Today);
    ValidNumberVector();
  }

  /** Spaces between the groups of 110101199003074899 change nothing but the
      echoed input. */
  lemma GroupedNumberVector()
    ensures Outcome(Some("1101 0119 9003 0748 99"), Today)
      == ValidationResult(true, "110101199003074899", Some("1101 0119 9003 0748 99"), [],
           Info(Some("北京市"), Some("1990-03-07"), Some(36), Some(Male)))
  {
    GroupingSpacesFront();
    GroupingSpacesBack();
    InsertedSpaceDoesNotMatter("110101199003074899", 4, Today);
    InsertedSpaceDoesNotMatter("1101 01199003074899", 9, Today);
    InsertedSpaceDoesNotMatter("1101 0119 9003074899", 14, Today);
    InsertedSpaceDoesNotMatter("1101 0119 9003 074899", 19, Today);
    ValidNumberVector();
  }

  /** Spaces around and between the groups of 110101199002304896 leave its
      errors and info as they are. */
  lemma GroupedFebruary30Vector()
    ensures Outcome(Some(" 1101 0119 9002 3048 96 "), Today)
      == ValidationResult(false, "110101199002304896", Some(" 1101 0119 9002 3048 96 "),
           [BirthDateInvalid, CheckCodeInvalid], Info(Some("北京市"), None, None, Some(Male)))
  {
    SpacedGroupsFront();
    SpacedGroupsMiddle();
    SpacedGroupsBack();
    InsertedSpaceDoesNotMatter("110101199002304896", 0, Today);
    InsertedSpaceDoesNotMatter(" 110101199002304896", 5, Today);
    InsertedSpaceDoesNotMatter(" 1101 01199002304896", 10, Today);
    InsertedSpaceDoesNotMatter(" 1101 0119 9002304896", 15, Today);
    InsertedSpaceDoesNotMatter(" 1101 0119 9002 304896", 20, Today);
    InsertedSpaceDoesNotMatter(" 1101 0119 9002 3048 96", 23, Today);
    February30Vector();
  }
}
