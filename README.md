# Chinese resident identity number validator, in Dafny

This project models `ChineseIDValidator` from `tools/chinaidcard/id_validator.py`. The validator takes an 18-character resident identity number and normalises it: it removes every ASCII space, then strips whitespace at both ends. It then runs four checks in a fixed order:

1. the format check: 17 ASCII digits, then a digit or an `X` in either case;
2. the region check: the first two digits must be a province-level code in `AREA_CODES`;
3. the birth-date check: the eight digits at positions 6–13 must form a real date, in 1900 or later and not after today;
4. the check-character check: the ISO 7064 MOD 11-2 check character, computed with `WEIGHTS` and `CHECK_CODES`.

A format failure stops validation at once. Otherwise every failing check appends its own error. The `info` dictionary reports:

- the region name;
- the birth date as `YYYY-MM-DD`;
- the age in completed years;
- the sex, taken from the parity of the sequence digit.

The number is valid exactly when no error was recorded.

The modules follow the source:

- `Text` holds the parts of Python's `str` that the validator uses: `replace(' ', '')`, `strip()` with the full `str.isspace` set, ASCII `upper()`, and `int()` on digit strings.
- `Calendar` holds the parts of `datetime.date` that it uses: the dates the constructor accepts, comparison, and `strftime('%Y-%m-%d')`.
- `CheckCode` holds `WEIGHTS`, `CHECK_CODES`, `generate_check_code` and `_check_verification_code`.
  - It proves that they implement ISO 7064 MOD 11-2.
  - It proves that the check character catches every single-digit substitution and every adjacent transposition among the first 17 digits.
- `IdValidator` holds `AREA_CODES`, the remaining checks, `_calculate_age` and `validate` itself.
  - `validate` is the method `Validate`, written step by step like the source: a local error list, an early return on a format failure, and one appended error per failing check.
  - `Validate` is proved equal to the function `Outcome`, which states the whole result.
- `ValidatorProperties` proves what the result promises: the format gate, which errors are listed and in what order, when the verdict is valid, which info is reported, and that spaces in the input do not matter.
- `ValidatorVectors` works through the demonstration numbers in the source's `main`, with the current date fixed at 15 October 2026. It states the whole result of `validate` for each of its nine inputs, and the pieces those results are built from.

The current date, which the source reads from the clock, is an explicit parameter `today` throughout. Python's `None` input is `Option.None`.

The labels that `main` gives its demonstration numbers and what the code reports differ in two places. The model follows the code:

- `99010119900307489X` is labelled as the region-code case (id_validator.py:225). The code also reports the check-character error: its first 17 digits have weighted sum 362, and 362 mod 11 = 10, which selects check character `2` (`ValidatorVectors.UnknownAreaVector`).
- `110101200002304896` is labelled as a future date (id_validator.py:226). Its date digits name 30 February 2000, which does not exist, so the birth-date check rejects it for that reason. Its check character should be `7`, so the check-character check fails too (`ValidatorVectors.FutureLabelVector`).

## Model

| member | source | states |
|---|---|---|
| CheckCode.WeightsArePowersOfTwo | tools/chinaidcard/id_validator.py:24 | the 17 weights are 2^(17−i) mod 11, the weights of ISO 7064 MOD 11-2 |
| CheckCode.CheckValue | tools/chinaidcard/id_validator.py:27 | a check character's value is at most 10, and it is 10 exactly for `X` |
| CheckCode.CheckValueInjective | tools/chinaidcard/id_validator.py:27 | two check characters with the same value are the same character |
| CheckCode.ErrorMessage | tools/chinaidcard/id_validator.py:185 | definition: the text of the `ValueError` that `generate_check_code` raises |
| CheckCode.CheckCodesComplement | tools/chinaidcard/id_validator.py:27 | `CHECK_CODES` has 11 entries; the entry at remainder r is a check character whose value brings r + value to 1 modulo 11 |
| CheckCode.WeightedSumTo | tools/chinaidcard/id_validator.py:188 | definition: the sum of `int(d) * w` over the first n positions |
| CheckCode.WeightedSum | tools/chinaidcard/id_validator.py:188 | definition: `sum(int(d) * w for d, w in zip(s, WEIGHTS))` over a digit string no longer than `WEIGHTS` |
| CheckCode.SameResidueSameValue | tools/chinaidcard/id_validator.py:191-192 | two values up to 10 that give the same sum the same remainder modulo 11 are equal |
| CheckCode.SameRemainder | tools/chinaidcard/id_validator.py:191 | numbers with the same remainder modulo 11 differ by a multiple of 11 |
| CheckCode.WeightedSumAgree | tools/chinaidcard/id_validator.py:188 | the weighted sum depends only on the positions it sums over |
| CheckCode.WeightedSumOfPrefix | tools/chinaidcard/id_validator.py:171 | the weighted sum of `id_number[:17]` is the weighted sum over the number's first 17 positions |
| CheckCode.GenerateCheckCode | tools/chinaidcard/id_validator.py:174-192 | succeeds exactly when the argument is 17 ASCII digits, and otherwise fails with the "first 17 must be digits" error; the result is in `CHECK_CODES`, and sum + value(result) ≡ 1 (mod 11) |
| CheckCode.GeneratedCodeIsUnique | tools/chinaidcard/id_validator.py:188-192 | the generated character is the only check character c with sum + value(c) ≡ 1 (mod 11) |
| CheckCode.CheckVerificationCode | tools/chinaidcard/id_validator.py:161-172 | accepts exactly when the upper-cased last character is a check character and the 18-position weighted sum is 1 modulo 11 |
| CheckCode.PositionValue | tools/chinaidcard/id_validator.py:172 | each position's value is at most 10 (`X` in the last place counts 10) |
| CheckCode.IsoWeight | tools/chinaidcard/id_validator.py:24 | the ISO 7064 weight of every position is below 11 |
| CheckCode.IsoSumIsWeightedSum | tools/chinaidcard/id_validator.py:188 | over the first 17 positions, the ISO 7064 weighted sum equals the source's `sum(int(d) * w)` |
| CheckCode.VerificationIsIsoMod11_2 | tools/chinaidcard/id_validator.py:161-192 | the verification check accepts exactly the numbers that satisfy ISO 7064 MOD 11-2 |
| CheckCode.AppendedCheckCodeVerifies | tools/chinaidcard/id_validator.py:161-192 | round trip: 17 digits plus their generated character pass the verification; so does a lower-case `x` where `X` was generated |
| CheckCode.NoZeroDivisors | tools/chinaidcard/id_validator.py:191 | a product of two nonzero numbers below 11 in size is not a multiple of 11 |
| CheckCode.WeightedSumChange | tools/chinaidcard/id_validator.py:188 | changing one digit changes the weighted sum by the difference of the digits times that position's weight |
| CheckCode.WeightedSumSwap | tools/chinaidcard/id_validator.py:188 | exchanging adjacent digits changes the weighted sum by the difference of the digits times the difference of the weights |
| CheckCode.SingleSubstitutionDetected | tools/chinaidcard/id_validator.py:161-192 | two numbers that differ in one of the first 17 digits and share the last character cannot both pass the verification |
| CheckCode.AdjacentTranspositionDetected | tools/chinaidcard/id_validator.py:161-192 | exchanging two different adjacent digits among the first 17 always makes the verification fail for one of the two numbers |
| Text.DigitValue | tools/chinaidcard/id_validator.py:92 | `int()` of one ASCII digit is below 10 |
| Text.IsDigit | tools/chinaidcard/id_validator.py:115 | definition: an ASCII digit, what `\d` matches in the model |
| Text.AllDigits | tools/chinaidcard/id_validator.py:184 | definition: every character is an ASCII digit, what `str.isdigit()` checks in the model |
| Text.DigitChar | tools/chinaidcard/id_validator.py:84 | the digit of value v is a digit whose `int()` is v |
| Text.IsSpace | tools/chinaidcard/id_validator.py:56 | definition: the characters `str.isspace` accepts, the set `strip()` removes |
| Text.UpperChar | tools/chinaidcard/id_validator.py:116 | upper-cases exactly the ASCII lower-case letters, by 32 code points, and leaves every other character alone; no result is a lower-case letter |
| Text.Upper | tools/chinaidcard/id_validator.py:116 | same length as the argument, upper-cased character by character |
| Text.RemoveSpaces | tools/chinaidcard/id_validator.py:56 | `replace(' ', '')` leaves no space and does not lengthen the string |
| Text.RemoveSpacesKeepsOthers | tools/chinaidcard/id_validator.py:56 | every character other than the space occurs in the result as often as in the argument |
| Text.RemoveSpacesAppend | tools/chinaidcard/id_validator.py:56 | removing spaces distributes over concatenation |
| Text.RemoveSpacesNoSpace | tools/chinaidcard/id_validator.py:56 | a string without spaces is unchanged |
| Text.StripStart | tools/chinaidcard/id_validator.py:56 | `lstrip()` is a suffix of the argument that does not start with whitespace, and everything cut is whitespace |
| Text.StripEnd | tools/chinaidcard/id_validator.py:56 | `rstrip()` is a prefix of the argument that does not end with whitespace, and everything cut is whitespace |
| Text.Strip | tools/chinaidcard/id_validator.py:56 | `strip()` neither starts nor ends with whitespace, and is no longer than its argument |
| Text.StripIsTrimmedSlice | tools/chinaidcard/id_validator.py:56 | `strip()` is a contiguous piece of the argument, and everything cut from either end is whitespace |
| Text.StripStripped | tools/chinaidcard/id_validator.py:56 | `strip()` leaves a string without whitespace at its ends unchanged |
| Text.StripStartKeepsAbsent | tools/chinaidcard/id_validator.py:56 | `lstrip()` introduces no character |
| Text.StripEndKeepsAbsent | tools/chinaidcard/id_validator.py:56 | `rstrip()` introduces no character |
| Text.StripKeepsAbsent | tools/chinaidcard/id_validator.py:56 | `strip()` introduces no character, so the normalised number has no space |
| Text.RemoveSpacesIgnoresInsertedSpace | tools/chinaidcard/id_validator.py:54-56 | a space inserted anywhere is removed again by `replace(' ', '')` |
| Text.NumberValue | tools/chinaidcard/id_validator.py:141-143 | `int()` of an n-digit string is below 10^n |
| Text.Decimal | tools/chinaidcard/id_validator.py:84 | a zero-padded numeral has the width asked for and is all digits |
| Text.NumberValueOfDecimal | tools/chinaidcard/id_validator.py:84 | reading back a zero-padded numeral gives the number printed |
| Text.DecimalOfNumberValue | tools/chinaidcard/id_validator.py:84 | printing a digit string's value at its own width gives the string back, leading zeros included |
| Calendar.DaysInMonth | tools/chinaidcard/id_validator.py:150 | 28 to 31 days; 29 exactly in February of a Gregorian leap year; 30 exactly in April, June, September and November |
| Calendar.IsLeapYear | tools/chinaidcard/id_validator.py:150 | definition: the Gregorian leap-year rule `datetime.date` applies |
| Calendar.IsValidDate | tools/chinaidcard/id_validator.py:150 | definition: a year from 1 to 9999, a month from 1 to 12 and a day within that month |
| Calendar.MakeDate | tools/chinaidcard/id_validator.py:150 | `datetime.date(y, m, d)` gives that date exactly when the date exists in years 1 to 9999, and otherwise raises (`None`) |
| Calendar.Before | tools/chinaidcard/id_validator.py:153 | definition: `a < b` on dates, by year, then month, then day |
| Calendar.MonthDayBefore | tools/chinaidcard/id_validator.py:208 | definition: an earlier month, or the same month and an earlier day |
| Calendar.BeforeIsStrictTotalOrder | tools/chinaidcard/id_validator.py:153 | date comparison is irreflexive, asymmetric, transitive and total |
| Calendar.JoinedFields | tools/chinaidcard/id_validator.py:84 | digit fields of widths 4, 2 and 2 joined by dashes read as `YYYY-MM-DD` for the date they name |
| Calendar.IsoFormat | tools/chinaidcard/id_validator.py:84 | `strftime('%Y-%m-%d')` reads as the date's year, month and day with dashes |
| IdValidator.Normalize | tools/chinaidcard/id_validator.py:54-56 | the normalised number contains no space, has no whitespace at either end, is empty for `None`, and is no longer than the input |
| IdValidator.NormalizeIgnoresInsertedSpace | tools/chinaidcard/id_validator.py:54-56 | inserting a space anywhere in the input leaves the normalised number unchanged |
| IdValidator.NormalizeIdempotent | tools/chinaidcard/id_validator.py:56 | normalising twice is the same as normalising once |
| IdValidator.NormalizePlain | tools/chinaidcard/id_validator.py:56 | a string with no space and no whitespace at its ends normalises to itself |
| IdValidator.MatchesIdPattern | tools/chinaidcard/id_validator.py:115-116 | definition: 17 ASCII digits and then a digit or `X`, the pattern `^\d{17}[\dX]$` on the upper-cased number |
| IdValidator.CheckFormat | tools/chinaidcard/id_validator.py:101-116 | passes exactly when the number has 18 characters, the first 17 ASCII digits and the last a digit, `X` or `x` |
| IdValidator.FormatFields | tools/chinaidcard/id_validator.py:72-92 | on a format-checked number, the region code, the birth-date digits and the sequence digit are all digits |
| IdValidator.CheckAreaCode | tools/chinaidcard/id_validator.py:118-128 | definition: the code is a key of `AREA_CODES`; `AcceptedAreaCodesAreTwoDigits` and `ValidatorVectors.AreaVector` state what that accepts |
| IdValidator.AcceptedAreaCodesAreTwoDigits | tools/chinaidcard/id_validator.py:30-38 | every code the region check accepts is two digits, the first of them 1 to 8 |
| IdValidator.BirthDigitsDate | tools/chinaidcard/id_validator.py:141-143 | definition: the date named by `int()` of the year, month and day digits |
| IdValidator.CheckBirthDate | tools/chinaidcard/id_validator.py:130-159 | the eight digits are accepted exactly when they name a date that exists, in 1900 or later and not after today; the accepted date is the one the digits name, and its year is at most today's |
| IdValidator.BirthDateText | tools/chinaidcard/id_validator.py:79-84 | an accepted birth date is printed as the number's own digits `YYYY-MM-DD` |
| IdValidator.Age | tools/chinaidcard/id_validator.py:194-211 | the age is the number of the last anniversary reached: that anniversary is on or before today and the next one is after; it is never negative for a birth date not after today; on the birthday itself it is the difference of the years |
| IdValidator.GenderOf | tools/chinaidcard/id_validator.py:92-93 | male exactly when the sequence digit is odd |
| IdValidator.GenderLabel | tools/chinaidcard/id_validator.py:93 | definition: `男` for male and `女` for female |
| IdValidator.Message | tools/chinaidcard/id_validator.py:68-89 | definition: the message text each error appends |
| IdValidator.Fails | tools/chinaidcard/id_validator.py:74-89 | definition: whether the check that reports an error fails; the format error never does after the format check |
| IdValidator.FailingChecks | tools/chinaidcard/id_validator.py:71-89 | definition: the errors of the given checks whose check fails, in order |
| IdValidator.FailingChecksAreFailures | tools/chinaidcard/id_validator.py:71-89 | the listed errors are exactly the failing checks, and they keep the order of the checks |
| IdValidator.LaterChecksUnfold | tools/chinaidcard/id_validator.py:71-89 | the error list is the area error, then the date error, then the check-character error, each present exactly when its check fails |
| IdValidator.LaterErrors | tools/chinaidcard/id_validator.py:71-89 | no format error after the format check; each later error is listed exactly when its check fails; the list is in check order |
| IdValidator.InfoOf | tools/chinaidcard/id_validator.py:71-93 | definition: the info a format-checked number yields: the region if known, the date and age if the date is accepted, and the sex |
| IdValidator.InfoOfFields | tools/chinaidcard/id_validator.py:71-93 | the sex is always reported; the region exactly when its code is known; the birth date, as the number's digits with dashes, and a non-negative age exactly when the date is accepted |
| IdValidator.RunChecks | tools/chinaidcard/id_validator.py:71-93 | running the area, birth-date and check-character checks in turn, then reading the sex, gives the failing checks' errors in order and the info those checks yield |
| IdValidator.Outcome | tools/chinaidcard/id_validator.py:44-99 | `id_number` is the normalised input and `original_input` the input as given; valid exactly when the error list is empty; `ValidatorProperties` proves the rest of what the result promises |
| IdValidator.Validate | tools/chinaidcard/id_validator.py:44-99 | returns the result `Outcome` states; its `id_number` is the normalised input and `original_input` the input as given; valid exactly when no error was recorded |
| ValidatorProperties.FormatGate | tools/chinaidcard/id_validator.py:66-69 | the format error is listed exactly when the format check fails; then it is the only error, there is no info and the number is invalid |
| ValidatorProperties.ErrorsAreFailingChecks | tools/chinaidcard/id_validator.py:71-89 | after the format check passes, each error is listed exactly when its check fails, in check order and none twice |
| ValidatorProperties.ExactErrors | tools/chinaidcard/id_validator.py:71-89 | after the format check passes, the error list is exactly area, date and check-character errors for the checks that fail, in that order |
| ValidatorProperties.ValidIffAllChecksPass | tools/chinaidcard/id_validator.py:95-97 | valid exactly when the format, region, birth-date and check-character checks all pass |
| ValidatorProperties.InfoReported | tools/chinaidcard/id_validator.py:71-93 | after the format check passes, the sex is always reported; the region exactly when it is known; the birth date and the age exactly when the date error is absent; the age is never negative |
| ValidatorProperties.SpacesDoNotMatter | tools/chinaidcard/id_validator.py:54-56 | two inputs that agree once spaces are removed get the same result, except for `original_input` |
| ValidatorProperties.InsertedSpaceDoesNotMatter | tools/chinaidcard/id_validator.py:54-56 | a space inserted anywhere changes only `original_input` |
| ValidatorProperties.GeneratedNumberHasValidCheckCode | tools/chinaidcard/id_validator.py:161-192 | 17 digits followed by their generated character get neither the format error nor the check-character error |
| ValidatorProperties.ValidNumberResult | tools/chinaidcard/id_validator.py:44-99 | a number that normalises to itself and passes every check is valid, with no error, and reports its region, its birth date `YYYY-MM-DD`, the age on `today` and its sex |
| ValidatorVectors.SumValidHalf | tools/chinaidcard/id_validator.py:188 | the first 8 weighted terms of 110101199003074899 sum to 36 |
| ValidatorVectors.SumValid | tools/chinaidcard/id_validator.py:188 | the weighted sum of 11010119900307489 is 234 |
| ValidatorVectors.SumWrongCheckCode | tools/chinaidcard/id_validator.py:188 | 110101199003074897 has the same weighted sum, 234 |
| ValidatorVectors.SumFebruary30Half | tools/chinaidcard/id_validator.py:188 | the first 8 weighted terms of 110101199002304896 sum to 36 |
| ValidatorVectors.SumFebruary30 | tools/chinaidcard/id_validator.py:188 | the weighted sum of 11010119900230489 is 220 |
| ValidatorVectors.SumUnknownAreaHalf | tools/chinaidcard/id_validator.py:188 | the first 8 weighted terms of 99010119900307489X sum to 164 |
| ValidatorVectors.SumUnknownArea | tools/chinaidcard/id_validator.py:188 | the weighted sum of 99010119900307489 is 362 |
| ValidatorVectors.SumFutureLabelHalf | tools/chinaidcard/id_validator.py:188 | the first 8 weighted terms of 110101200002304896 sum to 29 |
| ValidatorVectors.SumFutureLabel | tools/chinaidcard/id_validator.py:188 | the weighted sum of 11010120000230489 is 159 |
| ValidatorVectors.CheckCodeVector | tools/chinaidcard/id_validator.py:174-192 | the check character of 11010119900307489 is `9`; 16 digits, or a letter among the 17, are refused |
| ValidatorVectors.Numerals | tools/chinaidcard/id_validator.py:141-143 | `int()` of the year, month and day fields used below |
| ValidatorVectors.BirthDate19900307 | tools/chinaidcard/id_validator.py:130-159 | 19900307 is accepted as 7 March 1990, printed `1990-03-07`; on 15 October 2026 the age is 36 |
| ValidatorVectors.Printed19900307 | tools/chinaidcard/id_validator.py:84 | 7 March 1990 prints as `1990-03-07` |
| ValidatorVectors.February30Rejected | tools/chinaidcard/id_validator.py:150 | 19900230 is rejected: 30 February does not exist |
| ValidatorVectors.February30Of2000Rejected | tools/chinaidcard/id_validator.py:150 | 20000230 is rejected: 30 February 2000 does not exist, although 2000 is a leap year |
| ValidatorVectors.BirthDateBoundaries | tools/chinaidcard/id_validator.py:145-154 | 19000101 is accepted; a year after today's year, month 13 and 30 February are rejected |
| ValidatorVectors.AreaVector | tools/chinaidcard/id_validator.py:30-38 | code 11 is accepted as 北京市; code 99 is rejected |
| ValidatorVectors.FormatVector | tools/chinaidcard/id_validator.py:219-229 | 18 digits and a final lower-case `x` pass the format check; 17 digits and a final `A` fail it |
| ValidatorVectors.ValidCheckCode | tools/chinaidcard/id_validator.py:220 | 110101199003074899 carries the right check character |
| ValidatorVectors.WrongCheckCode | tools/chinaidcard/id_validator.py:223 | 110101199003074897 fails the verification |
| ValidatorVectors.February30CheckCode | tools/chinaidcard/id_validator.py:224 | 110101199002304896 fails the verification (the sum 220 calls for `1`) |
| ValidatorVectors.UnknownAreaCheckCode | tools/chinaidcard/id_validator.py:225 | 99010119900307489X fails the verification (the sum 362 calls for `2`) |
| ValidatorVectors.FutureLabelCheckCode | tools/chinaidcard/id_validator.py:226 | 110101200002304896 fails the verification (the sum 159 calls for `7`) |
| ValidatorVectors.ValidNumberNormalized | tools/chinaidcard/id_validator.py:220 | 110101199003074899 normalises to itself |
| ValidatorVectors.ValidNumberFormat | tools/chinaidcard/id_validator.py:220 | 110101199003074899 passes the format check |
| ValidatorVectors.ValidNumberRegion | tools/chinaidcard/id_validator.py:220 | the region code of 110101199003074899 is accepted, as 北京市 |
| ValidatorVectors.ValidNumberBirthDate | tools/chinaidcard/id_validator.py:220 | the birth-date digits of 110101199003074899 are accepted as 7 March 1990 |
| ValidatorVectors.ValidNumberInfo | tools/chinaidcard/id_validator.py:220 | the info of 110101199003074899: from 北京市, born `1990-03-07`, 36 years old on 15 October 2026, male |
| ValidatorVectors.WrongCheckCodeNormalized | tools/chinaidcard/id_validator.py:223 | 110101199003074897 normalises to itself |
| ValidatorVectors.WrongCheckCodeFormat | tools/chinaidcard/id_validator.py:223 | 110101199003074897 passes the format check |
| ValidatorVectors.WrongCheckCodeRegion | tools/chinaidcard/id_validator.py:223 | the region code of 110101199003074897 is accepted, as 北京市 |
| ValidatorVectors.WrongCheckCodeBirthDate | tools/chinaidcard/id_validator.py:223 | the birth-date digits of 110101199003074897 are accepted as 7 March 1990 |
| ValidatorVectors.WrongCheckCodeInfo | tools/chinaidcard/id_validator.py:223 | the info of 110101199003074897: from 北京市, born `1990-03-07`, 36 years old on 15 October 2026, male |
| ValidatorVectors.UnknownAreaNormalized | tools/chinaidcard/id_validator.py:225 | 99010119900307489X normalises to itself |
| ValidatorVectors.UnknownAreaFormat | tools/chinaidcard/id_validator.py:225 | 99010119900307489X passes the format check |
| ValidatorVectors.UnknownAreaRegion | tools/chinaidcard/id_validator.py:225 | the region code of 99010119900307489X is rejected |
| ValidatorVectors.UnknownAreaBirthDate | tools/chinaidcard/id_validator.py:225 | the birth-date digits of 99010119900307489X are accepted as 7 March 1990 |
| ValidatorVectors.UnknownAreaInfo | tools/chinaidcard/id_validator.py:225 | the info of 99010119900307489X: no region, born `1990-03-07`, 36 years old on 15 October 2026, male |
| ValidatorVectors.February30Normalized | tools/chinaidcard/id_validator.py:224 | 110101199002304896 normalises to itself |
| ValidatorVectors.February30Format | tools/chinaidcard/id_validator.py:224 | 110101199002304896 passes the format check |
| ValidatorVectors.February30Region | tools/chinaidcard/id_validator.py:224 | the region code of 110101199002304896 is accepted, as 北京市 |
| ValidatorVectors.February30BirthDate | tools/chinaidcard/id_validator.py:224 | the birth-date digits of 110101199002304896 are rejected |
| ValidatorVectors.February30Info | tools/chinaidcard/id_validator.py:224 | the info of 110101199002304896: from 北京市, no birth date and no age, male |
| ValidatorVectors.FutureLabelNormalized | tools/chinaidcard/id_validator.py:226 | 110101200002304896 normalises to itself |
| ValidatorVectors.FutureLabelFormat | tools/chinaidcard/id_validator.py:226 | 110101200002304896 passes the format check |
| ValidatorVectors.FutureLabelRegion | tools/chinaidcard/id_validator.py:226 | the region code of 110101200002304896 is accepted, as 北京市 |
| ValidatorVectors.FutureLabelBirthDate | tools/chinaidcard/id_validator.py:226 | the birth-date digits of 110101200002304896 are rejected |
| ValidatorVectors.FutureLabelInfo | tools/chinaidcard/id_validator.py:226 | the info of 110101200002304896: from 北京市, no birth date and no age, male |
| ValidatorVectors.ValidNumberVector | tools/chinaidcard/id_validator.py:220 | the whole result: 110101199003074899 is valid with no error, reported as written, from 北京市, born `1990-03-07`, 36 years old on 15 October 2026, male |
| ValidatorVectors.SpacedNumberVector | tools/chinaidcard/id_validator.py:221 | the whole result: " 110101199003074899 " is valid with no error, its `id_number` the number without the spaces, its `original_input` as given, from 北京市, born `1990-03-07`, 36 years old on 15 October 2026, male |
| ValidatorVectors.GroupedNumberVector | tools/chinaidcard/id_validator.py:222 | the whole result: "1101 0119 9003 0748 99" is valid with no error, its `id_number` the number without the spaces, its `original_input` as given, from 北京市, born `1990-03-07`, 36 years old on 15 October 2026, male |
| ValidatorVectors.WrongCheckCodeVector | tools/chinaidcard/id_validator.py:223 | the whole result: 110101199003074897 is invalid with the check-character error alone, reported as written, from 北京市, born `1990-03-07`, 36 years old on 15 October 2026, male |
| ValidatorVectors.February30Vector | tools/chinaidcard/id_validator.py:224 | the whole result: 110101199002304896 is invalid with the date error and then the check-character error, reported as written, from 北京市, with no birth date and no age, male |
| ValidatorVectors.UnknownAreaVector | tools/chinaidcard/id_validator.py:225 | the whole result: 99010119900307489X is invalid with the region error and then the check-character error, reported as written, with no region, born `1990-03-07`, 36 years old on 15 October 2026, male |
| ValidatorVectors.FutureLabelVector | tools/chinaidcard/id_validator.py:226 | the whole result: 110101200002304896 is invalid with the date error and then the check-character error, reported as written, from 北京市, with no birth date and no age, male |
| ValidatorVectors.ShortNumberVector | tools/chinaidcard/id_validator.py:227 | the whole result: 11010119900307489 is invalid with the format error alone, reported as written, with no info |
| ValidatorVectors.GroupedFebruary30Vector | tools/chinaidcard/id_validator.py:228 | the whole result: " 1101 0119 9002 3048 96 " is invalid with the date error and then the check-character error, its `id_number` the number without the spaces, its `original_input` as given, from 北京市, with no birth date and no age, male |

## Left out

- The clock: `datetime.date.today()` becomes the parameter `today`, which must be a valid date. The source reads the clock three times: for the year bound (id_validator.py:146), for the future-date test (:153) and for the age (:204). The model reads it once. So it does not capture a clock that moves between those reads. For example, if the clock stepped back between :153 and :204, the source could report an age of −1. The model's promise that the age is never negative rests on the single read.
- `main()` is not modelled (id_validator.py:214-252). It only prints the results for its demonstration numbers; `ValidatorVectors` states those results.
- `tools/chinaidcard/id_validator_ui.py`, `web_ui.py` and the demonstration scripts are not part of this model. They only call `validate` and display its result.
- Unicode digits are not modelled. Python's `\d`, `str.isdigit()` and `int()` also accept non-ASCII decimal digits; the model accepts only `0`–`9`.
- Text.UpperChar: upper-cases only the ASCII letters. The upper-case form of any other character is never an ASCII digit or `X`, so the format check's verdict does not change.
- IdValidator.CheckBirthDate: modelled only on strings of eight ASCII digits, which is what `validate` passes it (id_validator.py:79). On other strings the source reads the year, month and day from the slices at :141-143. So a seven-character string such as `1990037` can still be accepted, and a longer one is judged on its first eight characters. A field that `int()` cannot parse raises `ValueError`, which the function catches itself and turns into a rejection (:158-159). `int()` also accepts surrounding whitespace and a sign, so `1990 307` and `1990+3+7` are accepted as 7 March 1990. None of this is modelled.
- CheckCode.CheckVerificationCode: modelled on strings of at least 18 characters whose first 17 are ASCII digits. That covers the format-checked number `validate` passes it (id_validator.py:88). The source reads only the first 17 characters and the 18th (:171-172). On a shorter string, or one with a non-digit among the first 17, it raises (through `generate_check_code`, :184-185, or an index error). Those raising paths are not modelled.
- `validate` is modelled on `str` and `None` inputs only. Other argument types are not modelled.
- The message strings and the region names are kept as Chinese text (`IdValidator.Message`, `GenderLabel`, `AreaCodes`). No general property is stated about them; the vectors pin only `AreaCodes["11"] == "北京市"`.
