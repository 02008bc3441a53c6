# CaseNumber — a verified model

This is a model of the `CaseNumber` Quicktext script, written in Dafny. The script builds a case reference number from the current minute, `[Prefix-]yyMMddHHmm`. The prefix is the first template variable, as in `[[SCRIPT=CaseNumber|AREF]]`. The script then does two things with the case ID:

- It writes `"[" + caseID + "] "` in front of the subject of the message being composed.
- It returns `"Reference number: " + caseID + "\n"`, which goes into the message body.

Everything is in `case_number.dfy`, in the module `CaseNumberScript`:

- **Decimal text.** `NatToString` models `toString` on non-negative integers. `ParseDecimal` is its inverse. Both round trips are proved, so `NatToString` yields exactly the canonical digit strings.
- **Padding and the year.** `Pad2` is the `length < 2` zero-padding. `PaddedDecimalText` is `toString` followed by that padding, as done for the month, day, hour and minute. `Substr` is `substr(start, length)` for non-negative arguments. `YearPart` is `getFullYear().toString().substr(2, 2)`. `TwoDigits` is the reference definition that the padded text is compared against.
- **Timestamp.** A `ClockReading` holds the five clock getters as the script sees them, with the month 0-based as `getMonth()` gives it. `Timestamp` assembles the `yyMMddHHmm` text. `ReadTimestamp` reads the five numbers back out of it.
- **Case ID.** `CaseID` builds the case ID. `SplitCaseID` takes one apart again.
- **Subject.** `NewSubject` builds the new subject. `StripCaseReference` removes the marker again.
- **Reference text.** `ReferenceText` builds the returned text. `ParseReferenceText` reads the case ID back out of it.
- **Compose state.** The class `ComposeDetails` stands for the host-owned compose state: the subject plus the other details. `GetSubject` models the read `getComposeDetails()`. `SetSubject` models the partial write `setComposeDetails({ subject })`. The method `CaseNumber` is the script itself.

The clock reading is a parameter, not a call to `new Date()`. The sequence of template variables is a parameter too.

The code takes characters 3 and 4 of the decimal year and does not pad them. The model follows the code: `YearPart` has no padding and no precondition. It is proved to be the last two digits only for four-digit years.

## Model

| member | source | states |
|---|---|---|
| `CaseNumberScript.NatToString` | scripts/CaseNumber.mjs:24-28 | The decimal text of a number is at least one digit long, has only digits and has no leading zero unless the number is 0. It is one character long exactly when the number is below 10. It has at least three characters exactly from 100 on, and at least four exactly from 1000 on. |
| `CaseNumberScript.ParseNatToString` | scripts/CaseNumber.mjs:24-28 | Reading the decimal text of `n` back gives `n`. |
| `CaseNumberScript.NatToStringParse` | scripts/CaseNumber.mjs:24-28 | Every canonical digit string is the decimal text of the number it denotes, so `toString` produces exactly those strings. |
| `CaseNumberScript.Pad2` | scripts/CaseNumber.mjs:30-33 | Text shorter than two characters gets exactly one `"0"` in front. Longer text is unchanged. In both cases the original text is kept as the suffix. |
| `CaseNumberScript.PaddedDecimal` | scripts/CaseNumber.mjs:25-33 | For a number below 100, the padded decimal text is exactly its two digits, tens first. |
| `CaseNumberScript.Substr` | scripts/CaseNumber.mjs:24 | `substr(start, length)` returns the characters from `start` on, up to `length` of them, cut off at the end of the string. |
| `CaseNumberScript.PaddedDecimalText` | scripts/CaseNumber.mjs:25-33 | The decimal text of a number below 100, after padding, is two digits long and has only digits. |
| `CaseNumberScript.YearPart` | scripts/CaseNumber.mjs:24 | The year part has at most two characters, all digits. It has exactly two from year 1000 on. `YearPartLastTwoDigits` says which two. |
| `CaseNumberScript.YearPartLastTwoDigits` | scripts/CaseNumber.mjs:24 | For a year from 1000 to 9999, the 3rd and 4th characters of its decimal text are the two digits of the year modulo 100. |
| `CaseNumberScript.Timestamp` | scripts/CaseNumber.mjs:24-35 | For a valid reading, the assembled timestamp is ten characters long. `TimestampLayout` and `ReadTimestampRoundTrip` state what the characters are: all digits, and which field each pair holds. |
| `CaseNumberScript.TimestampLayout` | scripts/CaseNumber.mjs:24-35 | For a valid reading, the timestamp is ten digits. In order they are: the year in its century, the month counted from 1, the day, the hour and the minute, two digits each. |
| `CaseNumberScript.ReadTimestampRoundTrip` | scripts/CaseNumber.mjs:24-35 | Reading the five two-digit fields back out of the timestamp gives the year modulo 100, `getMonth() + 1`, the day, the hour and the minute. |
| `CaseNumberScript.TimestampInjective` | scripts/CaseNumber.mjs:22-35 | Two valid readings give the same timestamp exactly when they agree on the year within its century, month, day, hour and minute. Two calls in the same minute with the same variables give the same case ID. |
| `CaseNumberScript.CaseID` | scripts/CaseNumber.mjs:37-39 | The timestamp is always the tail of the case ID. |
| `CaseNumberScript.SplitCaseIDRoundTrip` | scripts/CaseNumber.mjs:38-39 | Splitting a case ID gives back the first variable, if there is one, and the timestamp. |
| `CaseNumberScript.CaseIDOfSplit` | scripts/CaseNumber.mjs:38-39 | This is the converse. A string of timestamp length, or one with a `-` right before its last ten characters, is the case ID of its own parts. |
| `CaseNumberScript.CaseIDUsesFirstVariableOnly` | scripts/CaseNumber.mjs:39 | The case ID depends only on the first variable. Later variables have no effect. |
| `CaseNumberScript.CaseIDHyphen` | scripts/CaseNumber.mjs:38-39 | With no variables, the case ID is the bare timestamp and has no hyphen. With a variable, the hyphen comes right after it. |
| `CaseNumberScript.NewSubject` | scripts/CaseNumber.mjs:43 | The new subject is `"[" + caseID + "] "` followed by the old subject verbatim. Its length is the case ID's length plus 3 plus the old subject's length. |
| `CaseNumberScript.StripNewSubject` | scripts/CaseNumber.mjs:42-43 | Stripping the marker from the new subject gives back the old subject, including when the old subject is empty. |
| `CaseNumberScript.NewSubjectOfStripped` | scripts/CaseNumber.mjs:43 | Any subject that the marker can be stripped from is the new subject of what remains. |
| `CaseNumberScript.NewSubjectNotIdempotent` | scripts/CaseNumber.mjs:43 | The marker is added again even when the subject already carries it. There is no deduplication. |
| `CaseNumberScript.ReferenceText` | scripts/CaseNumber.mjs:46 | The returned text is `Reference number: `, then the case ID, then one `"\n"` at the end. |
| `CaseNumberScript.ParseReferenceTextRoundTrip` | scripts/CaseNumber.mjs:46 | The case ID can be read back out of the returned text. |
| `CaseNumberScript.ReferenceTextOfParsed` | scripts/CaseNumber.mjs:46 | Any text that parses as a reference text is the reference text of the case ID it carries. |
| `CaseNumberScript.ReferenceTextSingleNewline` | scripts/CaseNumber.mjs:38-46 | For every prefix and any all-digit timestamp, the returned text ends in one `"\n"` that is not preceded by another. If the prefix also has no line break, that `"\n"` is the only one in the text. |
| `CaseNumberScript.ComposeDetails.GetSubject` | scripts/CaseNumber.mjs:42 | Reading the compose details yields the current subject. |
| `CaseNumberScript.ComposeDetails.SetSubject` | scripts/CaseNumber.mjs:44 | The partial update sets the subject. Body, sender and the To, Cc and Bcc recipients keep their values. |
| `CaseNumberScript.CaseNumber` | scripts/CaseNumber.mjs:20-47 | The script sets the subject to the new subject built from the case ID and the old subject. The old subject can be stripped back out of the result, and no other compose detail changes. It returns the reference text of the same case ID. |
| `CaseNumberScript.DocumentedTimestamp` | scripts/CaseNumber.mjs:16-18 | 31 January 2020 at 12:45 gives the timestamp `2001311245`. So does that minute in any other year ending in 20. |
| `CaseNumberScript.DocumentedCaseIDs` | scripts/CaseNumber.mjs:12-18 | The same minute gives `AREF-2001311245` with the prefix `AREF`, and `2001311245` with no variables. |
| `CaseNumberScript.DocumentedSubjects` | scripts/CaseNumber.mjs:18 | Those case IDs give the subjects `[AREF-2001311245] Meeting notes` and `[2001311245] ` (the second for an empty old subject). |
| `CaseNumberScript.DocumentedReferenceTexts` | scripts/CaseNumber.mjs:14-17 | Those case IDs give the reference texts `Reference number: AREF-2001311245\n` and `Reference number: 2001311245\n`. |

## Left out

- Reading the wall clock (`new Date()` and its getters) is left out. It depends on the host's clock and time zone, so the five components are passed in as a `ClockReading`.
- `YearPartLastTwoDigits` covers years from 1000 to 9999 only. Outside that range, `substr(2, 2)` of the decimal year is not its last two digits. `YearPart` still models what `substr` does for any non-negative year. Negative years are not modelled, because `ClockReading` holds natural numbers.
- Rejection of `getComposeDetails` or `setComposeDetails` and the `await` suspension points are left out. These are host calls: the model has one read and one write that always succeed, and does not model the failed call that propagates to the caller.
- Concurrent invocations on the same compose window are left out. With them, the last write would win. This is host-side concurrency.
- Inserting the returned reference text into the message body is left out. The host's template expansion does that, and it is not part of this model.
- Compose details other than subject, body, sender and recipients are left out. The class stands for the host's record with a representative set of fields. The script touches only the subject.
