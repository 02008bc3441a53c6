/** A model of the `CaseNumber` template script: it turns a clock reading into a
    `yyMMddHHmm` timestamp, prepends an optional prefix taken from the first
    template variable to form a case ID, writes `[caseID] ` in front of the
    subject of the message being composed, and returns the reference text
    `Reference number: <caseID>\n` for the message body.

    The clock reading is a parameter (the script reads the wall clock), and the
    host's compose state is a `ComposeDetails` object with one read and one
    write of its subject. */
module CaseNumberScript {

  datatype Option<T> = None | Some(value: T)

  // ---------------------------------------------------------------------------
  // Decimal text of non-negative integers (Number.prototype.toString)
  // ---------------------------------------------------------------------------

  predicate IsDigit(c: char) {
    '0' <= c <= '9'
  }

  predicate AllDigits(s: string) {
    forall i :: 0 <= i < |s| ==> IsDigit(s[i])
  }

  function DigitValue(c: char): (d: nat)
    requires IsDigit(c)
    ensures d < 10
  {
    c as int - '0' as int
  }

  function DigitChar(d: nat): (c: char)
    requires d < 10
    ensures IsDigit(c) && DigitValue(c) == d
  {
    ('0' as int + d) as char
  }

  /** The value of a string of decimal digits, most significant first. */
  function ParseDecimal(s: string): nat
    requires AllDigits(s)
    decreases |s|
  {
    if s == [] then 0 else 10 * ParseDecimal(s[..|s| - 1]) + DigitValue(s[|s| - 1])
  }

  /** The form `toString` produces: at least one digit and no leading zero
      unless the number is zero itself. */
  predicate CanonicalDecimal(s: string) {
    1 <= |s| && AllDigits(s) && (|s| > 1 ==> s[0] != '0')
  }

  /** Decimal text of `n`, as `n.toString()` gives it. */
  function NatToString(n: nat): (r: string)
    ensures CanonicalDecimal(r)
    ensures |r| == 1 <==> n < 10
    ensures |r| >= 3 <==> n >= 100
    ensures |r| >= 4 <==> n >= 1000
    ensures r[0] == '0' ==> n == 0
    decreases n
  {
    if n < 10 then [DigitChar(n)] else NatToString(n / 10) + [DigitChar(n % 10)]
  }

  /** Parsing the decimal text of `n` gives `n` back. */
  lemma {:induction false} ParseNatToString(n: nat)
    ensures ParseDecimal(NatToString(n)) == n
    decreases n
  {
    var s := NatToString(n);
    if n >= 10 {
      ParseNatToString(n / 10);
      assert s[..|s| - 1] == NatToString(n / 10);
      assert s[|s| - 1] == DigitChar(n % 10);
    }
  }

  lemma {:induction false} ParsePositive(s: string)
    requires CanonicalDecimal(s) && s[0] != '0'
    ensures ParseDecimal(s) >= 1
    decreases |s|
  {
    if |s| > 1 {
      var t := s[..|s| - 1];
      assert t[0] == s[0];
      ParsePositive(t);
    }
  }

  /** Every canonical decimal string is the text of the number it denotes, so
      `NatToString` produces exactly the canonical strings. */
  lemma {:induction false} NatToStringParse(s: string)
    requires CanonicalDecimal(s)
    ensures NatToString(ParseDecimal(s)) == s
    decreases |s|
  {
    var c := s[|s| - 1];
    assert DigitChar(DigitValue(c)) == c;
    if |s| > 1 {
      var t := s[..|s| - 1];
      assert t[0] == s[0];
      assert CanonicalDecimal(t);
      ParsePositive(t);
      NatToStringParse(t);
      var n := ParseDecimal(s);
      assert n / 10 == ParseDecimal(t) && n % 10 == DigitValue(c);
      assert s == t + [c];
    }
  }

  // ---------------------------------------------------------------------------
  // Padding and the year part
  // ---------------------------------------------------------------------------

  /** `if (x.length < 2) x = "0" + x`: one "0" in front of text shorter than two
      characters, any other text unchanged. */
  function Pad2(s: string): (r: string)
    ensures |r| == if |s| < 2 then |s| + 1 else |s|
    ensures r[|r| - |s|..] == s
    ensures forall i :: 0 <= i < |r| - |s| ==> r[i] == '0'
  {
    if |s| < 2 then "0" + s else s
  }

  /** Reference definition: the two decimal digits of a number below 100. */
  function TwoDigits(n: nat): (r: string)
    requires n < 100
    ensures |r| == 2 && AllDigits(r)
  {
    [DigitChar(n / 10), DigitChar(n % 10)]
  }

  lemma ParseTwoDigits(n: nat)
    requires n < 100
    ensures AllDigits(TwoDigits(n)) && ParseDecimal(TwoDigits(n)) == n
  {
    var s := TwoDigits(n);
    assert s[..1] == [DigitChar(n / 10)];
    assert s[..1][..0] == [];
    assert ParseDecimal(s[..1]) == n / 10;
    assert ParseDecimal(s) == 10 * (n / 10) + n % 10;
  }

  /** Padding the decimal text of a number below 100 gives its two digits. */
  lemma PaddedDecimal(n: nat)
    requires n < 100
    ensures Pad2(NatToString(n)) == TwoDigits(n)
  {
    if n >= 10 {
      assert NatToString(n) == NatToString(n / 10) + [DigitChar(n % 10)];
      assert NatToString(n / 10) == [DigitChar(n / 10)];
    } else {
      assert DigitChar(0) == '0';
    }
  }

  /** `s.substr(start, length)` for non-negative arguments: the characters of
      `s` from `start` on, at most `length` of them. */
  function Substr(s: string, start: nat, length: nat): (r: string)
    ensures |r| == if start >= |s| then 0 else if start + length <= |s| then length else |s| - start
    ensures forall i :: 0 <= i < |r| ==> r[i] == s[start + i]
  {
    var b := if start < |s| then start else |s|;
    var e := if start + length < |s| then start + length else |s|;
    s[b..e]
  }

  /** `getFullYear().toString().substr(2, 2)`: at most two digits, exactly two
      from year 1000 on. */
  function YearPart(fullYear: nat): (r: string)
    ensures |r| <= 2 && AllDigits(r)
    ensures |r| == 2 <==> fullYear >= 1000
  {
    Substr(NatToString(fullYear), 2, 2)
  }

  /** For a four-digit year the year part is its last two digits. */
  lemma YearPartLastTwoDigits(fullYear: nat)
    requires 1000 <= fullYear <= 9999
    ensures YearPart(fullYear) == TwoDigits(fullYear % 100)
  {
    var y := fullYear;
    var hi := NatToString(y / 100);
    assert |hi| == 2 by {
      assert hi == NatToString(y / 1000) + [DigitChar(y / 100 % 10)];
    }
    assert NatToString(y / 10) == hi + [DigitChar(y / 10 % 10)];
    var s := NatToString(y);
    assert s == hi + [DigitChar(y / 10 % 10)] + [DigitChar(y % 10)];
    assert y % 100 / 10 == y / 10 % 10;
    assert y % 100 % 10 == y % 10;
  }

  // ---------------------------------------------------------------------------
  // The timestamp
  // ---------------------------------------------------------------------------

  /** The clock components the script reads: `getFullYear()`, `getMonth()`
      (0 for January), `getDate()`, `getHours()` and `getMinutes()`. */
  datatype ClockReading = ClockReading(fullYear: nat, month: nat, date: nat, hours: nat, minutes: nat)
  {
    /** A reading of a date in a four-digit year. */
    predicate Valid() {
      1000 <= fullYear <= 9999 && month < 12 && 1 <= date <= 31 && hours < 24 && minutes < 60
    }
  }

  const TimestampLength: nat := 10

  /** `x.toString()` followed by `if (x.length < 2) x = "0" + x`: two digits
      for a number below 100. */
  function PaddedDecimalText(n: nat): (r: string)
    ensures n < 100 ==> |r| == 2 && AllDigits(r)
  {
    Pad2(NatToString(n))
  }

  /** `yy + mm + dd + hh + nn`; ten characters for a valid reading. */
  function Timestamp(c: ClockReading): (r: string)
    ensures c.Valid() ==> |r| == TimestampLength
  {
    YearPart(c.fullYear)
      + PaddedDecimalText(c.month + 1)
      + PaddedDecimalText(c.date)
      + PaddedDecimalText(c.hours)
      + PaddedDecimalText(c.minutes)
  }

  /** For a valid reading the timestamp is two digits each for the year in its
      century, the month (1 for January), the day, the hour and the minute. */
  lemma TimestampLayout(c: ClockReading)
    requires c.Valid()
    ensures Timestamp(c) == TwoDigits(c.fullYear % 100) + TwoDigits(c.month + 1)
                            + TwoDigits(c.date) + TwoDigits(c.hours) + TwoDigits(c.minutes)
  {
    var y := YearPart(c.fullYear);
    var m := PaddedDecimalText(c.month + 1);
    var d := PaddedDecimalText(c.date);
    var h := PaddedDecimalText(c.hours);
    var n := PaddedDecimalText(c.minutes);
    assert Timestamp(c) == y + m + d + h + n;
    YearPartLastTwoDigits(c.fullYear);
    PaddedDecimal(c.month + 1);
    PaddedDecimal(c.date);
    PaddedDecimal(c.hours);
    PaddedDecimal(c.minutes);
  }

  lemma AllDigitsConcat(a: string, b: string)
    requires AllDigits(a) && AllDigits(b)
    ensures AllDigits(a + b)
  {
    forall i | 0 <= i < |a + b|
      ensures IsDigit((a + b)[i])
    {
      if i >= |a| {
        assert (a + b)[i] == b[i - |a|];
      }
    }
  }

  /** The five numbers a timestamp spells, in order. */
  datatype TimestampFields = TimestampFields(year: nat, month: nat, day: nat, hour: nat, minute: nat)

  function ReadTimestamp(ts: string): TimestampFields
    requires |ts| == TimestampLength && AllDigits(ts)
  {
    TimestampFields(ParseDecimal(ts[0..2]), ParseDecimal(ts[2..4]), ParseDecimal(ts[4..6]),
                    ParseDecimal(ts[6..8]), ParseDecimal(ts[8..10]))
  }

  lemma ReadTwoDigitFields(yy: nat, mm: nat, dd: nat, hh: nat, nn: nat)
    requires yy < 100 && mm < 100 && dd < 100 && hh < 100 && nn < 100
    ensures var ts := TwoDigits(yy) + TwoDigits(mm) + TwoDigits(dd) + TwoDigits(hh) + TwoDigits(nn);
      |ts| == TimestampLength && AllDigits(ts) && ReadTimestamp(ts) == TimestampFields(yy, mm, dd, hh, nn)
  {
    var ts := TwoDigits(yy) + TwoDigits(mm) + TwoDigits(dd) + TwoDigits(hh) + TwoDigits(nn);
    AllDigitsConcat(TwoDigits(yy), TwoDigits(mm));
    AllDigitsConcat(TwoDigits(yy) + TwoDigits(mm), TwoDigits(dd));
    AllDigitsConcat(TwoDigits(yy) + TwoDigits(mm) + TwoDigits(dd), TwoDigits(hh));
    AllDigitsConcat(TwoDigits(yy) + TwoDigits(mm) + TwoDigits(dd) + TwoDigits(hh), TwoDigits(nn));
    assert ts[0..2] == TwoDigits(yy);
    assert ts[2..4] == TwoDigits(mm);
    assert ts[4..6] == TwoDigits(dd);
    assert ts[6..8] == TwoDigits(hh);
    assert ts[8..10] == TwoDigits(nn);
    ParseTwoDigits(yy);
    ParseTwoDigits(mm);
    ParseTwoDigits(dd);
    ParseTwoDigits(hh);
    ParseTwoDigits(nn);
  }

  /** Reading a valid reading's timestamp back gives ten digits spelling the
      year in its century, the 1-based month, the day, the hour and the minute,
      in that order. */
  lemma ReadTimestampRoundTrip(c: ClockReading)
    requires c.Valid()
    ensures |Timestamp(c)| == TimestampLength && AllDigits(Timestamp(c))
    ensures ReadTimestamp(Timestamp(c))
         == TimestampFields(c.fullYear % 100, c.month + 1, c.date, c.hours, c.minutes)
  {
    TimestampLayout(c);
    ReadTwoDigitFields(c.fullYear % 100, c.month + 1, c.date, c.hours, c.minutes);
  }

  /** Two valid readings give the same timestamp exactly when they agree to the
      minute, the year taken within its century. */
  lemma TimestampInjective(c: ClockReading, d: ClockReading)
    requires c.Valid() && d.Valid()
    ensures Timestamp(c) == Timestamp(d)
        <==> (c.fullYear % 100 == d.fullYear % 100 && c.month == d.month && c.date == d.date
              && c.hours == d.hours && c.minutes == d.minutes)
  {
    if Timestamp(c) == Timestamp(d) {
      ReadTimestampRoundTrip(c);
      ReadTimestampRoundTrip(d);
    }
    if c.fullYear % 100 == d.fullYear % 100 && c.month == d.month && c.date == d.date
       && c.hours == d.hours && c.minutes == d.minutes {
      TimestampLayout(c);
      TimestampLayout(d);
    }
  }

  // ---------------------------------------------------------------------------
  // The case ID
  // ---------------------------------------------------------------------------

  /** The first template variable, if there is one. */
  function FirstVariable(variables: seq<string>): Option<string> {
    if |variables| >= 1 then Some(variables[0]) else None
  }

  /** `variables[0] + "-" + timestamp` when a variable was given, the bare
      timestamp otherwise. */
  function CaseID(variables: seq<string>, timestamp: string): (r: string)
    ensures |timestamp| <= |r| && r[|r| - |timestamp|..] == timestamp
  {
    if |variables| >= 1 then variables[0] + "-" + timestamp else timestamp
  }

  /** A case ID taken apart: its prefix, if any, and its timestamp. */
  datatype CaseParts = CaseParts(prefix: Option<string>, timestamp: string)

  /** Splits a case ID with a ten-character timestamp: anything longer than the
      timestamp carries a prefix and a separator before it. */
  function SplitCaseID(id: string): CaseParts {
    if |id| <= TimestampLength then CaseParts(None, id)
    else CaseParts(Some(id[..|id| - TimestampLength - 1]), id[|id| - TimestampLength..])
  }

  /** The template variables that would give this prefix. */
  function VariablesFor(prefix: Option<string>): seq<string> {
    match prefix
    case None => []
    case Some(p) => [p]
  }

  /** A case ID splits back into the first variable and the timestamp. */
  lemma SplitCaseIDRoundTrip(variables: seq<string>, timestamp: string)
    requires |timestamp| == TimestampLength
    ensures SplitCaseID(CaseID(variables, timestamp)) == CaseParts(FirstVariable(variables), timestamp)
  {
    if |variables| >= 1 {
      var id := CaseID(variables, timestamp);
      assert id == variables[0] + "-" + timestamp;
      assert id[..|id| - TimestampLength - 1] == variables[0];
    }
  }

  /** Every string of timestamp length, or with a separator right before its
      last ten characters, is the case ID of its own parts. */
  lemma CaseIDOfSplit(id: string)
    requires |id| == TimestampLength || (|id| > TimestampLength && id[|id| - TimestampLength - 1] == '-')
    ensures CaseID(VariablesFor(SplitCaseID(id).prefix), SplitCaseID(id).timestamp) == id
  {
    if |id| > TimestampLength {
      var k := |id| - TimestampLength - 1;
      assert id == id[..k] + "-" + id[k + 1..];
    }
  }

  /** Only the first variable matters; later ones have no effect. */
  lemma CaseIDUsesFirstVariableOnly(variables: seq<string>, timestamp: string)
    ensures CaseID(variables, timestamp) == CaseID(VariablesFor(FirstVariable(variables)), timestamp)
  {
  }

  /** With no variables the case ID is the timestamp and has no hyphen; with
      one, the hyphen sits right after the prefix. */
  lemma CaseIDHyphen(variables: seq<string>, timestamp: string)
    requires AllDigits(timestamp)
    ensures |variables| == 0 ==> CaseID(variables, timestamp) == timestamp && '-' !in CaseID(variables, timestamp)
    ensures |variables| >= 1 ==> CaseID(variables, timestamp)[|variables[0]|] == '-'
  {
    forall i | 0 <= i < |timestamp|
      ensures timestamp[i] != '-'
    {
      assert IsDigit(timestamp[i]);
    }
  }

  // ---------------------------------------------------------------------------
  // The new subject and the reference text
  // ---------------------------------------------------------------------------

  /** `"[" + caseID + "] " + subject`. */
  function NewSubject(caseID: string, subject: string): (r: string)
    ensures |r| == |caseID| + 3 + |subject|
    ensures r[..|caseID| + 3] == "[" + caseID + "] "
    ensures r[|caseID| + 3..] == subject
  {
    "[" + caseID + "] " + subject
  }

  /** Removes the `[caseID] ` marker from the front of a subject. */
  function StripCaseReference(caseID: string, subject: string): Option<string> {
    var n := |caseID| + 3;
    if n <= |subject| && subject[..n] == "[" + caseID + "] " then Some(subject[n..]) else None
  }

  /** The old subject, empty or not, is kept verbatim behind the marker. */
  lemma StripNewSubject(caseID: string, subject: string)
    ensures StripCaseReference(caseID, NewSubject(caseID, subject)) == Some(subject)
  {
  }

  /** Any subject the marker can be stripped from is the new subject of what
      remains. */
  lemma NewSubjectOfStripped(caseID: string, subject: string)
    requires StripCaseReference(caseID, subject).Some?
    ensures NewSubject(caseID, StripCaseReference(caseID, subject).value) == subject
  {
    var n := |caseID| + 3;
    assert subject == subject[..n] + subject[n..];
  }

  /** The marker is added every time; a subject that already carries it gets a
      second one. */
  lemma NewSubjectNotIdempotent(caseID: string, subject: string)
    ensures NewSubject(caseID, NewSubject(caseID, subject)) != NewSubject(caseID, subject)
  {
  }

  const ReferenceLabel: string := "Reference number: "

  /** `"Reference number: " + caseID + "\n"`. */
  function ReferenceText(caseID: string): (r: string)
    ensures |r| == |ReferenceLabel| + |caseID| + 1
    ensures r[..|ReferenceLabel|] == ReferenceLabel
    ensures r[|ReferenceLabel|..|r| - 1] == caseID
    ensures r[|r| - 1] == '\n'
  {
    ReferenceLabel + caseID + "\n"
  }

  /** The case ID a reference text carries, if it has the reference form. */
  function ParseReferenceText(text: string): Option<string> {
    var n := |ReferenceLabel|;
    if n + 1 <= |text| && text[..n] == ReferenceLabel && text[|text| - 1] == '\n'
    then Some(text[n..|text| - 1])
    else None
  }

  lemma ParseReferenceTextRoundTrip(caseID: string)
    ensures ParseReferenceText(ReferenceText(caseID)) == Some(caseID)
  {
  }

  lemma ReferenceTextOfParsed(text: string)
    requires ParseReferenceText(text).Some?
    ensures ReferenceText(ParseReferenceText(text).value) == text
  {
    var n := |ReferenceLabel|;
    assert text == text[..n] + text[n..|text| - 1] + [text[|text| - 1]];
  }

  /** For any prefix, the reference text ends in a single line break: the
      character before it is the last timestamp digit, the hyphen or the label's
      space. A case ID built from a timestamp of digits and a prefix without line
      breaks has none, so then the reference text holds exactly one, at its end. */
  lemma ReferenceTextSingleNewline(variables: seq<string>, timestamp: string)
    requires AllDigits(timestamp)
    ensures var text := ReferenceText(CaseID(variables, timestamp));
      text[|text| - 1] == '\n' && text[|text| - 2] != '\n'
    ensures var text := ReferenceText(CaseID(variables, timestamp));
      (|variables| >= 1 ==> '\n' !in variables[0]) ==> forall i :: 0 <= i < |text| - 1 ==> text[i] != '\n'
  {
    var id := CaseID(variables, timestamp);
    var text := ReferenceText(id);
    if |timestamp| > 0 {
      assert text[|text| - 2] == timestamp[|timestamp| - 1];
      assert IsDigit(timestamp[|timestamp| - 1]);
    } else if |variables| >= 1 {
      assert text[|text| - 2] == id[|id| - 1] == '-';
    } else {
      assert text[|text| - 2] == ReferenceLabel[|ReferenceLabel| - 1];
    }
    if |variables| >= 1 ==> '\n' !in variables[0] {
      forall i | 0 <= i < |text| - 1
        ensures text[i] != '\n'
      {
        if i >= |ReferenceLabel| {
          var k := i - |ReferenceLabel|;
          assert text[i] == id[k];
          if k >= |id| - |timestamp| {
            assert id[k] == timestamp[k - (|id| - |timestamp|)];
            assert IsDigit(timestamp[k - (|id| - |timestamp|)]);
          } else if k < |id| - |timestamp| - 1 {
            assert id[k] == variables[0][k];
          }
        }
      }
    }
  }

  // ---------------------------------------------------------------------------
  // The compose window and the script itself
  // ---------------------------------------------------------------------------

  /** The host-owned details of the message being composed. */
  class ComposeDetails {
    var subject: string
    var body: string
    var from: string
    var to: seq<string>
    var cc: seq<string>
    var bcc: seq<string>

    constructor (subject: string, body: string, from: string, to: seq<string>, cc: seq<string>, bcc: seq<string>)
      ensures this.subject == subject && this.body == body && this.from == from
      ensures this.to == to && this.cc == cc && this.bcc == bcc
    {
      this.subject := subject;
      this.body := body;
      this.from := from;
      this.to := to;
      this.cc := cc;
      this.bcc := bcc;
    }

    /** `getComposeDetails()`, of which the script uses only the subject. */
    method GetSubject() returns (s: string)
      ensures s == subject
    {
      s := subject;
    }

    /** `setComposeDetails({ subject })`: a partial update that supplies only the
        subject, so every other detail keeps its value. */
    method SetSubject(s: string)
      modifies this
      ensures subject == s
      ensures body == old(body) && from == old(from)
      ensures to == old(to) && cc == old(cc) && bcc == old(bcc)
    {
      subject := s;
    }
  }

  /** The script: builds the case ID from the clock reading and the first
      template variable, marks the subject with it and returns the reference
      text. */
  method CaseNumber(variables: seq<string>, clock: ClockReading, compose: ComposeDetails)
    returns (reference: string)
    modifies compose
    ensures compose.subject == NewSubject(CaseID(variables, Timestamp(clock)), old(compose.subject))
    ensures StripCaseReference(CaseID(variables, Timestamp(clock)), compose.subject) == Some(old(compose.subject))
    ensures compose.body == old(compose.body) && compose.from == old(compose.from)
    ensures compose.to == old(compose.to) && compose.cc == old(compose.cc) && compose.bcc == old(compose.bcc)
    ensures reference == ReferenceText(CaseID(variables, Timestamp(clock)))
  {
    var timestamp := Timestamp(clock);
    var caseID := timestamp;
    if |variables| >= 1 {
      caseID := variables[0] + "-" + timestamp;
    }
    var subject := compose.GetSubject();
    subject := "[" + caseID + "] " + subject;
    compose.SetSubject(subject);
    StripNewSubject(caseID, old(compose.subject));
    reference := "Reference number: " + caseID + "\n";
  }

  // ---------------------------------------------------------------------------
  // The documented example
  // ---------------------------------------------------------------------------

  /** The two-digit fields of 31 January 2020, 12:45, side by side. */
  lemma DocumentedFields(ts: string, yy: nat, mm: nat, dd: nat, hh: nat, nn: nat)
    requires yy == 20 && mm == 1 && dd == 31 && hh == 12 && nn == 45
    requires ts == TwoDigits(yy) + TwoDigits(mm) + TwoDigits(dd) + TwoDigits(hh) + TwoDigits(nn)
    ensures ts == "2001311245"
  {
  }

  /** 31 January 2020, 12:45 (or that minute in any other year ending in 20;
      `getMonth() + 1 == 1` is January). */
  lemma DocumentedTimestamp(c: ClockReading)
    requires c.Valid() && c.fullYear % 100 == 20 && c.month + 1 == 1 && c.date == 31 && c.hours == 12 && c.minutes == 45
    ensures Timestamp(c) == "2001311245"
  {
    TimestampLayout(c);
    DocumentedFields(Timestamp(c), c.fullYear % 100, c.month + 1, c.date, c.hours, c.minutes);
  }

  /** The case IDs built on that timestamp. */
  lemma DocumentedCaseIDsOf(ts: string)
    requires ts == "2001311245"
    ensures CaseID(["AREF"], ts) == "AREF-2001311245"
    ensures CaseID([], ts) == "2001311245"
  {
  }

  /** The case IDs for that minute with the prefix `AREF` and with no variables. */
  lemma DocumentedCaseIDs(c: ClockReading)
    requires c.Valid() && c.fullYear % 100 == 20 && c.month + 1 == 1 && c.date == 31 && c.hours == 12 && c.minutes == 45
    ensures CaseID(["AREF"], Timestamp(c)) == "AREF-2001311245"
    ensures CaseID([], Timestamp(c)) == "2001311245"
  {
    DocumentedTimestamp(c);
    DocumentedCaseIDsOf(Timestamp(c));
  }

  /** The new subjects for those case IDs, one for a subject `Meeting notes`
      and one for an empty subject. */
  lemma DocumentedSubjects()
    ensures NewSubject("AREF-2001311245", "Meeting notes") == "[AREF-2001311245] Meeting notes"
    ensures NewSubject("2001311245", "") == "[2001311245] "
  {
    assert "[" + "AREF-2001311245" + "] " + "Meeting notes" == "[AREF-2001311245] Meeting notes";
    assert "[" + "2001311245" + "] " + "" == "[2001311245] ";
  }

  /** The reference texts returned for those case IDs. */
  lemma DocumentedReferenceTexts()
    ensures ReferenceText("AREF-2001311245") == "Reference number: AREF-2001311245\n"
    ensures ReferenceText("2001311245") == "Reference number: 2001311245\n"
  {
  }
}
