/**
 * The GUI's recording worker and controller (gui/recording_controller.py):
 * the folder name and the CSV row a finished recording is filed under, the
 * worker's stop path, and the controller's recording flag.
 *
 * The wall clock's "%Y%m%d_%H%M%S" rendering is the `timestamp` parameter;
 * the summariser's own "%Y-%m-%d %H:%M:%S" rendering is `summaryStamp`.
 */
module Recording {
  import opened Wrappers
  import opened Seqs
  import opened Text
  import opened Transcripts
  import opened Summarizer

  // ---------------------------------------------------------------------
  // sanitize
  // ---------------------------------------------------------------------

  /** The characters sanitize removes: < > : " / \ | ? * */
  predicate IsForbidden(c: char)
  {
    c == '<' || c == '>' || c == ':' || c == '"' || c == '/' || c == '\\' || c == '|' || c == '?' || c == '*'
  }

  predicate NoForbidden(s: string)
  {
    forall c :: c in s ==> !IsForbidden(c)
  }

  /** Every whitespace character is a plain space with no whitespace after it. */
  predicate SingleSpaced(s: string)
  {
    forall i :: 0 <= i < |s| && IsSpace(s[i]) ==> s[i] == ' ' && (i + 1 < |s| ==> !IsSpace(s[i + 1]))
  }

  /** `re.sub(r'[<>:"/\\|?*]', '', s)`. */
  function RemoveForbidden(s: string): (r: string)
    ensures NoForbidden(r) && |r| <= |s|
    ensures NoForbidden(s) ==> r == s
  {
    if s == [] then []
    else if IsForbidden(s[0]) then RemoveForbidden(s[1..])
    else [s[0]] + RemoveForbidden(s[1..])
  }

  /** `re.sub(r'\s+', ' ', s)`: every run of whitespace becomes one space. */
  function CollapseSpaces(s: string): (r: string)
    ensures |r| <= |s| && (r == [] <==> s == [])
    ensures s != [] ==> r[0] == (if IsSpace(s[0]) then ' ' else s[0])
    decreases |s|
  {
    if s == [] then []
    else if IsSpace(s[0]) then
      assert TrimLeft(s) == TrimLeft(s[1..]);
      [' '] + CollapseSpaces(TrimLeft(s))
    else [s[0]] + CollapseSpaces(s[1..])
  }

  /** Putting a character in front keeps a string single-spaced when that
   *  character is a non-space, or a plain space before a non-space. */
  lemma SingleSpacedCons(c: char, rest: string)
    requires SingleSpaced(rest)
    requires IsSpace(c) ==> c == ' ' && (rest == [] || !IsSpace(rest[0]))
    ensures SingleSpaced([c] + rest)
  {
    var s := [c] + rest;
    forall i | 0 <= i < |s| && IsSpace(s[i])
      ensures s[i] == ' ' && (i + 1 < |s| ==> !IsSpace(s[i + 1]))
    {
      if i > 0 {
        assert s[i] == rest[i - 1];
        if i + 1 < |s| {
          assert s[i + 1] == rest[i];
        }
      }
    }
  }

  /** Collapsing leaves single spaces only. */
  lemma {:induction false} CollapseSingleSpaced(s: string)
    ensures SingleSpaced(CollapseSpaces(s))
    decreases |s|
  {
    if s != [] {
      if IsSpace(s[0]) {
        var t := TrimLeft(s);
        assert t == TrimLeft(s[1..]);
        CollapseSingleSpaced(t);
        SingleSpacedCons(' ', CollapseSpaces(t));
      } else {
        CollapseSingleSpaced(s[1..]);
        SingleSpacedCons(s[0], CollapseSpaces(s[1..]));
      }
    }
  }

  /** Collapsing adds no character but the plain space. */
  lemma {:induction false} CollapseKeepsClean(s: string)
    requires NoForbidden(s)
    ensures NoForbidden(CollapseSpaces(s))
    decreases |s|
  {
    if s != [] {
      if IsSpace(s[0]) {
        var t := TrimLeft(s);
        assert t == TrimLeft(s[1..]);
        assert NoForbidden(t) by {
          forall c | c in t ensures c in s {
            var i :| 0 <= i < |t| && t[i] == c;
            assert t[i] == s[|s| - |t| + i];
          }
        }
        CollapseKeepsClean(t);
      } else {
        assert NoForbidden(s[1..]) by {
          forall c | c in s[1..] ensures c in s {
            var i :| 0 <= i < |s[1..]| && s[1..][i] == c;
            assert s[1..][i] == s[i + 1];
          }
        }
        CollapseKeepsClean(s[1..]);
      }
    }
  }

  /** A string whose whitespace is already single spaces is left alone. */
  lemma {:induction false} CollapseOfSingleSpaced(s: string)
    requires SingleSpaced(s)
    ensures CollapseSpaces(s) == s
    decreases |s|
  {
    if s != [] {
      assert SingleSpaced(s[1..]) by {
        forall i | 0 <= i < |s[1..]| && IsSpace(s[1..][i])
          ensures s[1..][i] == ' ' && (i + 1 < |s[1..]| ==> !IsSpace(s[1..][i + 1]))
        {
          assert s[1..][i] == s[i + 1];
        }
      }
      CollapseOfSingleSpaced(s[1..]);
      if IsSpace(s[0]) {
        assert s[1..] == [] || !IsSpace(s[1]);
        assert TrimLeft(s) == s[1..] by {
          assert TrimLeft(s) == TrimLeft(s[1..]);
          assert s[1..] == [] || !IsSpace(s[1..][0]);
        }
        assert s == [' '] + s[1..];
      } else {
        assert s == [s[0]] + s[1..];
      }
    }
  }

  /** sanitize: forbidden characters removed, whitespace runs collapsed, stripped. */
  function Sanitize(name: string): string
  {
    Strip(CollapseSpaces(RemoveForbidden(name)))
  }

  /** Any slice of a clean, single-spaced string is clean and single-spaced. */
  lemma SliceClean(c: string, k: nat, n: nat)
    requires NoForbidden(c) && SingleSpaced(c) && k + n <= |c|
    ensures NoForbidden(c[k..k + n]) && SingleSpaced(c[k..k + n])
  {
    var r := c[k..k + n];
    forall ch | ch in r
      ensures ch in c
    {
      var i :| 0 <= i < |r| && r[i] == ch;
      assert r[i] == c[k + i];
    }
    forall i | 0 <= i < |r| && IsSpace(r[i])
      ensures r[i] == ' ' && (i + 1 < |r| ==> !IsSpace(r[i + 1]))
    {
      assert r[i] == c[k + i];
      if i + 1 < |r| {
        assert r[i + 1] == c[k + i + 1];
      }
    }
  }

  /** A sanitized name has no forbidden character, single spaces only, and no
   *  whitespace at either end. */
  lemma SanitizeClean(name: string)
    ensures var r := Sanitize(name);
      && NoForbidden(r) && SingleSpaced(r)
      && (r == [] || (!IsSpace(r[0]) && !IsSpace(r[|r| - 1])))
  {
    var c := CollapseSpaces(RemoveForbidden(name));
    CollapseSingleSpaced(RemoveForbidden(name));
    CollapseKeepsClean(RemoveForbidden(name));
    StripClean(c);
  }

  /** Stripping a clean, single-spaced string keeps it so, and leaves no
   *  whitespace at either end. */
  lemma StripClean(c: string)
    requires NoForbidden(c) && SingleSpaced(c)
    ensures var r := Strip(c);
      && NoForbidden(r) && SingleSpaced(r)
      && (r == [] || (!IsSpace(r[0]) && !IsSpace(r[|r| - 1])))
  {
    StripShape(c);
    StripEnds(c);
    SliceClean(c, |c| - |TrimLeft(c)|, |Strip(c)|);
  }

  /** Sanitizing a sanitized name changes nothing. */
  lemma SanitizeIdempotent(name: string)
    ensures Sanitize(Sanitize(name)) == Sanitize(name)
  {
    var r := Sanitize(name);
    SanitizeClean(name);
    assert RemoveForbidden(r) == r;
    CollapseOfSingleSpaced(r);
    StripOfStripped(r);
  }

  // ---------------------------------------------------------------------
  // The "%Y%m%d_%H%M%S" timestamp
  // ---------------------------------------------------------------------

  /** A calendar date and a time of day. */
  datatype Stamp = Stamp(year: nat, month: nat, day: nat, hour: nat, minute: nat, second: nat)

  predicate IsLeapYear(y: nat)
  {
    y % 4 == 0 && (y % 100 != 0 || y % 400 == 0)
  }

  function DaysInMonth(y: nat, m: nat): nat
  {
    if m == 2 then (if IsLeapYear(y) then 29 else 28)
    else if m == 4 || m == 6 || m == 9 || m == 11 then 30
    else 31
  }

  /** The moments a `datetime` can hold, to the second. */
  predicate ValidStamp(st: Stamp)
  {
    && 1 <= st.year <= 9999 && 1 <= st.month <= 12 && 1 <= st.day <= DaysInMonth(st.year, st.month)
    && st.hour < 24 && st.minute < 60 && st.second < 60
  }

  predicate AllDigits(s: string)
  {
    forall i :: 0 <= i < |s| ==> IsDigit(s[i])
  }

  /** `n` in `w` decimal digits, zero-padded on the left (its last `w` digits). */
  function Pad(n: nat, w: nat): (r: string)
    ensures |r| == w && AllDigits(r)
  {
    if w == 0 then [] else Pad(n / 10, w - 1) + [DigitChar(n % 10)]
  }

  /** A string of digits is the padding of the number it denotes. */
  lemma {:induction false} PadDigits(s: string)
    requires AllDigits(s)
    ensures Pad(DigitsValue(s), |s|) == s
  {
    if s != [] {
      var init := s[..|s| - 1];
      var v := DigitsValue(s);
      assert v == 10 * DigitsValue(init) + DigitValue(s[|s| - 1]);
      assert v / 10 == DigitsValue(init) && v % 10 == DigitValue(s[|s| - 1]);
      PadDigits(init);
      assert s == init + [s[|s| - 1]];
    }
  }

  function Pow10(w: nat): nat
  {
    if w == 0 then 1 else 10 * Pow10(w - 1)
  }

  /** Padding a number that fits loses nothing. */
  lemma {:induction false} DigitsOfPad(n: nat, w: nat)
    requires n < Pow10(w)
    ensures DigitsValue(Pad(n, w)) == n
  {
    if w > 0 {
      var p := Pad(n / 10, w - 1);
      DigitsOfPad(n / 10, w - 1);
      assert Pad(n, w) == p + [DigitChar(n % 10)];
      assert (p + [DigitChar(n % 10)])[..w - 1] == p;
    }
  }

  /** The "%Y%m%d_%H%M%S" rendering of a moment. */
  function StampText(st: Stamp): string
  {
    Pad(st.year, 4) + Pad(st.month, 2) + Pad(st.day, 2) + "_" + Pad(st.hour, 2) + Pad(st.minute, 2) + Pad(st.second, 2)
  }

  /** Eight digits, an underscore and six digits. */
  predicate StampShaped(t: string)
  {
    |t| == 15 && AllDigits(t[..8]) && t[8] == '_' && AllDigits(t[9..])
  }

  lemma StampFieldDigits(t: string)
    requires StampShaped(t)
    ensures AllDigits(t[0..4]) && AllDigits(t[4..6]) && AllDigits(t[6..8])
    ensures AllDigits(t[9..11]) && AllDigits(t[11..13]) && AllDigits(t[13..15])
  {
    assert forall i :: 0 <= i < 8 ==> IsDigit(t[i]) by {
      forall i | 0 <= i < 8 ensures IsDigit(t[i]) { assert t[..8][i] == t[i]; }
    }
    assert forall i :: 9 <= i < 15 ==> IsDigit(t[i]) by {
      forall i | 9 <= i < 15 ensures IsDigit(t[i]) { assert t[9..][i - 9] == t[i]; }
    }
  }

  /** A shaped timestamp is the concatenation of its six fields' paddings. */
  lemma ParsedRenders(t: string)
    requires StampShaped(t)
    requires AllDigits(t[0..4]) && AllDigits(t[4..6]) && AllDigits(t[6..8])
    requires AllDigits(t[9..11]) && AllDigits(t[11..13]) && AllDigits(t[13..15])
    ensures StampText(Stamp(DigitsValue(t[0..4]), DigitsValue(t[4..6]), DigitsValue(t[6..8]),
                      DigitsValue(t[9..11]), DigitsValue(t[11..13]), DigitsValue(t[13..15]))) == t
  {
    PadDigits(t[0..4]);
    PadDigits(t[4..6]);
    PadDigits(t[6..8]);
    PadDigits(t[9..11]);
    PadDigits(t[11..13]);
    PadDigits(t[13..15]);
    StampPieces(t);
  }

  /** A fifteen-character text is its six fields around the underscore. */
  lemma StampPieces(t: string)
    requires |t| == 15 && t[8] == '_'
    ensures t == t[0..4] + t[4..6] + t[6..8] + "_" + t[9..11] + t[11..13] + t[13..15]
  {
    assert t[..8] == t[0..4] + t[4..6] + t[6..8];
    assert t[9..] == t[9..11] + t[11..13] + t[13..15];
    assert t == t[..8] + "_" + t[9..];
  }

  /**
   * `datetime.strptime(t, "%Y%m%d_%H%M%S")` on the fixed-width form: eight
   * digits, an underscore, six digits, naming a real moment; anything else
   * is the ValueError None. A parsed stamp renders back to `t`.
   */
  function ParseStamp(t: string): (r: Option<Stamp>)
    ensures r.Some? ==> ValidStamp(r.value) && StampText(r.value) == t
  {
    if StampShaped(t) then
      StampFieldDigits(t);
      var st := Stamp(DigitsValue(t[0..4]), DigitsValue(t[4..6]), DigitsValue(t[6..8]),
                      DigitsValue(t[9..11]), DigitsValue(t[11..13]), DigitsValue(t[13..15]));
      if ValidStamp(st) then
        ParsedRenders(t);
        Some(st)
      else None
    else None
  }

  /** Every real moment's rendering parses back to that moment. */
  lemma ParseStampText(st: Stamp)
    requires ValidStamp(st)
    ensures ParseStamp(StampText(st)) == Some(st)
  {
    var t := StampText(st);
    assert t[0..4] == Pad(st.year, 4);
    assert t[4..6] == Pad(st.month, 2);
    assert t[6..8] == Pad(st.day, 2);
    assert t[9..11] == Pad(st.hour, 2);
    assert t[11..13] == Pad(st.minute, 2);
    assert t[13..15] == Pad(st.second, 2);
    assert t[..8] == Pad(st.year, 4) + Pad(st.month, 2) + Pad(st.day, 2);
    assert t[9..] == Pad(st.hour, 2) + Pad(st.minute, 2) + Pad(st.second, 2);
    DigitsOfPad(st.year, 4);
    DigitsOfPad(st.month, 2);
    DigitsOfPad(st.day, 2);
    DigitsOfPad(st.hour, 2);
    DigitsOfPad(st.minute, 2);
    DigitsOfPad(st.second, 2);
  }

  /** `strftime("%Y-%m-%d")`. */
  function DateText(st: Stamp): string
  {
    Pad(st.year, 4) + "-" + Pad(st.month, 2) + "-" + Pad(st.day, 2)
  }

  /** `strftime("%H%M%S")`. */
  function TimeText(st: Stamp): string
  {
    Pad(st.hour, 2) + Pad(st.minute, 2) + Pad(st.second, 2)
  }

  /** `strftime("%H:%M:%S")`. */
  function ClockText(st: Stamp): string
  {
    Pad(st.hour, 2) + ":" + Pad(st.minute, 2) + ":" + Pad(st.second, 2)
  }

  /** "YYYYMMDD_HHMMSS" gives the date "YYYY-MM-DD", the time "HHMMSS" and
   *  the clock "HH:MM:SS", all cut from the timestamp itself. */
  lemma StampFields(t: string)
    requires ParseStamp(t).Some?
    ensures var st := ParseStamp(t).value;
      && DateText(st) == t[0..4] + "-" + t[4..6] + "-" + t[6..8]
      && TimeText(st) == t[9..15]
      && ClockText(st) == t[9..11] + ":" + t[11..13] + ":" + t[13..15]
  {
    var st := ParseStamp(t).value;
    assert t == StampText(st);
    assert t[0..4] == Pad(st.year, 4);
    assert t[4..6] == Pad(st.month, 2);
    assert t[6..8] == Pad(st.day, 2);
    assert t[9..11] == Pad(st.hour, 2);
    assert t[11..13] == Pad(st.minute, 2);
    assert t[13..15] == Pad(st.second, 2);
    assert t[9..15] == t[9..11] + t[11..13] + t[13..15];
  }

  // ---------------------------------------------------------------------
  // _generate_folder_name
  // ---------------------------------------------------------------------

  /** The first company's name, when the list has one and it is non-empty. */
  function CompanyName(data: MeetingData): (name: string)
    ensures name != "" ==> data.companies != [] && data.companies[0].name == Some(name)
  {
    if data.companies != [] && data.companies[0].name.Some? then data.companies[0].name.value else ""
  }

  /** The first contact's name, when the list has one and it is non-empty. */
  function ContactName(data: MeetingData): (name: string)
    ensures name != "" ==> data.contacts != [] && data.contacts[0].name == Some(name)
  {
    if data.contacts != [] && data.contacts[0].name.Some? then data.contacts[0].name.value else ""
  }

  /** The four forms of a folder name, from the date, the raw names and the time. */
  function FolderOf(date: string, company: string, contact: string, time: string): string
  {
    if company != "" && contact != "" then date + " " + Sanitize(company) + " - " + Sanitize(contact)
    else if company != "" then date + " " + Sanitize(company)
    else if contact != "" then date + " " + Sanitize(contact)
    else date + " Meeting " + time
  }

  /**
   * _generate_folder_name: "date Company - Contact", "date Company",
   * "date Contact" or "date Meeting HHMMSS", the names sanitized; None is the
   * ValueError of a timestamp strptime refuses.
   */
  function FolderName(data: MeetingData, timestamp: string): (r: Option<string>)
    ensures r.Some? <==> ParseStamp(timestamp).Some?
  {
    match ParseStamp(timestamp)
    case None => None
    case Some(st) => Some(FolderOf(DateText(st), CompanyName(data), ContactName(data), TimeText(st)))
  }

  /** The four forms, with the date and time cut from the timestamp. */
  lemma FolderNameForms(data: MeetingData, t: string)
    requires ParseStamp(t).Some?
    ensures var date := t[0..4] + "-" + t[4..6] + "-" + t[6..8];
      var company := CompanyName(data);
      var contact := ContactName(data);
      FolderName(data, t) == Some(
        if company != "" && contact != "" then date + " " + Sanitize(company) + " - " + Sanitize(contact)
        else if company != "" then date + " " + Sanitize(company)
        else if contact != "" then date + " " + Sanitize(contact)
        else date + " Meeting " + t[9..15])
  {
    StampFields(t);
  }

  /** Only the first company and the first contact matter; deals never do. */
  lemma FolderNameFirstOnly(data: MeetingData, t: string)
    ensures FolderName(data, t)
         == FolderName(MeetingData(data.contacts[..Min(1, |data.contacts|)],
                                   data.companies[..Min(1, |data.companies|)], []), t)
  {
  }

  lemma DigitsNotForbidden(s: string)
    requires AllDigits(s)
    ensures NoForbidden(s)
  {
    forall c | c in s ensures IsDigit(c) {
      var i :| 0 <= i < |s| && s[i] == c;
    }
  }

  /** The date and time parts are digits and dashes. */
  lemma StampTextsClean(st: Stamp)
    ensures NoForbidden(DateText(st)) && NoForbidden(TimeText(st))
  {
    var y, m, d := Pad(st.year, 4), Pad(st.month, 2), Pad(st.day, 2);
    DigitsNotForbidden(y);
    DigitsNotForbidden(m);
    DigitsNotForbidden(d);
    var hh, mm, ss := Pad(st.hour, 2), Pad(st.minute, 2), Pad(st.second, 2);
    DigitsNotForbidden(hh);
    DigitsNotForbidden(mm);
    DigitsNotForbidden(ss);
  }

  /** Whatever the names, the four forms add only spaces, a dash and "Meeting"
   *  to a clean date and time. */
  lemma FolderOfClean(date: string, company: string, contact: string, time: string)
    requires NoForbidden(date) && NoForbidden(time)
    ensures NoForbidden(FolderOf(date, company, contact, time))
  {
    var a, b := Sanitize(company), Sanitize(contact);
    SanitizeClean(company);
    SanitizeClean(contact);
    assert NoForbidden(" ") && NoForbidden(" - ");
    MeetingClean();
    if company != "" && contact != "" {
      NoForbiddenAppend(date, " ");
      NoForbiddenAppend(date + " ", a);
      NoForbiddenAppend(date + " " + a, " - ");
      NoForbiddenAppend(date + " " + a + " - ", b);
    } else if company != "" {
      NoForbiddenAppend(date, " ");
      NoForbiddenAppend(date + " ", a);
    } else if contact != "" {
      NoForbiddenAppend(date, " ");
      NoForbiddenAppend(date + " ", b);
    } else {
      NoForbiddenAppend(date, " Meeting ");
      NoForbiddenAppend(date + " Meeting ", time);
    }
  }

  lemma MeetingClean()
    ensures NoForbidden(" Meeting ")
  {
    forall c | c in " Meeting "
      ensures !IsForbidden(c)
    {
      assert c == ' ' || c == 'M' || c == 'e' || c == 't' || c == 'i' || c == 'n' || c == 'g';
    }
  }

  lemma NoForbiddenAppend(a: string, b: string)
    requires NoForbidden(a) && NoForbidden(b)
    ensures NoForbidden(a + b)
  {
    forall c | c in a + b
      ensures c in a || c in b
    {
      var i :| 0 <= i < |a + b| && (a + b)[i] == c;
      if i < |a| {
        assert a[i] == c;
      } else {
        assert b[i - |a|] == c;
      }
    }
  }

  /** A folder name never holds a character the file system would refuse. */
  lemma FolderNameClean(data: MeetingData, t: string)
    requires FolderName(data, t).Some?
    ensures NoForbidden(FolderName(data, t).value)
  {
    var st := ParseStamp(t).value;
    StampTextsClean(st);
    FolderOfClean(DateText(st), CompanyName(data), ContactName(data), TimeText(st));
  }

  // ---------------------------------------------------------------------
  // The CSV row of _append_to_csv
  // ---------------------------------------------------------------------

  /** The twenty columns, in order. */
  const FieldNames: seq<string> := [
    "meeting_date", "meeting_time", "timestamp_file",
    "contact_name", "contact_role", "contact_location", "contact_is_decision_maker", "contact_tenure",
    "company_name", "company_aum", "company_icp", "company_location", "company_is_client",
    "company_competitor_products", "company_strategies_of_interest",
    "deal_ticket_size", "deal_products_of_interest",
    "total_contacts", "total_companies", "total_deals"]

  /** One meeting's row: the text the CSV writer puts in each column. */
  datatype CsvRow = CsvRow(
    meetingDate: string, meetingTime: string, timestampFile: string,
    contactName: string, contactRole: string, contactLocation: string, contactIsDecisionMaker: string,
    contactTenure: string,
    companyName: string, companyAum: string, companyIcp: string, companyLocation: string,
    companyIsClient: string, companyCompetitorProducts: string, companyStrategiesOfInterest: string,
    dealTicketSize: string, dealProductsOfInterest: string,
    totalContacts: string, totalCompanies: string, totalDeals: string)

  /** The row's values in the order of FieldNames. */
  function Values(row: CsvRow): (values: seq<string>)
    ensures |values| == |FieldNames|
  {
    [row.meetingDate, row.meetingTime, row.timestampFile,
     row.contactName, row.contactRole, row.contactLocation, row.contactIsDecisionMaker, row.contactTenure,
     row.companyName, row.companyAum, row.companyIcp, row.companyLocation, row.companyIsClient,
     row.companyCompetitorProducts, row.companyStrategiesOfInterest,
     row.dealTicketSize, row.dealProductsOfInterest,
     row.totalContacts, row.totalCompanies, row.totalDeals]
  }

  /** What the CSV writer puts in a cell: nothing for None. */
  function TextCell(o: Option<string>): string
  {
    if o.Some? then o.value else ""
  }

  /** `str` of a boolean, nothing for None. */
  function BoolCell(o: Option<bool>): string
  {
    match o
    case None => ""
    case Some(b) => if b then "True" else "False"
  }

  /** `str` of an integer, nothing for None. */
  function IntCell(o: Option<int>): string
  {
    match o
    case None => ""
    case Some(n) => if n < 0 then "-" + NatToString(-n) else NatToString(n)
  }

  /** `', '.join(value or [])`. */
  function ListCell(o: Option<seq<string>>): string
  {
    Join(if o.Some? then o.value else [], ", ")
  }

  /**
   * The flattened row: the date and clock of the parsed timestamp and the
   * timestamp itself; the first contact's, company's and deal's fields,
   * blank when the list is empty or the field is None; each list field
   * joined by ", "; and the three list lengths.
   */
  function FlatRow(data: MeetingData, timestamp: string, st: Stamp): CsvRow
  {
    var c := if data.contacts == [] then Contact(None, None, None, None, None) else data.contacts[0];
    var m := if data.companies == [] then Company(None, None, None, None, None, None, None) else data.companies[0];
    var d := if data.deals == [] then Deal(None, None) else data.deals[0];
    CsvRow(DateText(st), ClockText(st), timestamp,
           TextCell(c.name), TextCell(c.role), TextCell(c.location), BoolCell(c.isDecisionMaker),
           TextCell(c.tenureDuration),
           TextCell(m.name), TextCell(m.aum), IntCell(m.icpClassification), TextCell(m.location),
           BoolCell(m.isClient), ListCell(m.competitorProducts), ListCell(m.strategiesOfInterest),
           TextCell(d.ticketSize), ListCell(d.productsOfInterest),
           NatToString(|data.contacts|), NatToString(|data.companies|), NatToString(|data.deals|))
  }

  /** _append_to_csv's row: None is the ValueError of a refused timestamp. */
  function RecordingRow(data: MeetingData, timestamp: string): (r: Option<CsvRow>)
    ensures r.Some? <==> ParseStamp(timestamp).Some?
  {
    match ParseStamp(timestamp)
    case None => None
    case Some(st) => Some(FlatRow(data, timestamp, st))
  }

  /** The totals columns read back as the list lengths. */
  lemma RowTotals(data: MeetingData, timestamp: string, st: Stamp)
    ensures var row := FlatRow(data, timestamp, st);
      && AllDigits(row.totalContacts) && DigitsValue(row.totalContacts) == |data.contacts|
      && AllDigits(row.totalCompanies) && DigitsValue(row.totalCompanies) == |data.companies|
      && AllDigits(row.totalDeals) && DigitsValue(row.totalDeals) == |data.deals|
  {
    NatToStringRoundTrip(|data.contacts|);
    NatToStringRoundTrip(|data.companies|);
    NatToStringRoundTrip(|data.deals|);
  }

  /** The row's date, time and file-stamp columns, cut from the timestamp. */
  lemma RowStamp(data: MeetingData, t: string)
    requires ParseStamp(t).Some?
    ensures var row := RecordingRow(data, t).value;
      && row.meetingDate == t[0..4] + "-" + t[4..6] + "-" + t[6..8]
      && row.meetingTime == t[9..11] + ":" + t[11..13] + ":" + t[13..15]
      && row.timestampFile == t
  {
    StampFields(t);
  }

  /** The row of a meeting with nothing extracted: blank entity columns and
   *  zero totals. */
  function BlankRow(timestamp: string, st: Stamp): CsvRow
  {
    CsvRow(DateText(st), ClockText(st), timestamp, "", "", "", "", "", "", "", "", "", "", "", "", "", "",
           "0", "0", "0")
  }

  /** With nothing extracted, the flattened row is the blank row. */
  lemma RowOfNothing(timestamp: string, st: Stamp)
    ensures FlatRow(EmptyMeetingData, timestamp, st) == BlankRow(timestamp, st)
  {
    assert Join([], ", ") == "";
    assert NatToString(0) == "0";
  }

  /** Only the first entry of each list, and the lists' lengths, matter. */
  lemma RowFirstOnly(data: MeetingData, other: MeetingData, timestamp: string, st: Stamp)
    requires |other.contacts| == |data.contacts| && |other.companies| == |data.companies|
    requires |other.deals| == |data.deals|
    requires data.contacts != [] ==> other.contacts[0] == data.contacts[0]
    requires data.companies != [] ==> other.companies[0] == data.companies[0]
    requires data.deals != [] ==> other.deals[0] == data.deals[0]
    ensures FlatRow(other, timestamp, st) == FlatRow(data, timestamp, st)
  {
  }

  /** A list column is its entries joined by ", ": as long as the entries
   *  plus two characters between each neighbouring pair. */
  lemma ListCellLength(entries: seq<string>)
    requires entries != []
    ensures |ListCell(Some(entries))| == TotalLength(entries) + 2 * (|entries| - 1)
  {
    JoinLength(entries, ", ");
  }

  // ---------------------------------------------------------------------
  // RecordingWorker: the stop path of run
  // ---------------------------------------------------------------------

  datatype WorkerConfig = WorkerConfig(outputDir: string, csvExportPath: string, dataExtractionPrompt: string,
                                       maxBufferSize: nat, chunkDuration: int)

  /** What the finished signal carries, and the files and row written; or
   *  the message of the error signal. */
  datatype RunResult =
    | Finished(folder: string, summaryPath: string, summaryText: string, dataPath: string, data: MeetingData,
               row: CsvRow, writeHeader: bool)
    | RunFailed(message: string)

  /** The ValueError message strptime gives for a timestamp it refuses. */
  function StampErrorMessage(t: string): string
  {
    "time data '" + t + "' does not match format '%Y%m%d_%H%M%S'"
  }

  /** The summaries after the stop path's MAP of the final chunk: appended
   *  whenever the chunk was non-empty, even when its summary is empty. */
  function WithFinalChunk(config: SummarizerConfig, summaries: seq<IntermediateSummary>, chunk: string,
                          llm: LlmRequest -> LlmOutcome, now: Time): (all: seq<IntermediateSummary>)
    ensures IsPrefix(summaries, all)
    ensures chunk == "" ==> all == summaries
    ensures chunk != "" ==> |all| == |summaries| + 1 && all[|summaries|].summary == SummarizeChunk(config, chunk, llm).text
  {
    if chunk == "" then summaries else summaries + [IntermediateSummary(SummarizeChunk(config, chunk, llm).text, now)]
  }

  /** Everything after the chunk is summarised: REDUCE, EXTRACT, the folder,
   *  the files and the row, from the final summaries. */
  function Outcome(config: WorkerConfig, sconfig: SummarizerConfig, all: seq<IntermediateSummary>,
                   llm: LlmRequest -> LlmOutcome, generate: ExtractionRequest -> LlmOutcome,
                   validate: string -> Option<MeetingData>, schemaText: string,
                   summaryStamp: string, timestamp: string, csvExists: bool): (out: RunResult)
    ensures out.RunFailed? <==> ParseStamp(timestamp).None?
    ensures out.Finished? ==>
      && out.summaryText == GenerateFinalSummary(sconfig, all, llm, summaryStamp).text
      && out.data == ExtractStructuredData(sconfig.modelName, all, config.dataExtractionPrompt, schemaText,
                                           generate, validate).data
      && Some(out.folder) == FolderName(out.data, timestamp) && NoForbidden(out.folder)
      && Some(out.row) == RecordingRow(out.data, timestamp)
      && out.writeHeader == !csvExists
  {
    var final := GenerateFinalSummary(sconfig, all, llm, summaryStamp);
    var x := ExtractStructuredData(sconfig.modelName, all, config.dataExtractionPrompt, schemaText, generate, validate);
    match FolderName(x.data, timestamp)
    case None => RunFailed(StampErrorMessage(timestamp))
    case Some(folder) =>
      FolderNameClean(x.data, timestamp);
      var dir := config.outputDir + "/" + folder;
      Finished(folder, dir + "/summary.txt", final.text, dir + "/data.json", x.data,
               RecordingRow(x.data, timestamp).value, !csvExists)
  }

  class RecordingWorker {
    const config: WorkerConfig
    const summarizer: MapReduceSummarizer
    var buffer: BufferView
    var shouldStop: bool
    /** Every request made to the language model, in order. */
    ghost var llmRequests: seq<LlmRequest>

    constructor(config: WorkerConfig, sconfig: SummarizerConfig, now: Time)
      ensures this.config == config && summarizer.config == sconfig && summarizer.intermediateSummaries == []
      ensures buffer == BufferView([], [], [], now, config.maxBufferSize, config.chunkDuration)
      ensures !shouldStop && llmRequests == []
      ensures fresh(summarizer)
    {
      this.config := config;
      summarizer := new MapReduceSummarizer(sconfig);
      buffer := BufferView([], [], [], now, config.maxBufferSize, config.chunkDuration);
      shouldStop := false;
      llmRequests := [];
    }

    /** stop: only raises the flag the recording loop polls. */
    method Stop()
      modifies this
      ensures shouldStop && buffer == old(buffer) && llmRequests == old(llmRequests)
    {
      shouldStop := true;
    }

    /**
     * The end of run once the loop has seen the flag: force-finalize the
     * buffer's chunk and summarise it when non-empty, then REDUCE, then
     * EXTRACT, then name the folder and produce the two files and the CSV row.
     */
    method FinishRun(ops: BufferOps, llm: LlmRequest -> LlmOutcome, generate: ExtractionRequest -> LlmOutcome,
                     validate: string -> Option<MeetingData>, schemaText: string,
                     summaryStamp: string, timestamp: string, csvExists: bool, now: Time)
      returns (out: RunResult)
      modifies this, summarizer
      ensures var taken := old(ops.forceFinalizeChunk(buffer));
        var all := WithFinalChunk(summarizer.config, old(summarizer.intermediateSummaries), taken.text, llm, now);
        && buffer == taken.rest
        && summarizer.intermediateSummaries == all
        && out == Outcome(config, summarizer.config, all, llm, generate, validate, schemaText,
                          summaryStamp, timestamp, csvExists)
        && llmRequests == old(llmRequests)
             + (if taken.text != "" then SummarizeChunk(summarizer.config, taken.text, llm).requests else [])
             + GenerateFinalSummary(summarizer.config, all, llm, summaryStamp).requests
      ensures shouldStop == old(shouldStop)
    {
      var taken := ops.forceFinalizeChunk(buffer);
      buffer := taken.rest;
      if taken.text != "" {
        var g := SummarizeChunk(summarizer.config, taken.text, llm);
        llmRequests := llmRequests + g.requests;
        summarizer.AddIntermediateSummary(g.text, now);
      }
      var final := GenerateFinalSummary(summarizer.config, summarizer.intermediateSummaries, llm, summaryStamp);
      llmRequests := llmRequests + final.requests;
      out := Outcome(config, summarizer.config, summarizer.intermediateSummaries, llm, generate, validate,
                     schemaText, summaryStamp, timestamp, csvExists);
    }
  }

  /** REDUCE runs after the final chunk's MAP and sees its summary: with a
   *  non-empty final chunk, the REDUCE request is the one right after the
   *  chunk's own and numbers one block more than there were summaries. */
  lemma FinalChunkReachesReduce(config: SummarizerConfig, summaries: seq<IntermediateSummary>, chunk: string,
                                llm: LlmRequest -> LlmOutcome, now: Time, stamp: string)
    requires chunk != ""
    ensures var all := WithFinalChunk(config, summaries, chunk, llm, now);
      && |all| == |summaries| + 1
      && GenerateFinalSummary(config, all, llm, stamp).requests
         == [LlmRequest(Render(config.finalSummaryPrompt, "summaries_text", ReduceText(all)),
                        config.finalSummaryMaxTokens)]
      && ReduceText(all) == if summaries == [] then Block("", 0, all[0])
                            else ReduceText(summaries) + "\n\n" + Block("", |summaries|, all[|summaries|])
  {
    var all := WithFinalChunk(config, summaries, chunk, llm, now);
    assert all == summaries + [all[|summaries|]];
    if summaries != [] {
      BlocksAppend("", summaries, all[|summaries|]);
    }
  }

  /** The end of run as written: `force_finalize_chunk` is looked up on the
   *  buffer inside run's `try`, whose handler emits the exception's text;
   *  `proceed` is what FinishRun gives when the buffer has that method. */
  function FinishRunAsWritten(proceed: RunResult): RunResult
  {
    match LookupAsWritten("force_finalize_chunk")
    case Some(message) => RunFailed(message)
    case None => proceed
  }

  /** As written, every recording run ends in the error signal with the
   *  AttributeError's text, and never in the files FinishRun produces. */
  lemma FinishRunFailsAsWritten(proceed: RunResult)
    ensures FinishRunAsWritten(proceed) == RunFailed(MissingMethodMessage("force_finalize_chunk"))
    ensures !FinishRunAsWritten(proceed).Finished?
  {
    BufferOpsMissingAsWritten("force_finalize_chunk");
  }

  /**
   * One pass of _transcription_worker on a recognised text, with the buffer
   * operations supplied: a non-empty text goes into the buffer (with
   * add_segment's default source "mixed"), and when the buffer asks for it a
   * non-empty chunk is summarised and its summary appended, even an empty one.
   */
  function TranscriptionStep(config: SummarizerConfig, buffer: BufferView, summaries: seq<IntermediateSummary>,
                             text: string, ops: BufferOps, llm: LlmRequest -> LlmOutcome, now: Time)
    : (r: (BufferView, seq<IntermediateSummary>))
    ensures text == "" ==> r == (buffer, summaries)
    ensures IsPrefix(summaries, r.1) && |r.1| <= |summaries| + 1
    ensures text != "" ==>
      var added := ops.add(buffer, text, "mixed", now);
      && (!ops.shouldSummarize(added) ==> r == (added, summaries))
      && (ops.shouldSummarize(added) ==>
            && r.0 == ops.getChunkForSummary(added).rest
            && (|r.1| == |summaries| + 1 <==> ops.getChunkForSummary(added).text != ""))
  {
    if text == "" then (buffer, summaries)
    else
      var added := ops.add(buffer, text, "mixed", now);
      if !ops.shouldSummarize(added) then (added, summaries)
      else
        var taken := ops.getChunkForSummary(added);
        (taken.rest, WithFinalChunk(config, summaries, taken.text, llm, now))
  }

  /** The same pass as written: the `add` lookup raises for a non-empty text
   *  and the worker's handler only prints it, so the buffer and the summaries
   *  stay as they were; `proceed` is what TranscriptionStep gives. */
  function TranscriptionStepAsWritten(buffer: BufferView, summaries: seq<IntermediateSummary>, text: string,
                                      proceed: (BufferView, seq<IntermediateSummary>))
    : (BufferView, seq<IntermediateSummary>)
  {
    if text == "" || LookupAsWritten("add").Some? then (buffer, summaries) else proceed
  }

  /** As written, no recognised text ever reaches the recording's buffer or
   *  summaries, where TranscriptionStep adds every non-empty one. */
  lemma TranscriptionDroppedAsWritten(config: SummarizerConfig, buffer: BufferView,
                                      summaries: seq<IntermediateSummary>, text: string, ops: BufferOps,
                                      llm: LlmRequest -> LlmOutcome, now: Time)
    ensures TranscriptionStepAsWritten(buffer, summaries, text,
                                       TranscriptionStep(config, buffer, summaries, text, ops, llm, now))
            == (buffer, summaries)
  {
    BufferOpsMissingAsWritten("add");
  }

  // ---------------------------------------------------------------------
  // RecordingController
  // ---------------------------------------------------------------------

  class RecordingController {
    const config: WorkerConfig
    const sconfig: SummarizerConfig
    var isRecording: bool
    var worker: RecordingWorker?
    var hasThread: bool

    /** A worker and its thread exist exactly while recording. */
    ghost predicate Valid()
      reads this
    {
      (isRecording <==> worker != null) && (hasThread <==> worker != null)
    }

    constructor(config: WorkerConfig, sconfig: SummarizerConfig)
      ensures Valid() && !isRecording && this.config == config && this.sconfig == sconfig
    {
      this.config := config;
      this.sconfig := sconfig;
      isRecording := false;
      worker := null;
      hasThread := false;
    }

    /** start_recording: ignored while recording; otherwise a fresh worker on
     *  a new thread. Reports whether recording_started was emitted. */
    method StartRecording(now: Time) returns (started: bool)
      requires Valid()
      modifies this
      ensures Valid()
      ensures started <==> !old(isRecording)
      ensures old(isRecording) ==> isRecording && worker == old(worker) && hasThread == old(hasThread)
      ensures !old(isRecording) ==>
        && isRecording && fresh(worker) && fresh(worker.summarizer) && !worker.shouldStop
        && worker.config == config && worker.summarizer.config == sconfig
        && worker.summarizer.intermediateSummaries == []
    {
      if isRecording {
        return false;
      }
      isRecording := true;
      worker := new RecordingWorker(config, sconfig, now);
      hasThread := true;
      started := true;
    }

    /** stop_recording: ignored when not recording or without a worker;
     *  otherwise only the worker's stop flag is raised. */
    method StopRecording()
      requires Valid()
      modifies this, worker
      ensures Valid()
      ensures isRecording == old(isRecording) && worker == old(worker) && hasThread == old(hasThread)
      ensures old(isRecording) ==> worker.shouldStop && worker.buffer == old(worker.buffer)
      ensures !old(isRecording) ==> worker == null
    {
      if !isRecording || worker == null {
        return;
      }
      worker.Stop();
    }

    /** on_recording_finished: recording ends, the thread and worker are
     *  dropped, and the summary path is passed on. */
    method OnRecordingFinished(summaryPath: string) returns (ready: string)
      requires Valid()
      modifies this
      ensures Valid() && !isRecording && worker == null && !hasThread
      ensures ready == summaryPath
    {
      isRecording := false;
      hasThread := false;
      worker := null;
      ready := summaryPath;
    }

    /** on_error: recording ends, the thread and worker are dropped, and the
     *  message is passed on. */
    method OnError(message: string) returns (reported: string)
      requires Valid()
      modifies this
      ensures Valid() && !isRecording && worker == null && !hasThread
      ensures reported == message
    {
      isRecording := false;
      hasThread := false;
      worker := null;
      reported := message;
    }
  }
}
