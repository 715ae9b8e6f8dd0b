/** The longitudinal history lookup: a patient identifier (an audio recording's "IDnn" code,
    or anything carrying a number) is resolved to a subject of the UCI Parkinson's
    telemonitoring table, whose visits are summarised as a baseline, a latest visit and a
    three-way UPDRS trend. The table is read from disk at most once and then served from a
    cache. */
module HistoryLoader {
  import opened Signal
  import opened Text

  /** One row of the telemonitoring table, reduced to the columns the lookup reads:
      subject#, test_time, motor_UPDRS and total_UPDRS. */
  datatype Row = Row(subject: int, testTime: real, motorUpdrs: real, totalUpdrs: real)

  /** What a path holds: a file the CSV reader rejects (with its message), or a table. */
  datatype DatasetFile = Unparseable(reason: string) | Table(rows: seq<Row>)

  /** The file system, as far as the loader sees it: the paths that exist and their contents. */
  type FileSystem = map<string, DatasetFile>

  const DatasetPath: string := "dataset- Parkinsons Telemonitoring/parkinsons_updrs.data"

  /** Audio recording codes mapped to the clinically matched telemonitoring subject. */
  const IdMapping: map<string, nat> := map[
    "ID02" := 35, "ID04" := 25, "ID06" := 21, "ID10" := 36,
    "ID00" := 18, "ID01" := 22, "ID03" := 20]

  /** os.path.join(base, rel) for a relative `rel`: a separator is inserted unless `base` is
      empty or already ends with one. */
  function JoinPath(base: string, rel: string): (p: string)
    ensures |p| >= |rel| && p[|p| - |rel|..] == rel
    ensures |p| >= |base| && p[..|base|] == base
  {
    if |base| == 0 || base[|base| - 1] == '/' then base + rel else base + "/" + rel
  }

  /** One attempt to read the dataset: a missing path and an unparseable file are errors
      with the loader's messages; otherwise the table's rows. */
  function ReadDataset(fs: FileSystem, fullPath: string): (r: Result<seq<Row>>)
    ensures r.Ok? <==> fullPath in fs && fs[fullPath].Table?
    ensures r.Ok? ==> r.value == fs[fullPath].rows
  {
    if fullPath !in fs then Err("UCI Telemonitoring Data not found at: " + fullPath)
    else match fs[fullPath]
      case Unparseable(reason) => Err("Failed to parse UCI data: " + reason)
      case Table(rows) => Ok(rows)
  }

  // ---------------------------------------------------------------------------------------
  // Identifier parsing

  predicate IsI(c: char) {
    c == 'I' || c == 'i'
  }

  predicate IsD(c: char) {
    c == 'D' || c == 'd'
  }

  /** The pattern "ID" followed by a digit, case-insensitively, starts at index i. */
  predicate IdAt(s: string, i: nat) {
    i + 2 < |s| && IsI(s[i]) && IsD(s[i + 1]) && IsDigit(s[i + 2])
  }

  /** The end of the maximal run of digits starting at index i. */
  function RunEnd(s: string, i: nat): (k: nat)
    requires i <= |s|
    ensures i <= k <= |s| && AllDigits(s[i..k])
    ensures k == |s| || !IsDigit(s[k])
    decreases |s| - i
  {
    if i < |s| && IsDigit(s[i]) then
      var k := RunEnd(s, i + 1);
      assert s[i..k] == [s[i]] + s[i + 1..k];
      k
    else i
  }

  /** The first index at or after `from` where the ID pattern matches. */
  function FindId(s: string, from: nat): (r: Option<nat>)
    requires from <= |s|
    ensures r.Some? ==> from <= r.value && IdAt(s, r.value)
    ensures r.Some? ==> forall j :: from <= j < r.value ==> !IdAt(s, j)
    ensures r.None? ==> forall j :: from <= j < |s| ==> !IdAt(s, j)
    decreases |s| - from
  {
    if from == |s| then None
    else if IdAt(s, from) then Some(from)
    else FindId(s, from + 1)
  }

  /** The first index at or after `from` holding a digit. */
  function FindDigit(s: string, from: nat): (r: Option<nat>)
    requires from <= |s|
    ensures r.Some? ==> from <= r.value < |s| && IsDigit(s[r.value])
    ensures r.Some? ==> forall j :: from <= j < r.value ==> !IsDigit(s[j])
    ensures r.None? ==> forall j :: from <= j < |s| ==> !IsDigit(s[j])
    decreases |s| - from
  {
    if from == |s| then None
    else if IsDigit(s[from]) then Some(from)
    else FindDigit(s, from + 1)
  }

  /** The first maximal run of digits, if there is one: re.findall(r'\d+', s)[0]. */
  function FirstRun(s: string): (r: Option<string>)
    ensures r.Some? ==> |r.value| > 0 && AllDigits(r.value)
    ensures r.None? <==> forall j :: 0 <= j < |s| ==> !IsDigit(s[j])
  {
    match FindDigit(s, 0)
    case None => None
    case Some(j) => Some(s[j..RunEnd(s, j)])
  }

  /** The run FirstRun returns starts at the first digit of s and extends as far as the
      digits go. */
  lemma FirstRunStartsAtFirstDigit(s: string, j: nat)
    requires j < |s| && IsDigit(s[j])
    requires forall i :: 0 <= i < j ==> !IsDigit(s[i])
    ensures FirstRun(s) == Some(s[j..RunEnd(s, j)])
    ensures RunEnd(s, j) == |s| || !IsDigit(s[RunEnd(s, j)])
  {
    assert FindDigit(s, 0) == Some(j);
  }

  /** The subject number a patient identifier names, or None for "Invalid ID format": the
      identifier is stripped of surrounding whitespace and then parsed. */
  function SubjectNumber(patientId: string): (r: Option<nat>)
    ensures r.None? <==> forall j :: 0 <= j < |Strip(patientId)| ==> !IsDigit(Strip(patientId)[j])
  {
    ParseSubject(Strip(patientId))
  }

  /** The subject number of a stripped identifier: the first case-insensitive "ID<digits>" is
      upper-cased and looked up in the mapping, an unmapped code falling back to the integer
      of its first digit run; without such a code, the first digit run anywhere is the
      number, and an identifier without digits has none. */
  function ParseSubject(clean: string): (r: Option<nat>)
    ensures r.None? <==> forall j :: 0 <= j < |clean| ==> !IsDigit(clean[j])
  {
    match FindId(clean, 0)
    case Some(i) =>
      var key := Upper(clean[i..RunEnd(clean, i + 2)]);
      if key in IdMapping then Some(IdMapping[key])
      else (match FirstRun(key)
        case Some(digits) => Some(DigitsValue(digits))
        case None => Some(1))
    case None =>
      match FirstRun(clean)
      case None => None
      case Some(digits) => Some(DigitsValue(digits))
  }

  lemma {:induction false} RunToEnd(s: string, i: nat)
    requires i <= |s| && AllDigits(s[i..])
    ensures RunEnd(s, i) == |s|
    decreases |s| - i
  {
    if i < |s| {
      assert IsDigit(s[i..][0]);
      assert s[i + 1..] == s[i..][1..];
      RunToEnd(s, i + 1);
    }
  }

  /** The upper-cased code is "ID" followed by the matched digits, unchanged. */
  lemma UpperCode(clean: string, i: nat)
    requires IdAt(clean, i)
    ensures var e := RunEnd(clean, i + 2);
      Upper(clean[i..e]) == "ID" + clean[i + 2..e]
  {
    var e := RunEnd(clean, i + 2);
    var key := Upper(clean[i..e]);
    assert forall j :: 2 <= j < |key| ==> key[j] == clean[i + 2..e][j - 2] by {
      forall j | 2 <= j < |key| ensures key[j] == clean[i + 2..e][j - 2] {
        assert IsDigit(clean[i + 2..e][j - 2]);
      }
    }
  }

  /** An unmapped code names the subject whose number its digits spell (leading zeros
      dropped): the fallback to 1 is never taken. */
  lemma UnmappedCodeUsesItsDigits(clean: string, i: nat)
    requires FindId(clean, 0) == Some(i)
    requires Upper(clean[i..RunEnd(clean, i + 2)]) !in IdMapping
    ensures ParseSubject(clean) == Some(DigitsValue(clean[i + 2..RunEnd(clean, i + 2)]))
  {
    var e := RunEnd(clean, i + 2);
    var digits := clean[i + 2..e];
    var key := Upper(clean[i..e]);
    UpperCode(clean, i);
    assert key == "ID" + digits;
    assert key[2..] == digits;
    RunToEnd(key, 2);
    assert FindDigit(key, 0) == Some(2) by {
      assert !IsDigit(key[0]) && !IsDigit(key[1]) && IsDigit(key[2]);
      assert FindDigit(key, 2) == Some(2);
      assert FindDigit(key, 1) == Some(2);
    }
    assert key[2..|key|] == digits;
    assert FirstRun(key) == Some(digits);
  }

  /** Without an "ID" code, the number is the int of the first digit run anywhere. */
  lemma NoCodeUsesFirstRun(clean: string)
    requires FindId(clean, 0).None? && FirstRun(clean).Some?
    ensures ParseSubject(clean) == Some(DigitsValue(FirstRun(clean).value))
  {
  }

  /** An identifier that neither starts nor ends with whitespace is its own stripped form. */
  lemma NoBlanksToStrip(s: string)
    requires |s| > 0 && !IsSpace(s[0]) && !IsSpace(s[|s| - 1])
    ensures Strip(s) == s
  {
  }

  /** One blank on either side is removed. */
  lemma SurroundingBlanksStripped(s: string)
    requires |s| > 0 && !IsSpace(s[0]) && !IsSpace(s[|s| - 1])
    ensures Strip(" " + s + " ") == s
  {
    var padded := " " + s + " ";
    assert IsSpace(' ');
    assert padded[1..] == s + " ";
    assert StripLeft(padded) == StripLeft(s + " ");
    assert StripLeft(s + " ") == s + " ";
    assert (s + " ")[..|s|] == s;
    assert StripRight(s + " ") == StripRight(s);
    assert StripRight(s) == s;
  }

  /** Worked identifiers: mapped codes in either case and with surrounding blanks, an
      unmapped code, a "P" number and an identifier without digits. */
  lemma MappedCodeExample()
    ensures SubjectNumber("ID02") == Some(35)
  {
    var id := "ID02";
    assert id == ['I', 'D', '0', '2'];
    assert IdAt(id, 0) && IsDigit(id[3]);
    assert Upper(id) == id;
    assert IdMapping[id] == 35;
    MappedFourCharCode(id);
  }

  lemma LowerCaseCodeExample()
    ensures SubjectNumber("id00") == Some(18)
  {
    var id := "id00";
    assert id == ['i', 'd', '0', '0'];
    assert IdAt(id, 0) && IsDigit(id[3]);
    assert Upper(id) == "ID00";
    assert IdMapping["ID00"] == 18;
    MappedFourCharCode(id);
  }

  lemma PaddedCodeExample()
    ensures SubjectNumber(" id00 ") == Some(18)
  {
    var id, padded := "id00", " id00 ";
    assert |padded| == 6 && padded[0] == ' ' && padded[5] == ' ';
    assert padded[1..5] == id by {
      assert padded[1] == 'i' && padded[2] == 'd' && padded[3] == '0' && padded[4] == '0';
    }
    BlanksIgnored(id, padded);
    LowerCaseCodeExample();
  }

  /** A four-character code in either case whose upper-cased form is mapped names the
      mapped subject. */
  lemma MappedFourCharCode(id: string)
    requires |id| == 4 && IdAt(id, 0) && IsDigit(id[3])
    ensures Upper(id) in IdMapping ==> SubjectNumber(id) == Some(IdMapping[Upper(id)])
  {
    NoBlanksToStrip(id);
    assert FindId(id, 0) == Some(0);
    RunToEnd(id, 2);
    assert id[0..4] == id;
  }

  /** Surrounding blanks do not change the subject an identifier names. */
  lemma BlanksIgnored(s: string, padded: string)
    requires |s| > 0 && !IsSpace(s[0]) && !IsSpace(s[|s| - 1])
    requires |padded| == |s| + 2 && padded[0] == ' ' && padded[|s| + 1] == ' ' && padded[1..|s| + 1] == s
    ensures SubjectNumber(padded) == SubjectNumber(s)
  {
    assert padded == " " + s + " ";
    SurroundingBlanksStripped(s);
    NoBlanksToStrip(s);
  }

  /** An upper-case code "ID" + two digits that the mapping does not know stands for its own
      two-digit number. */
  lemma UnmappedTwoDigitCode(id: string, a: char, b: char)
    requires id == ['I', 'D', a, b] && IsDigit(a) && IsDigit(b) && id !in IdMapping
    ensures SubjectNumber(id) == Some((a as int - '0' as int) * 10 + (b as int - '0' as int))
  {
    NoBlanksToStrip(id);
    assert FindId(id, 0) == Some(0) by {
      assert IdAt(id, 0);
    }
    RunToEnd(id, 2);
    assert id[0..4] == id;
    assert Upper(id) == id;
    UnmappedCodeUsesItsDigits(id, 0);
    assert id[2..4] == [a, b];
    TwoDigitsValue(a, b);
  }

  lemma UnmappedCodeExample()
    ensures SubjectNumber("ID34") == Some(34)
  {
    var id := "ID34";
    assert id == ['I', 'D', '3', '4'];
    assert id !in IdMapping;
    UnmappedTwoDigitCode(id, '3', '4');
  }

  lemma PatientNumberExample()
    ensures SubjectNumber("P07") == Some(7)
  {
    var id := "P07";
    NoBlanksToStrip(id);
    assert FindId(id, 0) == None by {
      assert !IdAt(id, 0) && !IdAt(id, 1) && !IdAt(id, 2);
    }
    assert FindDigit(id, 0) == Some(1) by {
      assert !IsDigit(id[0]) && IsDigit(id[1]);
    }
    RunToEnd(id, 1);
    assert id[1..3] == ['0', '7'];
    TwoDigitsValue('0', '7');
  }

  lemma NoDigitsExample()
    ensures SubjectNumber("abc") == None
  {
    var id := "abc";
    NoBlanksToStrip(id);
    assert forall j :: 0 <= j < |id| ==> !IsDigit(id[j]);
  }

  // ---------------------------------------------------------------------------------------
  // Record selection and the trend

  /** The rows of one subject, in table order. */
  function SubjectRows(rows: seq<Row>, n: int): (r: seq<Row>)
    ensures |r| <= |rows| && multiset(r) <= multiset(rows)
    ensures forall i :: 0 <= i < |r| ==> r[i].subject == n
    ensures |r| == 0 <==> forall i :: 0 <= i < |rows| ==> rows[i].subject != n
  {
    if |rows| == 0 then []
    else
      var front := rows[..|rows| - 1];
      assert rows == front + [rows[|rows| - 1]];
      SubjectRows(front, n) + (if rows[|rows| - 1].subject == n then [rows[|rows| - 1]] else [])
  }

  /** Every row of the subject is among its selected rows. */
  lemma {:induction false} SubjectRowsComplete(rows: seq<Row>, n: int, i: nat)
    requires i < |rows| && rows[i].subject == n
    ensures rows[i] in SubjectRows(rows, n)
  {
    if i < |rows| - 1 {
      SubjectRowsComplete(rows[..|rows| - 1], n, i);
    }
  }

  /** The visit the ascending sort on test_time puts first (the earliest in table order
      among equal times). */
  function Earliest(rs: seq<Row>): (r: Row)
    requires |rs| > 0
    ensures r in rs
    ensures forall i :: 0 <= i < |rs| ==> r.testTime <= rs[i].testTime
  {
    if |rs| == 1 then rs[0]
    else
      var e := Earliest(rs[1..]);
      assert forall i :: 1 <= i < |rs| ==> rs[i] == rs[1..][i - 1];
      if rs[0].testTime <= e.testTime then rs[0] else e
  }

  /** The visit the ascending sort on test_time puts last (the latest in table order among
      equal times). */
  function Latest(rs: seq<Row>): (r: Row)
    requires |rs| > 0
    ensures r in rs
    ensures forall i :: 0 <= i < |rs| ==> rs[i].testTime <= r.testTime
  {
    if |rs| == 1 then rs[0]
    else
      var front := rs[..|rs| - 1];
      var l := Latest(front);
      assert forall i :: 0 <= i < |rs| - 1 ==> rs[i] == front[i];
      if rs[|rs| - 1].testTime >= l.testTime then rs[|rs| - 1] else l
  }

  datatype Trend = Deteriorating | Improving | Stable

  function TrendName(t: Trend): string {
    match t
    case Deteriorating => "deteriorating"
    case Improving => "improving"
    case Stable => "stable"
  }

  /** A rise of more than 3 UPDRS points is deterioration, a fall of more than 3 improvement,
      anything in between (the bounds included) stable. */
  function ClassifyTrend(delta: real): Trend {
    if delta > 3.0 then Deteriorating
    else if delta < -3.0 then Improving
    else Stable
  }

  function TrendRank(t: Trend): int {
    match t
    case Improving => -1
    case Stable => 0
    case Deteriorating => 1
  }

  /** A larger change never classifies as a better trend, and mirroring the change mirrors
      the trend. */
  lemma TrendOrdered(d1: real, d2: real)
    requires d1 <= d2
    ensures TrendRank(ClassifyTrend(d1)) <= TrendRank(ClassifyTrend(d2))
    ensures TrendRank(ClassifyTrend(-d1)) == -TrendRank(ClassifyTrend(d1))
  {
  }

  /** One subject's UPDRS scores at a visit. */
  datatype Reading = Reading(motorUpdrs: real, totalUpdrs: real)

  /** The lookup's answer: a summary when the subject has visits; otherwise the reason. */
  datatype History =
    | Found(subjectId: nat, recordCount: nat, baseline: Reading, latest: Reading,
            latestDay: real, trend: Trend, deltaUpdrs: real)
    | NotFound(subjectId: nat, availableSubjects: seq<int>)
    | InvalidFormat
    | LoadFailed(message: string)

  /** The "error" text of an answer that was not found. */
  function ErrorText(h: History): string
    requires !h.Found?
  {
    match h
    case NotFound(n, _) => "Subject " + NatToString(n) + " not found in UCI Database"
    case InvalidFormat => "Invalid ID format"
    case LoadFailed(message) => message
  }

  /** The subject column. */
  function Subjects(rows: seq<Row>): (s: seq<int>)
    ensures |s| == |rows| && forall i :: 0 <= i < |rows| ==> s[i] == rows[i].subject
  {
    seq(|rows|, i requires 0 <= i < |rows| => rows[i].subject)
  }

  /** The distinct values of a column in order of first appearance. */
  function Unique(s: seq<int>): (r: seq<int>)
    ensures forall x :: x in r <==> x in s
    ensures forall i, j :: 0 <= i < j < |r| ==> r[i] != r[j]
  {
    if |s| == 0 then []
    else
      var u := Unique(s[..|s| - 1]);
      assert s == s[..|s| - 1] + [s[|s| - 1]];
      if s[|s| - 1] in u then u else u + [s[|s| - 1]]
  }

  /** The answer for a patient identifier: its subject number, then that subject's summary. */
  function Lookup(rows: seq<Row>, patientId: string): History
  {
    match SubjectNumber(patientId)
    case None => InvalidFormat
    case Some(n) => Summary(rows, n)
  }

  /** The summary of subject n's visits, from the rows of the table. */
  function Summary(rows: seq<Row>, n: nat): (h: History)
    ensures h.Found? || h.NotFound?
  {
    var mine := SubjectRows(rows, n);
    if |mine| == 0 then NotFound(n, Unique(Subjects(rows)))
    else
      var first, last := Earliest(mine), Latest(mine);
      var delta := last.totalUpdrs - first.totalUpdrs;
      Found(n, |mine|, Reading(first.motorUpdrs, first.totalUpdrs),
            Reading(last.motorUpdrs, last.totalUpdrs), last.testTime, ClassifyTrend(delta), delta)
  }

  /** Only an identifier without any digit is an invalid format. */
  lemma InvalidExactlyWithoutDigits(rows: seq<Row>, patientId: string)
    ensures Lookup(rows, patientId).InvalidFormat? <==>
      forall j :: 0 <= j < |Strip(patientId)| ==> !IsDigit(Strip(patientId)[j])
  {
    match SubjectNumber(patientId)
    case None =>
    case Some(n) => assert Lookup(rows, patientId) == Summary(rows, n);
  }

  /** A subject without visits is reported with the list of subjects that have some: each
      once, and the requested one not among them. */
  lemma NotFoundListsSubjects(rows: seq<Row>, n: nat)
    requires Summary(rows, n).NotFound?
    ensures var h := Summary(rows, n);
      && h.subjectId == n && n !in h.availableSubjects
      && (forall x :: x in h.availableSubjects <==> x in Subjects(rows))
      && (forall i, j :: 0 <= i < j < |h.availableSubjects| ==> h.availableSubjects[i] != h.availableSubjects[j])
  {
    var s := Subjects(rows);
    assert forall i :: 0 <= i < |rows| ==> rows[i].subject != n;
    assert n !in s by {
      forall i | 0 <= i < |s| ensures s[i] != n {
      }
    }
  }

  /** A found subject is summarised from its own visits: the count is its number of rows,
      the baseline is a visit with the earliest test time and the latest one with the last,
      and the trend classifies the change in total UPDRS between them. */
  lemma FoundSummarisesSubject(rows: seq<Row>, n: nat)
    requires Summary(rows, n).Found?
    ensures var h := Summary(rows, n);
      && h.subjectId == n
      && h.recordCount == |SubjectRows(rows, n)| > 0
      && (exists b :: b in rows && b.subject == n
            && h.baseline == Reading(b.motorUpdrs, b.totalUpdrs)
            && forall i :: 0 <= i < |rows| && rows[i].subject == n ==> b.testTime <= rows[i].testTime)
      && (exists l :: l in rows && l.subject == n && h.latestDay == l.testTime
            && h.latest == Reading(l.motorUpdrs, l.totalUpdrs)
            && forall i :: 0 <= i < |rows| && rows[i].subject == n ==> rows[i].testTime <= l.testTime)
      && h.deltaUpdrs == h.latest.totalUpdrs - h.baseline.totalUpdrs
      && (h.trend == Deteriorating <==> h.deltaUpdrs > 3.0)
      && (h.trend == Improving <==> h.deltaUpdrs < -3.0)
  {
    SelectedSpan(rows, n);
  }

  /** The earliest and the latest of a subject's selected rows are rows of that subject
      bounding the test times of all its rows. */
  lemma SelectedSpan(rows: seq<Row>, n: int)
    requires |SubjectRows(rows, n)| > 0
    ensures var mine := SubjectRows(rows, n);
      var b, l := Earliest(mine), Latest(mine);
      && b in rows && b.subject == n && l in rows && l.subject == n
      && forall i :: 0 <= i < |rows| && rows[i].subject == n ==> b.testTime <= rows[i].testTime <= l.testTime
  {
    var mine := SubjectRows(rows, n);
    var b, l := Earliest(mine), Latest(mine);
    assert b in multiset(mine) && l in multiset(mine);
    forall i | 0 <= i < |rows| && rows[i].subject == n
      ensures b.testTime <= rows[i].testTime <= l.testTime
    {
      SubjectRowsComplete(rows, n, i);
      var k :| 0 <= k < |mine| && mine[k] == rows[i];
    }
  }

  /** The answer once the dataset read has been attempted: a read error is reported as the
      error message, otherwise the table is looked up. */
  function Answer(loaded: Result<seq<Row>>, patientId: string): (h: History)
    ensures h.LoadFailed? <==> loaded.Err?
  {
    match loaded
    case Err(message) => LoadFailed(message)
    case Ok(rows) => Lookup(rows, patientId)
  }

  // ---------------------------------------------------------------------------------------
  // The loader and its cache

  class HistoryLoader {
    /** The parsed table, once a read has succeeded. */
    var cache: Option<seq<Row>>
    /** How many times the file system has been consulted. */
    ghost var diskReads: nat

    constructor()
      ensures cache == None && diskReads == 0
    {
      cache := None;
      diskReads := 0;
    }

    /** Serve the cached table; on the first call, read it from the dataset path under
        `basePath` and keep it when the read succeeds. */
    method LoadData(fs: FileSystem, basePath: string) returns (r: Result<seq<Row>>)
      modifies this
      ensures old(cache).Some? ==> r == Ok(old(cache).value) && cache == old(cache) && diskReads == old(diskReads)
      ensures old(cache).None? ==> r == ReadDataset(fs, JoinPath(basePath, DatasetPath)) && diskReads == old(diskReads) + 1
      ensures old(cache).None? ==> cache == if r.Ok? then Some(r.value) else None
    {
      if cache.Some? {
        return Ok(cache.value);
      }
      var fullPath := JoinPath(basePath, DatasetPath);
      diskReads := diskReads + 1;
      r := ReadDataset(fs, fullPath);
      if r.Ok? {
        cache := Some(r.value);
      }
    }

    /** Load the table (or fail with the loader's message) and answer the lookup; nothing
        escapes as an error. */
    method GetPatientHistory(fs: FileSystem, patientId: string, basePath: string) returns (h: History)
      modifies this
      ensures h == Answer(if old(cache).Some? then Ok(old(cache).value)
                          else ReadDataset(fs, JoinPath(basePath, DatasetPath)), patientId)
      ensures old(cache).Some? ==> cache == old(cache) && diskReads == old(diskReads)
      ensures old(cache).None? ==> diskReads == old(diskReads) + 1
      ensures old(cache).None? ==>
        cache == (var r := ReadDataset(fs, JoinPath(basePath, DatasetPath)); if r.Ok? then Some(r.value) else None)
    {
      var loaded := LoadData(fs, basePath);
      match loaded {
        case Err(message) =>
          h := LoadFailed(message);
        case Ok(rows) =>
          h := Lookup(rows, patientId);
      }
    }
  }
}
