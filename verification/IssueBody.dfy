/**
 The body of a filed issue (src/gpuqueue/bugreport.py): printed once, bumped on
 every recurrence, and read back for its last stamp. Regular expressions with
 `re.MULTILINE` act on lines, so the text is taken apart at newlines.
 */
module IssueBody {
  import opened Base
  import opened Text

  datatype Report = Report(
    preamble: string,             // the fixed line every body starts with
    sig: string, phase: string, commit: string, occurredAt: string,
    traceback: string,            // any text, of any number of lines
    job: string, counts: string)

  const OCCURRENCES := "occurrences: "
  const LAST_SEEN := "last seen: "

  // ---------------------------------------------------------------------
  // Decimal numbers
  // ---------------------------------------------------------------------

  predicate IsDigit(c: char) {
    '0' <= c <= '9'
  }

  predicate AllDigits(s: string) {
    forall i :: 0 <= i < |s| ==> IsDigit(s[i])
  }

  function ToDecimal(n: nat): (s: string)
    ensures s != "" && AllDigits(s)
  {
    var last := ['0' + (n % 10) as char];
    if n < 10 then last else ToDecimal(n / 10) + last
  }

  function FromDecimal(s: string): nat
    requires AllDigits(s)
  {
    if s == "" then 0
    else 10 * FromDecimal(s[..|s| - 1]) + (s[|s| - 1] as int - '0' as int)
  }

  lemma {:induction false} DecimalRoundTrip(n: nat)
    ensures FromDecimal(ToDecimal(n)) == n
  {
    var last := ['0' + (n % 10) as char];
    if n < 10 {
      assert ToDecimal(n)[..|ToDecimal(n)| - 1] == "";
    } else {
      DecimalRoundTrip(n / 10);
      assert (ToDecimal(n / 10) + last)[..|ToDecimal(n / 10) + last| - 1] == ToDecimal(n / 10);
    }
  }

  // ---------------------------------------------------------------------
  // Printing, bumping, reading
  // ---------------------------------------------------------------------

  /** `^occurrences: (\d+)$` */
  predicate IsOccurrences(line: string) {
    StartsWith(line, OCCURRENCES) && |line| > |OCCURRENCES| && AllDigits(line[|OCCURRENCES|..])
  }

  /** `^last seen: (.*)$` */
  predicate IsLastSeen(line: string) {
    StartsWith(line, LAST_SEEN)
  }

  /** The first match, or the number of lines. */
  function First(lines: seq<string>, p: string -> bool): (i: nat)
    ensures i <= |lines|
    ensures i < |lines| ==> p(lines[i])
    ensures forall k :: 0 <= k < i ==> !p(lines[k])
  {
    if lines == [] then 0
    else if p(lines[0]) then 0
    else
      var rest := First(lines[1..], p);
      assert forall k :: 1 <= k < rest + 1 ==> lines[k] == lines[1..][k - 1];
      1 + rest
  }

  /** The count line with one more occurrence. */
  function CountUp(line: string): string
    requires IsOccurrences(line)
  {
    OCCURRENCES + ToDecimal(FromDecimal(line[|OCCURRENCES|..]) + 1)
  }

  function BumpLines(lines: seq<string>, occurredAt: string): seq<string>
    requires First(lines, IsOccurrences) < |lines|
  {
    var i := First(lines, IsOccurrences);
    var counted := lines[i := CountUp(lines[i])];
    var j := First(counted, IsLastSeen);
    if j == |counted| then counted else counted[j := LAST_SEEN + occurredAt]
  }

  function BumpBody(body: string, occurredAt: string): string {
    var lines := Split(body, '\n');
    if First(lines, IsOccurrences) == |lines| then body else Join(BumpLines(lines, occurredAt), '\n')
  }

  /** The text `last_seen` hands to the date parser. */
  function LastSeen(body: string): Option<string> {
    var lines := Split(body, '\n');
    var i := First(lines, IsLastSeen);
    if i == |lines| then None else Some(lines[i][|LAST_SEEN|..])
  }

  function OccurrenceCount(body: string): Option<nat> {
    var lines := Split(body, '\n');
    var i := First(lines, IsOccurrences);
    if i == |lines| then None else Some(FromDecimal(lines[i][|OCCURRENCES|..]))
  }

  /** The lines above the blank line, for a given count and last stamp. */
  function Header(r: Report, count: nat, lastSeen: string): seq<string> {
    [r.preamble, "", "sig: " + r.sig, "phase: " + r.phase, "gpuq commit: " + r.commit,
     OCCURRENCES + ToDecimal(count), "first seen: " + r.occurredAt, LAST_SEEN + lastSeen]
  }

  function Sections(r: Report): seq<string> {
    ["", "## Traceback", "", "```", r.traceback, "```", "", "## JobSpec", "", "```json", r.job, "```", "",
     "## Queue state at the time", "", r.counts, ""]
  }

  function Body(r: Report): string {
    Join(Header(r, 1, r.occurredAt) + Sections(r), '\n')
  }

  // ---------------------------------------------------------------------
  // The round trip
  // ---------------------------------------------------------------------

  predicate OneLine(s: string) {
    '\n' !in s
  }

  /** What the filer writes above the sections it does not control. */
  predicate PlainHeader(r: Report) {
    && OneLine(r.preamble) && !IsOccurrences(r.preamble) && !IsLastSeen(r.preamble)
    && OneLine(r.sig) && OneLine(r.phase) && OneLine(r.commit) && OneLine(r.occurredAt)
  }

  /** A header with any text below it. */
  function BodyWith(r: Report, count: nat, lastSeen: string, rest: string): string {
    Join(Header(r, count, lastSeen) + [rest], '\n')
  }

  lemma {:induction false} SplitEachOfLines(lines: seq<string>, rest: string)
    requires forall i :: 0 <= i < |lines| ==> OneLine(lines[i])
    ensures SplitEach(lines + [rest], '\n') == lines + Split(rest, '\n')
  {
    if lines == [] {
      assert ([rest])[1..] == [];
      assert SplitEach([rest], '\n') == Split(rest, '\n') + [];
    } else {
      assert (lines + [rest])[1..] == lines[1..] + [rest];
      SplitOfOne(lines[0], '\n');
      SplitEachOfLines(lines[1..], rest);
    }
  }

  lemma DigitsAreOneLine(s: string)
    requires AllDigits(s)
    ensures OneLine(s)
  {
  }

  lemma LinesOfBodyWith(r: Report, count: nat, lastSeen: string, rest: string)
    requires PlainHeader(r) && OneLine(lastSeen)
    ensures Split(BodyWith(r, count, lastSeen, rest), '\n') == Header(r, count, lastSeen) + Split(rest, '\n')
  {
    var header := Header(r, count, lastSeen);
    DigitsAreOneLine(ToDecimal(count));
    forall i | 0 <= i < |header|
      ensures OneLine(header[i])
    {
    }
    SplitEachOfLines(header, rest);
    SplitOfJoin(header + [rest], '\n');
  }

  /** Whatever text stands below the header, the first occurrences line and the
      first last-seen line are the header's. */
  lemma HeaderIsFound(r: Report, count: nat, lastSeen: string, below: seq<string>)
    requires PlainHeader(r)
    ensures var lines := Header(r, count, lastSeen) + below;
            && First(lines, IsOccurrences) == 5
            && lines[5][|OCCURRENCES|..] == ToDecimal(count)
            && First(lines, IsLastSeen) == 7
            && lines[7][|LAST_SEEN|..] == lastSeen
  {
    var header := Header(r, count, lastSeen);
    var lines := header + below;
    assert forall k :: 0 <= k < 8 ==> lines[k] == header[k];
    assert lines[5][|OCCURRENCES|..] == ToDecimal(count);
    assert IsOccurrences(lines[5]) && IsLastSeen(lines[7]);
    assert OCCURRENCES[0] == 'o' && LAST_SEEN[0] == 'l';
    assert lines[0] == r.preamble && lines[1] == "" && lines[2][0] == 's' && lines[3][0] == 'p' && lines[4][0] == 'g';
    assert lines[5][0] == 'o' && lines[6][0] == 'f';
  }

  lemma HeaderUpdates(r: Report, count: nat, lastSeen: string, below: seq<string>, occurredAt: string)
    ensures (Header(r, count, lastSeen) + below)[5 := OCCURRENCES + ToDecimal(count + 1)]
            == Header(r, count + 1, lastSeen) + below
    ensures (Header(r, count, lastSeen) + below)[7 := LAST_SEEN + occurredAt] == Header(r, count, occurredAt) + below
  {
  }

  lemma CountUpOfPrinted(count: nat)
    ensures IsOccurrences(OCCURRENCES + ToDecimal(count))
    ensures CountUp(OCCURRENCES + ToDecimal(count)) == OCCURRENCES + ToDecimal(count + 1)
  {
    var line := OCCURRENCES + ToDecimal(count);
    assert line[|OCCURRENCES|..] == ToDecimal(count);
    DecimalRoundTrip(count);
  }

  lemma BumpOfLines(r: Report, count: nat, lastSeen: string, below: seq<string>, occurredAt: string)
    requires PlainHeader(r)
    ensures var lines := Header(r, count, lastSeen) + below;
            && First(lines, IsOccurrences) < |lines|
            && BumpLines(lines, occurredAt) == Header(r, count + 1, occurredAt) + below
  {
    HeaderIsFound(r, count, lastSeen, below);
    CountUpOfPrinted(count);
    HeaderUpdates(r, count, lastSeen, below, occurredAt);
    HeaderIsFound(r, count + 1, lastSeen, below);
    HeaderUpdates(r, count + 1, lastSeen, below, occurredAt);
  }

  lemma Regroup(a: string, b: string, c: string, d: string)
    ensures (a + b + c) + d == a + b + (c + d)
  {
  }

  /** Text below a list of lines may be joined piece by piece and then extended, or in one piece. */
  lemma JoinBelow(lines: seq<string>, parts: seq<string>, suffix: string)
    requires |lines| >= 1 && |parts| >= 1
    ensures Join(lines + parts, '\n') + suffix == Join(lines + [Join(parts, '\n') + suffix], '\n')
  {
    var rest := Join(parts, '\n');
    JoinConcat(lines, parts, '\n');
    JoinConcat(lines, [rest + suffix], '\n');
    Regroup(Join(lines, '\n'), ['\n'], rest, suffix);
  }

  /** One bump adds one to the header's count, replaces its last stamp, and
      changes nothing else, even if the text below imitates either line. */
  lemma BumpChangesTheHeaderOnly(r: Report, count: nat, lastSeen: string, rest: string, occurredAt: string)
    requires PlainHeader(r) && OneLine(lastSeen)
    ensures BumpBody(BodyWith(r, count, lastSeen, rest), occurredAt) == BodyWith(r, count + 1, occurredAt, rest)
  {
    var below := Split(rest, '\n');
    LinesOfBodyWith(r, count, lastSeen, rest);
    BumpOfLines(r, count, lastSeen, below, occurredAt);
    JoinOfSplit(rest, '\n');
    JoinBelow(Header(r, count + 1, occurredAt), below, "");
    assert Join(Header(r, count + 1, occurredAt) + below, '\n') + "" == Join(Header(r, count + 1, occurredAt) + below,
        '\n');
    assert rest + "" == rest;
  }

  function BumpAll(body: string, stamps: seq<string>): string
    decreases |stamps|
  {
    if stamps == [] then body else BumpAll(BumpBody(body, stamps[0]), stamps[1..])
  }

  lemma {:induction false} BumpsAddUp(r: Report, count: nat, lastSeen: string, rest: string, stamps: seq<string>)
    requires PlainHeader(r) && OneLine(lastSeen) && forall i :: 0 <= i < |stamps| ==> OneLine(stamps[i])
    ensures BumpAll(BodyWith(r, count, lastSeen, rest), stamps)
            == BodyWith(r, count + |stamps|, if stamps == [] then lastSeen else stamps[|stamps| - 1], rest)
    decreases |stamps|
  {
    if stamps != [] {
      var body, next := BodyWith(r, count, lastSeen, rest), BodyWith(r, count + 1, stamps[0], rest);
      BumpChangesTheHeaderOnly(r, count, lastSeen, rest, stamps[0]);
      BumpsAddUp(r, count + 1, stamps[0], rest, stamps[1..]);
      assert BumpAll(body, stamps) == BumpAll(next, stamps[1..]);
    }
  }

  /** What is read back from a body of this shape. */
  lemma ReadsBack(r: Report, count: nat, lastSeen: string, rest: string)
    requires PlainHeader(r) && OneLine(lastSeen)
    ensures OccurrenceCount(BodyWith(r, count, lastSeen, rest)) == Some(count)
    ensures LastSeen(BodyWith(r, count, lastSeen, rest)) == Some(lastSeen)
  {
    LinesOfBodyWith(r, count, lastSeen, rest);
    HeaderIsFound(r, count, lastSeen, Split(rest, '\n'));
    DecimalRoundTrip(count);
  }

  lemma RoundTripBelow(r: Report, sections: seq<string>, suffix: string, stamps: seq<string>)
    requires |sections| >= 1
    requires PlainHeader(r) && forall i :: 0 <= i < |stamps| ==> OneLine(stamps[i])
    ensures var printed := Join(Header(r, 1, r.occurredAt) + sections, '\n') + suffix;
            var last := if stamps == [] then r.occurredAt else stamps[|stamps| - 1];
            var body := BumpAll(printed, stamps);
            && OccurrenceCount(body) == Some(|stamps| + 1)
            && LastSeen(body) == Some(last)
            && body == BodyWith(r, |stamps| + 1, last, Join(sections, '\n') + suffix)
  {
    var rest := Join(sections, '\n') + suffix;
    JoinBelow(Header(r, 1, r.occurredAt), sections, suffix);
    BumpsAddUp(r, 1, r.occurredAt, rest, stamps);
    ReadsBack(r, |stamps| + 1, if stamps == [] then r.occurredAt else stamps[|stamps| - 1], rest);
  }

  /** For every traceback, job and queue text, and whatever is appended below
      (`file_bug` may append one more line): after n bumps the count reads n + 1, the
      last stamp reads back, and the rest of the text is as printed. */
  lemma IssueBodyRoundTrip(r: Report, suffix: string, stamps: seq<string>)
    requires PlainHeader(r) && forall i :: 0 <= i < |stamps| ==> OneLine(stamps[i])
    ensures var last := if stamps == [] then r.occurredAt else stamps[|stamps| - 1];
            var body := BumpAll(Body(r) + suffix, stamps);
            && OccurrenceCount(body) == Some(|stamps| + 1)
            && LastSeen(body) == Some(last)
            && body == BodyWith(r, |stamps| + 1, last, Join(Sections(r), '\n') + suffix)
  {
    RoundTripBelow(r, Sections(r), suffix, stamps);
  }

  lemma CountAndStampDiffer(line: string)
    ensures !(IsOccurrences(line) && IsLastSeen(line))
  {
    assert IsOccurrences(line) ==> line[0] == 'o';
    assert IsLastSeen(line) ==> line[0] == 'l';
  }

  /** Replacing a line before or after the first match by one that does not match keeps the match. */
  lemma FirstStays(lines: seq<string>, p: string -> bool, j: nat, line: string)
    requires First(lines, p) < |lines| && j < |lines| && j != First(lines, p) && !p(line)
    ensures First(lines[j := line], p) == First(lines, p)
  {
    FirstIs(lines[j := line], p, First(lines, p));
  }

  lemma FirstIs(lines: seq<string>, p: string -> bool, i: nat)
    requires i < |lines| && p(lines[i]) && forall k :: 0 <= k < i ==> !p(lines[k])
    ensures First(lines, p) == i
  {
  }

  lemma CountUpCounts(line: string)
    requires IsOccurrences(line)
    ensures IsOccurrences(CountUp(line))
  {
    CountUpOfPrinted(FromDecimal(line[|OCCURRENCES|..]) + 1);
  }

  lemma CountUpReads(line: string, n: nat)
    requires IsOccurrences(line) && n == FromDecimal(line[|OCCURRENCES|..])
    ensures OneLine(CountUp(line)) && |CountUp(line)| >= |OCCURRENCES|
    ensures AllDigits(CountUp(line)[|OCCURRENCES|..]) && FromDecimal(CountUp(line)[|OCCURRENCES|..]) == n + 1
  {
    DecimalRoundTrip(n + 1);
    DigitsAreOneLine(ToDecimal(n + 1));
    assert CountUp(line)[|OCCURRENCES|..] == ToDecimal(n + 1);
  }

  lemma StampIsAStamp(occurredAt: string)
    ensures IsLastSeen(LAST_SEEN + occurredAt)
  {
  }

  /** Counting up leaves the count line the first. */
  lemma CountedFirst(lines: seq<string>)
    requires First(lines, IsOccurrences) < |lines|
    ensures var i := First(lines, IsOccurrences);
            First(lines[i := CountUp(lines[i])], IsOccurrences) == i
  {
    hide First, IsOccurrences;
    var i := First(lines, IsOccurrences);
    CountUpCounts(lines[i]);
    FirstIs(lines[i := CountUp(lines[i])], IsOccurrences, i);
  }

  /** So does replacing the stamp, wherever its line stands. */
  lemma StampedFirst(counted: seq<string>, i: nat, occurredAt: string)
    requires i < |counted| && First(counted, IsOccurrences) == i
    ensures var j := First(counted, IsLastSeen);
            j < |counted| ==> j != i && First(counted[j := LAST_SEEN + occurredAt], IsOccurrences) == i
  {
    hide First;
    var j := First(counted, IsLastSeen);
    if j < |counted| {
      CountAndStampDiffer(counted[i]);
      StampIsAStamp(occurredAt);
      CountAndStampDiffer(LAST_SEEN + occurredAt);
      FirstStays(counted, IsOccurrences, j, LAST_SEEN + occurredAt);
    }
  }

  /** The first count line is found where it was, one higher. */
  lemma BumpedLinesCount(lines: seq<string>, occurredAt: string)
    requires First(lines, IsOccurrences) < |lines|
    ensures var bumped := BumpLines(lines, occurredAt);
            var i := First(lines, IsOccurrences);
            |bumped| == |lines| && First(bumped, IsOccurrences) == i && bumped[i] == CountUp(lines[i])
  {
    hide First, IsOccurrences, IsLastSeen, CountUp;
    var i := First(lines, IsOccurrences);
    CountedFirst(lines);
    StampedFirst(lines[i := CountUp(lines[i])], i, occurredAt);
  }

  lemma BumpedIsOneLine(lines: seq<string>, occurredAt: string)
    requires First(lines, IsOccurrences) < |lines| && OneLine(occurredAt)
    requires forall k :: 0 <= k < |lines| ==> OneLine(lines[k])
    ensures forall k :: 0 <= k < |BumpLines(lines, occurredAt)| ==> OneLine(BumpLines(lines, occurredAt)[k])
  {
    var line := lines[First(lines, IsOccurrences)];
    CountUpReads(line, FromDecimal(line[|OCCURRENCES|..]));
    hide First, IsOccurrences, IsLastSeen, CountUp;
    assert OneLine(LAST_SEEN + occurredAt);
  }

  /** Of any text at all, a bump raises the first count line by exactly one, and
      leaves the text as it is exactly when an owner rewrote it without one. */
  lemma BumpCountsOne(body: string, occurredAt: string)
    requires OneLine(occurredAt)
    ensures BumpBody(body, occurredAt) == body <==> OccurrenceCount(body).None?
    ensures OccurrenceCount(body).Some? ==>
              OccurrenceCount(BumpBody(body, occurredAt)) == Some(OccurrenceCount(body).value + 1)
  {
    hide BumpLines, First, Split, ToDecimal, CountUp;
    var lines := Split(body, '\n');
    var i := First(lines, IsOccurrences);
    if i < |lines| {
      var n := FromDecimal(lines[i][|OCCURRENCES|..]);
      var bumped := BumpLines(lines, occurredAt);
      BumpedLinesCount(lines, occurredAt);
      PiecesHaveNoSep(body, '\n');
      BumpedIsOneLine(lines, occurredAt);
      CountUpReads(lines[i], n);
      SplitOfJoin(bumped, '\n');
      SplitEachOfOnes(bumped, '\n');
      assert Split(BumpBody(body, occurredAt), '\n') == bumped;
    }
  }

  /** A line that does not match, put for one that does not, leaves the first match where it was, if any. */
  lemma FirstStaysAnyhow(lines: seq<string>, p: string -> bool, i: nat, line: string)
    requires i < |lines| && !p(lines[i]) && !p(line)
    ensures First(lines[i := line], p) == First(lines, p)
  {
    if First(lines, p) < |lines| {
      FirstIs(lines[i := line], p, First(lines, p));
    } else {
      var changed := lines[i := line];
      assert forall k :: 0 <= k < |changed| ==> changed[k] == line || changed[k] in lines;
    }
  }

  lemma BumpedLines(lines: seq<string>, occurredAt: string)
    requires First(lines, IsOccurrences) < |lines|
    ensures var bumped := BumpLines(lines, occurredAt);
            var i, j := First(lines, IsOccurrences), First(lines, IsLastSeen);
            && |bumped| == |lines| && First(bumped, IsLastSeen) == j
            && (j < |lines| ==> bumped[j] == LAST_SEEN + occurredAt)
            && forall k :: 0 <= k < |lines| && k != i && k != j ==> bumped[k] == lines[k]
  {
    hide IsOccurrences, IsLastSeen, CountUp, First;
    var i := First(lines, IsOccurrences);
    var counted := lines[i := CountUp(lines[i])];
    CountAndStampDiffer(lines[i]);
    CountUpCounts(lines[i]);
    CountAndStampDiffer(CountUp(lines[i]));
    FirstStaysAnyhow(lines, IsLastSeen, i, CountUp(lines[i]));
    var j := First(counted, IsLastSeen);
    if j < |lines| {
      StampIsAStamp(occurredAt);
      FirstIs(counted[j := LAST_SEEN + occurredAt], IsLastSeen, j);
    }
  }

  /** Of any text at all that has a count line, a bump replaces the first
      last-seen line, wherever it stands, and leaves every line but these two alone. */
  lemma BumpStampsOne(body: string, occurredAt: string)
    requires OneLine(occurredAt) && OccurrenceCount(body).Some?
    ensures LastSeen(BumpBody(body, occurredAt)) == if LastSeen(body).Some? then Some(occurredAt) else None
    ensures var lines, bumped := Split(body, '\n'), Split(BumpBody(body, occurredAt), '\n');
            && |bumped| == |lines|
            && forall k ::
                 0 <= k < |lines| && k != First(lines, IsOccurrences) && k != First(lines, IsLastSeen) ==>
                   bumped[k] == lines[k]
  {
    hide BumpLines, First, Split, FromDecimal, IsOccurrences, IsLastSeen;
    var lines := Split(body, '\n');
    PiecesHaveNoSep(body, '\n');
    BumpedIsOneLine(lines, occurredAt);
    BumpedLines(lines, occurredAt);
    SplitOfJoin(BumpLines(lines, occurredAt), '\n');
    SplitEachOfOnes(BumpLines(lines, occurredAt), '\n');
  }

  // ---------------------------------------------------------------------
  // The text, line by line
  // ---------------------------------------------------------------------

  /** A block of single lines, then a text of any number of lines, then the rest. */
  lemma BlockLines(fixed: seq<string>, text: string, below: seq<string>)
    requires forall k :: 0 <= k < |fixed| ==> OneLine(fixed[k])
    ensures SplitEach(fixed + [text] + below, '\n') == fixed + Split(text, '\n') + SplitEach(below, '\n')
  {
    SplitEachConcat(fixed + [text], below, '\n');
    SplitEachConcat(fixed, [text], '\n');
    SplitEachOfOnes(fixed, '\n');
    SplitOfJoin([text], '\n');
  }

  lemma OneIsPrinted()
    ensures ToDecimal(1) == "1"
  {
  }

  function AboveTraceback(): seq<string> {
    ["", "## Traceback", "", "```"]
  }

  /** From the closing fence of the traceback to the end. */
  function BelowTraceback(job: seq<string>, counts: seq<string>): seq<string> {
    ["```", "", "## JobSpec", "", "```json"] + job
    + (["```", "", "## Queue state at the time", ""] + counts + [""])
  }

  lemma SectionsGroup(r: Report)
    ensures Sections(r) == AboveTraceback() + [r.traceback] + BelowTraceback([r.job], [r.counts])
  {
  }

  lemma TwoBlocks(a: seq<string>, job: string, b: seq<string>, counts: string, end: seq<string>)
    requires forall k :: 0 <= k < |a| ==> OneLine(a[k])
    requires forall k :: 0 <= k < |b| ==> OneLine(b[k])
    requires SplitEach(end, '\n') == end
    ensures SplitEach(a + [job] + (b + [counts] + end), '\n')
            == a + Split(job, '\n') + (b + Split(counts, '\n') + end)
  {
    hide *;
    BlockLines(a, job, b + [counts] + end);
    BlockLines(b, counts, end);
  }

  lemma LinesBelowTraceback(job: string, counts: string)
    ensures SplitEach(BelowTraceback([job], [counts]), '\n')
            == BelowTraceback(Split(job, '\n'), Split(counts, '\n'))
  {
    hide Split, SplitEach;
    SplitEachOfOnes([""], '\n');
    TwoBlocks(["```", "", "## JobSpec", "", "```json"], job, ["```", "", "## Queue state at the time", ""], counts,
              [""]);
  }

  lemma HeadIsPlain(r: Report)
    requires PlainHeader(r)
    ensures forall k :: 0 <= k < |Header(r, 1, r.occurredAt) + AboveTraceback()| ==>
              OneLine((Header(r, 1, r.occurredAt) + AboveTraceback())[k])
  {
    OneIsPrinted();
  }

  lemma HeaderReads(r: Report)
    ensures Header(r, 1, r.occurredAt)
            == [r.preamble, "", "sig: " + r.sig, "phase: " + r.phase, "gpuq commit: " + r.commit,
                "occurrences: 1", "first seen: " + r.occurredAt, "last seen: " + r.occurredAt]
  {
    OneIsPrinted();
    assert OCCURRENCES + "1" == "occurrences: 1";
  }

  lemma BodySplits(r: Report)
    requires PlainHeader(r)
    ensures Split(Body(r), '\n')
            == Header(r, 1, r.occurredAt) + AboveTraceback() + Split(r.traceback, '\n')
               + BelowTraceback(Split(r.job, '\n'), Split(r.counts, '\n'))
  {
    HeadIsPlain(r);
    SectionsGroup(r);
    LinesBelowTraceback(r.job, r.counts);
    hide Split, SplitEach, Join, OneLine, Sections, Header, AboveTraceback, BelowTraceback;
    var header, below := Header(r, 1, r.occurredAt), BelowTraceback([r.job], [r.counts]);
    GroupHead(header, AboveTraceback(), [r.traceback], below);
    SplitOfJoin(header + Sections(r), '\n');
    BlockLines(header + AboveTraceback(), r.traceback, below);
  }

  lemma GroupHead(a: seq<string>, b: seq<string>, c: seq<string>, d: seq<string>)
    ensures a + (b + c + d) == (a + b) + c + d
  {
  }

  /** The issue as it is first filed, line for line: the count and both stamps
      above, the traceback between its fences, the job and the queue below it. */
  lemma BodyLines(r: Report)
    requires PlainHeader(r)
    ensures Split(Body(r), '\n')
            == [r.preamble, "", "sig: " + r.sig, "phase: " + r.phase, "gpuq commit: " + r.commit,
                "occurrences: 1", "first seen: " + r.occurredAt, "last seen: " + r.occurredAt]
               + ["", "## Traceback", "", "```"]
               + Split(r.traceback, '\n')
               + (["```", "", "## JobSpec", "", "```json"] + Split(r.job, '\n')
                  + (["```", "", "## Queue state at the time", ""] + Split(r.counts, '\n') + [""]))
  {
    HeaderReads(r);
    hide Split, Body, Header, AboveTraceback, BelowTraceback;
    BodySplits(r);
    PartsTold(Split(r.job, '\n'), Split(r.counts, '\n'));
  }

  lemma PartsTold(job: seq<string>, counts: seq<string>)
    ensures AboveTraceback() == ["", "## Traceback", "", "```"]
    ensures BelowTraceback(job, counts)
            == ["```", "", "## JobSpec", "", "```json"] + job
               + (["```", "", "## Queue state at the time", ""] + counts + [""])
  {
  }

  /** A count is printed without a leading zero, and no two counts alike. */
  lemma {:induction false} NoLeadingZero(n: nat)
    ensures ToDecimal(n)[0] == '0' <==> n == 0
    ensures |ToDecimal(n)| > 1 ==> n >= 10
  {
    if n >= 10 {
      NoLeadingZero(n / 10);
    }
  }
}
