/** The output budget of one execution attempt, from the recorder that cuts to the store that keeps. */
module Evidence {
  import opened Prelude

  const MAX_COMMAND_CHARS: nat := 4_000
  const MAX_OUTPUT_CHARS: nat := 12_000
  const MAX_ATTEMPT_OUTPUT_CHARS: nat := 96_000
  const MAX_EXECUTION_EVIDENCE_PER_ATTEMPT: nat := 96_000
  const BOUNDED := "\n...[output bounded]...\n"

  function Min(a: nat, b: nat): nat {
    if a < b then a else b
  }

  function Less(a: nat, b: nat): nat {
    if a > b then a - b else 0
  }

  /** `bounded_excerpt`: the value when it fits, else its two ends around a marker, or a bare prefix when even the marker
      has no room. The flag says whether anything was cut. */
  function Excerpt(value: string, limit: nat): (string, bool) {
    if |value| <= limit then (value, false)
    else if limit <= |BOUNDED| then (value[..limit], true)
    else
      var available := limit - |BOUNDED|;
      var head := available / 2;
      (value[..head] + BOUNDED + value[|value| - (available - head)..], true)
  }

  /** An excerpt never exceeds its limit, uses all of it when it cuts, and is the value itself exactly when that fits. */
  lemma ExcerptBound(value: string, limit: nat)
    ensures |Excerpt(value, limit).0| == Min(|value|, limit)
    ensures Excerpt(value, limit).0 == value <==> |value| <= limit
    ensures Excerpt(value, limit).1 <==> |value| > limit
  {
  }

  /** A cut value keeps both of its ends, in equal halves, around the marker. */
  lemma ExcerptKeepsEnds(value: string, limit: nat)
    requires |value| > limit > |BOUNDED|
    ensures var head := (limit - |BOUNDED|) / 2;
      var tail := limit - |BOUNDED| - head;
      && value[..head] <= Excerpt(value, limit).0 && tail >= 1
      && Excerpt(value, limit).0[limit - tail..] == value[|value| - tail..]
      && Excerpt(value, limit).0[head..head + |BOUNDED|] == BOUNDED
  {
    var head := (limit - |BOUNDED|) / 2;
    var tail := limit - |BOUNDED| - head;
    var r := value[..head] + BOUNDED + value[|value| - tail..];
    assert r[..head] == value[..head];
    assert r[head..head + |BOUNDED|] == BOUNDED;
    assert r[limit - tail..] == value[|value| - tail..];
  }

  /** One completed command as it is stored. */
  datatype Row = Row(sequence: nat, command: string, output: string, fullOutput: string, truncated: bool)

  /** What the recorder hands to its sink for one response; `outputs` counts what it handed over before. */
  datatype Report = Report(command: string, output: string, fullOutput: string, truncated: bool)

  function Recorded(outputs: nat, command: string, output: string, alreadyTruncated: bool): Report {
    var cut := Excerpt(output, Min(MAX_OUTPUT_CHARS, Less(MAX_ATTEMPT_OUTPUT_CHARS, outputs)));
    Report(Excerpt(command, MAX_COMMAND_CHARS).0, cut.0, output,
           alreadyTruncated || Excerpt(command, MAX_COMMAND_CHARS).1 || cut.1)
  }

  function Total(rows: seq<Row>): nat {
    if rows == [] then 0 else Total(rows[..|rows| - 1]) + |rows[|rows| - 1].output|
  }

  /** SQL's length of a text: the characters before the first NUL. */
  function SqlLength(s: string): (n: nat)
    ensures n <= |s|
    ensures n == |s| <==> '\0' !in s
    ensures '\0' !in s[..n] && (n < |s| ==> s[n] == '\0')
  {
    if s == "" || s[0] == '\0' then 0
    else
      assert s == [s[0]] + s[1..];
      1 + SqlLength(s[1..])
  }

  /** `SUM(length(output))` */
  function Used(rows: seq<Row>): (used: nat)
    ensures used <= Total(rows)
  {
    if rows == [] then 0 else Used(rows[..|rows| - 1]) + SqlLength(rows[|rows| - 1].output)
  }

  predicate NulFree(rows: seq<Row>) { forall i :: 0 <= i < |rows| ==> '\0' !in rows[i].output }

  /** The sum misses nothing exactly when no stored output contains a NUL. */
  lemma {:induction false} UsedIsTotal(rows: seq<Row>)
    ensures Used(rows) == Total(rows) <==> NulFree(rows)
  {
    if rows != [] {
      var front := rows[..|rows| - 1];
      UsedIsTotal(front);
      assert rows == front + [rows[|rows| - 1]];
    }
  }

  /** `record_execution_tool_evidence`: cut to what the attempt still has by that sum, number past the rows it has. */
  function Stored(rows: seq<Row>, report: Report): Row {
    var remaining := Less(MAX_EXECUTION_EVIDENCE_PER_ATTEMPT, Used(rows));
    Row(|rows| + 1, report.command, if |report.output| > remaining then report.output[..remaining] else report.output,
        report.fullOutput, report.truncated || |report.output| > remaining)
  }

  // ------------------------------------------------------------------ the store alone

  /** The rows of one attempt in order: numbered 1..n, within the budget as SQL counts it, and honest about every cut. */
  predicate Kept(rows: seq<Row>) {
    && Used(rows) <= MAX_EXECUTION_EVIDENCE_PER_ATTEMPT
    && (forall i :: 0 <= i < |rows| ==> rows[i].sequence == i + 1)
    && (forall i :: 0 <= i < |rows| && |rows[i].output| < |rows[i].fullOutput| ==> rows[i].truncated)
  }

  /** A report that says it was cut whenever it was. */
  predicate Honest(r: Report) {
    |r.output| < |r.fullOutput| ==> r.truncated
  }

  lemma Longer(rows: seq<Row>, row: Row)
    ensures Total(rows + [row]) == Total(rows) + |row.output|
    ensures Used(rows + [row]) == Used(rows) + SqlLength(row.output)
  {
    assert (rows + [row])[..|rows|] == rows;
  }

  /** Whoever records, the numbering, the flags and the budget as SQL counts it hold for every attempt. */
  lemma StoreKeeps(rows: seq<Row>, report: Report)
    requires Kept(rows) && Honest(report)
    ensures Kept(rows + [Stored(rows, report)])
  {
    Longer(rows, Stored(rows, report));
  }

  /** An attempt within its budget stays within it, whatever is recorded next, exactly when no stored output contains a
      NUL. */
  lemma WithinBudgetExactly(rows: seq<Row>)
    requires Kept(rows) && Total(rows) <= MAX_EXECUTION_EVIDENCE_PER_ATTEMPT
    ensures (forall report :: Total(rows + [Stored(rows, report)]) <= MAX_EXECUTION_EVIDENCE_PER_ATTEMPT) <==> NulFree(rows)
  {
    UsedIsTotal(rows);
    hide NulFree, Kept, SqlLength;
    forall report
      ensures Total(rows + [Stored(rows, report)]) <= MAX_EXECUTION_EVIDENCE_PER_ATTEMPT <==>
        Used(rows) == Total(rows) || |report.output| <= MAX_EXECUTION_EVIDENCE_PER_ATTEMPT - Total(rows)
    {
      Longer(rows, Stored(rows, report));
    }
    var long := Report("", Repeated(' ', MAX_EXECUTION_EVIDENCE_PER_ATTEMPT + 1), "", true);
    if forall report :: Total(rows + [Stored(rows, report)]) <= MAX_EXECUTION_EVIDENCE_PER_ATTEMPT {
      assert Total(rows + [Stored(rows, long)]) <= MAX_EXECUTION_EVIDENCE_PER_ATTEMPT;
    }
  }

  function Repeated(c: char, n: nat): (s: string)
    ensures |s| == n && forall i :: 0 <= i < n ==> s[i] == c
  {
    if n == 0 then "" else [c] + Repeated(c, n - 1)
  }

  /** The rows of a fresh attempt after these reports, whoever they come from. */
  function Recordings(reports: seq<Report>): seq<Row> {
    if reports == [] then []
    else
      var before := Recordings(reports[..|reports| - 1]);
      before + [Stored(before, reports[|reports| - 1])]
  }

  /** Over every sequence of reports whose outputs contain no NUL, at most 96,000 characters are stored for the attempt. */
  lemma {:induction false} RecordingsWithin(reports: seq<Report>)
    requires forall i :: 0 <= i < |reports| ==> '\0' !in reports[i].output && Honest(reports[i])
    ensures Kept(Recordings(reports)) && NulFree(Recordings(reports))
    ensures Total(Recordings(reports)) <= MAX_EXECUTION_EVIDENCE_PER_ATTEMPT
  {
    if reports != [] {
      var n := |reports| - 1;
      var before := Recordings(reports[..n]);
      RecordingsWithin(reports[..n]);
      StoreKeeps(before, reports[n]);
      hide Kept;
      UsedIsTotal(Recordings(reports));
    }
    hide SqlLength;
    assert Kept(Recordings(reports)) ==> Used(Recordings(reports)) <= MAX_EXECUTION_EVIDENCE_PER_ATTEMPT by { KeptMeans(Recordings(reports)); }
  }

  lemma KeptMeans(rows: seq<Row>)
    ensures Kept(rows) ==> Used(rows) <= MAX_EXECUTION_EVIDENCE_PER_ATTEMPT
  {
  }

  /** An output that begins with NUL counts for nothing: recorded n times it is stored n times, uncut. At 96,000 characters
      twice is past the budget already. */
  lemma {:induction false} NulIsFree(report: Report, n: nat)
    requires report.output != "" && report.output[0] == '\0' && |report.output| <= MAX_EXECUTION_EVIDENCE_PER_ATTEMPT
    ensures var rows := Recordings(seq(n, _ => report));
      |rows| == n && Used(rows) == 0 && Total(rows) == n * |report.output|
  {
    hide Stored, SqlLength, Used, Total;
    if n > 0 {
      NulIsFree(report, n - 1);
      var all, front := seq(n, _ => report), seq(n - 1, _ => report);
      assert all[..n - 1] == front && all[n - 1] == report;
      var before := Recordings(front);
      NulStored(before, report);
      Longer(before, Stored(before, report));
      assert Recordings(all) == before + [Stored(before, report)];
      assert n * |report.output| == (n - 1) * |report.output| + |report.output|;
    } else {
      NothingStored();
    }
  }

  lemma NulStored(before: seq<Row>, report: Report)
    requires report.output != "" && report.output[0] == '\0' && |report.output| <= MAX_EXECUTION_EVIDENCE_PER_ATTEMPT
    requires Used(before) == 0
    ensures Stored(before, report).output == report.output && SqlLength(report.output) == 0
  {
  }

  lemma NothingStored()
    ensures Used([]) == 0 && Total([]) == 0
  {
  }

  // ------------------------------------------------------------------ one recorder, one attempt

  /** A command that was run: its text, its sanitized output, and whether the sandbox cut it already. */
  datatype Response = Response(command: string, output: string, truncated: bool)

  /** The rows of a fresh attempt after one recorder passed these responses on. */
  function Session(responses: seq<Response>): (seq<Row>, nat) {
    if responses == [] then ([], 0)
    else
      var before := Session(responses[..|responses| - 1]);
      var last := responses[|responses| - 1];
      var report := Recorded(before.1, last.command, last.output, last.truncated);
      (before.0 + [Stored(before.0, report)], before.1 + |report.output|)
  }

  /** The recorder's own count is the stored total. */
  lemma {:induction false} RecorderTotals(responses: seq<Response>)
    ensures var (rows, outputs) := Session(responses);
      |rows| == |responses| && Kept(rows) && outputs == Total(rows) <= MAX_ATTEMPT_OUTPUT_CHARS
  {
    if responses != [] {
      var n := |responses| - 1;
      RecorderTotals(responses[..n]);
      var (rows, outputs) := Session(responses[..n]);
      RecorderStep(rows, outputs, responses[n]);
      hide Kept, Recorded, Stored;
    }
  }

  lemma RecorderStep(rows: seq<Row>, outputs: nat, last: Response)
    requires Kept(rows) && outputs == Total(rows) <= MAX_ATTEMPT_OUTPUT_CHARS
    ensures var report := Recorded(outputs, last.command, last.output, last.truncated);
      var row := Stored(rows, report);
      && row.output == report.output && Kept(rows + [row])
      && outputs + |report.output| == Total(rows + [row]) <= MAX_ATTEMPT_OUTPUT_CHARS
  {
    var report := Recorded(outputs, last.command, last.output, last.truncated);
    ExcerptBound(last.output, Min(MAX_OUTPUT_CHARS, Less(MAX_ATTEMPT_OUTPUT_CHARS, outputs)));
    hide Excerpt;
    StoreKeeps(rows, report);
    Longer(rows, Stored(rows, report));
  }

  /** What row `i` of a session holds. */
  lemma {:induction false} SessionRow(responses: seq<Response>, i: nat)
    requires i < |responses|
    ensures |Session(responses).0| == |responses|
    ensures Session(responses).0[i].output ==
      Recorded(Session(responses[..i]).1, responses[i].command, responses[i].output, responses[i].truncated).output
  {
    hide Session, Kept, Recorded, Stored, Used, Total;
    var n := |responses| - 1;
    RecorderTotals(responses);
    RecorderTotals(responses[..n]);
    LastRow(responses);
    if i < n {
      SessionRow(responses[..n], i);
      assert responses[..n][..i] == responses[..i];
    }
  }

  lemma LastRow(responses: seq<Response>)
    requires responses != []
    ensures var n := |responses| - 1;
      var (rows, outputs) := Session(responses[..n]);
      && |Session(responses).0| == |rows| + 1 && (forall i :: 0 <= i < |rows| ==> Session(responses).0[i] == rows[i])
      && Session(responses).0[|rows|].output == Recorded(outputs, responses[n].command, responses[n].output, responses[n].truncated).output
  {
    var n := |responses| - 1;
    RecorderTotals(responses[..n]);
    var (rows, outputs) := Session(responses[..n]);
    RecorderStep(rows, outputs, responses[n]);
    hide Kept, Recorded, Stored;
  }

  /** End to end: the store never cuts again what one recorder produced for a fresh attempt; at most 96,000 characters of
      output are kept, numbered 1..n, every cut flagged. */
  lemma OneRecorder(responses: seq<Response>)
    ensures var (rows, outputs) := Session(responses);
      && |rows| == |responses| && Kept(rows)
      && outputs == Total(rows) <= MAX_ATTEMPT_OUTPUT_CHARS
      && forall i :: 0 <= i < |responses| ==>
           rows[i].output == Recorded(Session(responses[..i]).1, responses[i].command, responses[i].output, responses[i].truncated).output
  {
    RecorderTotals(responses);
    hide Session, Recorded, Kept;
    forall i | 0 <= i < |responses| {
      SessionRow(responses, i);
    }
  }

  /** A second recorder starts counting at zero: the store then has to cut, and it does so exactly when the recorder's
      excerpt exceeds what the attempt still has. */
  lemma StoreCutsExactly(rows: seq<Row>, report: Report)
    requires Kept(rows)
    ensures Stored(rows, report).output != report.output <==> |report.output| > MAX_EXECUTION_EVIDENCE_PER_ATTEMPT - Used(rows)
    ensures NulFree(rows) ==>
      (Stored(rows, report).output != report.output <==> |report.output| > MAX_EXECUTION_EVIDENCE_PER_ATTEMPT - Total(rows))
  {
    UsedIsTotal(rows);
  }

  /** What the recorder hands on: at most 4,000 characters of the command, at most 12,000 of the output and no more than the
      attempt's 96,000 leave, the whole output beside it, and the flag exactly when something was cut. */
  lemma RecordedExactly(outputs: nat, command: string, output: string, already: bool)
    ensures var r := Recorded(outputs, command, output, already);
      var room := if outputs >= 96_000 then 0 else if 96_000 - outputs < 12_000 then 96_000 - outputs else 12_000;
      && |r.command| == (if |command| < 4_000 then |command| else 4_000) && (|command| <= 4_000 ==> r.command == command)
      && |r.output| == (if |output| < room then |output| else room) && (|output| <= room ==> r.output == output)
      && r.fullOutput == output
      && (r.truncated <==> already || |command| > 4_000 || |output| > room)
  {
    ExcerptBound(command, MAX_COMMAND_CHARS);
    ExcerptBound(output, Min(MAX_OUTPUT_CHARS, Less(MAX_ATTEMPT_OUTPUT_CHARS, outputs)));
    hide Excerpt;
  }

  /** What the store keeps of it: the longest prefix the attempt has room for, under the next number. */
  lemma StoredExactly(rows: seq<Row>, report: Report)
    ensures var row := Stored(rows, report);
      var room := if Used(rows) >= 96_000 then 0 else 96_000 - Used(rows);
      && row.sequence == |rows| + 1 && row.command == report.command && row.fullOutput == report.fullOutput
      && row.output <= report.output && |row.output| == (if |report.output| < room then |report.output| else room)
      && (row.truncated <==> report.truncated || |report.output| > room)
  {
  }

  // ------------------------------------------------------------------ the two objects

  class RecordingBackend {
    var attemptOutputChars: nat

    constructor ()
      ensures attemptOutputChars == 0
    {
      attemptOutputChars := 0;
    }

    /** `_record`: excerpt the command and the output, and count what goes on. */
    method Record(command: string, output: string, alreadyTruncated: bool) returns (report: Report)
      modifies this
      ensures report == Recorded(old(attemptOutputChars), command, output, alreadyTruncated)
      ensures attemptOutputChars == old(attemptOutputChars) + |report.output|
    {
      var safeCommand, commandTruncated := BoundedExcerpt(command, MAX_COMMAND_CHARS);
      var remaining := if MAX_ATTEMPT_OUTPUT_CHARS > attemptOutputChars then MAX_ATTEMPT_OUTPUT_CHARS - attemptOutputChars else 0;
      var safeOutput, outputTruncated := BoundedExcerpt(output, Min(MAX_OUTPUT_CHARS, remaining));
      attemptOutputChars := attemptOutputChars + |safeOutput|;
      report := Report(safeCommand, safeOutput, output, alreadyTruncated || commandTruncated || outputTruncated);
    }
  }

  method BoundedExcerpt(value: string, limit: nat) returns (text: string, truncated: bool)
    ensures (text, truncated) == Excerpt(value, limit)
  {
    if |value| <= limit { return value, false; }
    if limit <= |BOUNDED| { return value[..limit], true; }
    var available := limit - |BOUNDED|;
    var head := available / 2;
    var tail := available - head;
    return value[..head] + BOUNDED + value[|value| - tail..], true;
  }

  class EvidenceStore {
    var rows: map<nat, seq<Row>>   // attempt -> its rows in sequence order

    ghost predicate Valid()
      reads this
    {
      forall a :: a in rows ==> Kept(rows[a])
    }

    ghost function Of(attempt: nat): seq<Row>
      reads this
    {
      if attempt in rows then rows[attempt] else []
    }

    constructor ()
      ensures Valid() && rows == map[]
    {
      rows := map[];
    }

    method RecordEvidence(attempt: nat, report: Report) returns (row: Row)
      requires Valid() && Honest(report)
      modifies this
      ensures Valid()
      ensures row == Stored(old(Of(attempt)), report) && Of(attempt) == old(Of(attempt)) + [row]
      ensures forall a :: a != attempt ==> Of(a) == old(Of(a))
    {
      NothingStored();
      hide SqlLength, Used, Total;
      var existing := if attempt in rows then rows[attempt] else [];
      var used, last := SumAndLast(existing);
      var remaining := if MAX_EXECUTION_EVIDENCE_PER_ATTEMPT > used then MAX_EXECUTION_EVIDENCE_PER_ATTEMPT - used else 0;
      var output, truncated := report.output, report.truncated;
      if |output| > remaining {
        output := output[..remaining];
        truncated := true;
      }
      row := Row(last + 1, report.command, output, report.fullOutput, truncated);
      assert row == Stored(existing, report);
      StoreKeeps(existing, report);
      hide Kept, Stored;
      rows := rows[attempt := existing + [row]];
    }
  }

  /** SUM(length(output)) and MAX(sequence_number) over an attempt's rows. */
  method SumAndLast(existing: seq<Row>) returns (used: nat, last: nat)
    requires Kept(existing)
    ensures used == Used(existing) && last == |existing|
  {
    used, last := 0, 0;
    var i := 0;
    while i < |existing|
      invariant 0 <= i <= |existing|
      invariant used == Used(existing[..i]) && last == i
    {
      assert existing[..i + 1][..i] == existing[..i];
      var counted := CountedLength(existing[i].output);
      used := used + counted;
      if existing[i].sequence > last { last := existing[i].sequence; }
      i := i + 1;
    }
    assert existing[..|existing|] == existing;
  }

  /** SQL's length, character by character. */
  method CountedLength(s: string) returns (n: nat)
    ensures n == SqlLength(s)
  {
    n := 0;
    while n < |s| && s[n] != '\0'
      invariant 0 <= n <= |s| && SqlLength(s) == n + SqlLength(s[n..])
    {
      assert s[n..][1..] == s[n + 1..];
      n := n + 1;
    }
  }
}
