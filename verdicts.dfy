/** What every check shares: the four statuses, the verdict a check settles on,
    the raw query outcome it starts from, and the decoder's outcome. */
module Verdicts {
  import opened PyJson

  datatype Status = Pass | Warn | Fail | Error

  function StatusName(s: Status): string
  {
    match s
    case Pass => "PASS"
    case Warn => "WARN"
    case Fail => "FAIL"
    case Error => "ERROR"
  }

  /** The status a check prints and the explanation lines that follow it. */
  datatype Verdict = Verdict(status: Status, lines: seq<string>)

  /** Everything one check prints. `printedBefore` holds lines already printed
      when an exception escaped the verdict branch; the except branch then prints
      its own verdict after them. */
  datatype Report = Report(printedBefore: seq<string>, verdict: Verdict)

  function StatusLine(s: Status): string
  {
    "Status: " + StatusName(s)
  }

  /** The lines a report puts on standard output, in order. */
  function Printed(r: Report): (out: seq<string>)
    ensures |out| == |r.printedBefore| + 1 + |r.verdict.lines|
    ensures out[|r.printedBefore|] == StatusLine(r.verdict.status)
    ensures out[..|r.printedBefore|] == r.printedBefore
    ensures out[|r.printedBefore| + 1..] == r.verdict.lines
  {
    r.printedBefore + [StatusLine(r.verdict.status)] + r.verdict.lines
  }

  /** A report printed from a single verdict branch. */
  function Plain(status: Status, lines: seq<string>): Report
  {
    Report([], Verdict(status, lines))
  }

  /** The `(output, success)` pair a PowerShell query returns: its trimmed
      standard output and whether it exited with code 0. */
  datatype QueryResult = QueryResult(output: string, success: bool)

  /** What `json.loads` makes of the output text. */
  datatype Loaded = Parsed(value: Json) | Malformed(message: string)

  /** `success and output and output != sentinel`: the query produced data the
      check goes on to decode. The firewall check has no sentinel. */
  predicate Retrieved(q: QueryResult, sentinel: Option<string>)
  {
    q.success && q.output != "" && (sentinel.Some? ==> q.output != sentinel.value)
  }

  /** The text at the start of a line, if the line is long enough. */
  predicate StartsWith(line: string, prefix: string)
  {
    |prefix| <= |line| && line[..|prefix|] == prefix
  }
}
