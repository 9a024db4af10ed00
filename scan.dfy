/** run_scan and main: which checks a scan type runs, in what order, and the
    lines they print between them. */
module Scan {
  import opened PyJson
  import opened Verdicts
  import Antivirus
  import Firewall
  import Password
  import WindowsUpdate
  import Uac

  /** The outcome of each check's PowerShell query. */
  datatype Queries = Queries(antivirus: QueryResult, firewall: QueryResult, password: QueryResult,
                             update: QueryResult, uac: QueryResult)

  datatype Check = AntivirusScan | FirewallScan | PasswordScan | UpdateScan | UacScan

  const FullScan := "Full Scan"

  /** The scan type that runs `c` alone. */
  function ScanName(c: Check): string
  {
    match c
    case AntivirusScan => "Antivirus"
    case FirewallScan => "Firewall"
    case PasswordScan => "Password"
    case UpdateScan => "Windows Update"
    case UacScan => "User Account Control"
  }

  /** The line each check prints before it queries anything. */
  function Banner(c: Check): string
  {
    match c
    case AntivirusScan => "Checking Antivirus status"
    case FirewallScan => "Checking Firewall status"
    case PasswordScan => "Checking user password/PIN status"
    case UpdateScan => "Checking Windows Update settings"
    case UacScan => "Checking UAC settings"
  }

  function ReportOf(c: Check, h: Queries, loads: string -> Loaded): Report
  {
    match c
    case AntivirusScan => Antivirus.AntivirusCheck(h.antivirus, loads)
    case FirewallScan => Firewall.FirewallCheck(h.firewall, loads)
    case PasswordScan => Password.PasswordCheck(h.password, loads)
    case UpdateScan => WindowsUpdate.UpdateCheck(h.update, loads)
    case UacScan => Uac.UacCheck(h.uac, loads)
  }

  /** Everything one check prints: its banner, then its report. */
  function CheckOutput(c: Check, h: Queries, loads: string -> Loaded): (out: seq<string>)
    ensures |out| >= 2 && out[0] == Banner(c)
  {
    [Banner(c)] + Printed(ReportOf(c, h, loads))
  }

  /** The check a single-check scan type names, if any. */
  function Single(scanType: string): (c: Option<Check>)
    ensures c.Some? ==> ScanName(c.value) == scanType
    ensures c.None? ==> forall d: Check :: ScanName(d) != scanType
  {
    if scanType == "Antivirus" then Some(AntivirusScan)
    else if scanType == "Firewall" then Some(FirewallScan)
    else if scanType == "Password" then Some(PasswordScan)
    else if scanType == "Windows Update" then Some(UpdateScan)
    else if scanType == "User Account Control" then Some(UacScan)
    else None
  }

  /** The full scan runs all five checks in order, a blank line between two. */
  function FullScanOutput(h: Queries, loads: string -> Loaded): seq<string>
  {
    CheckOutput(AntivirusScan, h, loads) + [""] + CheckOutput(FirewallScan, h, loads) + [""]
    + CheckOutput(PasswordScan, h, loads) + [""] + CheckOutput(UpdateScan, h, loads) + [""]
    + CheckOutput(UacScan, h, loads)
  }

  /** What run_scan prints for a scan type. */
  function ScanOutput(scanType: string, h: Queries, loads: string -> Loaded): seq<string>
  {
    if scanType == FullScan then FullScanOutput(h, loads)
    else
      match Single(scanType)
      case Some(c) => CheckOutput(c, h, loads)
      case None => ["Unknown scan type: " + scanType]
  }

  /** One check_* call, with the banner it prints first. */
  method RunCheck(c: Check, h: Queries, loads: string -> Loaded) returns (out: seq<string>)
    ensures out == CheckOutput(c, h, loads)
  {
    var r: Report;
    match c {
      case AntivirusScan => r := Antivirus.CheckAntivirus(h.antivirus, loads);
      case FirewallScan => r := Firewall.CheckFirewall(h.firewall, loads);
      case PasswordScan => r := Password.PasswordCheck(h.password, loads);
      case UpdateScan => r := WindowsUpdate.UpdateCheck(h.update, loads);
      case UacScan => r := Uac.UacCheck(h.uac, loads);
    }
    out := [Banner(c)] + Printed(r);
  }

  /** run_scan: the consecutive calls and prints, collected as output lines. */
  method RunScan(scanType: string, h: Queries, loads: string -> Loaded) returns (out: seq<string>)
    ensures out == ScanOutput(scanType, h, loads)
  {
    if scanType == FullScan {
      var av := RunCheck(AntivirusScan, h, loads);
      var fw := RunCheck(FirewallScan, h, loads);
      var pw := RunCheck(PasswordScan, h, loads);
      var wu := RunCheck(UpdateScan, h, loads);
      var ua := RunCheck(UacScan, h, loads);
      out := av + [""] + fw + [""] + pw + [""] + wu + [""] + ua;
    } else {
      var single := Single(scanType);
      if single.Some? {
        out := RunCheck(single.value, h, loads);
      } else {
        out := ["Unknown scan type: " + scanType];
      }
    }
  }

  /** main's choice: the first command-line argument, else a full scan. */
  function ScanTypeOf(argv: seq<string>): (t: string)
    ensures |argv| <= 1 ==> t == FullScan
    ensures |argv| > 1 ==> t == argv[1]
  {
    if |argv| > 1 then argv[1] else FullScan
  }

  /** main: pick the scan type and run it. */
  method Start(argv: seq<string>, h: Queries, loads: string -> Loaded) returns (out: seq<string>)
    ensures out == ScanOutput(ScanTypeOf(argv), h, loads)
  {
    var scanType := if |argv| > 1 then argv[1] else FullScan;
    out := RunScan(scanType, h, loads);
  }

  /** Each single-check scan type runs that check and nothing else. */
  lemma SingleScanRunsOneCheck(c: Check, h: Queries, loads: string -> Loaded)
    ensures ScanOutput(ScanName(c), h, loads) == CheckOutput(c, h, loads)
  {
    NamesAreDistinct(c);
  }

  /** No single-check name is "Full Scan", and each is recognised as its own check. */
  lemma NamesAreDistinct(c: Check)
    ensures ScanName(c) != FullScan
    ensures Single(ScanName(c)) == Some(c)
  {
    match c
    case AntivirusScan =>
      assert ScanName(c)[0] != FullScan[0];
    case FirewallScan =>
      assert ScanName(c)[1] != FullScan[1];
      assert ScanName(c)[0] != "Antivirus"[0];
    case PasswordScan =>
      assert ScanName(c)[0] != FullScan[0];
      assert ScanName(c)[0] != "Antivirus"[0] && ScanName(c)[0] != "Firewall"[0];
    case UpdateScan =>
      assert |ScanName(c)| != |FullScan|;
      assert |ScanName(c)| != |"Antivirus"| && |ScanName(c)| != |"Firewall"| && |ScanName(c)| != |"Password"|;
    case UacScan =>
      assert |ScanName(c)| != |FullScan|;
      assert |ScanName(c)| != |"Antivirus"| && |ScanName(c)| != |"Firewall"| && |ScanName(c)| != |"Password"|;
      assert |ScanName(c)| != |"Windows Update"|;
  }

  /** A scan type that names no check prints one line and runs nothing. */
  lemma UnknownScanTypeRunsNothing(scanType: string, h: Queries, loads: string -> Loaded)
    requires scanType != FullScan
    requires forall c: Check :: ScanName(c) != scanType
    ensures ScanOutput(scanType, h, loads) == ["Unknown scan type: " + scanType]
    ensures forall c: Check :: Banner(c) !in ScanOutput(scanType, h, loads)
  {
    var line := "Unknown scan type: " + scanType;
    assert line[0] == 'U';
    forall c: Check ensures Banner(c) != line {
      assert Banner(c)[0] == 'C';
    }
    assert Single(scanType) == None;
  }

  /** The full scan prints exactly what the five single scans print, in order,
      separated by blank lines. */
  lemma FullScanIsSingleScansInOrder(h: Queries, loads: string -> Loaded)
    ensures ScanOutput(FullScan, h, loads)
         == ScanOutput("Antivirus", h, loads) + [""] + ScanOutput("Firewall", h, loads) + [""]
          + ScanOutput("Password", h, loads) + [""] + ScanOutput("Windows Update", h, loads) + [""]
          + ScanOutput("User Account Control", h, loads)
  {
    SingleScanRunsOneCheck(AntivirusScan, h, loads);
    SingleScanRunsOneCheck(FirewallScan, h, loads);
    SingleScanRunsOneCheck(PasswordScan, h, loads);
    SingleScanRunsOneCheck(UpdateScan, h, loads);
    SingleScanRunsOneCheck(UacScan, h, loads);
  }

  function QueryOf(c: Check, h: Queries): QueryResult
  {
    match c
    case AntivirusScan => h.antivirus
    case FirewallScan => h.firewall
    case PasswordScan => h.password
    case UpdateScan => h.update
    case UacScan => h.uac
  }

  /** The output text a check's query prints when there is nothing to read. */
  function SentinelOf(c: Check): Option<string>
  {
    match c
    case AntivirusScan => Some(Antivirus.NoAvFound)
    case FirewallScan => None
    case PasswordScan => Some(Password.UserNotFound)
    case UpdateScan => Some(WindowsUpdate.NoUpdateInfo)
    case UacScan => Some(Uac.NoUacInfo)
  }

  /** No check passes on a failed query, an empty output or its sentinel:
      every check reports ERROR then, except Windows Update, which only warns. */
  lemma FailedQueryNeverPasses(c: Check, h: Queries, loads: string -> Loaded)
    requires !Retrieved(QueryOf(c, h), SentinelOf(c))
    ensures ReportOf(c, h, loads).verdict.status == (if c == UpdateScan then Warn else Error)
    ensures ReportOf(c, h, loads).printedBefore == []
  {
  }

  /** Only the firewall check can print lines before its final status line;
      in every other check the status line directly follows the banner. */
  lemma StatusFollowsBanner(c: Check, h: Queries, loads: string -> Loaded)
    requires c != FirewallScan
    ensures ReportOf(c, h, loads).printedBefore == []
    ensures CheckOutput(c, h, loads)[1] == StatusLine(ReportOf(c, h, loads).verdict.status)
  {
  }

  /** Output that is not JSON makes every check report ERROR. */
  lemma MalformedOutputIsError(c: Check, h: Queries, loads: string -> Loaded)
    requires Retrieved(QueryOf(c, h), SentinelOf(c))
    requires loads(QueryOf(c, h).output).Malformed?
    ensures ReportOf(c, h, loads).verdict.status == Error
    ensures ReportOf(c, h, loads).printedBefore == []
  {
    if c == FirewallScan {
      Firewall.FirewallErrorCases(h.firewall, loads);
    }
  }

  /** With no arguments main runs the full scan. */
  lemma NoArgumentMeansFullScan(program: string, h: Queries, loads: string -> Loaded)
    ensures ScanOutput(ScanTypeOf([program]), h, loads) == FullScanOutput(h, loads)
  {
  }
}
