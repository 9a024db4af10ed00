/** check_windows_update: the automatic-update policy from the registry when the
    query found one, otherwise the state of the Windows Update service. */
module WindowsUpdate {
  import opened PyJson
  import opened Verdicts

  /** What the query prints when it found neither the policy nor the service. */
  const NoUpdateInfo := "NO_UPDATE_INFO"

  /** AUOptions values: notify only, download automatically, install automatically. */
  const NotifyOnly := 2
  const AutoDownload := 3
  const AutoInstall := 4

  const Undetermined := Verdict(Warn, ["Could not determine automatic update status",
                                       "Check Settings > Update & Security > Windows Update"])

  /** The four outcomes of the policy branch, in the order the code tests them. */
  datatype PolicyRule = UpdatesOff | UpdatesOn | NotifyOnlyRule | UnknownRule

  /** The first policy rule whose condition holds; NoAutoUpdate == True counts
      as 1. */
  function PolicyRuleOf(noAuto: Json, au: Json): PolicyRule
  {
    if EqInt(noAuto, 1) || EqBool(noAuto, true) then UpdatesOff
    else if EqInt(au, AutoInstall) || EqInt(au, AutoDownload) then UpdatesOn
    else if EqInt(au, NotifyOnly) then NotifyOnlyRule
    else UnknownRule
  }

  function PolicyStatus(r: PolicyRule): Status
  {
    match r
    case UpdatesOff => Fail
    case UpdatesOn => Pass
    case NotifyOnlyRule | UnknownRule => Warn
  }

  function PolicyLines(r: PolicyRule): (lines: seq<string>)
    ensures |lines| == 2
  {
    match r
    case UpdatesOff => ["Update Status: Automatic updates are disabled", "Enable automatic Windows updates in Settings"]
    case UpdatesOn => ["Update Status: Automatic updates are enabled", "Windows updates are configured correctly"]
    case NotifyOnlyRule => ["Update Status: Updates notify only", "Change setting to automatically install updates"]
    case UnknownRule => ["Update Status: Unknown configuration", "Verify Windows Update settings manually"]
  }

  function RuleVerdict(r: PolicyRule): Verdict
  {
    Verdict(PolicyStatus(r), PolicyLines(r))
  }

  /** The verdict from the policy values NoAutoUpdate and AUOptions. */
  function PolicyVerdict(noAuto: Json, au: Json): (v: Verdict)
    ensures |v.lines| == 2
    ensures v.status == Fail <==> EqInt(noAuto, 1)
    ensures v.status == Pass <==> !EqInt(noAuto, 1) && (EqInt(au, AutoInstall) || EqInt(au, AutoDownload))
    ensures v.status == Warn <==> !EqInt(noAuto, 1) && !EqInt(au, AutoInstall) && !EqInt(au, AutoDownload)
    ensures v.status != Error
  {
    RuleVerdict(PolicyRuleOf(noAuto, au))
  }

  /** Of the two warnings, "notify only" is reported exactly for AUOptions 2,
      and the unknown configuration for every other value that is not 3 or 4. */
  lemma WarningRules(noAuto: Json, au: Json)
    ensures PolicyRuleOf(noAuto, au) == NotifyOnlyRule <==> !EqInt(noAuto, 1) && EqInt(au, NotifyOnly)
    ensures PolicyRuleOf(noAuto, au) == UnknownRule <==>
              !EqInt(noAuto, 1) && !EqInt(au, AutoInstall) && !EqInt(au, AutoDownload) && !EqInt(au, NotifyOnly)
  {
  }

  /** The verdict from the service's status and start type. */
  function ServiceVerdict(status: Json, start: Json): (v: Verdict)
    ensures |v.lines| == 2
    ensures v.status == Pass <==> EqStr(status, "Running") && (EqStr(start, "Automatic") || EqStr(start, "Manual"))
    ensures v.status != Pass ==> v.status == Fail
    ensures v.status == Pass ==> v.lines[0] == "Update Service: Running (" + start.s + ")"
    ensures v.status == Fail ==> v.lines[0] == "Update Service: " + Str(status) + " (" + Str(start) + ")"
  {
    if EqStr(status, "Running") && (EqStr(start, "Automatic") || EqStr(start, "Manual")) then
      Verdict(Pass, ["Update Service: Running (" + Str(start) + ")", "Windows Update service is active"])
    else
      Verdict(Fail, ["Update Service: " + Str(status) + " (" + Str(start) + ")",
                     "Windows Update service is not running properly"])
  }

  /** The verdict chain over the decoded payload: the policy when the key
      NoAutoUpdate is `in` the data, else the service when ServiceStatus is,
      else undetermined. Errors are Python's exceptions for data that is not an
      object. */
  function Evaluate(data: Json): (r: Result<Verdict>)
  {
    match Contains(data, "NoAutoUpdate")
    case Err(e) => Err(e)
    case Ok(hasPolicy) =>
      if hasPolicy then
        match Get(data, "NoAutoUpdate", JInt(0))
        case Err(e) => Err(e)
        case Ok(noAuto) =>
          Ok(PolicyVerdict(noAuto, FieldOr(data.fields, "AUOptions", JInt(AutoInstall))))
      else
        match Contains(data, "ServiceStatus")
        case Err(e) => Err(e)
        case Ok(hasService) =>
          if hasService then
            match Get(data, "ServiceStatus", JString("Unknown"))
            case Err(e) => Err(e)
            case Ok(status) =>
              Ok(ServiceVerdict(status, FieldOr(data.fields, "ServiceStartType", JString("Unknown"))))
          else Ok(Undetermined)
  }

  /** On an object, the three branches in order, and no exception. */
  lemma ObjectBranches(data: Json)
    requires data.JObject?
    ensures Evaluate(data).Ok?
    ensures HasKey(data.fields, "NoAutoUpdate") ==>
              Evaluate(data).value == PolicyVerdict(FieldOr(data.fields, "NoAutoUpdate", JInt(0)),
                                                    FieldOr(data.fields, "AUOptions", JInt(AutoInstall)))
    ensures !HasKey(data.fields, "NoAutoUpdate") && HasKey(data.fields, "ServiceStatus") ==>
              Evaluate(data).value == ServiceVerdict(FieldOr(data.fields, "ServiceStatus", JString("Unknown")),
                                                     FieldOr(data.fields, "ServiceStartType", JString("Unknown")))
    ensures !HasKey(data.fields, "NoAutoUpdate") && !HasKey(data.fields, "ServiceStatus") ==>
              Evaluate(data).value == Undetermined
  {
  }

  /** Other decoded values: `in` raises TypeError on None, booleans and
      integers; a string or list that holds either key reaches `data.get` and
      raises AttributeError; one that holds neither is undetermined. */
  lemma NonObjectOutcomes(data: Json)
    requires !data.JObject?
    ensures (data.JNull? || data.JBool? || data.JInt?) ==> Evaluate(data) == Err(NotContainer(TypeName(data)))
    ensures (data.JString? || data.JArray?) ==>
              var hit := Contains(data, "NoAutoUpdate").value || Contains(data, "ServiceStatus").value;
              (hit ==> Evaluate(data) == Err(NoAttribute(TypeName(data), "get"))) &&
              (!hit ==> Evaluate(data) == Ok(Undetermined))
  {
    if data.JNull? || data.JBool? || data.JInt? {
      assert Contains(data, "NoAutoUpdate") == Err(NotContainer(TypeName(data)));
    }
  }

  /** NoAutoUpdate equal to 1 (or True) makes the check FAIL whatever AUOptions
      and the service say. */
  lemma DisabledPolicyDominates(data: Json)
    requires data.JObject? && HasKey(data.fields, "NoAutoUpdate")
    requires EqInt(FieldOr(data.fields, "NoAutoUpdate", JInt(0)), 1)
    ensures Evaluate(data) == Ok(RuleVerdict(UpdatesOff))
  {
    ObjectBranches(data);
  }

  /** Once the policy key is present the service keys are never consulted. */
  lemma ServiceIgnoredUnderPolicy(d1: Json, d2: Json)
    requires d1.JObject? && d2.JObject?
    requires HasKey(d1.fields, "NoAutoUpdate") && HasKey(d2.fields, "NoAutoUpdate")
    requires Lookup(d1.fields, "NoAutoUpdate") == Lookup(d2.fields, "NoAutoUpdate")
    requires Lookup(d1.fields, "AUOptions") == Lookup(d2.fields, "AUOptions")
    ensures Evaluate(d1) == Evaluate(d2)
  {
    ObjectBranches(d1);
    ObjectBranches(d2);
  }

  /** A failed query is only a warning here, unlike the other checks. */
  const RetrievalLines := ["Could not retrieve Windows Update information",
                           "Check Settings > Update & Security > Windows Update"]

  function ParseFailure(e: PyError): Report
  {
    Plain(Error, ["Could not parse update data: " + Message(e), "Manually check Windows Update settings"])
  }

  /** The report check_windows_update prints. */
  function UpdateCheck(q: QueryResult, loads: string -> Loaded): (r: Report)
    ensures r.printedBefore == [] && |r.verdict.lines| == 2
    ensures !Retrieved(q, Some(NoUpdateInfo)) ==> r == Plain(Warn, RetrievalLines)
    ensures Retrieved(q, Some(NoUpdateInfo)) && loads(q.output).Malformed? ==>
              r == ParseFailure(DecodeError(loads(q.output).message))
    ensures Retrieved(q, Some(NoUpdateInfo)) && loads(q.output).Parsed? ==>
              var res := Evaluate(loads(q.output).value);
              r == (if res.Ok? then Report([], res.value) else ParseFailure(res.error))
  {
    if !Retrieved(q, Some(NoUpdateInfo)) then Plain(Warn, RetrievalLines)
    else
      match loads(q.output)
      case Malformed(m) => ParseFailure(DecodeError(m))
      case Parsed(data) =>
        match Evaluate(data)
        case Err(e) => ParseFailure(e)
        case Ok(v) => Report([], v)
  }

  /** The shape of the registry query's output when the policy key exists. */
  lemma PolicyShape(noAuto: Json, au: Json)
    ensures Evaluate(JObject([("NoAutoUpdate", noAuto), ("AUOptions", au)])) == Ok(PolicyVerdict(noAuto, au))
  {
    var f := [("NoAutoUpdate", noAuto), ("AUOptions", au)];
    assert f[0].0 == "NoAutoUpdate" && f[1..][0].0 == "AUOptions";
    ObjectBranches(JObject(f));
  }

  /** NoAutoUpdate = 1 with automatic install configured still fails. */
  lemma DisabledExample()
    ensures Evaluate(JObject([("NoAutoUpdate", JInt(1)), ("AUOptions", JInt(4))])).value.status == Fail
  {
    PolicyShape(JInt(1), JInt(4));
  }

  /** Automatic download counts as enabled. */
  lemma AutoDownloadExample()
    ensures Evaluate(JObject([("NoAutoUpdate", JInt(0)), ("AUOptions", JInt(3))])).value.status == Pass
  {
    PolicyShape(JInt(0), JInt(3));
  }

  lemma NotifyOnlyExample()
    ensures Evaluate(JObject([("NoAutoUpdate", JInt(0)), ("AUOptions", JInt(2))])) == Ok(RuleVerdict(NotifyOnlyRule))
  {
    PolicyShape(JInt(0), JInt(2));
    assert PolicyRuleOf(JInt(0), JInt(2)) == NotifyOnlyRule;
  }

  /** A missing AUOptions defaults to automatic install. */
  lemma MissingAuOptionsExample()
    ensures Evaluate(JObject([("NoAutoUpdate", JInt(0))])) == Ok(RuleVerdict(UpdatesOn))
  {
    var f := [("NoAutoUpdate", JInt(0))];
    assert f[0].0 == "NoAutoUpdate" && !HasKey(f, "AUOptions");
    ObjectBranches(JObject(f));
    assert PolicyRuleOf(JInt(0), JInt(AutoInstall)) == UpdatesOn;
  }

  /** A null AUOptions (the query's output when the policy key exists without
      that value) is an unknown configuration. */
  lemma NullAuOptionsExample()
    ensures Evaluate(JObject([("NoAutoUpdate", JNull), ("AUOptions", JNull)])) == Ok(RuleVerdict(UnknownRule))
  {
    PolicyShape(JNull, JNull);
    assert PolicyRuleOf(JNull, JNull) == UnknownRule;
  }

  /** Without the policy key a stopped, disabled service fails. */
  lemma ServiceExample()
    ensures Evaluate(JObject([("ServiceStatus", JString("Stopped")), ("ServiceStartType", JString("Disabled"))]))
              .value.status == Fail
  {
    var f6 := [("ServiceStatus", JString("Stopped")), ("ServiceStartType", JString("Disabled"))];
    assert f6[0].0 == "ServiceStatus" && f6[1..][0].0 == "ServiceStartType";
    assert !HasKey(f6, "NoAutoUpdate") by {
      assert f6[0].0 != "NoAutoUpdate" && f6[1].0 != "NoAutoUpdate";
    }
    ObjectBranches(JObject(f6));
  }
}
