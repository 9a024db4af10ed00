/** check_uac: User Account Control from three registry values, judged by the
    first rule that matches. */
module Uac {
  import opened PyJson
  import opened Verdicts

  /** What the query prints when the policy registry key is unreadable. */
  const NoUacInfo := "NO_UAC_INFO"

  /** ConsentPromptBehaviorAdmin values the rules name. */
  const ElevateWithoutPrompting := 0
  const CredentialsOnSecureDesktop := 1
  const AlwaysNotify := 2
  const ConsentForNonWindowsBinaries := 5

  /** The three values the rules read, with `data.get`'s defaults applied. */
  datatype Settings = Settings(enableLua: Json, consent: Json, secureDesktop: Json)

  function SettingsOf(d: Json): (s: Settings)
    requires d.JObject?
    ensures !HasKey(d.fields, "EnableLUA") ==> s.enableLua == JInt(0)
    ensures !HasKey(d.fields, "ConsentPromptBehaviorAdmin") ==> s.consent == JInt(ConsentForNonWindowsBinaries)
    ensures !HasKey(d.fields, "PromptOnSecureDesktop") ==> s.secureDesktop == JInt(1)
  {
    Settings(FieldOr(d.fields, "EnableLUA", JInt(0)),
             FieldOr(d.fields, "ConsentPromptBehaviorAdmin", JInt(ConsentForNonWindowsBinaries)),
             FieldOr(d.fields, "PromptOnSecureDesktop", JInt(1)))
  }

  predicate Disabled(s: Settings) { EqInt(s.enableLua, 0) }

  predicate MaximumLevel(s: Settings)
  {
    (EqInt(s.consent, AlwaysNotify) || EqInt(s.consent, CredentialsOnSecureDesktop)) && EqInt(s.secureDesktop, 1)
  }

  predicate DefaultLevel(s: Settings)
  {
    EqInt(s.consent, ConsentForNonWindowsBinaries) && EqInt(s.secureDesktop, 1)
  }

  predicate NoSecureDesktop(s: Settings)
  {
    EqInt(s.consent, ConsentForNonWindowsBinaries) && EqInt(s.secureDesktop, 0)
  }

  predicate NeverNotify(s: Settings) { EqInt(s.consent, ElevateWithoutPrompting) }

  /** The six rules of the check, in the order it tries them. */
  datatype Rule = UacOff | MaximumRule | DefaultRule | NoSecureDesktopRule | NeverNotifyRule | CustomRule

  /** The first rule whose condition holds. */
  function RuleOf(s: Settings): Rule
  {
    if Disabled(s) then UacOff
    else if MaximumLevel(s) then MaximumRule
    else if DefaultLevel(s) then DefaultRule
    else if NoSecureDesktop(s) then NoSecureDesktopRule
    else if NeverNotify(s) then NeverNotifyRule
    else CustomRule
  }

  /** The status each rule prints. */
  function RuleStatus(r: Rule): Status
  {
    match r
    case MaximumRule => Pass
    case UacOff | NeverNotifyRule => Fail
    case DefaultRule | NoSecureDesktopRule | CustomRule => Warn
  }

  /** The explanation lines each rule prints. */
  function RuleLines(r: Rule): (lines: seq<string>)
    ensures |lines| == 2
  {
    match r
    case UacOff => ["UAC Status: Disabled", "Enable UAC in System Settings"]
    case MaximumRule => ["UAC Level: Always notify (Maximum)", "UAC is configured for maximum security"]
    case DefaultRule => ["UAC Level: Default (recommended by Microsoft)",
                         "Consider setting UAC to 'Always notify' for maximum security"]
    case NoSecureDesktopRule => ["UAC Level: Notify without secure desktop", "Increase UAC level for better security"]
    case NeverNotifyRule => ["UAC Level: Never notify", "UAC is effectively disabled"]
    case CustomRule => ["UAC Level: Custom configuration", "Verify UAC settings in Control Panel"]
  }

  /** What each rule prints. */
  function RuleVerdict(r: Rule): Verdict
  {
    Verdict(RuleStatus(r), RuleLines(r))
  }

  /** The verdict of the first matching rule. */
  function Decide(s: Settings): (v: Verdict)
    ensures |v.lines| == 2
    ensures v.status == Pass <==> !Disabled(s) && MaximumLevel(s)
    ensures v.status == Fail <==> Disabled(s) || NeverNotify(s)
    ensures v.status == Warn <==> !Disabled(s) && !MaximumLevel(s) && !NeverNotify(s)
    ensures v.status != Error
  {
    RuleVerdict(RuleOf(s))
  }

  /** A custom configuration is reported exactly when no named rule matches,
      and a named rule is never shadowed by a later one. */
  lemma CustomOnlyWhenNoRuleMatches(s: Settings)
    ensures RuleOf(s) == CustomRule <==>
              !Disabled(s) && !MaximumLevel(s) && !DefaultLevel(s) && !NoSecureDesktop(s) && !NeverNotify(s)
    ensures Disabled(s) ==> RuleOf(s) == UacOff
    ensures !Disabled(s) && MaximumLevel(s) ==> RuleOf(s) == MaximumRule
  {
  }

  /** The verdict over the decoded payload; only a dict has `get`. */
  function Evaluate(data: Json): (r: Result<Verdict>)
    ensures r.Ok? <==> data.JObject?
    ensures r.Err? ==> r.error == NoAttribute(TypeName(data), "get")
    ensures r.Ok? ==> r.value == Decide(SettingsOf(data))
  {
    match Get(data, "EnableLUA", JInt(0))
    case Err(e) => Err(e)
    case Ok(lua) =>
      Ok(Decide(Settings(lua, FieldOr(data.fields, "ConsentPromptBehaviorAdmin", JInt(ConsentForNonWindowsBinaries)),
                         FieldOr(data.fields, "PromptOnSecureDesktop", JInt(1)))))
  }

  const RetrievalLines := ["Could not retrieve UAC information",
                           "Check User Account Control Settings in Control Panel"]

  function ParseFailure(e: PyError): Report
  {
    Plain(Error, ["Could not parse UAC data: " + Message(e), "Manually check UAC settings in Control Panel"])
  }

  /** The report check_uac prints. */
  function UacCheck(q: QueryResult, loads: string -> Loaded): (r: Report)
    ensures r.printedBefore == [] && |r.verdict.lines| == 2
    ensures !Retrieved(q, Some(NoUacInfo)) ==> r == Plain(Error, RetrievalLines)
    ensures Retrieved(q, Some(NoUacInfo)) && loads(q.output).Malformed? ==>
              r == ParseFailure(DecodeError(loads(q.output).message))
    ensures Retrieved(q, Some(NoUacInfo)) && loads(q.output).Parsed? ==>
              var data := loads(q.output).value;
              if data.JObject? then r == Report([], Decide(SettingsOf(data)))
              else r == ParseFailure(NoAttribute(TypeName(data), "get"))
  {
    if !Retrieved(q, Some(NoUacInfo)) then Plain(Error, RetrievalLines)
    else
      match loads(q.output)
      case Malformed(m) => ParseFailure(DecodeError(m))
      case Parsed(data) =>
        match Evaluate(data)
        case Err(e) => ParseFailure(e)
        case Ok(v) => Report([], v)
  }

  /** EnableLUA = 0 wins over every prompt setting. */
  lemma DisabledDominates(s: Settings, consent: Json, secure: Json)
    requires Disabled(s)
    ensures Decide(Settings(s.enableLua, consent, secure)) == Decide(s) == RuleVerdict(UacOff)
  {
  }

  /** A missing EnableLUA reads as 0, so the check fails; an explicit null is
      not equal to 0 and falls through to the prompt rules. */
  lemma MissingEnableLuaFails(d: Json)
    requires d.JObject? && !HasKey(d.fields, "EnableLUA")
    ensures Evaluate(d) == Ok(RuleVerdict(UacOff))
  {
  }

  lemma NullEnableLuaIsNotDisabled(consent: Json, secure: Json)
    ensures !Disabled(Settings(JNull, consent, secure))
    ensures Decide(Settings(JNull, consent, secure)).status == Decide(Settings(JInt(1), consent, secure)).status
  {
  }

  /** Never-notify fails whatever the secure-desktop value is. */
  lemma NeverNotifyFails(s: Settings)
    requires NeverNotify(s)
    ensures Decide(s).status == Fail
  {
  }

  /** PASS needs the secure desktop: turning it off never raises the status to PASS. */
  lemma PassNeedsSecureDesktop(s: Settings)
    requires Decide(s).status == Pass
    ensures EqInt(s.secureDesktop, 1)
    ensures Decide(Settings(s.enableLua, s.consent, JInt(0))).status == Warn
  {
  }

  /** Only the three values read decide the verdict. */
  lemma OnlyThreeKeysMatter(d1: Json, d2: Json)
    requires d1.JObject? && d2.JObject?
    requires Lookup(d1.fields, "EnableLUA") == Lookup(d2.fields, "EnableLUA")
    requires Lookup(d1.fields, "ConsentPromptBehaviorAdmin") == Lookup(d2.fields, "ConsentPromptBehaviorAdmin")
    requires Lookup(d1.fields, "PromptOnSecureDesktop") == Lookup(d2.fields, "PromptOnSecureDesktop")
    ensures Evaluate(d1) == Evaluate(d2)
  {
  }

  /** The registry query's shape: all three keys, in this order. */
  lemma QuerySettings(lua: Json, consent: Json, secure: Json)
    ensures SettingsOf(JObject([("EnableLUA", lua), ("ConsentPromptBehaviorAdmin", consent),
                                ("PromptOnSecureDesktop", secure)]))
            == Settings(lua, consent, secure)
  {
    var f := [("EnableLUA", lua), ("ConsentPromptBehaviorAdmin", consent), ("PromptOnSecureDesktop", secure)];
    assert f[0].0 == "EnableLUA" && f[1..][0].0 == "ConsentPromptBehaviorAdmin"
        && f[1..][1..][0].0 == "PromptOnSecureDesktop";
  }

  /** Level 2 with the secure desktop is the maximum level. */
  lemma AlwaysNotifyExample()
    ensures RuleOf(SettingsOf(JObject([("EnableLUA", JInt(1)), ("ConsentPromptBehaviorAdmin", JInt(2)),
                                       ("PromptOnSecureDesktop", JInt(1))]))) == MaximumRule
  {
    var s := Settings(JInt(1), JInt(2), JInt(1));
    QuerySettings(s.enableLua, s.consent, s.secureDesktop);
    assert RuleOf(s) == MaximumRule;
  }

  /** The Windows default (5 with the secure desktop) is reported as the default level. */
  lemma WindowsDefaultExample()
    ensures RuleOf(SettingsOf(JObject([("EnableLUA", JInt(1)), ("ConsentPromptBehaviorAdmin", JInt(5)),
                                       ("PromptOnSecureDesktop", JInt(1))]))) == DefaultRule
  {
    var s := Settings(JInt(1), JInt(5), JInt(1));
    QuerySettings(s.enableLua, s.consent, s.secureDesktop);
    assert RuleOf(s) == DefaultRule;
  }

  /** Level 2 without the secure desktop matches no named rule. */
  lemma CustomLevelExample()
    ensures RuleOf(SettingsOf(JObject([("EnableLUA", JInt(1)), ("ConsentPromptBehaviorAdmin", JInt(2)),
                                       ("PromptOnSecureDesktop", JInt(0))]))) == CustomRule
  {
    var s := Settings(JInt(1), JInt(2), JInt(0));
    QuerySettings(s.enableLua, s.consent, s.secureDesktop);
    assert RuleOf(s) == CustomRule;
  }
}
