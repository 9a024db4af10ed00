/** check_user_password: combines the local account's "password required"
    flag with the date its password was last set. */
module Password {
  import opened PyJson
  import opened Verdicts

  /** What the query prints when the current user is not a local account. */
  const UserNotFound := "USER_NOT_FOUND"

  /** The query's stand-in for a password that was never set. */
  const Never := "Never"

  /** `data.get('PasswordRequired', False)` is truthy. */
  predicate Required(d: Json)
    requires d.JObject?
  {
    Truthy(FieldOr(d.fields, "PasswordRequired", JBool(false)))
  }

  /** `data.get('PasswordLastSet', 'Never') == "Never"`. */
  predicate NeverSet(d: Json)
    requires d.JObject?
  {
    EqStr(FieldOr(d.fields, "PasswordLastSet", JString(Never)), Never)
  }

  function UserLine(d: Json): string
    requires d.JObject?
  {
    "Username: " + Str(FieldOr(d.fields, "Username", JString("Unknown")))
  }

  /** The verdict chain over the decoded payload. */
  function Evaluate(data: Json): (r: Result<Verdict>)
    ensures r.Ok? <==> data.JObject?
    ensures r.Err? ==> r.error == NoAttribute(TypeName(data), "get")
    ensures r.Ok? ==> (r.value.status == Pass <==> Required(data) && !NeverSet(data))
    ensures r.Ok? ==> (r.value.status == Warn <==> Required(data) && NeverSet(data))
    ensures r.Ok? ==> (r.value.status == Fail <==> !Required(data))
    ensures r.Ok? ==> |r.value.lines| == 3 && r.value.lines[0] == UserLine(data)
  {
    match Get(data, "Username", JString("Unknown"))
    case Err(e) => Err(e)
    case Ok(username) =>
      var required := FieldOr(data.fields, "PasswordRequired", JBool(false));
      var lastSet := FieldOr(data.fields, "PasswordLastSet", JString(Never));
      var user := "Username: " + Str(username);
      if Truthy(required) && !EqStr(lastSet, Never) then
        Ok(Verdict(Pass, [user, "Password Status: Password is set", "Device is protected with a password"]))
      else if Truthy(required) && EqStr(lastSet, Never) then
        Ok(Verdict(Warn, [user, "Password Status: Password required but never set", "Set a strong password"]))
      else
        Ok(Verdict(Fail, [user, "Password Status: No password set", "No password detected"]))
  }

  const RetrievalLines := ["Could not retrieve user account information",
                           "Ensure you have administrator privileges"]

  function ParseFailure(e: PyError): Report
  {
    Plain(Error, ["Could not parse user data: " + Message(e), "Manually check account settings"])
  }

  /** The report check_user_password prints, for a query outcome and a decoder. */
  function PasswordCheck(q: QueryResult, loads: string -> Loaded): (r: Report)
    ensures r.printedBefore == []
    ensures 2 <= |r.verdict.lines| <= 3
    ensures !Retrieved(q, Some(UserNotFound)) ==> r == Plain(Error, RetrievalLines)
    ensures Retrieved(q, Some(UserNotFound)) && loads(q.output).Malformed? ==>
              r == ParseFailure(DecodeError(loads(q.output).message))
    ensures Retrieved(q, Some(UserNotFound)) && loads(q.output).Parsed? ==>
              var data := loads(q.output).value;
              if data.JObject? then r == Plain(Evaluate(data).value.status, Evaluate(data).value.lines)
              else r == ParseFailure(NoAttribute(TypeName(data), "get"))
  {
    if !Retrieved(q, Some(UserNotFound)) then Plain(Error, RetrievalLines)
    else
      match loads(q.output)
      case Malformed(m) => ParseFailure(DecodeError(m))
      case Parsed(data) =>
        match Evaluate(data)
        case Err(e) => ParseFailure(e)
        case Ok(v) => Report([], v)
  }

  /** Without the "required" flag the outcome is FAIL whatever the last-set
      value says: two payloads that differ only there get the same verdict. */
  lemma NotRequiredFailsRegardlessOfLastSet(d1: Json, d2: Json)
    requires d1.JObject? && d2.JObject?
    requires !Required(d1)
    requires FieldOr(d1.fields, "PasswordRequired", JBool(false)) == FieldOr(d2.fields, "PasswordRequired", JBool(false))
    requires FieldOr(d1.fields, "Username", JString("Unknown")) == FieldOr(d2.fields, "Username", JString("Unknown"))
    ensures Evaluate(d1) == Evaluate(d2)
    ensures Evaluate(d1).value.status == Fail
  {
  }

  /** Only the three keys it reads decide the verdict. */
  lemma OnlyThreeKeysMatter(d1: Json, d2: Json)
    requires d1.JObject? && d2.JObject?
    requires Lookup(d1.fields, "Username") == Lookup(d2.fields, "Username")
    requires Lookup(d1.fields, "PasswordRequired") == Lookup(d2.fields, "PasswordRequired")
    requires Lookup(d1.fields, "PasswordLastSet") == Lookup(d2.fields, "PasswordLastSet")
    ensures Evaluate(d1) == Evaluate(d2)
  {
  }

  /** An empty object takes every default: not required, so FAIL for user
      "Unknown". */
  lemma EmptyPayloadFails()
    ensures Evaluate(JObject([])) == Ok(Verdict(Fail, ["Username: Unknown", "Password Status: No password set",
                                                      "No password detected"]))
  {
    assert !HasKey([], "Username") && !HasKey([], "PasswordRequired");
    assert Str(JString("Unknown")) == "Unknown";
    assert "Username: " + "Unknown" == "Username: Unknown";
    assert !Truthy(JBool(false));
  }

  lemma PasswordExamples()
    ensures Evaluate(JObject([("PasswordRequired", JBool(true)), ("PasswordLastSet", JString("2024-01-01"))]))
              .value.status == Pass
    ensures Evaluate(JObject([("PasswordRequired", JBool(true)), ("PasswordLastSet", JString(Never))]))
              .value.status == Warn
    ensures Evaluate(JObject([("PasswordRequired", JBool(false))])).value.status == Fail
  {
    var f1 := [("PasswordRequired", JBool(true)), ("PasswordLastSet", JString("2024-01-01"))];
    assert f1[0].0 == "PasswordRequired" && f1[1..][0].0 == "PasswordLastSet";
    var f2 := [("PasswordRequired", JBool(true)), ("PasswordLastSet", JString(Never))];
    assert f2[0].0 == "PasswordRequired" && f2[1..][0].0 == "PasswordLastSet";
    var f3 := [("PasswordRequired", JBool(false))];
    assert f3[0].0 == "PasswordRequired";
  }
}
