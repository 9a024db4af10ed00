/** check_firewall: splits the firewall profiles into enabled and disabled
    ones and reports whether all, some or none are enabled. */
module Firewall {
  import opened PyJson
  import opened Verdicts

  /** A profile as the loop reads it: `profile.get('Name', 'Unknown')` and the
      truthiness of `profile.get('Enabled', False)`. */
  datatype Profile = Profile(name: Json, enabled: bool)

  function ReadProfile(p: Json): (r: Result<Profile>)
    ensures r.Ok? <==> p.JObject?
    ensures r.Ok? ==> r.value.name == FieldOr(p.fields, "Name", JString("Unknown"))
    ensures r.Ok? ==> (r.value.enabled <==> Truthy(FieldOr(p.fields, "Enabled", JBool(false))))
    ensures r.Err? ==> r.error == NoAttribute(TypeName(p), "get")
  {
    match Get(p, "Name", JString("Unknown"))
    case Err(e) => Err(e)
    case Ok(name) =>
      match Get(p, "Enabled", JBool(false))
      case Err(e) => Err(e)
      case Ok(enabled) => Ok(Profile(name, Truthy(enabled)))
  }

  /** The profiles the loop reads, in order, or the exception of the first
      item that is not a dict. */
  function Profiles(items: seq<Json>): (r: Result<seq<Profile>>)
    ensures r.Ok? ==> |r.value| == |items|
    decreases |items|
  {
    if items == [] then Ok([])
    else
      match Profiles(items[..|items| - 1])
      case Err(e) => Err(e)
      case Ok(ps) =>
        match ReadProfile(items[|items| - 1])
        case Err(e) => Err(e)
        case Ok(p) => Ok(ps + [p])
  }

  /** The loop reads every item exactly when every item is a dict, keeping
      them in order; otherwise it raises the AttributeError of a non-dict. */
  lemma {:induction false} ProfilesReadAll(items: seq<Json>)
    ensures Profiles(items).Ok? <==> forall k :: 0 <= k < |items| ==> items[k].JObject?
    ensures Profiles(items).Ok? ==> forall k :: 0 <= k < |items| ==> ReadProfile(items[k]) == Ok(Profiles(items).value[k])
    ensures Profiles(items).Err? ==> exists k :: 0 <= k < |items| && !items[k].JObject?
                                                 && Profiles(items).error == NoAttribute(TypeName(items[k]), "get")
    decreases |items|
  {
    if items != [] {
      var n := |items| - 1;
      var init := items[..n];
      ProfilesReadAll(init);
      assert forall k :: 0 <= k < n ==> init[k] == items[k];
      if Profiles(init).Err? {
        assert Profiles(items) == Profiles(init);
        var k :| 0 <= k < n && !init[k].JObject? && Profiles(init).error == NoAttribute(TypeName(init[k]), "get");
        assert !items[k].JObject?;
      } else if !items[n].JObject? {
        assert Profiles(items) == Err(NoAttribute(TypeName(items[n]), "get"));
      } else {
        var ps := Profiles(init).value + [ReadProfile(items[n]).value];
        assert Profiles(items) == Ok(ps);
        forall k | 0 <= k < |items| ensures ReadProfile(items[k]) == Ok(ps[k]) {
          if k < n {
            assert ps[k] == Profiles(init).value[k];
          }
        }
      }
    }
  }

  /** Once a prefix of the items raises, the whole loop raises the same. */
  lemma {:induction false} ProfilesErrorPersists(items: seq<Json>, n: nat)
    requires 0 < n <= |items|
    requires Profiles(items[..n]).Err?
    ensures Profiles(items) == Profiles(items[..n])
    decreases |items|
  {
    if n < |items| {
      var init := items[..|items| - 1];
      assert init[..n] == items[..n];
      ProfilesErrorPersists(init, n);
    } else {
      assert items[..n] == items;
    }
  }

  /** One more iteration of the loop over a prefix that has not raised. */
  lemma ProfilesStep(items: seq<Json>, i: nat)
    requires i < |items| && Profiles(items[..i]).Ok?
    ensures Profiles(items[..i + 1]) ==
              match ReadProfile(items[i])
              case Err(e) => Err(e)
              case Ok(p) => Ok(Profiles(items[..i]).value + [p])
  {
    var prefix := items[..i + 1];
    assert prefix[..i] == items[..i] && prefix[i] == items[i];
  }

  function Names(ps: seq<Profile>): (r: seq<Json>)
    ensures |r| == |ps| && forall k :: 0 <= k < |ps| ==> r[k] == ps[k].name
  {
    seq(|ps|, k requires 0 <= k < |ps| => ps[k].name)
  }

  /** `enabled_profiles`: the names of the enabled profiles, in input order. */
  function EnabledNames(ps: seq<Profile>): seq<Json>
  {
    if ps == [] then []
    else EnabledNames(ps[..|ps| - 1]) + (if ps[|ps| - 1].enabled then [ps[|ps| - 1].name] else [])
  }

  /** `disabled_profiles`: the names of the other profiles, in input order. */
  function DisabledNames(ps: seq<Profile>): seq<Json>
  {
    if ps == [] then []
    else DisabledNames(ps[..|ps| - 1]) + (if ps[|ps| - 1].enabled then [] else [ps[|ps| - 1].name])
  }

  /** Appending a profile appends its name to the list its flag selects. */
  lemma NamesStep(ps: seq<Profile>, p: Profile)
    ensures EnabledNames(ps + [p]) == EnabledNames(ps) + (if p.enabled then [p.name] else [])
    ensures DisabledNames(ps + [p]) == DisabledNames(ps) + (if p.enabled then [] else [p.name])
  {
    assert (ps + [p])[..|ps|] == ps;
  }

  lemma {:induction false} PartitionCounts(ps: seq<Profile>)
    ensures |EnabledNames(ps)| + |DisabledNames(ps)| == |ps|
    ensures multiset(EnabledNames(ps)) + multiset(DisabledNames(ps)) == multiset(Names(ps))
  {
    if ps != [] {
      var init, last := ps[..|ps| - 1], ps[|ps| - 1];
      PartitionCounts(init);
      assert Names(ps) == Names(init) + [last.name];
      if last.enabled {
        assert EnabledNames(ps) == EnabledNames(init) + [last.name];
        assert DisabledNames(ps) == DisabledNames(init);
      } else {
        assert EnabledNames(ps) == EnabledNames(init);
        assert DisabledNames(ps) == DisabledNames(init) + [last.name];
      }
    }
  }

  /** Each profile's name is in the list its flag selects. */
  lemma {:induction false} ProfilePlaced(ps: seq<Profile>, k: nat)
    requires k < |ps|
    ensures ps[k].enabled ==> ps[k].name in EnabledNames(ps)
    ensures !ps[k].enabled ==> ps[k].name in DisabledNames(ps)
  {
    if k < |ps| - 1 {
      var init := ps[..|ps| - 1];
      ProfilePlaced(init, k);
      assert init[k] == ps[k];
    }
  }

  lemma {:induction false} UniformProfiles(ps: seq<Profile>)
    ensures (forall k :: 0 <= k < |ps| ==> ps[k].enabled) ==> EnabledNames(ps) == Names(ps)
    ensures (forall k :: 0 <= k < |ps| ==> !ps[k].enabled) ==> DisabledNames(ps) == Names(ps)
  {
    if ps != [] {
      var init := ps[..|ps| - 1];
      UniformProfiles(init);
      assert forall k :: 0 <= k < |init| ==> init[k] == ps[k];
      assert Names(ps) == Names(init) + [ps[|ps| - 1].name];
    }
  }

  /** Every profile lands in exactly one of the two lists, each list keeps
      input order, and a list is complete exactly when every flag agrees. */
  lemma PartitionProfiles(ps: seq<Profile>)
    ensures |EnabledNames(ps)| + |DisabledNames(ps)| == |ps|
    ensures multiset(EnabledNames(ps)) + multiset(DisabledNames(ps)) == multiset(Names(ps))
    ensures |EnabledNames(ps)| == |ps| <==> forall k :: 0 <= k < |ps| ==> ps[k].enabled
    ensures |EnabledNames(ps)| == 0 <==> forall k :: 0 <= k < |ps| ==> !ps[k].enabled
    ensures (forall k :: 0 <= k < |ps| ==> ps[k].enabled) ==> EnabledNames(ps) == Names(ps)
    ensures (forall k :: 0 <= k < |ps| ==> !ps[k].enabled) ==> DisabledNames(ps) == Names(ps)
  {
    PartitionCounts(ps);
    UniformProfiles(ps);
    if exists k :: 0 <= k < |ps| && !ps[k].enabled {
      var k :| 0 <= k < |ps| && !ps[k].enabled;
      ProfilePlaced(ps, k);
    }
    if exists k :: 0 <= k < |ps| && ps[k].enabled {
      var k :| 0 <= k < |ps| && ps[k].enabled;
      ProfilePlaced(ps, k);
    }
  }

  const RetrievalLines := ["Could not retrieve firewall status",
                           "Ensure you have administrator privileges"]

  function FailureVerdict(e: PyError): Verdict
  {
    Verdict(Error, ["Could not parse firewall data: " + Message(e), "Manually check Firewall settings"])
  }

  /** The branch the verdict takes: every item enabled, some, or none. */
  function Branch(enabledCount: nat, total: nat): Status
  {
    if enabledCount == total then Pass else if enabledCount > 0 then Warn else Fail
  }

  /** The line each branch prints right after its status line. */
  function Headline(branch: Status): string
  {
    match branch
    case Pass => "Firewall Status: All profiles enabled"
    case Warn => "Firewall Status: Partially enabled"
    case _ => "Firewall Status: All profiles disabled"
  }

  /** The all-enabled branch: PASS, unless joining the names raises after
      the status and headline are printed. */
  function AllEnabled(enabled: seq<Json>): (r: Report)
    ensures r.printedBefore == [] <==> Join(", ", enabled).Ok?
    ensures r.printedBefore == [] ==>
              r.verdict.status == Pass && |r.verdict.lines| == 3 && r.verdict.lines[0] == Headline(Pass)
              && r.verdict.lines[1] == "Enabled Profiles: " + Join(", ", enabled).value
    ensures r.printedBefore != [] ==> r.verdict.status == Error && r.printedBefore[0] == StatusLine(Pass)
    ensures r.printedBefore != [] ==> r.printedBefore == [StatusLine(Pass), Headline(Pass)]
    ensures r.printedBefore != [] ==> r.verdict == FailureVerdict(Join(", ", enabled).error)
  {
    match Join(", ", enabled)
    case Err(e) => Report([StatusLine(Pass), Headline(Pass)], FailureVerdict(e))
    case Ok(en) =>
      Plain(Pass, [Headline(Pass),
                   "Enabled Profiles: " + en,
                   "Firewall is properly configured"])
  }

  /** The partial branch: WARN naming both lists, unless a join raises part
      way through. */
  function Partial(enabled: seq<Json>, disabled: seq<Json>): (r: Report)
    ensures r.printedBefore == [] <==> Join(", ", enabled).Ok? && Join(", ", disabled).Ok?
    ensures r.printedBefore == [] ==>
              r.verdict.status == Warn && |r.verdict.lines| == 4 && r.verdict.lines[0] == Headline(Warn)
              && r.verdict.lines[1] == "Enabled: " + Join(", ", enabled).value
              && r.verdict.lines[2] == "Disabled: " + Join(", ", disabled).value
              && r.verdict.lines[3] == "Enable firewall for all profiles. Currently disabled: " + Join(", ", disabled).value
    ensures r.printedBefore != [] ==> r.verdict.status == Error && r.printedBefore[0] == StatusLine(Warn)
    ensures r.printedBefore != [] ==>
              r.printedBefore == [StatusLine(Warn), Headline(Warn)]
                                 + (if Join(", ", enabled).Ok? then ["Enabled: " + Join(", ", enabled).value] else [])
    ensures r.printedBefore != [] ==>
              r.verdict == FailureVerdict(if Join(", ", enabled).Err? then Join(", ", enabled).error
                                          else Join(", ", disabled).error)
  {
    match Join(", ", enabled)
    case Err(e) => Report([StatusLine(Warn), Headline(Warn)], FailureVerdict(e))
    case Ok(en) =>
      match Join(", ", disabled)
      case Err(e) =>
        Report([StatusLine(Warn), Headline(Warn), "Enabled: " + en], FailureVerdict(e))
      case Ok(dis) =>
        Plain(Warn, [Headline(Warn),
                     "Enabled: " + en,
                     "Disabled: " + dis,
                     "Enable firewall for all profiles. Currently disabled: " + dis])
  }

  /** The all-disabled branch: FAIL, unless joining the names raises. */
  function AllDisabled(disabled: seq<Json>): (r: Report)
    ensures r.printedBefore == [] <==> Join(", ", disabled).Ok?
    ensures r.printedBefore == [] ==>
              r.verdict.status == Fail && |r.verdict.lines| == 3 && r.verdict.lines[0] == Headline(Fail)
              && r.verdict.lines[1] == "Disabled Profiles: " + Join(", ", disabled).value
    ensures r.printedBefore != [] ==> r.verdict.status == Error && r.printedBefore[0] == StatusLine(Fail)
    ensures r.printedBefore != [] ==> r.printedBefore == [StatusLine(Fail), Headline(Fail)]
    ensures r.printedBefore != [] ==> r.verdict == FailureVerdict(Join(", ", disabled).error)
  {
    match Join(", ", disabled)
    case Err(e) => Report([StatusLine(Fail), Headline(Fail)], FailureVerdict(e))
    case Ok(dis) =>
      Plain(Fail, [Headline(Fail),
                   "Disabled Profiles: " + dis,
                   "Windows Firewall is disabled"])
  }

  /** The verdict branch after the loop. A name that is not a string makes
      `', '.join` raise after the branch has printed its status line, so the
      error verdict then follows lines already printed. */
  function Decide(enabled: seq<Json>, disabled: seq<Json>, total: nat): (r: Report)
    ensures r.printedBefore == [] ==> r.verdict.status == Branch(|enabled|, total)
    ensures r.printedBefore != [] ==> r.verdict.status == Error
    ensures r.printedBefore != [] ==> r.printedBefore[0] == StatusLine(Branch(|enabled|, total))
    // the status and headline, and for a warning whose enabled names joined, that line too
    ensures r.printedBefore != [] ==>
              var b := Branch(|enabled|, total);
              r.printedBefore == [StatusLine(b), Headline(b)]
                                 + (if b == Warn && Join(", ", enabled).Ok? then ["Enabled: " + Join(", ", enabled).value]
                                    else [])
    ensures r.printedBefore != [] <==>
              match Branch(|enabled|, total)
              case Pass => Join(", ", enabled).Err?
              case Warn => Join(", ", enabled).Err? || Join(", ", disabled).Err?
              case _ => Join(", ", disabled).Err?
    ensures r.verdict.status == Pass ==>
              r.printedBefore == [] && |r.verdict.lines| == 3
              && r.verdict.lines[1] == "Enabled Profiles: " + Join(", ", enabled).value
    ensures r.verdict.status == Warn ==>
              r.printedBefore == [] && |r.verdict.lines| == 4
              && r.verdict.lines[1] == "Enabled: " + Join(", ", enabled).value
              && r.verdict.lines[2] == "Disabled: " + Join(", ", disabled).value
              && r.verdict.lines[3] == "Enable firewall for all profiles. Currently disabled: " + Join(", ", disabled).value
    ensures r.verdict.status == Fail ==>
              r.printedBefore == [] && |r.verdict.lines| == 3
              && r.verdict.lines[1] == "Disabled Profiles: " + Join(", ", disabled).value
    ensures r.printedBefore != [] ==>
              r.verdict == FailureVerdict(if Branch(|enabled|, total) != Fail && Join(", ", enabled).Err?
                                          then Join(", ", enabled).error else Join(", ", disabled).error)
  {
    match Branch(|enabled|, total)
    case Pass => AllEnabled(enabled)
    case Warn => Partial(enabled, disabled)
    case _ => AllDisabled(disabled)
  }

  /** The report check_firewall prints, for a query outcome and a decoder.
      `len(data)` is the number of items the loop visits. */
  function FirewallCheck(q: QueryResult, loads: string -> Loaded): (r: Report)
    ensures !Retrieved(q, None) ==> r == Plain(Error, RetrievalLines)
    ensures r.verdict.status == Pass || r.verdict.status == Fail ==>
              r.printedBefore == [] && |r.verdict.lines| == 3
    ensures r.verdict.status == Warn ==> r.printedBefore == [] && |r.verdict.lines| == 4
  {
    if !Retrieved(q, None) then Plain(Error, RetrievalLines)
    else
      match loads(q.output)
      case Malformed(m) => Report([], FailureVerdict(DecodeError(m)))
      case Parsed(data) =>
        match Iterate(AsList(data))
        case Err(e) => Report([], FailureVerdict(e))
        case Ok(items) =>
          match Profiles(items)
          case Err(e) => Report([], FailureVerdict(e))
          case Ok(ps) => Decide(EnabledNames(ps), DisabledNames(ps), |items|)
  }

  /** check_firewall's loop: it appends each profile name to
      `enabled_profiles` or `disabled_profiles`, or stops at the first item
      that raises. */
  method SortProfiles(items: seq<Json>) returns (res: Result<(seq<Json>, seq<Json>)>)
    ensures res.Ok? <==> Profiles(items).Ok?
    ensures res.Ok? ==> res.value == (EnabledNames(Profiles(items).value), DisabledNames(Profiles(items).value))
    ensures res.Err? ==> res.error == Profiles(items).error
  {
    var enabledProfiles: seq<Json> := [];
    var disabledProfiles: seq<Json> := [];
    ghost var ps: seq<Profile> := [];
    var i := 0;
    while i < |items|
      invariant 0 <= i <= |items|
      invariant Profiles(items[..i]) == Ok(ps)
      invariant enabledProfiles == EnabledNames(ps)
      invariant disabledProfiles == DisabledNames(ps)
    {
      var profile := ReadProfile(items[i]);
      ProfilesStep(items, i);
      if profile.Err? {
        ProfilesErrorPersists(items, i + 1);
        return Err(profile.error);
      }
      var p := profile.value;
      assert Profiles(items[..i + 1]) == Ok(ps + [p]);
      if p.enabled {
        enabledProfiles := enabledProfiles + [p.name];
      } else {
        disabledProfiles := disabledProfiles + [p.name];
      }
      NamesStep(ps, p);
      ps := ps + [p];
      i := i + 1;
    }
    assert items[..|items|] == items;
    res := Ok((enabledProfiles, disabledProfiles));
  }

  /** check_firewall itself. */
  method CheckFirewall(q: QueryResult, loads: string -> Loaded) returns (r: Report)
    ensures r == FirewallCheck(q, loads)
  {
    if !Retrieved(q, None) {
      return Plain(Error, RetrievalLines);
    }
    var loaded := loads(q.output);
    if loaded.Malformed? {
      return Report([], FailureVerdict(DecodeError(loaded.message)));
    }
    var data := loaded.value;
    if data.JObject? {
      data := JArray([data]);
    }
    var iterated := Iterate(data);
    if iterated.Err? {
      return Report([], FailureVerdict(iterated.error));
    }
    var items := iterated.value;
    var sorted := SortProfiles(items);
    if sorted.Err? {
      return Report([], FailureVerdict(sorted.error));
    }
    r := Decide(sorted.value.0, sorted.value.1, |items|);
  }

  predicate AllStrings(xs: seq<Json>)
  {
    forall k :: 0 <= k < |xs| ==> xs[k].JString?
  }

  lemma AllStringsAppend(xs: seq<Json>, ys: seq<Json>)
    ensures AllStrings(xs + ys) <==> AllStrings(xs) && AllStrings(ys)
  {
    if AllStrings(xs) && AllStrings(ys) {
      forall k | 0 <= k < |xs + ys| ensures (xs + ys)[k].JString? {
        if k >= |xs| {
          assert (xs + ys)[k] == ys[k - |xs|];
        }
      }
    }
    if AllStrings(xs + ys) {
      forall k | 0 <= k < |xs| ensures xs[k].JString? {
        assert (xs + ys)[k] == xs[k];
      }
      forall k | 0 <= k < |ys| ensures ys[k].JString? {
        assert (xs + ys)[|xs| + k] == ys[k];
      }
    }
  }

  /** Every profile name is a string exactly when every name in both lists is. */
  lemma {:induction false} PartsAllStrings(ps: seq<Profile>)
    ensures AllStrings(Names(ps)) <==> AllStrings(EnabledNames(ps)) && AllStrings(DisabledNames(ps))
  {
    if ps != [] {
      var init, last := ps[..|ps| - 1], ps[|ps| - 1];
      PartsAllStrings(init);
      var tail := [last.name];
      assert tail[0] == last.name;
      assert Names(ps) == Names(init) + tail;
      AllStringsAppend(Names(init), tail);
      AllStringsAppend(EnabledNames(init), if last.enabled then tail else []);
      AllStringsAppend(DisabledNames(init), if last.enabled then [] else tail);
    }
  }

  /** Both joins succeed exactly when every profile name is a string. */
  lemma JoinsSucceed(ps: seq<Profile>)
    ensures (forall k :: 0 <= k < |ps| ==> ps[k].name.JString?) <==>
              Join(", ", EnabledNames(ps)).Ok? && Join(", ", DisabledNames(ps)).Ok?
  {
    PartsAllStrings(ps);
    assert AllStrings(Names(ps)) <==> forall k :: 0 <= k < |ps| ==> ps[k].name.JString?;
  }

  /** With string names: PASS iff every profile is enabled (an empty list
      included), WARN iff some but not all are, FAIL iff none of a non-empty
      list is. PASS and FAIL list every profile name, the warning lists the
      enabled and then the disabled ones. */
  lemma FirewallVerdictRule(q: QueryResult, loads: string -> Loaded, data: Json,
                            items: seq<Json>, ps: seq<Profile>)
    requires Retrieved(q, None) && loads(q.output) == Parsed(data)
    requires Iterate(AsList(data)) == Ok(items) && Profiles(items) == Ok(ps)
    requires forall k :: 0 <= k < |ps| ==> ps[k].name.JString?
    ensures Join(", ", EnabledNames(ps)).Ok? && Join(", ", DisabledNames(ps)).Ok?
    ensures Join(", ", Names(ps)).Ok?
    ensures var r := FirewallCheck(q, loads);
            && r.printedBefore == []
            && (r.verdict.status == Pass <==> forall k :: 0 <= k < |ps| ==> ps[k].enabled)
            && (r.verdict.status == Warn <==> (exists k :: 0 <= k < |ps| && ps[k].enabled)
                                              && (exists k :: 0 <= k < |ps| && !ps[k].enabled))
            && (r.verdict.status == Fail <==> |ps| > 0 && forall k :: 0 <= k < |ps| ==> !ps[k].enabled)
            && (r.verdict.status == Pass ==>
                  r.verdict.lines[1] == "Enabled Profiles: " + Join(", ", Names(ps)).value)
            && (r.verdict.status == Warn ==>
                  r.verdict.lines[1] == "Enabled: " + Join(", ", EnabledNames(ps)).value
                  && r.verdict.lines[2] == "Disabled: " + Join(", ", DisabledNames(ps)).value
                  && r.verdict.lines[3] == "Enable firewall for all profiles. Currently disabled: "
                                           + Join(", ", DisabledNames(ps)).value)
            && (r.verdict.status == Fail ==>
                  r.verdict.lines[1] == "Disabled Profiles: " + Join(", ", Names(ps)).value)
  {
    assert FirewallCheck(q, loads) == Decide(EnabledNames(ps), DisabledNames(ps), |ps|);
    DecideOnStringNames(ps);
    BranchMeaning(ps);
  }

  /** With string names nothing is printed before the status, and a PASS or
      FAIL lists every name: all of them are then in the one list. */
  lemma DecideOnStringNames(ps: seq<Profile>)
    requires forall k :: 0 <= k < |ps| ==> ps[k].name.JString?
    ensures Join(", ", EnabledNames(ps)).Ok? && Join(", ", DisabledNames(ps)).Ok?
    ensures Join(", ", Names(ps)).Ok?
    ensures var r := Decide(EnabledNames(ps), DisabledNames(ps), |ps|);
            && r.printedBefore == []
            && (r.verdict.status == Pass ==> EnabledNames(ps) == Names(ps))
            && (r.verdict.status == Fail ==> DisabledNames(ps) == Names(ps))
  {
    JoinsSucceed(ps);
    BranchMeaning(ps);
    UniformProfiles(ps);
  }

  /** Which branch the profiles select, in terms of their flags. */
  lemma BranchMeaning(ps: seq<Profile>)
    ensures Branch(|EnabledNames(ps)|, |ps|) == Pass <==> forall k :: 0 <= k < |ps| ==> ps[k].enabled
    ensures Branch(|EnabledNames(ps)|, |ps|) == Warn <==>
              (exists k :: 0 <= k < |ps| && ps[k].enabled) && (exists k :: 0 <= k < |ps| && !ps[k].enabled)
    ensures Branch(|EnabledNames(ps)|, |ps|) == Fail <==>
              |ps| > 0 && forall k :: 0 <= k < |ps| ==> !ps[k].enabled
  {
    PartitionProfiles(ps);
  }

  /** The only way a report carries lines printed before its status: some
      profile name is not a string, and then the branch's own PASS, WARN or
      FAIL status line was already printed, so the output holds two status
      lines. */
  lemma FirewallPrintsTwoStatusesOnlyForNonStringNames(q: QueryResult, loads: string -> Loaded, data: Json,
                                                       items: seq<Json>, ps: seq<Profile>)
    requires Retrieved(q, None) && loads(q.output) == Parsed(data)
    requires Iterate(AsList(data)) == Ok(items) && Profiles(items) == Ok(ps)
    ensures var r := FirewallCheck(q, loads);
            && (r.printedBefore != [] <==> exists k :: 0 <= k < |ps| && !ps[k].name.JString?)
            && (r.printedBefore != [] ==>
                  r.verdict.status == Error
                  && r.printedBefore[0] == StatusLine(Branch(|EnabledNames(ps)|, |ps|))
                  && r.printedBefore[1] == Headline(Branch(|EnabledNames(ps)|, |ps|))
                  && Branch(|EnabledNames(ps)|, |ps|) != Error)
  {
    var en, dis := EnabledNames(ps), DisabledNames(ps);
    assert FirewallCheck(q, loads) == Decide(en, dis, |ps|);
    PartitionCounts(ps);
    JoinsSucceed(ps);
    DecideRaisesOnJoin(en, dis);
  }

  /** When the two lists split all the items, lines come before the status
      exactly when one of the two joins fails: a branch skips only the join of
      a list that is then empty. */
  lemma DecideRaisesOnJoin(enabled: seq<Json>, disabled: seq<Json>)
    ensures Decide(enabled, disabled, |enabled| + |disabled|).printedBefore != [] <==>
              Join(", ", enabled).Err? || Join(", ", disabled).Err?
  {
    if |disabled| == 0 {
      assert disabled == [];
    } else if |enabled| == 0 {
      assert enabled == [];
    }
  }

  /** An empty profile list counts as all enabled. */
  lemma FirewallEmptyListPasses(q: QueryResult, loads: string -> Loaded)
    requires Retrieved(q, None) && loads(q.output) == Parsed(JArray([]))
    ensures FirewallCheck(q, loads) == Plain(Pass, ["Firewall Status: All profiles enabled",
                                                    "Enabled Profiles: ",
                                                    "Firewall is properly configured"])
  {
    assert Profiles([]) == Ok([]);
    assert "Enabled Profiles: " + "" == "Enabled Profiles: ";
  }

  /** Three profiles (Domain, Private, Public in the query's order) with only
      the middle one off: a warning whose disabled list is that one name. */
  lemma FirewallOneDisabledExample(q: QueryResult, loads: string -> Loaded, a: string, b: string, c: string)
    requires Retrieved(q, None)
    requires loads(q.output) == Parsed(JArray([
               JObject([("Name", JString(a)), ("Enabled", JBool(true))]),
               JObject([("Name", JString(b)), ("Enabled", JBool(false))]),
               JObject([("Name", JString(c)), ("Enabled", JBool(true))])]))
    ensures FirewallCheck(q, loads).printedBefore == []
    ensures FirewallCheck(q, loads).verdict.status == Warn
    ensures FirewallCheck(q, loads).verdict.lines[2] == "Disabled: " + b
  {
    var data := loads(q.output).value;
    ThreeProfiles(a, b, c);
    assert Iterate(AsList(data)) == Ok(data.items);
    assert FirewallCheck(q, loads) == Decide([JString(a), JString(c)], [JString(b)], 3);
    DecideOneDisabled(a, b, c);
  }

  lemma ThreeProfiles(a: string, b: string, c: string)
    ensures var ps := [Profile(JString(a), true), Profile(JString(b), false), Profile(JString(c), true)];
            && Profiles([JObject([("Name", JString(a)), ("Enabled", JBool(true))]),
                         JObject([("Name", JString(b)), ("Enabled", JBool(false))]),
                         JObject([("Name", JString(c)), ("Enabled", JBool(true))])]) == Ok(ps)
            && EnabledNames(ps) == [JString(a), JString(c)]
            && DisabledNames(ps) == [JString(b)]
  {
    var items := [JObject([("Name", JString(a)), ("Enabled", JBool(true))]),
                  JObject([("Name", JString(b)), ("Enabled", JBool(false))]),
                  JObject([("Name", JString(c)), ("Enabled", JBool(true))])];
    var ps := [Profile(JString(a), true), Profile(JString(b), false), Profile(JString(c), true)];
    ProfileShape(JString(a), JBool(true));
    ProfileShape(JString(b), JBool(false));
    ProfileShape(JString(c), JBool(true));
    ProfilesOfReadable(items, ps);
    assert ps[..2][..1] == [ps[0]] && ps[..2] == [ps[0], ps[1]] && [ps[0]][..0] == [];
    assert DisabledNames([ps[0]]) == [];
    assert DisabledNames(ps[..2]) == [JString(b)];
    assert EnabledNames([ps[0]]) == [JString(a)];
  }

  lemma DecideOneDisabled(a: string, b: string, c: string)
    ensures var r := Decide([JString(a), JString(c)], [JString(b)], 3);
            r.printedBefore == [] && r.verdict.status == Warn && r.verdict.lines[2] == "Disabled: " + b
  {
    assert Join(", ", [JString(a), JString(c)]).Ok?;
    assert Join(", ", [JString(b)]) == Ok(b);
  }

  /** The shape Get-NetFirewallProfile emits for one profile. */
  lemma ProfileShape(name: Json, enabled: Json)
    ensures ReadProfile(JObject([("Name", name), ("Enabled", enabled)])) == Ok(Profile(name, Truthy(enabled)))
  {
    var fs := [("Name", name), ("Enabled", enabled)];
    assert fs[0].0 == "Name" && fs[1..][0].0 == "Enabled";
  }

  /** When every item reads as a profile, the loop keeps them in order. */
  lemma {:induction false} ProfilesOfReadable(items: seq<Json>, ps: seq<Profile>)
    requires |items| == |ps|
    requires forall k :: 0 <= k < |items| ==> ReadProfile(items[k]) == Ok(ps[k])
    ensures Profiles(items) == Ok(ps)
  {
    if items != [] {
      var n := |items| - 1;
      ProfilesOfReadable(items[..n], ps[..n]);
      assert ps[..n] + [ps[n]] == ps;
    }
  }

  /** ERROR comes from exactly these paths, each with its own message: the
      query gave no data, the text did not decode, the payload could not be
      looped over, an item was not a dict, or a name could not be joined
      (after a status line was already printed). */
  lemma FirewallErrorCases(q: QueryResult, loads: string -> Loaded)
    ensures var r := FirewallCheck(q, loads);
            r.verdict.status == Error <==>
              r.printedBefore != [] || !Retrieved(q, None) || loads(q.output).Malformed?
              || Iterate(AsList(loads(q.output).value)).Err?
              || Profiles(Iterate(AsList(loads(q.output).value)).value).Err?
    ensures Retrieved(q, None) && loads(q.output).Malformed? ==>
              FirewallCheck(q, loads) == Report([], FailureVerdict(DecodeError(loads(q.output).message)))
    // the message of the exception raised, on each path after decoding
    ensures var r := FirewallCheck(q, loads);
            Retrieved(q, None) && loads(q.output).Parsed? ==>
              var it := Iterate(AsList(loads(q.output).value));
              && (it.Err? ==> r == Report([], FailureVerdict(it.error)))
              && (it.Ok? && Profiles(it.value).Err? ==> r == Report([], FailureVerdict(Profiles(it.value).error)))
              && (it.Ok? && Profiles(it.value).Ok? && r.printedBefore != [] ==>
                    var en, dis := EnabledNames(Profiles(it.value).value), DisabledNames(Profiles(it.value).value);
                    r.verdict == FailureVerdict(if Branch(|en|, |it.value|) != Fail && Join(", ", en).Err?
                                                then Join(", ", en).error else Join(", ", dis).error))
  {
  }
}
