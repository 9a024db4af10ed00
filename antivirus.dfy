/** check_antivirus: classifies each product the security center (or, failing
    that, Defender) reports as active or inactive, then reports the outcome. */
module Antivirus {
  import opened PyJson
  import opened Verdicts

  /** What the query prints when neither source answers. */
  const NoAvFound := "NO_AV_FOUND"

  /** A `productState` above this is read as an active product. */
  const ActiveStateThreshold := 200000

  /** A product the loop lists: its display name (any JSON value) and whether
      it was judged active. */
  datatype Product = Product(name: Json, active: bool)

  /** The number a boolean or integer stands for in a comparison. */
  function Numeric(v: Json): int
    requires v.JInt? || v.JBool?
  {
    if v.JInt? then v.i else if v.b then 1 else 0
  }

  /** One pass of the loop body: `None` when the entry is skipped. Its rules
      are stated in ClassifyEntryRules. */
  function ClassifyEntry(av: Json): Result<Option<Product>>
  {
    match Contains(av, "displayName")
    case Err(e) => Err(e)
    case Ok(listed) =>
      if !listed then Ok(None)
      else
        match Index(av, "displayName")
        case Err(e) => Err(e)
        case Ok(name) =>
          if HasKey(av.fields, "productState") then
            match GreaterThan(FieldOr(av.fields, "productState", JNull), ActiveStateThreshold)
            case Err(e) => Err(e)
            case Ok(active) => Ok(Some(Product(name, active)))
          else
            var enabled := FieldOr(av.fields, "AntivirusEnabled", JNull);
            var realTime := FieldOr(av.fields, "RealTimeProtectionEnabled", JNull);
            Ok(Some(Product(name, Truthy(enabled) && Truthy(realTime))))
  }

  /** The products the loop over `items` lists, in order, or the exception the
      first failing entry raises. */
  function Entries(items: seq<Json>): Result<seq<Product>>
    decreases |items|
  {
    if items == [] then Ok([])
    else
      var init := items[..|items| - 1];
      Extend(Entries(init), ClassifyEntry(items[|items| - 1]))
  }

  /** One more pass of the loop: an error stays, a listed product is appended. */
  function Extend(sofar: Result<seq<Product>>, entry: Result<Option<Product>>): Result<seq<Product>>
  {
    match sofar
    case Err(e) => Err(e)
    case Ok(ps) =>
      match entry
      case Err(e) => Err(e)
      case Ok(None) => Ok(ps)
      case Ok(Some(p)) => Ok(ps + [p])
  }

  lemma EntriesStep(items: seq<Json>, i: nat)
    requires i < |items|
    ensures Entries(items[..i + 1]) == Extend(Entries(items[..i]), ClassifyEntry(items[i]))
  {
    var prefix := items[..i + 1];
    assert prefix[..i] == items[..i] && prefix[i] == items[i];
  }

  /** The rules of one pass of the loop body. */
  lemma ClassifyEntryRules(av: Json)
    // only a dict with a displayName is listed
    ensures var r := ClassifyEntry(av);
            r.Ok? && r.value.Some? ==> av.JObject? && HasKey(av.fields, "displayName")
                                       && r.value.value.name == FieldOr(av.fields, "displayName", JNull)
    ensures av.JObject? && !HasKey(av.fields, "displayName") ==> ClassifyEntry(av) == Ok(None)
    // a productState decides alone, by the threshold
    ensures var r := ClassifyEntry(av);
            av.JObject? && HasKey(av.fields, "displayName") && HasKey(av.fields, "productState") ==>
              var state := FieldOr(av.fields, "productState", JNull);
              (r.Ok? <==> state.JInt? || state.JBool?)
              && (r.Ok? ==> r.value.Some? && (r.value.value.active <==> Numeric(state) > ActiveStateThreshold))
              && (r.Err? ==> r.error == Unorderable(">", TypeName(state), "int"))
    // otherwise both Defender flags must be truthy
    ensures var r := ClassifyEntry(av);
            av.JObject? && HasKey(av.fields, "displayName") && !HasKey(av.fields, "productState") ==>
              r.Ok? && r.value.Some?
              && (r.value.value.active <==> Truthy(FieldOr(av.fields, "AntivirusEnabled", JNull))
                                             && Truthy(FieldOr(av.fields, "RealTimeProtectionEnabled", JNull)))
    // a string or a list is skipped unless it holds "displayName", which it
    // then cannot be indexed by; the characters of a string are always skipped
    ensures av.JString? ==>
              ClassifyEntry(av) == if IsSubstring("displayName", av.s) then Err(StrIndexedByStr) else Ok(None)
    ensures av.JArray? ==>
              ClassifyEntry(av) == if JString("displayName") in av.items then Err(ListIndexedByStr) else Ok(None)
    ensures av.JString? && |av.s| == 1 ==> ClassifyEntry(av) == Ok(None)
    // None, booleans and numbers raise on `in`
    ensures av.JNull? || av.JBool? || av.JInt? ==> ClassifyEntry(av) == Err(NotContainer(TypeName(av)))
    // `.get` is reached only on a dict, and `[]` only after `in` found the
    // key, so no entry raises AttributeError or KeyError
    ensures ClassifyEntry(av).Err? ==> !ClassifyEntry(av).error.NoAttribute? && !ClassifyEntry(av).error.KeyMissing?
  {
    if av.JString? && |av.s| == 1 {
      assert !IsSubstring("displayName", av.s);
    }
  }

  /** The loop succeeds exactly when every entry classifies, and otherwise
      raises the error of the first entry that fails. */
  lemma {:induction false} EntriesFirstError(items: seq<Json>)
    ensures Entries(items).Ok? <==> forall k :: 0 <= k < |items| ==> ClassifyEntry(items[k]).Ok?
    ensures Entries(items).Err? ==>
              exists k :: 0 <= k < |items| && ClassifyEntry(items[k]) == Err(Entries(items).error)
                          && forall j :: 0 <= j < k ==> ClassifyEntry(items[j]).Ok?
    ensures Entries(items).Ok? ==> |Entries(items).value| <= |items|
    decreases |items|
  {
    if items != [] {
      var init := items[..|items| - 1];
      EntriesFirstError(init);
      assert forall k :: 0 <= k < |init| ==> init[k] == items[k];
    }
  }

  /** Once a prefix of the items raises, the whole loop raises the same. */
  lemma {:induction false} EntriesErrorPersists(items: seq<Json>, n: nat)
    requires 0 < n <= |items|
    requires Entries(items[..n]).Err?
    ensures Entries(items) == Entries(items[..n])
    decreases |items|
  {
    if n < |items| {
      var init := items[..|items| - 1];
      assert init[..n] == items[..n];
      EntriesErrorPersists(init, n);
    } else {
      assert items[..n] == items;
    }
  }

  /** The value `active_av` ends with: overwritten by every active product, so
      the name of the last one, and None when there is none. */
  function LastActiveName(ps: seq<Product>): Json
  {
    if ps == [] then JNull
    else if ps[|ps| - 1].active then ps[|ps| - 1].name
    else LastActiveName(ps[..|ps| - 1])
  }

  lemma {:induction false} LastActiveNameIsLast(ps: seq<Product>)
    ensures (forall k :: 0 <= k < |ps| ==> !ps[k].active) ==> LastActiveName(ps) == JNull
    ensures (exists k :: 0 <= k < |ps| && ps[k].active) ==>
              exists k :: 0 <= k < |ps| && ps[k].active && LastActiveName(ps) == ps[k].name
                          && forall j :: k < j < |ps| ==> !ps[j].active
  {
    if ps != [] && !ps[|ps| - 1].active {
      var init := ps[..|ps| - 1];
      LastActiveNameIsLast(init);
      assert forall k :: 0 <= k < |init| ==> init[k] == ps[k];
      if exists k :: 0 <= k < |ps| && ps[k].active {
        var k :| 0 <= k < |ps| && ps[k].active;
        assert init[k].active;
      }
    }
  }

  /** The entry `av_list` gets for a product. */
  function Label(p: Product): string
  {
    Str(p.name) + (if p.active then " (Active)" else " (Inactive)")
  }

  function Labels(ps: seq<Product>): (r: seq<string>)
    ensures |r| == |ps| && forall k :: 0 <= k < |ps| ==> r[k] == Label(ps[k])
  {
    seq(|ps|, k requires 0 <= k < |ps| => Label(ps[k]))
  }

  /** The verdict after the loop, from `active_av` and `av_list`. */
  function Conclude(activeAv: Json, avList: seq<string>): (v: Verdict)
    ensures |v.lines| == 3
    ensures v.status == Pass <==> Truthy(activeAv)
    ensures v.status == Pass ==> v.lines[0] == "Active Antivirus: " + Str(activeAv)
    ensures v.status == Fail <==> !Truthy(activeAv)
    ensures v.status == Fail ==> v.lines[0] == "Active Antivirus: None"
    ensures v.status == Fail && avList == [] ==> v.lines[1] == "Detected Products: None"
    // every detected product is listed, with its label
    ensures v.status == Pass ==> v.lines[1] == "All Detected: " + JoinStrings(", ", avList)
    ensures v.status == Pass ==> v.lines[2] == Str(activeAv) + " is protecting your system"
    ensures v.status == Fail && avList != [] ==> v.lines[1] == "Detected Products: " + JoinStrings(", ", avList)
  {
    if Truthy(activeAv) then
      Verdict(Pass, ["Active Antivirus: " + Str(activeAv),
                     "All Detected: " + JoinStrings(", ", avList),
                     Str(activeAv) + " is protecting your system"])
    else
      Verdict(Fail, ["Active Antivirus: None",
                     "Detected Products: " + (if avList != [] then JoinStrings(", ", avList) else "None"),
                     "No active antivirus detected"])
  }

  const RetrievalLines := ["Could not retrieve antivirus information",
                           "Ensure you have administrator privileges and try again"]

  function ParseFailure(e: PyError): Report
  {
    Plain(Error, ["Could not parse antivirus data: " + Message(e),
                  "Manually check Windows Security settings"])
  }

  /** The report check_antivirus prints, for a query outcome and a decoder. */
  function AntivirusCheck(q: QueryResult, loads: string -> Loaded): (r: Report)
    ensures r.printedBefore == []
    ensures 2 <= |r.verdict.lines| <= 3
    ensures r.verdict.status != Warn
    ensures !Retrieved(q, Some(NoAvFound)) ==> r == Plain(Error, RetrievalLines)
    ensures Retrieved(q, Some(NoAvFound)) && loads(q.output).Malformed? ==>
              r == ParseFailure(DecodeError(loads(q.output).message))
    // a decoded payload: the exception of the loop, or the verdict on the
    // last active name and the labels
    ensures Retrieved(q, Some(NoAvFound)) && loads(q.output).Parsed? ==>
              var it := Iterate(AsList(loads(q.output).value));
              && (it.Err? ==> r == ParseFailure(it.error))
              && (it.Ok? && Entries(it.value).Err? ==> r == ParseFailure(Entries(it.value).error))
              && (it.Ok? && Entries(it.value).Ok? ==>
                    r == Report([], Conclude(LastActiveName(Entries(it.value).value), Labels(Entries(it.value).value))))
  {
    if !Retrieved(q, Some(NoAvFound)) then Plain(Error, RetrievalLines)
    else
      match loads(q.output)
      case Malformed(m) => ParseFailure(DecodeError(m))
      case Parsed(data) =>
        match Iterate(AsList(data))
        case Err(e) => ParseFailure(e)
        case Ok(items) =>
          match Entries(items)
          case Err(e) => ParseFailure(e)
          case Ok(ps) => Report([], Conclude(LastActiveName(ps), Labels(ps)))
  }

  /** check_antivirus's loop: it appends to `av_list` and overwrites
      `active_av` in place, or stops at the first entry that raises. */
  method ScanEntries(items: seq<Json>) returns (res: Result<(Json, seq<string>)>)
    ensures res.Ok? <==> Entries(items).Ok?
    ensures res.Ok? ==> res.value == (LastActiveName(Entries(items).value), Labels(Entries(items).value))
    ensures res.Err? ==> res.error == Entries(items).error
  {
    var avList: seq<string> := [];
    var activeAv := JNull;
    ghost var ps: seq<Product> := [];
    var i := 0;
    while i < |items|
      invariant 0 <= i <= |items|
      invariant Entries(items[..i]) == Ok(ps)
      invariant avList == Labels(ps)
      invariant activeAv == LastActiveName(ps)
    {
      var entry := ClassifyEntry(items[i]);
      EntriesStep(items, i);
      if entry.Err? {
        EntriesErrorPersists(items, i + 1);
        return Err(entry.error);
      }
      if entry.value.Some? {
        var p := entry.value.value;
        if p.active {
          activeAv := p.name;
        }
        avList := avList + [Label(p)];
        ghost var before := ps;
        ps := ps + [p];
        assert ps[..|ps| - 1] == before;
      }
      i := i + 1;
    }
    assert items[..|items|] == items;
    res := Ok((activeAv, avList));
  }

  /** check_antivirus itself. */
  method CheckAntivirus(q: QueryResult, loads: string -> Loaded) returns (r: Report)
    ensures r == AntivirusCheck(q, loads)
  {
    if !Retrieved(q, Some(NoAvFound)) {
      return Plain(Error, RetrievalLines);
    }
    var loaded := loads(q.output);
    if loaded.Malformed? {
      return ParseFailure(DecodeError(loaded.message));
    }
    var data := loaded.value;
    if data.JObject? {
      data := JArray([data]);
    }
    var iterated := Iterate(data);
    if iterated.Err? {
      return ParseFailure(iterated.error);
    }
    var scanned := ScanEntries(iterated.value);
    if scanned.Err? {
      return ParseFailure(scanned.error);
    }
    r := Report([], Conclude(scanned.value.0, scanned.value.1));
  }

  /** PASS exactly when the last active product has a truthy name, and that
      product is the one reported; otherwise FAIL, with "None" for an empty
      list. */
  lemma AntivirusVerdictRule(q: QueryResult, loads: string -> Loaded, data: Json,
                             items: seq<Json>, ps: seq<Product>)
    requires Retrieved(q, Some(NoAvFound)) && loads(q.output) == Parsed(data)
    requires Iterate(AsList(data)) == Ok(items) && Entries(items) == Ok(ps)
    ensures var v := AntivirusCheck(q, loads).verdict;
            && (v.status == Pass || v.status == Fail)
            && (v.status == Pass <==>
                  exists k :: 0 <= k < |ps| && ps[k].active && Truthy(ps[k].name)
                              && forall j :: k < j < |ps| ==> !ps[j].active)
            && (v.status == Pass ==>
                  exists k :: 0 <= k < |ps| && ps[k].active && (forall j :: k < j < |ps| ==> !ps[j].active)
                              && v.lines[0] == "Active Antivirus: " + Str(ps[k].name))
            && (v.status == Pass ==> v.lines[1] == "All Detected: " + JoinStrings(", ", Labels(ps)))
            && (v.status == Fail && ps != [] ==>
                  v.lines[1] == "Detected Products: " + JoinStrings(", ", Labels(ps)))
            && (ps == [] ==> v == Verdict(Fail, ["Active Antivirus: None", "Detected Products: None",
                                                 "No active antivirus detected"]))
  {
    LastActiveNameIsLast(ps);
    var v := AntivirusCheck(q, loads).verdict;
    assert v == Conclude(LastActiveName(ps), Labels(ps));
    if exists k :: 0 <= k < |ps| && ps[k].active && Truthy(ps[k].name)
                   && forall j :: k < j < |ps| ==> !ps[j].active {
      var k :| 0 <= k < |ps| && ps[k].active && Truthy(ps[k].name)
               && forall j :: k < j < |ps| ==> !ps[j].active;
      var k' :| 0 <= k' < |ps| && ps[k'].active && LastActiveName(ps) == ps[k'].name
                && forall j :: k' < j < |ps| ==> !ps[j].active;
      assert k == k';
    }
  }

  /** An exception while reading the payload gives ERROR with the parse
      message followed by the exception's text: the payload's own when it
      cannot be looped over, else that of the first entry that raises. */
  lemma AntivirusExceptionIsError(q: QueryResult, loads: string -> Loaded, data: Json)
    requires Retrieved(q, Some(NoAvFound)) && loads(q.output) == Parsed(data)
    requires Iterate(AsList(data)).Err?
             || (Iterate(AsList(data)).Ok? && Entries(Iterate(AsList(data)).value).Err?)
    ensures var v := AntivirusCheck(q, loads).verdict;
            v.status == Error && StartsWith(v.lines[0], "Could not parse antivirus data: ")
    ensures var v := AntivirusCheck(q, loads).verdict;
            var e := if Iterate(AsList(data)).Err? then Iterate(AsList(data)).error
                     else Entries(Iterate(AsList(data)).value).error;
            v.lines[0] == "Could not parse antivirus data: " + Message(e)
    ensures Iterate(AsList(data)).Ok? ==>
              var items := Iterate(AsList(data)).value;
              exists k :: 0 <= k < |items| && ClassifyEntry(items[k]) == Err(Entries(items).error)
                          && forall j :: 0 <= j < k ==> ClassifyEntry(items[j]).Ok?
  {
    var v := AntivirusCheck(q, loads).verdict;
    var e := if Iterate(AsList(data)).Err? then Iterate(AsList(data)).error
             else Entries(Iterate(AsList(data)).value).error;
    assert v.lines[0] == "Could not parse antivirus data: " + Message(e);
    if Iterate(AsList(data)).Ok? {
      EntriesFirstError(Iterate(AsList(data)).value);
    }
  }

  /** The shape the security-center query emits for one product. */
  lemma SecurityCenterShape(name: Json, state: int)
    ensures ClassifyEntry(JObject([("displayName", name), ("productState", JInt(state))]))
         == Ok(Some(Product(name, state > ActiveStateThreshold)))
  {
    var fs := [("displayName", name), ("productState", JInt(state))];
    assert fs[0].0 == "displayName" && fs[1].0 == "productState";
    assert Lookup(fs, "displayName") == Some(name);
  }

  /** The shape the Defender fallback emits. */
  lemma DefenderShape(name: Json, enabled: Json, realTime: Json)
    ensures ClassifyEntry(JObject([("displayName", name), ("AntivirusEnabled", enabled),
                                   ("RealTimeProtectionEnabled", realTime)]))
         == Ok(Some(Product(name, Truthy(enabled) && Truthy(realTime))))
  {
    var fs := [("displayName", name), ("AntivirusEnabled", enabled), ("RealTimeProtectionEnabled", realTime)];
    assert fs[0].0 == "displayName";
    assert !HasKey(fs, "productState") by {
      assert fs[0].0[0] != 'p' && fs[1].0[0] != 'p' && fs[2].0[0] != 'p';
    }
    assert FieldOr(fs, "AntivirusEnabled", JNull) == enabled by {
      assert fs[1..][0].0 == "AntivirusEnabled";
      assert fs[0].0 != "AntivirusEnabled";
    }
    assert FieldOr(fs, "RealTimeProtectionEnabled", JNull) == realTime by {
      assert fs[1..][1..][0].0 == "RealTimeProtectionEnabled";
      assert fs[0].0 != "RealTimeProtectionEnabled";
      assert fs[1].0 != "RealTimeProtectionEnabled";
    }
    assert Lookup(fs, "displayName") == Some(name);
  }

  /** A payload holding one listed product. */
  lemma SingleProduct(q: QueryResult, loads: string -> Loaded, entry: Json, p: Product)
    requires Retrieved(q, Some(NoAvFound))
    requires loads(q.output) == Parsed(JArray([entry])) || (entry.JObject? && loads(q.output) == Parsed(entry))
    requires ClassifyEntry(entry) == Ok(Some(p))
    ensures AntivirusCheck(q, loads) == Report([], Conclude(if p.active then p.name else JNull, [Label(p)]))
  {
    assert [entry][..0] == [] && Entries([]) == Ok([]);
    assert [] + [p] == [p];
    assert Entries([entry]) == Ok([p]);
    assert [p][..0] == [];
    assert Labels([p]) == [Label(p)];
    assert LastActiveName([p]) == if p.active then p.name else JNull;
    assert Iterate(AsList(loads(q.output).value)) == Ok([entry]);
  }

  /** A third-party product whose productState is above the threshold passes. */
  lemma AntivirusActiveStateExample(q: QueryResult, loads: string -> Loaded)
    requires Retrieved(q, Some(NoAvFound))
    requires loads(q.output) == Parsed(JArray([JObject([("displayName", JString("Defender")),
                                                        ("productState", JInt(397312))])]))
    ensures AntivirusCheck(q, loads).verdict.status == Pass
    ensures AntivirusCheck(q, loads).verdict.lines[0] == "Active Antivirus: " + "Defender"
  {
    SecurityCenterShape(JString("Defender"), 397312);
    SingleProduct(q, loads, JObject([("displayName", JString("Defender")), ("productState", JInt(397312))]),
                  Product(JString("Defender"), true));
    ActiveNameLine("Defender", [Label(Product(JString("Defender"), true))]);
  }

  /** A productState at or below the threshold is inactive, so the check fails. */
  lemma AntivirusInactiveStateExample(q: QueryResult, loads: string -> Loaded)
    requires Retrieved(q, Some(NoAvFound))
    requires loads(q.output) == Parsed(JArray([JObject([("displayName", JString("X")),
                                                        ("productState", JInt(100000))])]))
    ensures AntivirusCheck(q, loads).verdict.status == Fail
  {
    SecurityCenterShape(JString("X"), 100000);
    SingleProduct(q, loads, JObject([("displayName", JString("X")), ("productState", JInt(100000))]),
                  Product(JString("X"), false));
  }

  /** The Defender fallback emits a single object; it is wrapped into a list
      and passes when both of its flags are true. */
  lemma AntivirusDefenderFallbackExample(q: QueryResult, loads: string -> Loaded)
    requires Retrieved(q, Some(NoAvFound))
    requires loads(q.output) == Parsed(JObject([("displayName", JString("Windows Defender")),
                                               ("AntivirusEnabled", JBool(true)),
                                               ("RealTimeProtectionEnabled", JBool(true))]))
    ensures AntivirusCheck(q, loads).verdict.status == Pass
    ensures AntivirusCheck(q, loads).verdict.lines[0] == "Active Antivirus: " + "Windows Defender"
  {
    var name := JString("Windows Defender");
    DefenderShape(name, JBool(true), JBool(true));
    SingleProduct(q, loads, loads(q.output).value, Product(name, true));
    ActiveNameLine("Windows Defender", [Label(Product(name, true))]);
  }

  /** A product with a non-empty string name is reported by that name. */
  lemma ActiveNameLine(name: string, avList: seq<string>)
    requires name != ""
    ensures Conclude(JString(name), avList).status == Pass
    ensures Conclude(JString(name), avList).lines[0] == "Active Antivirus: " + name
  {
  }
}
