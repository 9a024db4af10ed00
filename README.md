# Security scanner verdict logic in Dafny

`SecurityScanner` (in `dissertation.py`) checks five Windows security settings.
For each one it runs a PowerShell query, decodes the JSON the query prints, and
prints a status line (`Status: PASS`, `WARN`, `FAIL` or `ERROR`) with a few
explanation lines. The five checks are antivirus, firewall, the local account
password, automatic updates and User Account Control. `run_scan` picks which
checks to run from a scan type, and `main` takes the scan type from the command
line, with "Full Scan" as the default.

This project models the part that interprets the data. Each check starts from
the query's outcome, which is its trimmed output text and whether it exited
with code 0, plus a decoder that stands for `json.loads`. The model states the
report the check prints for every input, including every exception the Python
code can raise on unexpected data and the message that exception prints.

Modules:

- `PyJson` (`py_json.dfy`): decoded JSON values, and the Python operations the
  checks apply to them, with Python's exact behaviour on every type. These are
  truthiness, `dict.get`, `in`, `[]`, `for` iteration, `>` and `==` against
  literals, `', '.join`, and `str()`/`repr()`. It also has the CPython
  messages of the exceptions they raise.
- `Verdicts` (`verdicts.dfy`): statuses, verdicts, reports and printed lines,
  the query outcome, and the "data was retrieved" test the checks share.
- `Antivirus`, `Firewall`, `Password`, `WindowsUpdate`, `Uac`: one module per
  check. The two checks built around a loop (`check_antivirus` and
  `check_firewall`) are methods with a `while` loop, each proved equal to a
  specification function. The other three checks are if/elif chains, written as
  functions.
- `Scan` (`scan.dfy`): `run_scan`'s dispatch and `main`'s default, as methods
  proved against `ScanOutput`.

The model follows the code also where a natural reading of what a check is
for differs from what it does:

- An empty firewall profile list passes, because `len([]) == len(data)`.
- When several antivirus products are active, the one reported is the last
  active one, not the first.
- A missing `EnableLUA` value defaults to 0, so the UAC check reports FAIL
  rather than ERROR. An explicit `null` is not equal to 0 and goes on to the
  prompt rules.
- When a firewall profile name is not a string, `', '.join` raises after the
  branch has already printed its status line. The output then holds two
  status lines, the branch's and `Status: ERROR`.

## Model

| member | source | states |
|---|---|---|
| PyJson.Lookup | dissertation.py:62 | a key is found exactly when some field has it, and the value returned is stored under that key |
| PyJson.FieldOr | dissertation.py:120-121 | `d.get(key, default)`: the default exactly when the key is absent, otherwise a value stored under the key |
| PyJson.Get | dissertation.py:120 | `.get` succeeds only on a dict and returns the field or the default; on any other type it raises AttributeError naming the type |
| PyJson.Contains | dissertation.py:61 | `key in v` tests a dict's keys, a string's substrings and a list's elements; on None, bool and int it raises the "argument of type 'X' is not iterable" TypeError naming the type |
| PyJson.Index | dissertation.py:62 | `v[key]` succeeds exactly on a dict that has the key, and yields its value; a dict without it raises KeyError, a string or list raises the TypeError for a string index, and any other type is not subscriptable |
| PyJson.Iterate | dissertation.py:60 | `for x in v` visits a list's items, a string's one-character strings or a dict's keys, in order; every other type raises the "'X' object is not iterable" TypeError naming its type |
| PyJson.GreaterThan | dissertation.py:70 | `v > n` compares ints and bools (as 0 or 1); every other type raises the `'>' not supported` TypeError naming its type and int |
| PyJson.Join | dissertation.py:88 | `', '.join` succeeds exactly when every item is a string; it then joins their texts, and otherwise names a non-string item |
| PyJson.DecimalRoundTrip | dissertation.py:87 | the decimal text `str()` prints for a natural number reads back as that number |
| PyJson.IntToDecimal | dissertation.py:87 | `str()` of an int is its digits, preceded by `-` when negative, and its value is the int |
| PyJson.ReprString | dissertation.py:97 | a string's repr is enclosed in the quote character Python picks for it |
| PyJson.UnescapeEscapeAll | dissertation.py:97 | undoing repr's escaping of a string's body gives back the string |
| PyJson.ReprStringRoundTrip | dissertation.py:97 | the text inside a string's repr decodes back to the string, so each message identifies the key or value it quotes |
| PyJson.Str | dissertation.py:87 | `str()` of a string is its text, of None is `None`, and of a natural number is its decimal digits |
| PyJson.Message | dissertation.py:97 | a decoding error prints the decoder's own message |
| PyJson.Truthy | dissertation.py:79-85 | Python truthiness (no contract of its own); Antivirus.Conclude, Antivirus.DefenderShape and Firewall.ReadProfile state what the checks decide with it |
| PyJson.EqInt | dissertation.py:279-290 | `v == n` with a bool equal to 0 or 1 (no contract of its own); WindowsUpdate.PolicyVerdict and Uac.NullEnableLuaIsNotDisabled state its consequences |
| PyJson.AsList | dissertation.py:54-55 | a single dict becomes a one-item list (no contract of its own); Antivirus.SingleProduct states what it does for the antivirus check |
| Verdicts.Printed | dissertation.py:86-89 | the rendering of a report: its earlier lines, then its status line, then its explanation lines, in that order (a one-line rendering, stated as it is computed) |
| Antivirus.ClassifyEntryRules | dissertation.py:60-83 | an entry is listed only when it is a dict with a displayName; a productState decides activity by comparison with 200000, and a state of another type raises the comparison TypeError; otherwise both Defender flags must be truthy; a string or list holding "displayName" raises the TypeError of indexing it by a string, and one not holding it is skipped; None, bool and int raise the TypeError of `in`; no entry raises AttributeError or KeyError |
| Antivirus.ClassifyEntry | dissertation.py:61-83 | one pass of the loop body (no contract of its own); its rules are in Antivirus.ClassifyEntryRules |
| Antivirus.Entries | dissertation.py:60-83 | the whole loop (no contract of its own); Antivirus.EntriesFirstError, Antivirus.EntriesStep and Antivirus.EntriesErrorPersists state its properties |
| Antivirus.LastActiveName | dissertation.py:58-80 | the final `active_av` (no contract of its own); Antivirus.LastActiveNameIsLast states it |
| Antivirus.EntriesFirstError | dissertation.py:60-83 | the loop succeeds exactly when every entry classifies; otherwise it raises the error of the first entry that fails; it lists at most one label per entry |
| Antivirus.EntriesStep | dissertation.py:60-83 | a proof helper that unfolds Entries at a prefix: one more loop iteration extends the result of the entries before it by the next entry's outcome; Antivirus.ScanEntries uses it to keep its loop invariant |
| Antivirus.EntriesErrorPersists | dissertation.py:60-83 | once an entry raises, the rest of the loop is not reached and the whole loop raises the same error |
| Antivirus.LastActiveNameIsLast | dissertation.py:72-80 | `active_av` ends as the name of the last active product, or None when no product is active |
| Antivirus.Labels | dissertation.py:74-83 | `av_list` holds one label per listed product, in loop order (a one-line rendering, stated as it is computed) |
| Antivirus.Conclude | dissertation.py:85-94 | PASS exactly when `active_av` is truthy, with that product named on the first and third lines and every label joined on the "All Detected: " line; otherwise FAIL with "None", and the "Detected Products: " line joins every label, or says "None" for an empty list |
| Antivirus.AntivirusCheck | dissertation.py:47-102 | a failed, empty or NO_AV_FOUND query gives the ERROR retrieval report; undecodable text gives ERROR with the decoder's message; a payload that cannot be looped over, or an entry that raises, gives ERROR with that exception's message; otherwise the verdict on the last active name and the labels of the listed products; the check never warns |
| Antivirus.ScanEntries | dissertation.py:57-83 | the `for` loop ends with the last active name and the labels of the listed products, or raises the first entry's error, exactly as Entries describes |
| Antivirus.CheckAntivirus | dissertation.py:47-102 | the check prints exactly the report AntivirusCheck describes |
| Antivirus.AntivirusVerdictRule | dissertation.py:60-94 | on readable data, PASS exactly when the last active product has a truthy name, and that name is reported; otherwise FAIL; both verdicts list every product's Active/Inactive label, and an empty list is the "None" FAIL |
| Antivirus.AntivirusExceptionIsError | dissertation.py:95-98 | an exception while reading the payload gives ERROR, the parse-failure line ending in the message of the exception raised: the payload's own, or that of the first entry that raises |
| Antivirus.SecurityCenterShape | dissertation.py:65-76 | a security-center entry `{displayName, productState}` is active exactly when its state exceeds 200000 |
| Antivirus.DefenderShape | dissertation.py:77-83 | a Defender entry is active exactly when both AntivirusEnabled and RealTimeProtectionEnabled are truthy |
| Antivirus.SingleProduct | dissertation.py:53-94 | a single object is wrapped into a one-item list, and one listed product decides the report alone |
| Antivirus.AntivirusActiveStateExample | dissertation.py:65-89 | productState 397312 passes and names the product |
| Antivirus.AntivirusInactiveStateExample | dissertation.py:65-94 | productState 100000 fails |
| Antivirus.AntivirusDefenderFallbackExample | dissertation.py:53-89 | the Defender object with both flags true passes and names "Windows Defender" |
| Antivirus.ActiveNameLine | dissertation.py:87 | the active line names the active product |
| Firewall.ReadProfile | dissertation.py:120-124 | a profile's name defaults to "Unknown" and its flag is the truthiness of Enabled (default False); a non-dict raises AttributeError |
| Firewall.Profiles | dissertation.py:119-124 | a loop that does not raise reads one profile per item |
| Firewall.ProfilesReadAll | dissertation.py:119-124 | the loop succeeds exactly when every item is a dict and then reads them in order; otherwise it raises the AttributeError of a non-dict item |
| Firewall.ProfilesErrorPersists | dissertation.py:119-124 | once an item raises, the whole loop raises the same error |
| Firewall.ProfilesStep | dissertation.py:119-124 | a proof helper that unfolds Profiles at a prefix: one more iteration appends the next item's profile, or raises its error; Firewall.SortProfiles uses it to keep its loop invariant |
| Firewall.Names | dissertation.py:120 | the profile names, in order (a one-line rendering, stated as it is computed; the partner of EnabledNames and DisabledNames in Firewall.PartitionProfiles) |
| Firewall.EnabledNames | dissertation.py:116-124 | `enabled_profiles` (no contract of its own); Firewall.PartitionProfiles and Firewall.ProfilePlaced state its properties |
| Firewall.DisabledNames | dissertation.py:116-124 | `disabled_profiles` (no contract of its own); Firewall.PartitionProfiles and Firewall.ProfilePlaced state its properties |
| Firewall.Branch | dissertation.py:126-139 | the branch the profile counts select (no contract of its own); Firewall.BranchMeaning states it in terms of the profiles' flags |
| Firewall.Headline | dissertation.py:129-141 | the line each branch prints after its status line (no contract of its own); Firewall.AllEnabled, Firewall.Partial and Firewall.AllDisabled state where it is printed |
| Firewall.PartitionCounts | dissertation.py:116-124 | the enabled and disabled lists together hold every profile name exactly once |
| Firewall.ProfilePlaced | dissertation.py:121-124 | each profile's name is in the list its flag selects |
| Firewall.NamesStep | dissertation.py:121-124 | a proof helper: one more profile appends its name to the list its flag selects and leaves the other unchanged |
| Firewall.UniformProfiles | dissertation.py:121-124 | when all flags agree, one list holds all the names in order |
| Firewall.PartitionProfiles | dissertation.py:116-126 | the lists partition the names; the enabled list is full exactly when every profile is enabled, and empty exactly when none is |
| Firewall.AllEnabled | dissertation.py:126-131 | PASS with three lines, the headline and then "Enabled Profiles: " with the joined enabled names, when those names join; otherwise ERROR with the join's message, after the PASS status line and the headline |
| Firewall.Partial | dissertation.py:132-138 | WARN with four lines, the headline, the joined enabled names, the joined disabled ones, and the rationale naming the disabled profiles to fix, when both joins succeed; otherwise ERROR with the message of the first join that fails, after the WARN status line, the headline and, when the enabled names joined, the "Enabled: " line |
| Firewall.AllDisabled | dissertation.py:139-144 | FAIL with three lines, the headline and then "Disabled Profiles: " with the joined disabled names, when those names join; otherwise ERROR with the join's message, after the FAIL status line and the headline |
| Firewall.Decide | dissertation.py:126-148 | PASS when every item is enabled, WARN when some are, otherwise FAIL, each with the name lists that branch prints, including the warning's rationale naming the disabled profiles; a join failure is ERROR with that join's message, exactly when a join the branch performs fails, and follows every line the branch printed before that join |
| Firewall.BranchMeaning | dissertation.py:126-144 | the branch taken: PASS iff every profile is enabled, WARN iff some are and some are not, FAIL iff the list is non-empty and none is |
| Firewall.FirewallCheck | dissertation.py:108-152 | a failed or empty query gives the ERROR retrieval report; a PASS or FAIL is never preceded by other lines and has three lines, a warning four |
| Firewall.SortProfiles | dissertation.py:116-124 | the `for` loop ends with the enabled and disabled names, in input order, or raises the first non-dict item's error, exactly as Profiles describes |
| Firewall.CheckFirewall | dissertation.py:108-152 | the check prints exactly the report FirewallCheck describes |
| Firewall.AllStringsAppend | dissertation.py:130-143 | a list of names joins exactly when both of its parts do |
| Firewall.PartsAllStrings | dissertation.py:130-143 | a proof helper: every name is a string exactly when every name in both lists is |
| Firewall.JoinsSucceed | dissertation.py:130-143 | both joins succeed exactly when every profile name is a string |
| Firewall.FirewallVerdictRule | dissertation.py:126-144 | with string names: both joins succeed; PASS iff all profiles are enabled, WARN iff some but not all, FAIL iff none of a non-empty list; PASS and FAIL list every profile name, the warning the enabled and then the disabled ones, and its rationale names the disabled ones |
| Firewall.DecideOnStringNames | dissertation.py:126-144 | with string names nothing is printed before the status, and a PASS or FAIL has every name in its one list |
| Firewall.FirewallPrintsTwoStatusesOnlyForNonStringNames | dissertation.py:126-148 | lines are printed before the ERROR status exactly when some profile name is not a string; they start with a PASS, WARN or FAIL status line and that branch's headline |
| Firewall.DecideRaisesOnJoin | dissertation.py:126-148 | a proof helper: when the two lists split all the items, lines precede the status exactly when one of the two joins fails |
| Firewall.FirewallEmptyListPasses | dissertation.py:126-131 | an empty profile list passes with an empty enabled list |
| Firewall.FirewallOneDisabledExample | dissertation.py:132-138 | three profiles with the middle one off give WARN, naming that one as disabled |
| Firewall.ThreeProfiles | dissertation.py:119-124 | three Get-NetFirewallProfile objects split into the expected enabled and disabled lists |
| Firewall.DecideOneDisabled | dissertation.py:132-138 | two enabled names out of three warn and list the disabled one |
| Firewall.ProfileShape | dissertation.py:120-121 | an object `{Name, Enabled}` reads as that name with the truthiness of that flag |
| Firewall.ProfilesOfReadable | dissertation.py:119-124 | when every item reads as a profile, the loop keeps them in order |
| Firewall.FirewallErrorCases | dissertation.py:108-152 | ERROR exactly when the query gave no data, the text did not decode, the payload could not be looped over, an item was not a dict, or a name could not be joined; each parse failure prints the message of its own exception |
| Password.Evaluate | dissertation.py:196-216 | on a dict: PASS iff a password is required and its last-set value is not "Never", WARN iff required and "Never", FAIL iff not required; the user line names the username (default "Unknown"); a non-dict raises AttributeError |
| Password.PasswordCheck | dissertation.py:194-224 | a failed, empty or USER_NOT_FOUND query gives the ERROR retrieval report; undecodable text or a non-dict gives ERROR with the parse message; otherwise the report Evaluate decides |
| Password.NotRequiredFailsRegardlessOfLastSet | dissertation.py:202-216 | without the required flag the check fails, whatever the last-set value |
| Password.OnlyThreeKeysMatter | dissertation.py:198-200 | only Username, PasswordRequired and PasswordLastSet decide the report |
| Password.EmptyPayloadFails | dissertation.py:198-216 | an empty object takes every default and fails for user "Unknown" |
| Password.PasswordExamples | dissertation.py:202-216 | required with a date passes, required with "Never" warns, not required fails |
| WindowsUpdate.PolicyVerdict | dissertation.py:279-294 | FAIL iff NoAutoUpdate equals 1 (or True); PASS iff not and AUOptions is 4 or 3; WARN otherwise; never ERROR |
| WindowsUpdate.PolicyRuleOf | dissertation.py:279-294 | the first policy rule that holds (no contract of its own); WindowsUpdate.PolicyVerdict and WindowsUpdate.WarningRules state its conditions |
| WindowsUpdate.PolicyLines | dissertation.py:279-294 | every policy outcome prints two explanation lines |
| WindowsUpdate.WarningRules | dissertation.py:287-294 | of the two warnings, "notify only" iff AUOptions is 2, and the unknown configuration iff AUOptions is none of 2, 3 and 4 |
| WindowsUpdate.ServiceVerdict | dissertation.py:301-308 | PASS iff the service is "Running" with start type "Automatic" or "Manual"; otherwise FAIL, naming the status and start type |
| WindowsUpdate.Evaluate | dissertation.py:272-312 | the whole decision chain (no contract of its own); WindowsUpdate.ObjectBranches and WindowsUpdate.NonObjectOutcomes state every outcome |
| WindowsUpdate.ObjectBranches | dissertation.py:272-312 | on a dict: the policy verdict when NoAutoUpdate is a key (AUOptions defaults to 4), else the service verdict when ServiceStatus is, else undetermined; never an exception |
| WindowsUpdate.NonObjectOutcomes | dissertation.py:272-312 | None, bool and int raise TypeError at `in`; a string or list holding either key raises AttributeError at `.get`, and one holding neither is undetermined |
| WindowsUpdate.DisabledPolicyDominates | dissertation.py:279-282 | NoAutoUpdate equal to 1 gives the disabled-updates FAIL whatever AUOptions and the service say |
| WindowsUpdate.ServiceIgnoredUnderPolicy | dissertation.py:272-299 | once NoAutoUpdate is present, only it and AUOptions decide the verdict |
| WindowsUpdate.UpdateCheck | dissertation.py:265-321 | a failed, empty or NO_UPDATE_INFO query gives only a WARN; undecodable text gives ERROR; otherwise Evaluate's verdict or its exception as ERROR |
| WindowsUpdate.PolicyShape | dissertation.py:272-274 | the registry query's object is judged by its two policy values |
| WindowsUpdate.DisabledExample | dissertation.py:279-282 | NoAutoUpdate 1 with AUOptions 4 fails |
| WindowsUpdate.AutoDownloadExample | dissertation.py:283-286 | AUOptions 3 passes |
| WindowsUpdate.NotifyOnlyExample | dissertation.py:287-290 | AUOptions 2 warns "notify only" |
| WindowsUpdate.MissingAuOptionsExample | dissertation.py:274-286 | a missing AUOptions defaults to 4, so automatic updates are reported enabled |
| WindowsUpdate.NullAuOptionsExample | dissertation.py:291-294 | a null AUOptions is an unknown configuration |
| WindowsUpdate.ServiceExample | dissertation.py:301-308 | a stopped, disabled service fails |
| Uac.SettingsOf | dissertation.py:347-349 | the defaults: EnableLUA 0, ConsentPromptBehaviorAdmin 5, PromptOnSecureDesktop 1 |
| Uac.RuleLines | dissertation.py:362-386 | every rule prints two explanation lines |
| Uac.RuleOf | dissertation.py:362-386 | the first UAC rule that holds (no contract of its own); Uac.Decide and Uac.CustomOnlyWhenNoRuleMatches state its conditions |
| Uac.Decide | dissertation.py:362-386 | the first matching rule wins: PASS iff UAC is on at the maximum level with the secure desktop; FAIL iff UAC is off or never notifies; WARN otherwise; never ERROR |
| Uac.CustomOnlyWhenNoRuleMatches | dissertation.py:362-386 | "Custom configuration" iff no named rule matches; UAC off and the maximum level are never shadowed by a later rule |
| Uac.Evaluate | dissertation.py:345-386 | a dict is judged by Decide on its three values with their defaults; a non-dict raises AttributeError |
| Uac.UacCheck | dissertation.py:341-395 | a failed, empty or NO_UAC_INFO query gives the ERROR retrieval report; undecodable text or a non-dict gives ERROR; otherwise Decide's verdict |
| Uac.DisabledDominates | dissertation.py:362-365 | EnableLUA 0 gives the UAC-disabled FAIL whatever the prompt settings |
| Uac.MissingEnableLuaFails | dissertation.py:347-365 | a payload without EnableLUA gets the UAC-disabled FAIL |
| Uac.NullEnableLuaIsNotDisabled | dissertation.py:362 | a null EnableLUA is not 0, so it is judged like EnableLUA 1 |
| Uac.NeverNotifyFails | dissertation.py:379-382 | ConsentPromptBehaviorAdmin 0 fails whatever the secure-desktop value |
| Uac.PassNeedsSecureDesktop | dissertation.py:366-370 | PASS requires PromptOnSecureDesktop 1, and turning it off makes that setting a warning |
| Uac.OnlyThreeKeysMatter | dissertation.py:347-349 | only the three registry values decide the report |
| Uac.QuerySettings | dissertation.py:331-335 | the query's three-key object is read as exactly those three values |
| Uac.AlwaysNotifyExample | dissertation.py:366-370 | level 2 with the secure desktop is the maximum level |
| Uac.WindowsDefaultExample | dissertation.py:371-374 | the Windows default (5 with the secure desktop) is the default level |
| Uac.CustomLevelExample | dissertation.py:383-386 | level 2 without the secure desktop is a custom configuration |
| Scan.CheckOutput | dissertation.py:23-25 | each check's output starts with its banner line |
| Scan.Single | dissertation.py:408-417 | the five single-check scan types name their check, and every other name names none |
| Scan.RunCheck | dissertation.py:398-417 | one check call prints exactly its banner and report |
| Scan.RunScan | dissertation.py:397-419 | run_scan prints exactly ScanOutput for the scan type |
| Scan.ScanOutput | dissertation.py:397-419 | what run_scan prints (no contract of its own); Scan.SingleScanRunsOneCheck, Scan.UnknownScanTypeRunsNothing and Scan.FullScanIsSingleScansInOrder state it for each scan type |
| Scan.ScanTypeOf | dissertation.py:423-426 | the first argument is the scan type, and "Full Scan" when there is none (stated as it is computed) |
| Scan.Start | dissertation.py:422-431 | main prints exactly the scan output for the scan type its arguments name |
| Scan.SingleScanRunsOneCheck | dissertation.py:408-417 | a single-check scan type runs that check and nothing else |
| Scan.NamesAreDistinct | dissertation.py:398-417 | no single-check scan type is "Full Scan", and each selects its own check |
| Scan.UnknownScanTypeRunsNothing | dissertation.py:418-419 | any other scan type prints one "Unknown scan type" line and runs no check |
| Scan.FullScanIsSingleScansInOrder | dissertation.py:398-407 | the full scan prints the five single scans in order, with a blank line between two |
| Scan.FailedQueryNeverPasses | dissertation.py:49-102 | a failed query, empty output or sentinel output never passes: ERROR, except WARN for Windows Update |
| Scan.StatusFollowsBanner | dissertation.py:23-102 | outside the firewall check, the status line directly follows the banner |
| Scan.MalformedOutputIsError | dissertation.py:95-98 | output that does not decode makes every check report ERROR |
| Scan.NoArgumentMeansFullScan | dissertation.py:422-431 | with no arguments main runs the full scan |

## Left out

- `run_powershell` and the PowerShell scripts are not modelled. A check takes the query's outcome as a parameter: its trimmed output and whether it exited with code 0. The 30-second timeout and spawn failures show up only as a failed outcome.
- `json.loads` is a parameter of each check. The model states what a check does with each decoded value and with a decoding failure, not how text is parsed.
- Printing is modelled as the sequence of lines a check prints. Buffering and interleaving with standard error are not modelled.
- JSON floats have no case in the value type. The queries emit integers, booleans, strings and null for the fields the checks read.
- Objects with duplicate keys keep the first occurrence in the model. Python's decoder keeps the last.
- `repr` escapes only ASCII control characters, backslash and quotes. Non-ASCII characters are printed as they are, which is what Python does for printable ones; escapes for non-printable Unicode are not modelled.
- Exception messages follow CPython 3.11 and 3.12. Other versions word a few of them differently.
- The C# program that starts the scanner and reads its output is not part of this model.
- Firewall.FirewallCheck: its own contract covers only the retrieval failure and the shape of each verdict. The other outcomes are stated in Firewall.FirewallErrorCases (every error path with its message), Firewall.FirewallVerdictRule (the verdicts and the name lists they print) and Firewall.FirewallPrintsTwoStatusesOnlyForNonStringNames.
