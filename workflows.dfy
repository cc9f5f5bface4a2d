/** The catalogue of automated workflows: five fixed workflows, each a name, a
    description and an ordered list of step instructions, with lookup by key and
    a listing of (key, name) pairs. */
module Workflows {
  import opened PyDict
  import opened PyText

  datatype Workflow = Workflow(name: string, description: string, steps: seq<string>)

  /** The placeholder the first step of every workflow carries for the target. */
  const Placeholder := "{target}"

  /** `web_application` */
  const WebApplication := Workflow(
    "Web Application Security " +
    "Assessment",
    "Comprehensive web application " +
    "penetration testing",
    [WebApplicationStep1, WebApplicationStep2, WebApplicationStep3, WebApplicationStep4, WebApplicationStep5, WebApplicationStep6])

  const WebApplicationStep1 := "Discover web directories and " +
    "hidden content on " +
    "{target}"
  const WebApplicationStep2 := "Test for SQL injection " +
    "vulnerabilities"
  const WebApplicationStep3 := "Scan for web application " +
    "vulnerabilities and " +
    "misconfigurations"
  const WebApplicationStep4 := "Analyze SSL/TLS configuration " +
    "and security"
  const WebApplicationStep5 := "Test for authentication and " +
    "session management flaws"
  const WebApplicationStep6 := "Check for file inclusion and " +
    "upload vulnerabilities"

  /** `full_penetration_test` */
  const FullPenetrationTest := Workflow(
    "Complete Penetration Test",
    "Full-scope penetration testing " +
    "methodology",
    [FullPenetrationTestStep1, FullPenetrationTestStep2, FullPenetrationTestStep3, FullPenetrationTestStep4, FullPenetrationTestStep5, FullPenetrationTestStep6, FullPenetrationTestStep7])

  const FullPenetrationTestStep1 := "Phase 1: " +
    "Quick port scan to identify " +
    "open services on " +
    "{target}"
  const FullPenetrationTestStep2 := "Phase 2: " +
    "Service version detection on " +
    "discovered ports"
  const FullPenetrationTestStep3 := "Phase 3: " +
    "Web service discovery and " +
    "directory enumeration"
  const FullPenetrationTestStep4 := "Phase 4: " +
    "Focused vulnerability scanning " +
    "of services"
  const FullPenetrationTestStep5 := "Phase 5: " +
    "Targeted exploitation of " +
    "discovered vulnerabilities"
  const FullPenetrationTestStep6 := "Phase 6: " +
    "Post-exploitation enumeration " +
    "if access gained"
  const FullPenetrationTestStep7 := "Phase 7: " +
    "Compile findings and " +
    "remediation recommendations"

  /** `reverse_engineering` */
  const ReverseEngineering := Workflow(
    "Reverse Engineering Challenge",
    "Analyze and break down binaries " +
    "to reveal hidden logic and " +
    "extract the flag",
    [ReverseEngineeringStep1, ReverseEngineeringStep2, ReverseEngineeringStep3, ReverseEngineeringStep4, ReverseEngineeringStep5, ReverseEngineeringStep6, ReverseEngineeringStep7, ReverseEngineeringStep8])

  const ReverseEngineeringStep1 := "Phase 1: " +
    "Identify the challenge binary " +
    "or executable " +
    "{target}"
  const ReverseEngineeringStep2 := "Phase 2: " +
    "Perform static analysis (file " +
    "type, hashes, metadata, " +
    "embedded strings)"
  const ReverseEngineeringStep3 := "Phase 3: " +
    "Disassemble binary to " +
    "understand control flow and " +
    "logic"
  const ReverseEngineeringStep4 := "Phase 4: " +
    "Analyze functions handling " +
    "input validation or flag " +
    "comparison"
  const ReverseEngineeringStep5 := "Phase 5: " +
    "Conduct dynamic debugging to " +
    "observe runtime behavior"
  const ReverseEngineeringStep6 := "Phase 6: " +
    "Bypass obfuscation, " +
    "anti-debugging, or packed code"
  const ReverseEngineeringStep7 := "Phase 7: " +
    "Recover hardcoded secrets, " +
    "encoded data, or hidden flag"
  const ReverseEngineeringStep8 := "Phase 8: " +
    "Verify and submit the extracted " +
    "flag"

  /** `forensics` */
  const Forensics := Workflow(
    "Digital Forensics Challenge",
    "Investigate digital artifacts " +
    "to uncover evidence and recover " +
    "the hidden flag",
    [ForensicsStep1, ForensicsStep2, ForensicsStep3, ForensicsStep4, ForensicsStep5, ForensicsStep6, ForensicsStep7, ForensicsStep8])

  const ForensicsStep1 := "Phase 1: " +
    "Acquire the provided forensic " +
    "image, memory dump, or log " +
    "bundle " +
    "{target}"
  const ForensicsStep2 := "Phase 2: " +
    "Validate evidence integrity " +
    "using cryptographic hashes"
  const ForensicsStep3 := "Phase 3: " +
    "Carve and recover deleted or " +
    "hidden files for potential flag " +
    "storage"
  const ForensicsStep4 := "Phase 4: " +
    "Analyze file metadata, " +
    "timestamps, and unusual file " +
    "system activity"
  const ForensicsStep5 := "Phase 5: " +
    "Inspect memory artifacts for " +
    "credentials, processes, or " +
    "plain-text flags"
  const ForensicsStep6 := "Phase 6: " +
    "Examine logs, registry hives, " +
    "or browser artifacts for clues"
  const ForensicsStep7 := "Phase 7: " +
    "Correlate timeline events to " +
    "track attacker activity"
  const ForensicsStep8 := "Phase 8: " +
    "Extract and validate the hidden " +
    "flag from recovered evidence"

  /** `cryptography` */
  const Cryptography := Workflow(
    "Cryptography Challenge",
    "Break weak or flawed " +
    "cryptographic schemes to " +
    "recover the hidden flag",
    [CryptographyStep1, CryptographyStep2, CryptographyStep3, CryptographyStep4, CryptographyStep5, CryptographyStep6, CryptographyStep7, CryptographyStep8])

  const CryptographyStep1 := "Phase 1: " +
    "Identify the encryption or " +
    "encoding scheme used in " +
    "{target}"
  const CryptographyStep2 := "Phase 2: " +
    "Analyze provided ciphertext, " +
    "keys, or encoded flag fragments"
  const CryptographyStep3 := "Phase 3: " +
    "Search for predictable " +
    "patterns, frequency " +
    "distributions, or " +
    "known-plaintext hints"
  const CryptographyStep4 := "Phase 4: " +
    "Test for weak or reused keys, " +
    "padding issues, or bad " +
    "randomization; prepare temp " +
    "workspace at " +
    "/home/ram/wordlists/tmp"
  const CryptographyStep5 := "Phase 5: " +
    "Attempt brute-force, " +
    "dictionary, or side-channel " +
    "attacks using " +
    "wordlist:/home/ram/wordlists/roc" +
    "kyou.txt"
  const CryptographyStep6 := "Phase 6: " +
    "Exploit protocol " +
    "misconfigurations or " +
    "implementation flaws to " +
    "retrieve plaintext"
  const CryptographyStep7 := "Phase 7: " +
    "Reconstruct partial results " +
    "into the complete decrypted flag"
  const CryptographyStep8 := "Phase 8: " +
    "Submit the recovered flag for " +
    "challenge validation"
  /** `get_available_workflows()`: the table, in its insertion order. */
  function AvailableWorkflows(): (r: Dict<string, Workflow>)
    ensures Keys(r) == WorkflowKeys
  {
    [("web_application", WebApplication),
     ("full_penetration_test", FullPenetrationTest),
     ("reverse_engineering", ReverseEngineering),
     ("forensics", Forensics),
     ("cryptography", Cryptography)]
  }

  /** The keys of the table, in order. */
  const WorkflowKeys: seq<string> :=
    ["web_application", "full_penetration_test", "reverse_engineering", "forensics", "cryptography"]

  /** `get_workflow_by_key(key)` */
  function GetWorkflowByKey(key: string): (r: Option<Workflow>)
    ensures r.Some? <==> key in WorkflowKeys
    ensures r.Some? ==> (key, r.value) in AvailableWorkflows()
  {
    TableKeys();
    Get(AvailableWorkflows(), key)
  }

  /** `list_workflow_names()` */
  function ListWorkflowNames(): (r: seq<(string, string)>)
    ensures |r| == |AvailableWorkflows()|
    ensures forall i :: 0 <= i < |r| ==> r[i] == (AvailableWorkflows()[i].0, AvailableWorkflows()[i].1.name)
  {
    var w := AvailableWorkflows();
    seq(|w|, i requires 0 <= i < |w| => (w[i].0, w[i].1.name))
  }

  lemma TableKeys()
    ensures Keys(AvailableWorkflows()) == WorkflowKeys
    ensures UniqueKeys(AvailableWorkflows())
  {
  }

  /** Each of the five keys finds its own workflow. */
  lemma LookupKnown(i: nat)
    requires i < |AvailableWorkflows()|
    ensures GetWorkflowByKey(WorkflowKeys[i]) == Some(AvailableWorkflows()[i].1)
  {
    TableKeys();
    GetFirst(AvailableWorkflows(), i);
  }

  /** Lookup succeeds exactly for the five keys, and gives that key's workflow. */
  lemma LookupByKey(key: string)
    ensures GetWorkflowByKey(key).Some? <==> key in WorkflowKeys
    ensures key in WorkflowKeys ==> exists i :: 0 <= i < |WorkflowKeys| && WorkflowKeys[i] == key
                                              && GetWorkflowByKey(key) == Some(AvailableWorkflows()[i].1)
  {
    TableKeys();
    if key in WorkflowKeys {
      var i :| 0 <= i < |WorkflowKeys| && WorkflowKeys[i] == key;
      LookupKnown(i);
    }
  }

  /** The listing pairs each key with its workflow's name, in table order. */
  lemma NamesInTableOrder()
    ensures ListWorkflowNames() == [
      ("web_application", WebApplication.name),
      ("full_penetration_test", FullPenetrationTest.name),
      ("reverse_engineering", ReverseEngineering.name),
      ("forensics", Forensics.name),
      ("cryptography", Cryptography.name)]
  {
    TableKeys();
  }

  /** Every listed key looks up a workflow, the one whose name is listed with it. */
  lemma ListedKeysLookUp(i: nat)
    requires i < |ListWorkflowNames()|
    ensures GetWorkflowByKey(ListWorkflowNames()[i].0).Some?
    ensures GetWorkflowByKey(ListWorkflowNames()[i].0).value.name == ListWorkflowNames()[i].1
  {
    LookupKnown(i);
    TableKeys();
  }

  // ---------------------------------------------------------------------------
  // Structure of the steps

  /** `{target}` occurs in the first step and in no other. */
  ghost predicate TargetOnlyFirst(steps: seq<string>) {
    |steps| >= 1 && Contains(steps[0], Placeholder)
    && forall i :: 1 <= i < |steps| ==> !Contains(steps[i], Placeholder)
  }

  lemma TargetOnlyFirstIntro(steps: seq<string>, head: string)
    requires |steps| >= 1 && steps[0] == head + Placeholder
    requires forall i :: 1 <= i < |steps| ==> '{' !in steps[i]
    ensures TargetOnlyFirst(steps)
  {
    ContainsSuffix(head, Placeholder);
    forall i | 1 <= i < |steps| ensures !Contains(steps[i], Placeholder) {
      NoBraceNoPlaceholder(steps[i], Placeholder);
    }
  }

  /** `Phase n: ` */
  function PhasePrefix(n: nat): string {
    "Phase " + NatToString(n) + ": "
  }

  /** Step `i` (from 0) starts with `Phase i+1: `. */
  ghost predicate PhaseNumbered(steps: seq<string>) {
    forall i :: 0 <= i < |steps| ==> StartsWith(steps[i], PhasePrefix(i + 1))
  }

  /** For a single digit, the prefix is `Phase`, the digit, a colon and a space. */
  lemma PhasePrefixIs(n: nat)
    requires 1 <= n <= 9
    ensures PhasePrefix(n) == "Phase " + [('0' as int + n) as char] + ": "
  {
  }
  /** `web_application`: 6 steps, `{target}` only in the first. */
  lemma WebApplicationShape()
    ensures |WebApplication.steps| == 6
    ensures TargetOnlyFirst(WebApplication.steps)
  {
    WebApplicationStep2NoBrace();
    WebApplicationStep3NoBrace();
    WebApplicationStep4NoBrace();
    WebApplicationStep5NoBrace();
    WebApplicationStep6NoBrace();
    TargetOnlyFirstIntro(WebApplication.steps, "Discover web directories and " + "hidden content on ");
  }

  lemma WebApplicationStep2NoBrace()
    ensures '{' !in WebApplicationStep2
  {
    assert '{' !in "Test for SQL injection ";
    assert '{' !in "vulnerabilities";
  }

  lemma WebApplicationStep3NoBrace()
    ensures '{' !in WebApplicationStep3
  {
    assert '{' !in "Scan for web application ";
    assert '{' !in "vulnerabilities and ";
    assert '{' !in "misconfigurations";
  }

  lemma WebApplicationStep4NoBrace()
    ensures '{' !in WebApplicationStep4
  {
    assert '{' !in "Analyze SSL/TLS configuration ";
    assert '{' !in "and security";
  }

  lemma WebApplicationStep5NoBrace()
    ensures '{' !in WebApplicationStep5
  {
    assert '{' !in "Test for authentication and ";
    assert '{' !in "session management flaws";
  }

  lemma WebApplicationStep6NoBrace()
    ensures '{' !in WebApplicationStep6
  {
    assert '{' !in "Check for file inclusion and ";
    assert '{' !in "upload vulnerabilities";
  }

  /** `full_penetration_test`: 7 steps, `{target}` only in the first. */
  lemma FullPenetrationTestShape()
    ensures |FullPenetrationTest.steps| == 7
    ensures TargetOnlyFirst(FullPenetrationTest.steps)
  {
    FullPenetrationTestStep2NoBrace();
    FullPenetrationTestStep3NoBrace();
    FullPenetrationTestStep4NoBrace();
    FullPenetrationTestStep5NoBrace();
    FullPenetrationTestStep6NoBrace();
    FullPenetrationTestStep7NoBrace();
    TargetOnlyFirstIntro(FullPenetrationTest.steps, "Phase 1: " + "Quick port scan to identify " + "open services on ");
  }

  lemma FullPenetrationTestStep2NoBrace()
    ensures '{' !in FullPenetrationTestStep2
  {
    assert '{' !in "Phase 2: ";
    assert '{' !in "Service version detection on ";
    assert '{' !in "discovered ports";
  }

  lemma FullPenetrationTestStep3NoBrace()
    ensures '{' !in FullPenetrationTestStep3
  {
    assert '{' !in "Phase 3: ";
    assert '{' !in "Web service discovery and ";
    assert '{' !in "directory enumeration";
  }

  lemma FullPenetrationTestStep4NoBrace()
    ensures '{' !in FullPenetrationTestStep4
  {
    assert '{' !in "Phase 4: ";
    assert '{' !in "Focused vulnerability scanning ";
    assert '{' !in "of services";
  }

  lemma FullPenetrationTestStep5NoBrace()
    ensures '{' !in FullPenetrationTestStep5
  {
    assert '{' !in "Phase 5: ";
    assert '{' !in "Targeted exploitation of ";
    assert '{' !in "discovered vulnerabilities";
  }

  lemma FullPenetrationTestStep6NoBrace()
    ensures '{' !in FullPenetrationTestStep6
  {
    assert '{' !in "Phase 6: ";
    assert '{' !in "Post-exploitation enumeration ";
    assert '{' !in "if access gained";
  }

  lemma FullPenetrationTestStep7NoBrace()
    ensures '{' !in FullPenetrationTestStep7
  {
    assert '{' !in "Phase 7: ";
    assert '{' !in "Compile findings and ";
    assert '{' !in "remediation recommendations";
  }

  /** `full_penetration_test`: step i is numbered `Phase i+1:`. */
  lemma FullPenetrationTestPhases()
    ensures PhaseNumbered(FullPenetrationTest.steps)
  {
    FullPenetrationTestStep1Numbered();
    FullPenetrationTestStep2Numbered();
    FullPenetrationTestStep3Numbered();
    FullPenetrationTestStep4Numbered();
    FullPenetrationTestStep5Numbered();
    FullPenetrationTestStep6Numbered();
    FullPenetrationTestStep7Numbered();
  }

  lemma FullPenetrationTestStep1Numbered()
    ensures StartsWith(FullPenetrationTestStep1, PhasePrefix(1))
  {
    PhasePrefixIs(1);
    assert FullPenetrationTestStep1[..9] == "Phase 1: ";
  }

  lemma FullPenetrationTestStep2Numbered()
    ensures StartsWith(FullPenetrationTestStep2, PhasePrefix(2))
  {
    PhasePrefixIs(2);
    assert FullPenetrationTestStep2[..9] == "Phase 2: ";
  }

  lemma FullPenetrationTestStep3Numbered()
    ensures StartsWith(FullPenetrationTestStep3, PhasePrefix(3))
  {
    PhasePrefixIs(3);
    assert FullPenetrationTestStep3[..9] == "Phase 3: ";
  }

  lemma FullPenetrationTestStep4Numbered()
    ensures StartsWith(FullPenetrationTestStep4, PhasePrefix(4))
  {
    PhasePrefixIs(4);
    assert FullPenetrationTestStep4[..9] == "Phase 4: ";
  }

  lemma FullPenetrationTestStep5Numbered()
    ensures StartsWith(FullPenetrationTestStep5, PhasePrefix(5))
  {
    PhasePrefixIs(5);
    assert FullPenetrationTestStep5[..9] == "Phase 5: ";
  }

  lemma FullPenetrationTestStep6Numbered()
    ensures StartsWith(FullPenetrationTestStep6, PhasePrefix(6))
  {
    PhasePrefixIs(6);
    assert FullPenetrationTestStep6[..9] == "Phase 6: ";
  }

  lemma FullPenetrationTestStep7Numbered()
    ensures StartsWith(FullPenetrationTestStep7, PhasePrefix(7))
  {
    PhasePrefixIs(7);
    assert FullPenetrationTestStep7[..9] == "Phase 7: ";
  }

  /** `reverse_engineering`: 8 steps, `{target}` only in the first. */
  lemma ReverseEngineeringShape()
    ensures |ReverseEngineering.steps| == 8
    ensures TargetOnlyFirst(ReverseEngineering.steps)
  {
    ReverseEngineeringStep2NoBrace();
    ReverseEngineeringStep3NoBrace();
    ReverseEngineeringStep4NoBrace();
    ReverseEngineeringStep5NoBrace();
    ReverseEngineeringStep6NoBrace();
    ReverseEngineeringStep7NoBrace();
    ReverseEngineeringStep8NoBrace();
    TargetOnlyFirstIntro(ReverseEngineering.steps, "Phase 1: " + "Identify the challenge binary " + "or executable ");
  }

  lemma ReverseEngineeringStep2NoBrace()
    ensures '{' !in ReverseEngineeringStep2
  {
    assert '{' !in "Phase 2: ";
    assert '{' !in "Perform static analysis (file ";
    assert '{' !in "type, hashes, metadata, ";
    assert '{' !in "embedded strings)";
  }

  lemma ReverseEngineeringStep3NoBrace()
    ensures '{' !in ReverseEngineeringStep3
  {
    assert '{' !in "Phase 3: ";
    assert '{' !in "Disassemble binary to ";
    assert '{' !in "understand control flow and ";
    assert '{' !in "logic";
  }

  lemma ReverseEngineeringStep4NoBrace()
    ensures '{' !in ReverseEngineeringStep4
  {
    assert '{' !in "Phase 4: ";
    assert '{' !in "Analyze functions handling ";
    assert '{' !in "input validation or flag ";
    assert '{' !in "comparison";
  }

  lemma ReverseEngineeringStep5NoBrace()
    ensures '{' !in ReverseEngineeringStep5
  {
    assert '{' !in "Phase 5: ";
    assert '{' !in "Conduct dynamic debugging to ";
    assert '{' !in "observe runtime behavior";
  }

  lemma ReverseEngineeringStep6NoBrace()
    ensures '{' !in ReverseEngineeringStep6
  {
    assert '{' !in "Phase 6: ";
    assert '{' !in "Bypass obfuscation, ";
    assert '{' !in "anti-debugging, or packed code";
  }

  lemma ReverseEngineeringStep7NoBrace()
    ensures '{' !in ReverseEngineeringStep7
  {
    assert '{' !in "Phase 7: ";
    assert '{' !in "Recover hardcoded secrets, ";
    assert '{' !in "encoded data, or hidden flag";
  }

  lemma ReverseEngineeringStep8NoBrace()
    ensures '{' !in ReverseEngineeringStep8
  {
    assert '{' !in "Phase 8: ";
    assert '{' !in "Verify and submit the extracted ";
    assert '{' !in "flag";
  }

  /** `reverse_engineering`: step i is numbered `Phase i+1:`. */
  lemma ReverseEngineeringPhases()
    ensures PhaseNumbered(ReverseEngineering.steps)
  {
    ReverseEngineeringStep1Numbered();
    ReverseEngineeringStep2Numbered();
    ReverseEngineeringStep3Numbered();
    ReverseEngineeringStep4Numbered();
    ReverseEngineeringStep5Numbered();
    ReverseEngineeringStep6Numbered();
    ReverseEngineeringStep7Numbered();
    ReverseEngineeringStep8Numbered();
  }

  lemma ReverseEngineeringStep1Numbered()
    ensures StartsWith(ReverseEngineeringStep1, PhasePrefix(1))
  {
    PhasePrefixIs(1);
    assert ReverseEngineeringStep1[..9] == "Phase 1: ";
  }

  lemma ReverseEngineeringStep2Numbered()
    ensures StartsWith(ReverseEngineeringStep2, PhasePrefix(2))
  {
    PhasePrefixIs(2);
    assert ReverseEngineeringStep2[..9] == "Phase 2: ";
  }

  lemma ReverseEngineeringStep3Numbered()
    ensures StartsWith(ReverseEngineeringStep3, PhasePrefix(3))
  {
    PhasePrefixIs(3);
    assert ReverseEngineeringStep3[..9] == "Phase 3: ";
  }

  lemma ReverseEngineeringStep4Numbered()
    ensures StartsWith(ReverseEngineeringStep4, PhasePrefix(4))
  {
    PhasePrefixIs(4);
    assert ReverseEngineeringStep4[..9] == "Phase 4: ";
  }

  lemma ReverseEngineeringStep5Numbered()
    ensures StartsWith(ReverseEngineeringStep5, PhasePrefix(5))
  {
    PhasePrefixIs(5);
    assert ReverseEngineeringStep5[..9] == "Phase 5: ";
  }

  lemma ReverseEngineeringStep6Numbered()
    ensures StartsWith(ReverseEngineeringStep6, PhasePrefix(6))
  {
    PhasePrefixIs(6);
    assert ReverseEngineeringStep6[..9] == "Phase 6: ";
  }

  lemma ReverseEngineeringStep7Numbered()
    ensures StartsWith(ReverseEngineeringStep7, PhasePrefix(7))
  {
    PhasePrefixIs(7);
    assert ReverseEngineeringStep7[..9] == "Phase 7: ";
  }

  lemma ReverseEngineeringStep8Numbered()
    ensures StartsWith(ReverseEngineeringStep8, PhasePrefix(8))
  {
    PhasePrefixIs(8);
    assert ReverseEngineeringStep8[..9] == "Phase 8: ";
  }

  /** `forensics`: 8 steps, `{target}` only in the first. */
  lemma ForensicsShape()
    ensures |Forensics.steps| == 8
    ensures TargetOnlyFirst(Forensics.steps)
  {
    ForensicsStep2NoBrace();
    ForensicsStep3NoBrace();
    ForensicsStep4NoBrace();
    ForensicsStep5NoBrace();
    ForensicsStep6NoBrace();
    ForensicsStep7NoBrace();
    ForensicsStep8NoBrace();
    TargetOnlyFirstIntro(Forensics.steps, "Phase 1: " + "Acquire the provided forensic " + "image, memory dump, or log " + "bundle ");
  }

  lemma ForensicsStep2NoBrace()
    ensures '{' !in ForensicsStep2
  {
    assert '{' !in "Phase 2: ";
    assert '{' !in "Validate evidence integrity ";
    assert '{' !in "using cryptographic hashes";
  }

  lemma ForensicsStep3NoBrace()
    ensures '{' !in ForensicsStep3
  {
    assert '{' !in "Phase 3: ";
    assert '{' !in "Carve and recover deleted or ";
    assert '{' !in "hidden files for potential flag ";
    assert '{' !in "storage";
  }

  lemma ForensicsStep4NoBrace()
    ensures '{' !in ForensicsStep4
  {
    assert '{' !in "Phase 4: ";
    assert '{' !in "Analyze file metadata, ";
    assert '{' !in "timestamps, and unusual file ";
    assert '{' !in "system activity";
  }

  lemma ForensicsStep5NoBrace()
    ensures '{' !in ForensicsStep5
  {
    assert '{' !in "Phase 5: ";
    assert '{' !in "Inspect memory artifacts for ";
    assert '{' !in "credentials, processes, or ";
    assert '{' !in "plain-text flags";
  }

  lemma ForensicsStep6NoBrace()
    ensures '{' !in ForensicsStep6
  {
    assert '{' !in "Phase 6: ";
    assert '{' !in "Examine logs, registry hives, ";
    assert '{' !in "or browser artifacts for clues";
  }

  lemma ForensicsStep7NoBrace()
    ensures '{' !in ForensicsStep7
  {
    assert '{' !in "Phase 7: ";
    assert '{' !in "Correlate timeline events to ";
    assert '{' !in "track attacker activity";
  }

  lemma ForensicsStep8NoBrace()
    ensures '{' !in ForensicsStep8
  {
    assert '{' !in "Phase 8: ";
    assert '{' !in "Extract and validate the hidden ";
    assert '{' !in "flag from recovered evidence";
  }

  /** `forensics`: step i is numbered `Phase i+1:`. */
  lemma ForensicsPhases()
    ensures PhaseNumbered(Forensics.steps)
  {
    ForensicsStep1Numbered();
    ForensicsStep2Numbered();
    ForensicsStep3Numbered();
    ForensicsStep4Numbered();
    ForensicsStep5Numbered();
    ForensicsStep6Numbered();
    ForensicsStep7Numbered();
    ForensicsStep8Numbered();
  }

  lemma ForensicsStep1Numbered()
    ensures StartsWith(ForensicsStep1, PhasePrefix(1))
  {
    PhasePrefixIs(1);
    assert ForensicsStep1[..9] == "Phase 1: ";
  }

  lemma ForensicsStep2Numbered()
    ensures StartsWith(ForensicsStep2, PhasePrefix(2))
  {
    PhasePrefixIs(2);
    assert ForensicsStep2[..9] == "Phase 2: ";
  }

  lemma ForensicsStep3Numbered()
    ensures StartsWith(ForensicsStep3, PhasePrefix(3))
  {
    PhasePrefixIs(3);
    assert ForensicsStep3[..9] == "Phase 3: ";
  }

  lemma ForensicsStep4Numbered()
    ensures StartsWith(ForensicsStep4, PhasePrefix(4))
  {
    PhasePrefixIs(4);
    assert ForensicsStep4[..9] == "Phase 4: ";
  }

  lemma ForensicsStep5Numbered()
    ensures StartsWith(ForensicsStep5, PhasePrefix(5))
  {
    PhasePrefixIs(5);
    assert ForensicsStep5[..9] == "Phase 5: ";
  }

  lemma ForensicsStep6Numbered()
    ensures StartsWith(ForensicsStep6, PhasePrefix(6))
  {
    PhasePrefixIs(6);
    assert ForensicsStep6[..9] == "Phase 6: ";
  }

  lemma ForensicsStep7Numbered()
    ensures StartsWith(ForensicsStep7, PhasePrefix(7))
  {
    PhasePrefixIs(7);
    assert ForensicsStep7[..9] == "Phase 7: ";
  }

  lemma ForensicsStep8Numbered()
    ensures StartsWith(ForensicsStep8, PhasePrefix(8))
  {
    PhasePrefixIs(8);
    assert ForensicsStep8[..9] == "Phase 8: ";
  }

  /** `cryptography`: 8 steps, `{target}` only in the first. */
  lemma CryptographyShape()
    ensures |Cryptography.steps| == 8
    ensures TargetOnlyFirst(Cryptography.steps)
  {
    CryptographyStep2NoBrace();
    CryptographyStep3NoBrace();
    CryptographyStep4NoBrace();
    CryptographyStep5NoBrace();
    CryptographyStep6NoBrace();
    CryptographyStep7NoBrace();
    CryptographyStep8NoBrace();
    TargetOnlyFirstIntro(Cryptography.steps, "Phase 1: " + "Identify the encryption or " + "encoding scheme used in ");
  }

  lemma CryptographyStep2NoBrace()
    ensures '{' !in CryptographyStep2
  {
    assert '{' !in "Phase 2: ";
    assert '{' !in "Analyze provided ciphertext, ";
    assert '{' !in "keys, or encoded flag fragments";
  }

  lemma CryptographyStep3NoBrace()
    ensures '{' !in CryptographyStep3
  {
    assert '{' !in "Phase 3: ";
    assert '{' !in "Search for predictable ";
    assert '{' !in "patterns, frequency ";
    assert '{' !in "distributions, or ";
    assert '{' !in "known-plaintext hints";
  }

  lemma CryptographyStep4NoBrace()
    ensures '{' !in CryptographyStep4
  {
    CryptographyStep4HeadNoBrace();
    CryptographyStep4TailNoBrace();
  }

  lemma CryptographyStep4HeadNoBrace()
    ensures '{' !in "Phase 4: " + "Test for weak or reused keys, " + "padding issues, or bad "
  {
    assert '{' !in "Phase 4: ";
    assert '{' !in "Test for weak or reused keys, ";
    assert '{' !in "padding issues, or bad ";
  }

  lemma CryptographyStep4TailNoBrace()
    ensures '{' !in "randomization; prepare temp " + "workspace at " + "/home/ram/wordlists/tmp"
  {
    assert '{' !in "randomization; prepare temp ";
    assert '{' !in "workspace at ";
    assert '{' !in "/home/ram/wordlists/tmp";
  }

  lemma CryptographyStep5NoBrace()
    ensures '{' !in CryptographyStep5
  {
    CryptographyStep5HeadNoBrace();
    CryptographyStep5TailNoBrace();
  }

  lemma CryptographyStep5HeadNoBrace()
    ensures '{' !in "Phase 5: " + "Attempt brute-force, " + "dictionary, or side-channel "
  {
    assert '{' !in "Phase 5: ";
    assert '{' !in "Attempt brute-force, ";
    assert '{' !in "dictionary, or side-channel ";
  }

  lemma CryptographyStep5TailNoBrace()
    ensures '{' !in "attacks using " + "wordlist:/home/ram/wordlists/roc" + "kyou.txt"
  {
    assert '{' !in "attacks using ";
    assert '{' !in "wordlist:/home/ram/wordlists/roc";
    assert '{' !in "kyou.txt";
  }

  lemma CryptographyStep6NoBrace()
    ensures '{' !in CryptographyStep6
  {
    assert '{' !in "Phase 6: ";
    assert '{' !in "Exploit protocol ";
    assert '{' !in "misconfigurations or ";
    assert '{' !in "implementation flaws to ";
    assert '{' !in "retrieve plaintext";
  }

  lemma CryptographyStep7NoBrace()
    ensures '{' !in CryptographyStep7
  {
    assert '{' !in "Phase 7: ";
    assert '{' !in "Reconstruct partial results ";
    assert '{' !in "into the complete decrypted flag";
  }

  lemma CryptographyStep8NoBrace()
    ensures '{' !in CryptographyStep8
  {
    assert '{' !in "Phase 8: ";
    assert '{' !in "Submit the recovered flag for ";
    assert '{' !in "challenge validation";
  }

  /** `cryptography`: step i is numbered `Phase i+1:`. */
  lemma CryptographyPhases()
    ensures PhaseNumbered(Cryptography.steps)
  {
    CryptographyStep1Numbered();
    CryptographyStep2Numbered();
    CryptographyStep3Numbered();
    CryptographyStep4Numbered();
    CryptographyStep5Numbered();
    CryptographyStep6Numbered();
    CryptographyStep7Numbered();
    CryptographyStep8Numbered();
  }

  lemma CryptographyStep1Numbered()
    ensures StartsWith(CryptographyStep1, PhasePrefix(1))
  {
    PhasePrefixIs(1);
    assert CryptographyStep1[..9] == "Phase 1: ";
  }

  lemma CryptographyStep2Numbered()
    ensures StartsWith(CryptographyStep2, PhasePrefix(2))
  {
    PhasePrefixIs(2);
    assert CryptographyStep2[..9] == "Phase 2: ";
  }

  lemma CryptographyStep3Numbered()
    ensures StartsWith(CryptographyStep3, PhasePrefix(3))
  {
    PhasePrefixIs(3);
    assert CryptographyStep3[..9] == "Phase 3: ";
  }

  lemma CryptographyStep4Numbered()
    ensures StartsWith(CryptographyStep4, PhasePrefix(4))
  {
    PhasePrefixIs(4);
    assert CryptographyStep4[..9] == "Phase 4: ";
  }

  lemma CryptographyStep5Numbered()
    ensures StartsWith(CryptographyStep5, PhasePrefix(5))
  {
    PhasePrefixIs(5);
    assert CryptographyStep5[..9] == "Phase 5: ";
  }

  lemma CryptographyStep6Numbered()
    ensures StartsWith(CryptographyStep6, PhasePrefix(6))
  {
    PhasePrefixIs(6);
    assert CryptographyStep6[..9] == "Phase 6: ";
  }

  lemma CryptographyStep7Numbered()
    ensures StartsWith(CryptographyStep7, PhasePrefix(7))
  {
    PhasePrefixIs(7);
    assert CryptographyStep7[..9] == "Phase 7: ";
  }

  lemma CryptographyStep8Numbered()
    ensures StartsWith(CryptographyStep8, PhasePrefix(8))
  {
    PhasePrefixIs(8);
    assert CryptographyStep8[..9] == "Phase 8: ";
  }
  /** The steps of the web workflow are not phase-numbered. */
  lemma WebApplicationUnnumbered()
    ensures !PhaseNumbered(WebApplication.steps)
  {
    assert WebApplication.steps[0][0] == 'D';
    assert PhasePrefix(1)[0] == 'P';
  }

  /** Over the whole table: `{target}` only in each first step, every workflow but
      the web one numbered by phase, and step counts 6, 7, 8, 8 and 8. */
  lemma TableShape()
    ensures forall i :: 0 <= i < |AvailableWorkflows()| ==> TargetOnlyFirst(AvailableWorkflows()[i].1.steps)
    ensures forall i :: 1 <= i < |AvailableWorkflows()| ==> PhaseNumbered(AvailableWorkflows()[i].1.steps)
    ensures seq(|AvailableWorkflows()|, i requires 0 <= i < |AvailableWorkflows()| => |AvailableWorkflows()[i].1.steps|)
         == [6, 7, 8, 8, 8]
  {
    WebApplicationShape();
    FullPenetrationTestShape();
    ReverseEngineeringShape();
    ForensicsShape();
    CryptographyShape();
    FullPenetrationTestPhases();
    ReverseEngineeringPhases();
    ForensicsPhases();
    CryptographyPhases();
  }
}
