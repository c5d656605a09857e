/** The evidence bar: when a whole suite counts as complete, and when the function tester
    has vouched for every agent. */
module EvidenceBar {
  import opened SandboxTypes
  import opened Distinctness

  type Trim = string -> string

  // ---- the complete suite -------------------------------------------------

  datatype CaseResult = CaseResult(caseId: Option<string>, pass: bool)

  datatype Verdicts = Verdicts(allPass: bool, results: seq<CaseResult>)

  datatype Evidence = Evidence(
    fullChainRan: Option<bool>,
    degraded: Option<seq<string>>,
    verdicts: Option<Verdicts>,
    expected: Option<seq<string>>)

  datatype Source = FullChain | CaseVerdicts | Incomplete

  function NonEmpty(s: seq<string>): (r: seq<string>)
    ensures forall x :: x in r <==> x in s && x != ""
  {
    if s == [] then [] else (if s[0] == "" then [] else [s[0]]) + NonEmpty(s[1..])
  }

  function TrimAll(trim: Trim, s: seq<string>): (r: seq<string>)
    ensures |r| == |s| && forall i :: 0 <= i < |r| ==> r[i] == trim(s[i])
  {
    seq(|s|, i requires 0 <= i < |s| => trim(s[i]))
  }

  function Listed(s: Option<seq<string>>): seq<string> {
    if s.Some? then s.value else []
  }

  /** The approved case ids. */
  function Expected(trim: Trim, e: Evidence): seq<string> {
    NonEmpty(TrimAll(trim, Listed(e.expected)))
  }

  /** The case ids of the receipts, empty where a receipt names none. */
  function Observed(trim: Trim, results: seq<CaseResult>): (r: seq<string>)
    ensures |r| == |results|
  {
    seq(|results|, i requires 0 <= i < |results| => if results[i].caseId.Some? then trim(results[i].caseId.value) else "")
  }

  /** The comparison of the two lists, by the sizes of their sets. */
  predicate ExactCases(expected: seq<string>, observed: seq<string>) {
    && |Elements(expected)| == |expected|
    && "" !in observed
    && |Elements(observed)| == |observed|
    && |Elements(observed)| == |Elements(expected)|
    && Elements(expected) <= Elements(observed)
  }

  predicate AllPass(results: seq<CaseResult>) {
    forall i :: 0 <= i < |results| ==> results[i].pass
  }

  function Assess(trim: Trim, evidence: Option<Evidence>): Source {
    if evidence.None? then Incomplete
    else
      var e := evidence.value;
      if NonEmpty(Listed(e.degraded)) != [] then Incomplete
      else if e.fullChainRan == Some(true) then FullChain
      else if Expected(trim, e) == [] || e.verdicts.None? || !e.verdicts.value.allPass then Incomplete
      else if !ExactCases(Expected(trim, e), Observed(trim, e.verdicts.value.results)) then Incomplete
      else if !AllPass(e.verdicts.value.results) then Incomplete
      else CaseVerdicts
  }

  /** Exactly one passing receipt for every approved case, and no receipt besides. */
  ghost predicate EveryCaseOnce(trim: Trim, e: Evidence) {
    && e.verdicts.Some? && e.verdicts.value.allPass
    && (forall receipt :: receipt in e.verdicts.value.results ==> receipt.pass)
    && Expected(trim, e) != [] && Distinct(Expected(trim, e))
    && multiset(Observed(trim, e.verdicts.value.results)) == multiset(Expected(trim, e))
  }

  lemma {:induction false} ExactCasesPermute(expected: seq<string>, observed: seq<string>)
    requires "" !in expected
    ensures ExactCases(expected, observed) <==> Distinct(expected) && multiset(observed) == multiset(expected)
  {
    SizeIsDistinct(expected);
    SizeIsDistinct(observed);
    if ExactCases(expected, observed) {
      SameSizeIsSame(Elements(expected), Elements(observed));
      SameElementsPermute(expected, observed);
    }
    if Distinct(expected) && multiset(observed) == multiset(expected) {
      PermutationStaysDistinct(expected, observed);
      assert "" !in Elements(observed);
    }
  }

  /** A suite is complete by its receipts exactly when nothing degraded and the receipts are
      a permutation of the approved cases, all passing; only a full chain replaces them. */
  lemma {:induction false} SuiteIsExact(trim: Trim, e: Evidence)
    ensures Assess(trim, Some(e)) == CaseVerdicts <==>
      NonEmpty(Listed(e.degraded)) == [] && e.fullChainRan != Some(true) && EveryCaseOnce(trim, e)
    ensures Assess(trim, Some(e)) != Incomplete <==>
      (forall d :: d in Listed(e.degraded) ==> d == "") && (e.fullChainRan == Some(true) || EveryCaseOnce(trim, e))
    ensures Assess(trim, None) == Incomplete
  {
    if e.verdicts.Some? {
      ExactCasesPermute(Expected(trim, e), Observed(trim, e.verdicts.value.results));
    }
    var degraded := NonEmpty(Listed(e.degraded));
    if degraded != [] {
      assert degraded[0] in degraded;
    }
  }

  /** Renaming, adding or dropping one receipt of a suite that is complete by receipts leaves
      it incomplete. */
  lemma {:induction false} NoReceiptToSpare(trim: Trim, e: Evidence, results: seq<CaseResult>)
    requires Assess(trim, Some(e)) == CaseVerdicts
    requires multiset(Observed(trim, results)) != multiset(Observed(trim, e.verdicts.value.results))
    ensures Assess(trim, Some(e.(verdicts := Some(Verdicts(true, results))))) == Incomplete
  {
    SuiteIsExact(trim, e);
    SuiteIsExact(trim, e.(verdicts := Some(Verdicts(true, results))));
  }

  // ---- the function tester ------------------------------------------------

  datatype Entry = Entry(short: string, pass: bool, ran: bool, promotable: bool)

  function ShortsOf(entries: seq<Entry>): (r: seq<string>)
    ensures |r| == |entries| && forall i :: 0 <= i < |r| ==> r[i] == entries[i].short
  {
    seq(|entries|, i requires 0 <= i < |entries| => entries[i].short)
  }

  /** The entries of one agent, in order. */
  function Matching(entries: seq<Entry>, short: string): seq<Entry>
    decreases |entries|
  {
    if entries == [] then []
    else
      var last := entries[|entries| - 1];
      Matching(entries[..|entries| - 1], short) + (if last.short == short then [last] else [])
  }

  /** What the grouping loop has built. */
  ghost predicate Groups(groups: map<string, seq<Entry>>, entries: seq<Entry>) {
    forall short :: Matching(entries, short) == if short in groups then groups[short] else []
  }

  method GroupByShort(entries: seq<Entry>) returns (groups: map<string, seq<Entry>>)
    ensures Groups(groups, entries)
  {
    groups := map[];
    var i := 0;
    while i < |entries|
      invariant 0 <= i <= |entries|
      invariant Groups(groups, entries[..i])
    {
      assert entries[..i + 1][..i] == entries[..i];
      var entry := entries[i];
      groups := groups[entry.short := (if entry.short in groups then groups[entry.short] else []) + [entry]];
      i := i + 1;
    }
    assert entries[..i] == entries;
  }

  predicate Vouched(entry: Entry) {
    entry.ran && entry.pass && entry.promotable
  }

  /** The conjunction that is tested, in terms of the groups. */
  predicate StrictPass(required: bool, tester: Option<seq<Entry>>, specs: seq<string>) {
    var entries := if tester.Some? then tester.value else [];
    !required || (
      && tester.Some?
      && |entries| == |specs|
      && (forall short :: short in specs ==> |Matching(entries, short)| != 0)
      && (forall short :: short in specs ==> |Matching(entries, short)| <= 1)
      && (forall entry :: entry in entries ==> entry.short in specs)
      && (forall entry :: entry in entries ==> Vouched(entry)))
  }

  lemma {:induction false} MatchingCounts(entries: seq<Entry>, short: string)
    ensures |Matching(entries, short)| == multiset(ShortsOf(entries))[short]
    decreases |entries|
  {
    if entries == [] {
      assert ShortsOf(entries) == [];
    } else {
      var n := |entries| - 1;
      MatchingCounts(entries[..n], short);
      assert ShortsOf(entries) == ShortsOf(entries[..n]) + [entries[n].short];
    }
  }

  /** A required pass is given exactly when the agents have pairwise distinct names and the
      entries name each of them once, nobody else, and vouch for all of them.  That no two
      agents share a name is never tested: it follows from the counts. */
  lemma {:induction false} TesterIsExact(tester: Option<seq<Entry>>, specs: seq<string>)
    ensures StrictPass(true, tester, specs) <==>
      && tester.Some? && Distinct(specs) && multiset(ShortsOf(tester.value)) == multiset(specs)
      && forall entry :: entry in tester.value ==> Vouched(entry)
  {
    if tester.Some? {
      var shorts := ShortsOf(tester.value);
      forall short ensures |Matching(tester.value, short)| == multiset(shorts)[short] {
        MatchingCounts(tester.value, short);
      }
      assert forall entry :: entry in tester.value ==> entry.short in shorts by {
        forall entry | entry in tester.value ensures entry.short in shorts {
          var i :| 0 <= i < |tester.value| && tester.value[i] == entry;
          assert shorts[i] == entry.short;
        }
      }
      if StrictPass(true, tester, specs) {
        CountsMakeBijection(shorts, specs);
      }
      if Distinct(specs) && multiset(shorts) == multiset(specs) {
        PermutationMakesCounts(shorts, specs);
      }
    }
  }

  /** The pigeonhole argument. */
  lemma {:induction false} CountsMakeBijection(shorts: seq<string>, specs: seq<string>)
    requires |shorts| == |specs|
    requires forall short :: short in specs ==> multiset(shorts)[short] == 1
    requires forall short :: short in shorts ==> short in specs
    ensures Distinct(specs) && multiset(shorts) == multiset(specs)
  {
    forall x | x in shorts ensures multiset(shorts)[x] == 1 {
      assert x in specs;
    }
    CountedOnceIsDistinct(shorts);
    forall x ensures x in shorts <==> x in specs {
      if x in specs {
        assert multiset(shorts)[x] == 1;
      }
    }
    assert Elements(shorts) == Elements(specs);
    SizeIsDistinct(shorts);
    SizeIsDistinct(specs);
    SameElementsPermute(shorts, specs);
  }

  lemma {:induction false} PermutationMakesCounts(shorts: seq<string>, specs: seq<string>)
    requires Distinct(specs) && multiset(shorts) == multiset(specs)
    ensures |shorts| == |specs|
    ensures forall short :: short in specs ==> multiset(shorts)[short] == 1
    ensures forall short :: short in shorts ==> short in specs
  {
    PermutationStaysDistinct(specs, shorts);
    forall short | short in specs ensures multiset(shorts)[short] == 1 {
      DistinctCounts(specs, short);
    }
    assert forall short :: short in shorts ==> short in Elements(shorts);
  }

  /** The test as it is carried out, over the groups. */
  method TesterPass(required: bool, tester: Option<seq<Entry>>, specs: seq<string>) returns (pass: bool)
    ensures pass == StrictPass(required, tester, specs)
  {
    var entries := if tester.Some? then tester.value else [];
    var groups := GroupByShort(entries);
    var missing := exists short :: short in specs && (short !in groups || |groups[short]| == 0);
    var duplicated := exists short :: short in specs && short in groups && |groups[short]| > 1;
    var unexpected := exists entry :: entry in entries && entry.short !in specs;
    var unvouched := exists entry :: entry in entries && !Vouched(entry);
    pass := !required
      || (tester.Some? && |entries| == |specs| && !missing && !duplicated && !unexpected && !unvouched);
  }
}
