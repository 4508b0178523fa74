/** The release evidence gate: what it objects to, and the case file that keeps every planned scenario without ever
    passing one. */
module ReleaseGate {
  import opened Wrappers

  /** What resolving and reading a path under the run's root comes to. */
  datatype Probe = Unreadable | Outside | Inside(digest: string)

  /** Fields a record may lack are optional; empty texts count as missing. */
  datatype Item = Item(path: Option<string>, sha256: Option<string>)

  datatype Case = Case(id: Option<string>, candidate: Option<string>, status: Option<string>, approvedBy: string,
                       reason: string, scopeComplete: bool, evidence: seq<Item>)

  datatype Issue =
    | BadCandidate
    | Duplicate(id: Option<string>)
    | Unknown(id: Option<string>)
    | CandidateMismatch(id: Option<string>)
    | Unapproved(id: Option<string>)
    | NotPassed(id: Option<string>, status: Option<string>)
    | IncompleteScope(id: Option<string>)
    | NoEvidence(id: Option<string>)
    | BadEvidence(id: Option<string>, item: Item)
    | MissingRecord(id: Option<string>)

  datatype Verdict = Verdict(scenarios: nat, completeEvidence: bool, offlineQualified: bool, productionQualified: bool,
                             errors: seq<Issue>)

  predicate HexDigit(c: char) {
    'a' <= c <= 'f' || '0' <= c <= '9'
  }

  predicate FullSha(s: string) {
    |s| == 40 && forall i | 0 <= i < |s| :: HexDigit(s[i])
  }

  predicate Backed(store: string -> Probe, item: Item) {
    item.path.Some? && store(item.path.value).Inside? && item.sha256 == Some(store(item.path.value).digest)
  }

  function Ids(plan: seq<string>): set<Option<string>> {
    set id | id in plan :: Some(id)
  }

  predicate Passes(c: Case) {
    c.status == Some("PASS") || (c.status == Some("NOT APPLICABLE") && c.approvedBy != "" && c.reason != "")
  }

  /** A case that counts: of the candidate, passed or excluded with approval, complete in scope, with evidence that
      lies inside the root and has the stated digest. */
  ghost predicate Accepted(candidate: string, store: string -> Probe, c: Case) {
    && c.candidate == Some(candidate) && Passes(c) && c.scopeComplete
    && c.evidence != [] && forall item | item in c.evidence :: Backed(store, item)
  }

  /** The plan's scenarios, each recorded once and accepted. */
  ghost predicate Complete(plan: seq<string>, cases: seq<Case>, store: string -> Probe, candidate: string) {
    && FullSha(candidate)
    && (forall j, k | 0 <= j < k < |cases| :: cases[j].id != cases[k].id)
    && (set c | c in cases :: c.id) == Ids(plan)
    && forall c | c in cases :: Accepted(candidate, store, c)
  }

  /** What one case is objected to for, by itself. */
  ghost predicate Faulted(plan: seq<string>, candidate: string, store: string -> Probe, c: Case, e: Issue) {
    match e
    case Unknown(id) => id == c.id && c.id !in Ids(plan)
    case CandidateMismatch(id) => id == c.id && c.candidate != Some(candidate)
    case Unapproved(id) => id == c.id && c.status == Some("NOT APPLICABLE") && (c.approvedBy == "" || c.reason == "")
    case NotPassed(id, status) =>
      id == c.id && status == c.status && c.status != Some("NOT APPLICABLE") && c.status != Some("PASS")
    case IncompleteScope(id) => id == c.id && !c.scopeComplete
    case NoEvidence(id) => id == c.id && c.evidence == []
    case BadEvidence(id, item) => id == c.id && item in c.evidence && !Backed(store, item)
    case _ => false
  }

  /** What the cases as a whole are objected to for. */
  ghost predicate Raised(plan: seq<string>, candidate: string, store: string -> Probe, cases: seq<Case>, e: Issue) {
    match e
    case BadCandidate => !FullSha(candidate)
    case Duplicate(id) => exists j, k | 0 <= j < k < |cases| :: cases[j].id == id && cases[k].id == id
    case MissingRecord(id) => id in Ids(plan) && forall c | c in cases :: c.id != id
    case _ => exists c | c in cases :: Faulted(plan, candidate, store, c, e)
  }

  method EvaluateEvidence(store: string -> Probe, c: Case) returns (errors: seq<Issue>)
    ensures forall e :: e in errors <==>
      e.BadEvidence? && e.id == c.id && e.item in c.evidence && !Backed(store, e.item)
  {
    hide Backed;
    errors := [];
    for i := 0 to |c.evidence|
      invariant forall e :: e in errors <==>
        e.BadEvidence? && e.id == c.id && e.item in c.evidence[..i] && !Backed(store, e.item)
    {
      assert c.evidence[..i + 1] == c.evidence[..i] + [c.evidence[i]];
      if !Backed(store, c.evidence[i]) { errors := errors + [BadEvidence(c.id, c.evidence[i])]; }
    }
    assert c.evidence[..|c.evidence|] == c.evidence;
  }

  /** Objections to the status alone. */
  ghost predicate StatusFault(c: Case, e: Issue) {
    if c.status == Some("NOT APPLICABLE") then e == Unapproved(c.id) && (c.approvedBy == "" || c.reason == "")
    else e == NotPassed(c.id, c.status) && c.status != Some("PASS")
  }

  method EvaluateStatus(c: Case) returns (errors: seq<Issue>)
    ensures forall e :: e in errors <==> StatusFault(c, e)
  {
    errors := [];
    if c.status == Some("NOT APPLICABLE") {
      if c.approvedBy == "" || c.reason == "" { errors := [Unapproved(c.id)]; }
    } else if c.status != Some("PASS") {
      errors := [NotPassed(c.id, c.status)];
    }
  }

  /** A case's objections, kind by kind. */
  lemma FaultKinds(plan: seq<string>, candidate: string, store: string -> Probe, c: Case, e: Issue)
    ensures Faulted(plan, candidate, store, c, e) <==>
      || (e == Unknown(c.id) && c.id !in Ids(plan))
      || (e == CandidateMismatch(c.id) && c.candidate != Some(candidate))
      || StatusFault(c, e)
      || (e == IncompleteScope(c.id) && !c.scopeComplete)
      || (e == NoEvidence(c.id) && c.evidence == [])
      || (e.BadEvidence? && e.id == c.id && e.item in c.evidence && !Backed(store, e.item))
  {
    hide Ids, Backed;
  }

  method EvaluateCase(plan: seq<string>, candidate: string, store: string -> Probe, c: Case)
    returns (errors: seq<Issue>)
    ensures forall e :: e in errors <==> Faulted(plan, candidate, store, c, e)
  {
    hide Backed, Ids, StatusFault, Faulted;
    errors := [];
    if c.id !in Ids(plan) { errors := errors + [Unknown(c.id)]; }
    if c.candidate != Some(candidate) { errors := errors + [CandidateMismatch(c.id)]; }
    var unfit := EvaluateStatus(c);
    errors := errors + unfit;
    if !c.scopeComplete { errors := errors + [IncompleteScope(c.id)]; }
    if c.evidence == [] { errors := errors + [NoEvidence(c.id)]; }
    var bad := EvaluateEvidence(store, c);
    errors := errors + bad;
    forall e ensures e in errors <==> Faulted(plan, candidate, store, c, e) {
      FaultKinds(plan, candidate, store, c, e);
    }
  }

  lemma Extended(plan: seq<string>, candidate: string, store: string -> Probe, cases: seq<Case>, i: nat,
                 before: seq<Issue>, after: seq<Issue>, own: seq<Issue>)
    requires i < |cases|
    requires forall e :: e in before <==> !e.MissingRecord? && Raised(plan, candidate, store, cases[..i], e)
    requires forall e :: e in own <==> Faulted(plan, candidate, store, cases[i], e)
    requires after ==
      (if exists k | 0 <= k < i :: cases[k].id == cases[i].id then before + [Duplicate(cases[i].id)] else before) + own
    ensures forall e :: e in after <==> !e.MissingRecord? && Raised(plan, candidate, store, cases[..i + 1], e)
  {
  }

  lemma NothingListed(errors: seq<Issue>)
    ensures errors == [] <==> forall e :: e !in errors
  {
    if errors != [] { assert errors[0] in errors; }
  }

  lemma FaultlessIsAccepted(plan: seq<string>, candidate: string, store: string -> Probe, c: Case)
    ensures (forall e :: !Faulted(plan, candidate, store, c, e)) <==> c.id in Ids(plan) && Accepted(candidate, store, c)
  {
    if forall e :: !Faulted(plan, candidate, store, c, e) {
      assert !Faulted(plan, candidate, store, c, Unknown(c.id));
      assert !Faulted(plan, candidate, store, c, CandidateMismatch(c.id));
      assert !Faulted(plan, candidate, store, c, Unapproved(c.id));
      assert !Faulted(plan, candidate, store, c, NotPassed(c.id, c.status));
      assert !Faulted(plan, candidate, store, c, IncompleteScope(c.id));
      assert !Faulted(plan, candidate, store, c, NoEvidence(c.id));
      forall item | item in c.evidence ensures Backed(store, item) {
        assert !Faulted(plan, candidate, store, c, BadEvidence(c.id, item));
      }
    }
  }

  /** There is nothing to object to exactly when the evidence is complete. */
  lemma CompleteMeansNoObjection(plan: seq<string>, cases: seq<Case>, store: string -> Probe, candidate: string)
    ensures Complete(plan, cases, store, candidate) <==> forall e :: !Raised(plan, candidate, store, cases, e)
  {
    hide Faulted, Accepted;
    if Complete(plan, cases, store, candidate) {
      forall e ensures !Raised(plan, candidate, store, cases, e) {
        forall c | c in cases ensures !Faulted(plan, candidate, store, c, e) {
          FaultlessIsAccepted(plan, candidate, store, c);
        }
      }
    }
    if forall e :: !Raised(plan, candidate, store, cases, e) {
      assert !Raised(plan, candidate, store, cases, BadCandidate);
      forall j, k | 0 <= j < k < |cases| ensures cases[j].id != cases[k].id {
        assert !Raised(plan, candidate, store, cases, Duplicate(cases[j].id));
      }
      forall c | c in cases ensures c.id in Ids(plan) && Accepted(candidate, store, c) {
        UnraisedIsFaultless(plan, candidate, store, cases, c);
        FaultlessIsAccepted(plan, candidate, store, c);
      }
      forall id | id in Ids(plan) ensures id in (set c | c in cases :: c.id) {
        assert !Raised(plan, candidate, store, cases, MissingRecord(id));
      }
    }
  }

  lemma UnraisedIsFaultless(plan: seq<string>, candidate: string, store: string -> Probe, cases: seq<Case>, c: Case)
    requires c in cases && forall e :: !Raised(plan, candidate, store, cases, e)
    ensures forall e :: !Faulted(plan, candidate, store, c, e)
  {
    forall e ensures !Faulted(plan, candidate, store, c, e) {
      assert !Raised(plan, candidate, store, cases, e);
    }
  }

  /** The gate raises exactly the objections there are, and reports complete evidence exactly when the evidence is
      complete; it never qualifies anything by itself. */
  method Evaluate(plan: seq<string>, cases: seq<Case>, store: string -> Probe, candidate: string) returns (v: Verdict)
    ensures forall e :: e in v.errors <==> Raised(plan, candidate, store, cases, e)
    ensures v.completeEvidence <==> Complete(plan, cases, store, candidate)
    ensures v.scenarios == |Ids(plan)| && !v.offlineQualified && !v.productionQualified
  {
    hide Faulted, Complete;
    var errors: seq<Issue> := [];
    var seen: set<Option<string>> := {};
    if !FullSha(candidate) { errors := errors + [BadCandidate]; }
    for i := 0 to |cases|
      invariant forall id :: id in seen <==> exists k | 0 <= k < i :: cases[k].id == id
      invariant forall e :: e in errors <==> !e.MissingRecord? && Raised(plan, candidate, store, cases[..i], e)
    {
      var c := cases[i];
      ghost var before := errors;
      if c.id in seen { errors := errors + [Duplicate(c.id)]; }
      seen := seen + {c.id};
      var more := EvaluateCase(plan, candidate, store, c);
      errors := errors + more;
      Extended(plan, candidate, store, cases, i, before, errors, more);
    }
    assert cases[..|cases|] == cases;
    var missing := Ids(plan) - seen;
    var absent := missing;
    ghost var before := errors;
    while absent != {}
      invariant absent <= missing
      invariant forall e :: e in errors <==> e in before || (e.MissingRecord? && e.id in missing && e.id !in absent)
    {
      var id :| id in absent;
      errors := errors + [MissingRecord(id)];
      absent := absent - {id};
    }
    CompleteMeansNoObjection(plan, cases, store, candidate);
    NothingListed(errors);
    v := Verdict(|Ids(plan)|, errors == [], false, false, errors);
  }

  /** A supporting file's digest, if there is such a file under the root. */
  type Reports = string -> Option<string>

  function Prefix(id: string): string {
    if id == "" || id[0] == '-' then "" else [id[0]] + Prefix(id[1..])
  }

  /** The evidence a scenario's reports make up. */
  function Collected(names: seq<string>, reports: Reports): seq<Item> {
    if names == [] then []
    else
      var last := names[|names| - 1];
      Collected(names[..|names| - 1], reports) + (if reports(last).Some? then [Item(Some(last), reports(last))] else [])
  }

  function Retained(id: string, source: Case, candidate: string, evidence: seq<Item>): Case {
    source.(id := Some(id), candidate := Some(candidate), status := Some("NOT RUN"), scopeComplete := false,
            evidence := evidence, reason := "not signed off")
  }

  /** Every planned row, with its supporting reports attached, and never as a pass. */
  method WriteCases(rows: seq<(string, Case)>, byPrefix: map<string, seq<string>>, reports: Reports, candidate: string)
    returns (cases: seq<Case>)
    ensures Written(rows, byPrefix, reports, candidate, cases)
  {
    cases := [];
    for i := 0 to |rows|
      invariant |cases| == i
      invariant forall k | 0 <= k < i ::
        cases[k] == Retained(rows[k].0, rows[k].1, candidate, Collected(NamesFor(rows[k].0, byPrefix), reports))
    {
      var files: seq<Item> := [];
      var names := NamesFor(rows[i].0, byPrefix);
      for j := 0 to |names|
        invariant files == Collected(names[..j], reports)
      {
        assert names[..j + 1][..j] == names[..j];
        if reports(names[j]).Some? { files := files + [Item(Some(names[j]), reports(names[j]))]; }
      }
      assert names[..|names|] == names;
      cases := cases + [rows[i].1.(id := Some(rows[i].0), candidate := Some(candidate), status := Some("NOT RUN"),
                                  scopeComplete := false, evidence := files, reason := "not signed off")];
    }
  }

  function NamesFor(id: string, byPrefix: map<string, seq<string>>): seq<string> {
    var p := Prefix(id);
    if p in byPrefix then byPrefix[p] else []
  }

  function PlanOf(rows: seq<(string, Case)>): seq<string> {
    seq(|rows|, i requires 0 <= i < |rows| => rows[i].0)
  }

  ghost predicate Written(rows: seq<(string, Case)>, byPrefix: map<string, seq<string>>, reports: Reports,
                          candidate: string, cases: seq<Case>)
  {
    |cases| == |rows| &&
    forall k | 0 <= k < |rows| ::
      cases[k] == Retained(rows[k].0, rows[k].1, candidate, Collected(NamesFor(rows[k].0, byPrefix), reports))
  }

  lemma WrittenShape(rows: seq<(string, Case)>, byPrefix: map<string, seq<string>>, reports: Reports,
                     candidate: string, cases: seq<Case>)
    requires Written(rows, byPrefix, reports, candidate, cases)
    ensures forall k | 0 <= k < |rows| :: cases[k].id == Some(rows[k].0)
    ensures Ids(PlanOf(rows)) == set c | c in cases :: c.id
    ensures forall c | c in cases :: c.status == Some("NOT RUN") && !c.scopeComplete && c.candidate == Some(candidate)
  {
    var plan := PlanOf(rows);
    hide Collected, Prefix;
    forall id | id in Ids(plan) ensures id in (set c | c in cases :: c.id) {
      var k :| 0 <= k < |plan| && Some(plan[k]) == id;
      assert cases[k] in cases && cases[k].id == id;
    }
    forall c | c in cases ensures c.id in Ids(plan) {
      var k :| 0 <= k < |cases| && cases[k] == c;
      assert plan[k] in plan;
    }
  }

  /** The written cases, judged by the gate: every scenario is retained under its candidate and none passes, so the
      evidence is never complete, unless there was nothing planned. */
  lemma WrittenCasesNeverPass(rows: seq<(string, Case)>, byPrefix: map<string, seq<string>>, reports: Reports,
                              candidate: string, cases: seq<Case>, store: string -> Probe, e: Issue)
    requires Written(rows, byPrefix, reports, candidate, cases)
    ensures Complete(PlanOf(rows), cases, store, candidate) <==> rows == [] && FullSha(candidate)
    ensures e.MissingRecord? || e.Unknown? || e.CandidateMismatch? || e.Unapproved? ==>
      !Raised(PlanOf(rows), candidate, store, cases, e)
    ensures forall k | 0 <= k < |rows| ::
      && Raised(PlanOf(rows), candidate, store, cases, NotPassed(Some(rows[k].0), Some("NOT RUN")))
      && Raised(PlanOf(rows), candidate, store, cases, IncompleteScope(Some(rows[k].0)))
  {
    var plan := PlanOf(rows);
    WrittenShape(rows, byPrefix, reports, candidate, cases);
    WrittenLength(rows, byPrefix, reports, candidate, cases);
    hide Written, FullSha, Ids, PlanOf;
    forall k | 0 <= k < |rows|
      ensures Raised(plan, candidate, store, cases, NotPassed(Some(rows[k].0), Some("NOT RUN")))
      ensures Raised(plan, candidate, store, cases, IncompleteScope(Some(rows[k].0)))
    {
      assert cases[k] in cases;
      assert Faulted(plan, candidate, store, cases[k], NotPassed(Some(rows[k].0), Some("NOT RUN")));
      assert Faulted(plan, candidate, store, cases[k], IncompleteScope(Some(rows[k].0)));
    }
    NeverComplete(plan, cases, store, candidate);
    hide Complete;
  }

  lemma NeverComplete(plan: seq<string>, cases: seq<Case>, store: string -> Probe, candidate: string)
    requires Ids(plan) == set c | c in cases :: c.id
    requires forall c | c in cases :: c.status == Some("NOT RUN")
    ensures Complete(plan, cases, store, candidate) <==> cases == [] && FullSha(candidate)
  {
    hide FullSha, Ids;
    if cases != [] { assert cases[0] in cases; }
  }

  lemma WrittenLength(rows: seq<(string, Case)>, byPrefix: map<string, seq<string>>, reports: Reports,
                      candidate: string, cases: seq<Case>)
    requires Written(rows, byPrefix, reports, candidate, cases)
    ensures |cases| == |rows|
  {
  }

  // ---------------------------------------------------------------- the same, in full

  const HEX := "0123456789abcdef"

  lemma FullShaExactly(s: string)
    ensures FullSha(s) <==> |s| == 40 && forall i | 0 <= i < 40 :: s[i] in HEX
  {
    forall c: char ensures HexDigit(c) <==> c in HEX {
      assert HEX[0] == '0' && HEX[9] == '9' && HEX[10] == 'a' && HEX[15] == 'f';
      if HexDigit(c) { assert c in HEX[if c <= '9' then c as int - '0' as int else c as int - 'a' as int + 10..]; }
    }
  }

  /** A case that counts, down to its fields. */
  ghost predicate CountsInFull(plan: seq<string>, candidate: string, store: string -> Probe, c: Case) {
    && c.id.Some? && c.id.value in plan
    && c.candidate == Some(candidate) && c.scopeComplete && c.evidence != []
    && (c.status == Some("PASS") || (c.status == Some("NOT APPLICABLE") && c.approvedBy != "" && c.reason != ""))
    && (forall item | item in c.evidence ::
          item.path.Some? && item.sha256.Some? && store(item.path.value) == Inside(item.sha256.value))
  }

  lemma BackedInFull(store: string -> Probe, item: Item)
    ensures Backed(store, item) <==>
      item.path.Some? && item.sha256.Some? && store(item.path.value) == Inside(item.sha256.value)
  {
  }

  lemma AcceptedInFull(plan: seq<string>, candidate: string, store: string -> Probe, c: Case)
    ensures c.id in Ids(plan) && Accepted(candidate, store, c) <==> CountsInFull(plan, candidate, store, c)
  {
    forall item ensures Backed(store, item) <==>
      item.path.Some? && item.sha256.Some? && store(item.path.value) == Inside(item.sha256.value)
    {
      BackedInFull(store, item);
    }
    hide Backed;
  }

  /** What complete evidence takes, down to the fields of the records. */
  lemma CompleteInFull(plan: seq<string>, cases: seq<Case>, store: string -> Probe, candidate: string)
    ensures Complete(plan, cases, store, candidate) <==>
      && |candidate| == 40 && (forall i | 0 <= i < 40 :: candidate[i] in HEX)
      && (forall j, k | 0 <= j < k < |cases| :: cases[j].id != cases[k].id)
      && (forall id | id in plan :: exists c | c in cases :: c.id == Some(id))
      && (forall c | c in cases :: CountsInFull(plan, candidate, store, c))
  {
    FullShaExactly(candidate);
    forall c | c in cases
      ensures c.id in Ids(plan) && Accepted(candidate, store, c) <==> CountsInFull(plan, candidate, store, c)
    {
      AcceptedInFull(plan, candidate, store, c);
    }
    hide FullSha, HEX, CountsInFull, Accepted;
    var ids := set c | c in cases :: c.id;
    if forall id | id in plan :: exists c | c in cases :: c.id == Some(id) {
      assert forall id | id in Ids(plan) :: id in ids;
    }
    if ids == Ids(plan) {
      forall id | id in plan ensures exists c | c in cases :: c.id == Some(id) { assert Some(id) in ids; }
      forall c | c in cases ensures c.id in Ids(plan) { assert c.id in ids; }
    }
  }

  /** Every objection to the cases as a whole, down to the fields of the records. */
  lemma ObjectionsInFull(plan: seq<string>, cases: seq<Case>, store: string -> Probe, candidate: string,
                         id: Option<string>)
    ensures Raised(plan, candidate, store, cases, BadCandidate) <==>
      !(|candidate| == 40 && forall i | 0 <= i < 40 :: candidate[i] in HEX)
    ensures Raised(plan, candidate, store, cases, Duplicate(id)) <==>
      exists j, k | 0 <= j < k < |cases| :: cases[j].id == id && cases[k].id == id
    ensures Raised(plan, candidate, store, cases, MissingRecord(id)) <==>
      id.Some? && id.value in plan && forall c | c in cases :: c.id != id
  {
    FullShaExactly(candidate);
    hide FullSha, HEX;
  }

  /** All other objections are to single cases. */
  lemma OthersAreToCases(plan: seq<string>, cases: seq<Case>, store: string -> Probe, candidate: string, e: Issue)
    requires !e.BadCandidate? && !e.Duplicate? && !e.MissingRecord?
    ensures Raised(plan, candidate, store, cases, e) <==>
      exists c | c in cases :: Faulted(plan, candidate, store, c, e)
  {
    hide Faulted;
  }

  /** What a case is objected to for, down to its fields. */
  lemma FaultInFull(plan: seq<string>, store: string -> Probe, candidate: string, c: Case,
                    id: Option<string>, status: Option<string>, item: Item)
    ensures Faulted(plan, candidate, store, c, Unknown(id)) <==> c.id == id && (id.None? || id.value !in plan)
    ensures Faulted(plan, candidate, store, c, CandidateMismatch(id)) <==> c.id == id && c.candidate != Some(candidate)
    ensures Faulted(plan, candidate, store, c, Unapproved(id)) <==>
      c.id == id && c.status == Some("NOT APPLICABLE") && (c.approvedBy == "" || c.reason == "")
    ensures Faulted(plan, candidate, store, c, NotPassed(id, status)) <==>
      c.id == id && c.status == status && status != Some("NOT APPLICABLE") && status != Some("PASS")
    ensures Faulted(plan, candidate, store, c, IncompleteScope(id)) <==> c.id == id && !c.scopeComplete
    ensures Faulted(plan, candidate, store, c, NoEvidence(id)) <==> c.id == id && c.evidence == []
    ensures Faulted(plan, candidate, store, c, BadEvidence(id, item)) <==>
      c.id == id && item in c.evidence &&
      !(item.path.Some? && item.sha256.Some? && store(item.path.value) == Inside(item.sha256.value))
  {
    BackedInFull(store, item);
    hide Backed;
  }

  /** A scenario belongs to the reports listed under what its id has before the first hyphen. */
  lemma {:induction false} PrefixIsHead(id: string) returns (rest: string)
    ensures id == Prefix(id) + rest && '-' !in Prefix(id) && (rest == "" || rest[0] == '-')
  {
    if id == "" || id[0] == '-' {
      rest := id;
    } else {
      rest := PrefixIsHead(id[1..]);
      assert id == [id[0]] + id[1..];
    }
  }

  lemma {:induction false} CollectedExactly(names: seq<string>, reports: Reports, item: Item)
    ensures item in Collected(names, reports) <==>
      exists name | name in names :: reports(name).Some? && item == Item(Some(name), reports(name))
  {
    if names != [] {
      var init, last := names[..|names| - 1], names[|names| - 1];
      CollectedExactly(init, reports, item);
      assert names == init + [last];
    }
  }

  /** A written case, field by field: what it takes over from its planned row, what it never claims, and its evidence,
      which is every report there is under the id's prefix, with its digest. */
  lemma WrittenInFull(rows: seq<(string, Case)>, byPrefix: map<string, seq<string>>, reports: Reports,
                      candidate: string, cases: seq<Case>, k: nat, p: string, rest: string, item: Item)
    requires Written(rows, byPrefix, reports, candidate, cases) && k < |rows|
    requires rows[k].0 == p + rest && '-' !in p && (rest == "" || rest[0] == '-')
    ensures |cases| == |rows|
    ensures var c, source := cases[k], rows[k].1;
      && c.id == Some(rows[k].0) && c.candidate == Some(candidate) && c.approvedBy == source.approvedBy
      && c.status == Some("NOT RUN") && !c.scopeComplete && c.reason == "not signed off"
      && (item in c.evidence <==>
            p in byPrefix && exists name | name in byPrefix[p] ::
              reports(name).Some? && item == Item(Some(name), reports(name)))
  {
    var tail := PrefixIsHead(rows[k].0);
    SamePrefix(p, rest, Prefix(rows[k].0), tail);
    CollectedExactly(NamesFor(rows[k].0, byPrefix), reports, item);
    hide Collected, Prefix;
  }

  lemma NoLonger(p: string, rest: string, q: string, tail: string)
    requires p + rest == q + tail && '-' !in q && (rest == "" || rest[0] == '-')
    ensures |q| <= |p|
  {
    assert |p + rest| == |q + tail|;
    assert forall n | 0 <= n < |q| :: q[n] == (p + rest)[n] && q[n] != '-';
    assert rest != "" ==> (p + rest)[|p|] == '-';
  }

  lemma SamePrefix(p: string, rest: string, q: string, tail: string)
    requires p + rest == q + tail && '-' !in p && '-' !in q
    requires (rest == "" || rest[0] == '-') && (tail == "" || tail[0] == '-')
    ensures p == q
  {
    NoLonger(p, rest, q, tail);
    NoLonger(q, tail, p, rest);
    assert p == (p + rest)[..|p|] && q == (q + tail)[..|q|];
  }

  /** The evidence a case is written with stands, as long as the files are as they were: it is never objected to. */
  lemma WrittenEvidenceStands(rows: seq<(string, Case)>, byPrefix: map<string, seq<string>>, reports: Reports,
                              candidate: string, cases: seq<Case>, store: string -> Probe, id: Option<string>,
                              item: Item)
    requires Written(rows, byPrefix, reports, candidate, cases)
    requires forall name | reports(name).Some? :: store(name) == Inside(reports(name).value)
    ensures !Raised(PlanOf(rows), candidate, store, cases, BadEvidence(id, item))
  {
    forall c | c in cases && item in c.evidence ensures Backed(store, item) {
      var k :| 0 <= k < |cases| && cases[k] == c;
      CollectedExactly(NamesFor(rows[k].0, byPrefix), reports, item);
    }
    hide Written, Collected, Backed;
  }
}
