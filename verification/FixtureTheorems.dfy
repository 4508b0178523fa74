/** The fixture set hangs together: identifiers are dense, references resolve, times lie in the window, and the
    reconciliation file agrees with the rows, for every number of leads and campaigns and every seed. */
module FixtureTheorems {
  import opened Wrappers
  import opened Fixtures

  /** Event numbers run from 1 without gap or repetition. */
  lemma EventNumbers(leads: seq<Lead>, events: seq<Event>, n: int)
    requires EventsOf(leads, events)
    ensures 1 <= n <= 10 * |leads| <==> exists k | 0 <= k < |events| :: events[k].id == n
    ensures forall j, k | 0 <= j < k < |events| :: events[j].id < events[k].id
  {
    forall k | 0 <= k < |events| ensures events[k].id == k + 1 {
      TenFold(k);
    }
    if 1 <= n <= 10 * |leads| { assert events[n - 1].id == n; }
  }

  lemma TenFold(k: int)
    ensures k == 10 * (k / 10) + k % 10
  {
  }

  lemma EventParent(leads: seq<Lead>, events: seq<Event>, j: nat)
    requires EventsOf(leads, events) && j < |events|
    ensures events[j].parent == if events[j].kind == PaymentRefunded then Some(j) else None
    ensures events[j].kind == PaymentRefunded ==> j > 0 && Refunds(events[j], events[j - 1])
  {
    var i := j / 10 + 1;
    assert events[j] == EventRow(leads[j / 10], i, j % 10);
    TenFold(j);
    if events[j].kind == PaymentRefunded {
      RefundStep(i, j % 10);
      assert events[j - 1] == EventRow(leads[(j - 1) / 10], (j - 1) / 10 + 1, (j - 1) % 10);
      hide EventsOf, KindAt;
      assert (j - 1) / 10 + 1 == i && (j - 1) % 10 == 6;
    }
  }

  lemma RefundStep(i: int, step: nat)
    requires step < 10 && KindAt(i, step) == PaymentRefunded
    ensures step == 7 && KindAt(i, 6) == PaymentSucceeded
  {
  }

  /** Every refund names an earlier, larger payment of the same lead, and no payment is refunded twice. */
  lemma RefundsHavePayments(leads: seq<Lead>, events: seq<Event>, j: nat)
    requires EventsOf(leads, events) && j < |events|
    ensures events[j].kind == PaymentRefunded <==> events[j].parent.Some?
    ensures events[j].kind == PaymentRefunded ==>
      exists k | 0 <= k < j :: Refunds(events[j], events[k])
    ensures forall i | 0 <= i < |events| && i != j && events[i].parent.Some? :: events[i].parent != events[j].parent
  {
    EventParent(leads, events, j);
    forall i | 0 <= i < |events| && i != j && events[i].parent.Some? ensures events[i].parent != events[j].parent {
      EventParent(leads, events, i);
    }
    hide EventsOf, Refunds;
  }

  predicate Refunds(e: Event, p: Event) {
    && p.kind == PaymentSucceeded && e.parent == Some(p.id)
    && p.lead == e.lead && p.workspace == e.workspace && p.tenant == e.tenant && p.campaign == e.campaign
    && p.occurredAt < e.occurredAt && 0 < e.amount <= p.amount
  }

  /** How often each kind occurs among the events of n leads. */
  function Expected(kind: Kind, n: nat): nat {
    match kind
    case PageView => 2 * n + (n - n / 5) + (n - n / 10) + (n - n / 50)
    case LeadQualified => n / 5
    case PaymentSucceeded => n / 10
    case PaymentRefunded => n / 50
    case _ => n
  }

  function Steps(i: int, m: nat, kind: Kind): nat
    requires m <= 10
  {
    if m == 0 then 0 else Steps(i, m - 1, kind) + (if KindAt(i, m - 1) == kind then 1 else 0)
  }

  /** How often a kind occurs among the events of lead i. */
  function Occurs(i: int, kind: Kind): nat {
    match kind
    case PageView =>
      2 + (if i % 5 == 0 then 0 else 1) + (if i % 10 == 0 then 0 else 1) + (if i % 50 == 0 then 0 else 1)
    case LeadQualified => if i % 5 == 0 then 1 else 0
    case PaymentSucceeded => if i % 10 == 0 then 1 else 0
    case PaymentRefunded => if i % 50 == 0 then 1 else 0
    case _ => 1
  }

  lemma FiveSteps(i: int, m: nat, kind: Kind)
    requires 5 <= m <= 10
    ensures Steps(i, m, kind) == Steps(i, m - 5, kind) +
      (if KindAt(i, m - 5) == kind then 1 else 0) + (if KindAt(i, m - 4) == kind then 1 else 0) +
      (if KindAt(i, m - 3) == kind then 1 else 0) + (if KindAt(i, m - 2) == kind then 1 else 0) +
      (if KindAt(i, m - 1) == kind then 1 else 0)
  {
    hide KindAt;
    assert Steps(i, m - 2, kind) == Steps(i, m - 3, kind) + (if KindAt(i, m - 3) == kind then 1 else 0);
    assert Steps(i, m - 4, kind) == Steps(i, m - 5, kind) + (if KindAt(i, m - 5) == kind then 1 else 0);
  }

  lemma StepsOccur(i: int, kind: Kind)
    ensures Steps(i, 10, kind) == Occurs(i, kind)
  {
    FiveSteps(i, 5, kind);
    FiveSteps(i, 10, kind);
    NoSteps(i, kind);
    hide Steps;
  }

  lemma NoSteps(i: int, kind: Kind)
    ensures Steps(i, 0, kind) == 0
  {
  }

  lemma ExpectedGrows(n: nat, kind: Kind)
    ensures Expected(kind, n + 1) == Expected(kind, n) + Occurs(n + 1, kind)
  {
    Fifths(n);
    Tenths(n);
    Fiftieths(n);
  }

  lemma Fifths(n: nat)
    ensures (n + 1) / 5 == n / 5 + (if (n + 1) % 5 == 0 then 1 else 0)
  {
  }

  lemma Tenths(n: nat)
    ensures (n + 1) / 10 == n / 10 + (if (n + 1) % 10 == 0 then 1 else 0)
  {
  }

  lemma Fiftieths(n: nat)
    ensures (n + 1) / 50 == n / 50 + (if (n + 1) % 50 == 0 then 1 else 0)
  {
  }

  lemma TakeLast(events: seq<Event>, k: nat, kind: Kind)
    requires k < |events|
    ensures CountOf(events[..k + 1], kind) == CountOf(events[..k], kind) + (if events[k].kind == kind then 1 else 0)
  {
    assert events[..k + 1][..k] == events[..k];
  }

  lemma {:induction false} CountWithin(leads: seq<Lead>, events: seq<Event>, i: nat, m: nat, kind: Kind)
    requires EventsOf(leads, events) && i < |leads| && m <= 10
    ensures CountOf(events[..10 * i + m], kind) == CountOf(events[..10 * i], kind) + Steps(i + 1, m, kind)
    decreases m
  {
    hide CountOf, KindAt;
    if m > 0 {
      CountWithin(leads, events, i, m - 1, kind);
      var k := 10 * i + m - 1;
      TakeLast(events, k, kind);
      assert k / 10 == i && k % 10 == m - 1;
    }
  }

  lemma {:induction false} CountUpTo(leads: seq<Lead>, events: seq<Event>, i: nat, kind: Kind)
    requires EventsOf(leads, events) && i <= |leads|
    ensures CountOf(events[..10 * i], kind) == Expected(kind, i)
    decreases i
  {
    hide EventsOf, Steps, Expected, Occurs;
    if i > 0 {
      CountUpTo(leads, events, i - 1, kind);
      EnoughEvents(leads, events);
      CountWithin(leads, events, i - 1, 10, kind);
      StepsOccur(i, kind);
      ExpectedGrows(i - 1, kind);
    } else {
      ExpectNothing(kind);
    }
  }

  lemma ExpectNothing(kind: Kind)
    ensures Expected(kind, 0) == 0
  {
  }

  lemma EnoughEvents(leads: seq<Lead>, events: seq<Event>)
    requires EventsOf(leads, events)
    ensures |events| == 10 * |leads|
  {
  }

  lemma {:induction false} Amounts(leads: seq<Lead>, events: seq<Event>, k: nat)
    requires EventsOf(leads, events) && k <= |events|
    ensures AmountOf(events[..k], PaymentRefunded) == 10000 * CountOf(events[..k], PaymentRefunded)
    ensures 100000 * CountOf(events[..k], PaymentSucceeded) <= AmountOf(events[..k], PaymentSucceeded)
      <= 160000 * CountOf(events[..k], PaymentSucceeded)
    decreases k
  {
    if k > 0 {
      Amounts(leads, events, k - 1);
      assert events[..k][..k - 1] == events[..k - 1] && events[..k][k - 1] == events[k - 1];
      AmountRange(leads, events, k - 1);
      hide EventsOf;
    }
  }

  lemma AmountRange(leads: seq<Lead>, events: seq<Event>, k: nat)
    requires EventsOf(leads, events) && k < |events|
    ensures events[k].kind == PaymentRefunded ==> events[k].amount == 10000
    ensures events[k].kind == PaymentSucceeded ==> 100000 <= events[k].amount <= 160000
  {
  }

  /** What the loop accumulated is what the file states from the number of leads alone. */
  lemma TotalsAgree(leads: seq<Lead>, events: seq<Event>, t: Totals)
    requires EventsOf(leads, events) && Reconciled(events, t)
    ensures forall k: Kind :: (if k in t.counts then t.counts[k] else 0) == Expected(k, |leads|)
    ensures t.refunds == 10000 * (|leads| / 50)
    ensures 100000 * (|leads| / 10) <= t.revenue <= 160000 * (|leads| / 10)
    ensures t.revenue - t.refunds >= 0
  {
    assert events[..10 * |leads|] == events;
    forall k: Kind ensures CountOf(events, k) == Expected(k, |leads|) {
      CountUpTo(leads, events, |leads|, k);
    }
    Amounts(leads, events, |events|);
    assert events[..|events|] == events;
    hide CountOf, AmountOf, EventsOf;
    assert Expected(PaymentRefunded, |leads|) == |leads| / 50 && Expected(PaymentSucceeded, |leads|) == |leads| / 10;
  }

  ghost predicate OnlyAt(i: int, step: nat, kind: Kind) {
    forall s: nat | s < 10 && s != step :: KindAt(i, s) != kind
  }

  /** A kind that only one step can have occurs for a lead exactly when that step has it. */
  lemma OnlyStep(leads: seq<Lead>, events: seq<Event>, i: nat, step: nat, kind: Kind)
    requires EventsOf(leads, events) && i < |leads| && step < 10
    requires forall k | 0 <= k < |leads| :: leads[k].id == k + 1
    requires OnlyAt(i + 1, step, kind)
    ensures (exists k | 0 <= k < |events| :: events[k].lead == i + 1 && events[k].kind == kind) <==>
      KindAt(i + 1, step) == kind
  {
    hide KindAt;
    var j := 10 * i + step;
    assert j / 10 == i && j % 10 == step;
    assert events[j] == EventRow(leads[i], i + 1, step);
  }

  lemma OwnSteps(i: int)
    ensures OnlyAt(i, 6, PaymentSucceeded) && OnlyAt(i, 5, LeadQualified)
    ensures KindAt(i, 6) == PaymentSucceeded <==> i % 10 == 0
    ensures KindAt(i, 5) == LeadQualified <==> i % 5 == 0
    ensures KindAt(i, 3) == LeadCreated
  {
  }

  /** A lead's stage, score band and creation time are those of its own events. */
  lemma LeadTellsItsEvents(p: Plan, campaigns: seq<Campaign>, leads: seq<Lead>, events: seq<Event>, i: nat)
    requires LeadsOf(p, campaigns, leads) && EventsOf(leads, events) && i < |leads|
    ensures leads[i].stage == Customer <==>
      exists k | 0 <= k < |events| :: events[k].lead == leads[i].id && events[k].kind == PaymentSucceeded
    ensures leads[i].highBand <==>
      exists k | 0 <= k < |events| :: events[k].lead == leads[i].id && events[k].kind == LeadQualified
    ensures exists k | 0 <= k < |events| ::
      events[k].lead == leads[i].id && events[k].kind == LeadCreated && events[k].occurredAt == leads[i].createdAt
  {
    hide KindAt;
    OwnSteps(i + 1);
    OnlyStep(leads, events, i, 6, PaymentSucceeded);
    OnlyStep(leads, events, i, 5, LeadQualified);
    var j := 10 * i + 3;
    assert j / 10 == i && j % 10 == 3;
    assert events[j] == EventRow(leads[i], i + 1, 3);
  }

  predicate InWindow(t: int) {
    0 <= t < END
  }

  /** Whatever the seed, every lead, statistic, event and receipt falls into the window. */
  lemma TimesInWindow(p: Plan, d: Dataset)
    requires Valid(p) && Tabulated(p, d)
    ensures forall k | 0 <= k < |d.leads| :: InWindow(d.leads[k].createdAt) && InWindow(d.leads[k].updatedAt)
    ensures forall k | 0 <= k < |d.events| :: InWindow(d.events[k].occurredAt) && InWindow(d.events[k].receivedAt)
    ensures forall k | 0 <= k < |d.stats| :: InWindow(d.stats[k].day * 86400)
  {
  }

  /** Tenant and workspace are rows of their tables, and belong together. */
  ghost predicate Resolves(d: Dataset, tenant: int, workspace: int) {
    && 1 <= tenant <= |d.tenants| && d.tenants[tenant - 1].id == tenant
    && 1 <= workspace <= |d.workspaces| && d.workspaces[workspace - 1].id == workspace
    && d.workspaces[workspace - 1].tenant == tenant
  }

  ghost predicate InUse(d: Dataset, tenant: int, workspace: int) {
    && Resolves(d, tenant, workspace)
    && d.tenants[tenant - 1].status == Active && d.workspaces[workspace - 1].status == Active
  }

  ghost predicate OfCampaign(d: Dataset, campaign: int, tenant: int, workspace: int) {
    && 1 <= campaign <= |d.campaigns| && d.campaigns[campaign - 1].id == campaign
    && d.campaigns[campaign - 1].tenant == tenant && d.campaigns[campaign - 1].workspace == workspace
    && InUse(d, tenant, workspace)
  }

  predicate OfLead(d: Dataset, e: Event) {
    1 <= e.lead <= |d.leads| && d.leads[e.lead - 1].id == e.lead && d.leads[e.lead - 1].campaign == e.campaign
  }

  /** Every campaign, lead, daily statistic and event belongs to a campaign of a tenant and workspace that exist,
      belong together and are in use: none lies in an empty or suspended one. */
  lemma MarketingIsInUse(p: Plan, d: Dataset)
    requires Valid(p) && Tabulated(p, d)
    ensures forall c | c in d.campaigns :: OfCampaign(d, c.id, c.tenant, c.workspace)
    ensures forall l | l in d.leads :: OfCampaign(d, l.campaign, l.tenant, l.workspace)
    ensures forall s | s in d.stats :: OfCampaign(d, s.campaign, s.tenant, s.workspace)
    ensures forall e | e in d.events :: OfCampaign(d, e.campaign, e.tenant, e.workspace) && OfLead(d, e)
  {
  }

  lemma QuotientBelow(k: nat, per: nat, t: nat)
    requires per > 0
    ensures k / per < t <==> k < per * t
  {
    var q, r := k / per, k % per;
    assert k == per * q + r && 0 <= r < per;
    if q < t {
      assert per * (q + 1) <= per * t;
    } else {
      assert per * t <= per * q;
    }
  }

  lemma SharesFit(users: nat, tenants: nat)
    requires 1 <= tenants <= users
    ensures var per := users / tenants;
      per >= 1 && per * tenants <= users && (users <= per * tenants <==> users % tenants == 0)
  {
  }

  /** Every user's home is a workspace of that user's tenant exactly when the users divide evenly among tenants. */
  lemma UsersResolveExactly(p: Plan, d: Dataset)
    requires Valid(p) && Tabulated(p, d)
    ensures (forall k | 0 <= k < |d.users| :: Resolves(d, d.users[k].tenant, d.users[k].home)) <==>
      p.users % p.tenants == 0
  {
    SharesFit(p.users, p.tenants);
    hide LeadsOf, StatsOf, EventsOf, CampaignRow, TenantOf, PlaceOf;
    if p.users % p.tenants == 0 {
      forall k | 0 <= k < |d.users| ensures Resolves(d, d.users[k].tenant, d.users[k].home) {
        TenantInRange(p, k);
        UserResolves(p, d, k);
      }
    } else {
      TenantInRange(p, p.users - 1);
      assert d.users[p.users - 1] == UserRow(p, p.users);
    }
  }

  lemma TenantInRange(p: Plan, k: nat)
    requires Valid(p)
    ensures 1 <= TenantOf(p, k + 1)
    ensures TenantOf(p, k + 1) <= p.tenants <==> k < p.users / p.tenants * p.tenants
  {
    var per := p.users / p.tenants;
    SharesFit(p.users, p.tenants);
    QuotientBelow(k, per, p.tenants);
    assert TenantOf(p, k + 1) == k / per + 1;
  }

  lemma UserResolves(p: Plan, d: Dataset, k: nat)
    requires Valid(p) && Tabulated(p, d) && k < |d.users| && 1 <= TenantOf(p, k + 1) <= p.tenants
    ensures Resolves(d, d.users[k].tenant, d.users[k].home)
  {
    hide UserRow, WorkspaceRow, TenantRow, Tabulated, Valid, TenantOf;
    var u := UserRow(p, k + 1);
    UserHome(p, k);
    WorkspaceOwner(p, u.tenant, u.home);
    CoreTables(p, d, k, u.tenant, u.home);
  }

  lemma CoreTables(p: Plan, d: Dataset, k: nat, t: int, w: int)
    requires Valid(p) && Tabulated(p, d) && k < |d.users| && 1 <= t <= p.tenants && 1 <= w <= 2 * p.tenants
    ensures d.users[k] == UserRow(p, k + 1)
    ensures |d.tenants| == p.tenants && d.tenants[t - 1].id == t
    ensures |d.workspaces| == 2 * p.tenants && d.workspaces[w - 1] == WorkspaceRow(p, w)
  {
  }

  lemma UserHome(p: Plan, k: nat)
    requires Valid(p)
    ensures var u := UserRow(p, k + 1);
      u.tenant == TenantOf(p, k + 1) && (u.home == 2 * u.tenant - 1 || u.home == 2 * u.tenant)
  {
    hide UserOf, TenantOf, PlaceOf;
    HomeOf(p, k + 1, TenantOf(p, k + 1), PlaceOf(p, k + 1));
  }

  lemma HomeOf(p: Plan, i: int, t: int, j: int)
    ensures var u := UserOf(p, i, t, j); u.tenant == t && (u.home == 2 * t - 1 || u.home == 2 * t)
  {
  }

  lemma WorkspaceOwner(p: Plan, tenant: int, workspace: int)
    requires workspace == 2 * tenant - 1 || workspace == 2 * tenant
    ensures WorkspaceRow(p, workspace).tenant == tenant && WorkspaceRow(p, workspace).id == workspace
  {
  }

  /** The last digits of m consecutive numbers, added up. */
  function Digits(x: int, m: nat): int {
    if m == 0 then 0 else Digits(x, m - 1) + (x + m - 1) % 10
  }

  lemma {:induction false} DigitsFromTen(q: int, m: nat)
    requires m <= 10
    ensures 2 * Digits(10 * q, m) == m * (m - 1)
  {
    if m > 0 {
      DigitsFromTen(q, m - 1);
      LastDigit(q, m - 1);
    }
  }

  lemma LastDigit(q: int, r: nat)
    requires r <= 9
    ensures (10 * q + r) % 10 == r
  {
  }

  lemma {:induction false} DigitsShift(x: int, m: nat)
    ensures Digits(x + 1, m) == Digits(x, m) - x % 10 + (x + m) % 10
  {
    if m > 0 { DigitsShift(x, m - 1); }
  }

  lemma {:induction false} TenDigits(x: int, r: nat)
    requires r <= 9 && (x - r) % 10 == 0
    ensures Digits(x, 10) == 45
    decreases r
  {
    hide Digits;
    if r == 0 {
      DigitsFromTen(x / 10, 10);
    } else {
      TenDigits(x - 1, r - 1);
      DigitsShift(x - 1, 10);
    }
  }

  /** Where the last digits of a decade of statistics start. */
  function Decade(p: Plan, b: nat): int {
    10 * b / 90 + 1 + 10 * b % 90 + p.seed
  }

  /** The first days of a decade of statistics. */
  lemma {:induction false} SpendWithin(p: Plan, campaigns: seq<Campaign>, stats: seq<Stat>, b: nat, m: nat)
    requires StatsOf(p, campaigns, stats) && 10 * b + 10 <= |stats| && m <= 10
    ensures Sum(Spends(stats)[..10 * b + m]) == Sum(Spends(stats)[..10 * b])
      + 1000 * m + 100 * Digits(Decade(p, b), m)
    decreases m
  {
    hide StatsOf, Decade, Sum;
    if m > 0 {
      SpendWithin(p, campaigns, stats, b, m - 1);
      SumTo(Spends(stats), 10 * b + m - 1);
      DaySpend(p, campaigns, stats, b, m - 1);
    }
  }

  lemma DaySpend(p: Plan, campaigns: seq<Campaign>, stats: seq<Stat>, b: nat, j: nat)
    requires StatsOf(p, campaigns, stats) && 10 * b + 10 <= |stats| && j < 10
    ensures stats[10 * b + j].spend == 1000 + 100 * ((Decade(p, b) + j) % 10)
  {
  }

  /** The provider's total spend depends on the number of campaigns alone: not on the seed. */
  lemma SpendIsFixed(p: Plan, campaigns: seq<Campaign>, stats: seq<Stat>)
    requires StatsOf(p, campaigns, stats)
    ensures Sum(seq(|stats|, k requires 0 <= k < |stats| => stats[k].spend)) == 130500 * |campaigns|
  {
    SpendUpTo(p, campaigns, stats, 9 * |campaigns|);
    assert Spends(stats)[..90 * |campaigns|] == Spends(stats);
  }

  lemma {:induction false} SpendUpTo(p: Plan, campaigns: seq<Campaign>, stats: seq<Stat>, b: nat)
    requires StatsOf(p, campaigns, stats) && 10 * b <= |stats|
    ensures Sum(Spends(stats)[..10 * b]) == 14500 * b
    decreases b
  {
    hide StatsOf, Digits, Decade, Spends;
    if b > 0 {
      SpendUpTo(p, campaigns, stats, b - 1);
      SpendWithin(p, campaigns, stats, b - 1, 10);
      AnyTenDigits(Decade(p, b - 1));
      hide Sum;
      assert 10 * (b - 1) + 10 == 10 * b;
    }
  }

  lemma AnyTenDigits(x: int)
    ensures Digits(x, 10) == 45
  {
    TenDigits(x, x % 10);
    hide Digits;
  }
}
