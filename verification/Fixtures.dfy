/** The fixture generator: linked tables built row by row, and the totals it accumulates on the way for the
    reconciliation file. Row identifiers are numbers within their table, times are seconds from the window's start. */
module Fixtures {
  import opened Wrappers

  /** The window is 90 days. */
  const MINUTE := 60
  const END := 90 * 86400

  const PERSONAS := 8
  const PROVIDERS := 7

  /** What the two profiles fix; there are two workspaces to a tenant and ten events to a lead. */
  datatype Plan = Plan(scale: bool, tenants: nat, users: nat, campaigns: nat, leads: nat, seed: int)

  /** Rows in every table and names for the functional tenants, without which the generator raises. Its functional
      campaigns use workspaces 1 to 4, which takes two tenants: it does not check that, but its records need it. */
  predicate Valid(p: Plan) {
    1 <= p.tenants <= p.users && 1 <= p.campaigns && 1 <= p.leads && (!p.scale ==> 2 <= p.tenants <= 4)
  }

  datatype Status = Active | Empty | Suspended | Disabled | Invited

  datatype Stage = Customer | Qualified | New | Contacted | Lost

  datatype MarketingConsent = Revoked | Denied | Granted

  datatype Kind = AdImpression | AdClick | PageView | LeadCreated | LeadUpdated | LeadQualified
                | PaymentSucceeded | PaymentRefunded | FormView

  datatype Tenant = Tenant(id: int, status: Status)

  datatype Workspace = Workspace(id: int, tenant: int, status: Status)

  datatype User = User(id: int, tenant: int, home: int, persona: int, status: Status)

  datatype Member = Member(id: int, tenant: int, workspace: int, user: int, persona: int, status: Status)

  datatype Campaign = Campaign(id: int, tenant: int, workspace: int, provider: int, state: int)

  datatype Lead = Lead(id: int, tenant: int, workspace: int, campaign: int, stage: Stage, consent: MarketingConsent,
                       createdAt: int, updatedAt: int, highBand: bool)

  datatype Stat = Stat(id: int, tenant: int, workspace: int, campaign: int, provider: int, day: int,
                       spend: int, impressions: int, clicks: int)

  datatype Event = Event(id: int, tenant: int, workspace: int, campaign: int, lead: int, kind: Kind,
                         occurredAt: int, receivedAt: int, amount: int, parent: Option<int>)

  datatype Totals = Totals(counts: map<Kind, nat>, revenue: int, refunds: int)

  datatype Dataset = Dataset(tenants: seq<Tenant>, workspaces: seq<Workspace>, users: seq<User>, members: seq<Member>,
                             campaigns: seq<Campaign>, leads: seq<Lead>, stats: seq<Stat>, events: seq<Event>)

  datatype Reconciliation = Reconciliation(rows: Plan, statRows: int, counts: map<Kind, nat>, revenue: int,
                                           refunds: int, net: int, createdLeads: int, qualifiedLeads: int,
                                           customers: int, refundEvents: int, spend: int, impressions: int, clicks: int)

  function TenantRow(p: Plan, i: int): Tenant {
    Tenant(i, if p.scale || i != 4 then Active else Suspended)
  }

  function WorkspaceRow(p: Plan, i: int): Workspace {
    var t := (i - 1) / 2 + 1;
    Workspace(i, t, if p.scale || t < 3 then Active else if t == 3 then Empty else Suspended)
  }

  function UserRow(p: Plan, i: int): User
    requires Valid(p)
  {
    UserOf(p, i, TenantOf(p, i), PlaceOf(p, i))
  }

  /** Users are shared out among tenants in order, the same number to each. */
  function TenantOf(p: Plan, i: int): int
    requires Valid(p)
  {
    (i - 1) / (p.users / p.tenants) + 1
  }

  function PlaceOf(p: Plan, i: int): int
    requires Valid(p)
  {
    (i - 1) % (p.users / p.tenants)
  }

  /** User i, the one in place j of tenant t. */
  function UserOf(p: Plan, i: int, t: int, j: int): User {
    var w := (t - 1) * 2 + 1 + (if p.scale then j % 2 else if j == 4 || j == 7 then 1 else 0);
    User(i, t, w, j % PERSONAS,
         if p.scale then Active else if j == 6 then Disabled else if j == 7 then Invited else Active)
  }

  function MemberRow(u: User): Member {
    Member(u.id, u.tenant, u.home, u.id, u.persona, u.status)
  }

  /** All workspaces, or those of the two functional tenants that are in use. */
  function ActiveWorkspaces(p: Plan): int {
    if p.scale then 2 * p.tenants else 4
  }

  function CampaignRow(p: Plan, i: int): Campaign
    requires Valid(p)
  {
    var w := (i - 1) % ActiveWorkspaces(p) + 1;
    Campaign(i, (w - 1) / 2 + 1, w, (i - 1) % PROVIDERS, (i - 1) % 3)
  }

  /** When a lead's first event happens. */
  function LeadStart(seed: int, i: int): int {
    ((i * 37 + seed) % 88) * 86400 + ((i * 7) % 20) * 3600 + (i % 50) * MINUTE
  }

  function LeadRow(p: Plan, c: Campaign, i: int): Lead {
    Lead(i, c.tenant, c.workspace, c.id,
         if i % 10 == 0 then Customer else if i % 5 == 0 then Qualified
         else if i % 3 == 0 then New else if i % 3 == 1 then Contacted else Lost,
         if i % 17 == 0 then Revoked else if i % 4 == 0 then Denied else Granted,
         LeadStart(p.seed, i) + 3 * MINUTE, LeadStart(p.seed, i) + 9 * MINUTE, i % 5 == 0)
  }

  function StatRow(p: Plan, c: Campaign, ci: int, d: int): Stat {
    Stat((ci - 1) * 90 + d + 1, c.tenant, c.workspace, c.id, c.provider, d,
         1000 + ((ci + d + p.seed) % 10) * 100, 100 + (ci + d) % 40, 10 + (ci + d) % 7)
  }

  /** The ten events of lead i. */
  function Kinds(i: int): (kinds: seq<Kind>)
    ensures |kinds| == 10
  {
    [AdImpression, AdClick, PageView, LeadCreated, LeadUpdated,
     if i % 5 == 0 then LeadQualified else PageView,
     if i % 10 == 0 then PaymentSucceeded else PageView,
     if i % 50 == 0 then PaymentRefunded else PageView, FormView, PageView]
  }

  function KindAt(i: int, step: nat): Kind
    requires step < 10
  {
    Kinds(i)[step]
  }

  function EventRow(l: Lead, i: int, step: nat): Event
    requires step < 10
  {
    var kind, at := KindAt(i, step), l.createdAt - 3 * MINUTE + step * MINUTE;
    Event((i - 1) * 10 + step + 1, l.tenant, l.workspace, l.campaign, l.id, kind, at, at + 5,
          if kind == PaymentSucceeded then 100000 + (i % 7) * 10000 else if kind == PaymentRefunded then 10000 else 0,
          if kind == PaymentRefunded then Some((i - 1) * 10 + 7) else None)
  }

  /** The tables, row by row. */
  ghost predicate Tabulated(p: Plan, d: Dataset)
    requires Valid(p)
  {
    && |d.tenants| == p.tenants && (forall k | 0 <= k < |d.tenants| :: d.tenants[k] == TenantRow(p, k + 1))
    && |d.workspaces| == 2 * p.tenants
    && (forall k | 0 <= k < |d.workspaces| :: d.workspaces[k] == WorkspaceRow(p, k + 1))
    && |d.users| == p.users && (forall k | 0 <= k < |d.users| :: d.users[k] == UserRow(p, k + 1))
    && |d.members| == p.users && (forall k | 0 <= k < |d.members| :: d.members[k] == MemberRow(UserRow(p, k + 1)))
    && |d.campaigns| == p.campaigns && (forall k | 0 <= k < |d.campaigns| :: d.campaigns[k] == CampaignRow(p, k + 1))
    && LeadsOf(p, d.campaigns, d.leads) && |d.leads| == p.leads
    && StatsOf(p, d.campaigns, d.stats)
    && EventsOf(d.leads, d.events)
  }

  ghost predicate LeadsOf(p: Plan, campaigns: seq<Campaign>, leads: seq<Lead>) {
    |campaigns| > 0 &&
    forall k | 0 <= k < |leads| :: leads[k] == LeadRow(p, campaigns[k % |campaigns|], k + 1)
  }

  ghost predicate StatsOf(p: Plan, campaigns: seq<Campaign>, stats: seq<Stat>) {
    |stats| == 90 * |campaigns| &&
    forall k | 0 <= k < |stats| :: stats[k] == StatRow(p, campaigns[k / 90], k / 90 + 1, k % 90)
  }

  ghost predicate EventsOf(leads: seq<Lead>, events: seq<Event>) {
    |events| == 10 * |leads| &&
    forall k | 0 <= k < |events| :: events[k] == EventRow(leads[k / 10], k / 10 + 1, k % 10)
  }

  function CountOf(events: seq<Event>, kind: Kind): nat {
    if events == [] then 0
    else CountOf(events[..|events| - 1], kind) + (if events[|events| - 1].kind == kind then 1 else 0)
  }

  function AmountOf(events: seq<Event>, kind: Kind): int {
    if events == [] then 0
    else
      var e := events[|events| - 1];
      AmountOf(events[..|events| - 1], kind) + (if e.kind == kind then e.amount else 0)
  }

  /** The accumulated totals are those of the rows written so far. */
  ghost predicate Reconciled(events: seq<Event>, t: Totals) {
    && (forall k: Kind :: (if k in t.counts then t.counts[k] else 0) == CountOf(events, k))
    && (forall k: Kind :: k in t.counts <==> CountOf(events, k) > 0)
    && t.revenue == AmountOf(events, PaymentSucceeded) && t.refunds == AmountOf(events, PaymentRefunded)
  }

  lemma OneMoreEvent(events: seq<Event>, e: Event, kind: Kind)
    ensures CountOf(events + [e], kind) == CountOf(events, kind) + (if e.kind == kind then 1 else 0)
    ensures AmountOf(events + [e], kind) == AmountOf(events, kind) + (if e.kind == kind then e.amount else 0)
  {
    assert (events + [e])[..|events + [e]| - 1] == events;
  }

  lemma StillReconciled(events: seq<Event>, t: Totals, e: Event, u: Totals)
    requires Reconciled(events, t)
    requires u.counts == t.counts[e.kind := (if e.kind in t.counts then t.counts[e.kind] else 0) + 1]
    requires u.revenue == t.revenue + (if e.kind == PaymentSucceeded then e.amount else 0)
    requires u.refunds == t.refunds + (if e.kind == PaymentRefunded then e.amount else 0)
    ensures Reconciled(events + [e], u)
  {
    hide CountOf, AmountOf;
    OneMoreEvent(events, e, PaymentSucceeded);
    OneMoreEvent(events, e, PaymentRefunded);
    forall k: Kind
      ensures (if k in u.counts then u.counts[k] else 0) == CountOf(events + [e], k)
      ensures k in u.counts <==> CountOf(events + [e], k) > 0
    {
      OneMoreEvent(events, e, k);
    }
  }

  function Sum(ns: seq<int>): int {
    if ns == [] then 0 else Sum(ns[..|ns| - 1]) + ns[|ns| - 1]
  }

  function Spends(stats: seq<Stat>): seq<int> {
    seq(|stats|, k requires 0 <= k < |stats| => stats[k].spend)
  }

  function Impressions(stats: seq<Stat>): seq<int> {
    seq(|stats|, k requires 0 <= k < |stats| => stats[k].impressions)
  }

  function Clicks(stats: seq<Stat>): seq<int> {
    seq(|stats|, k requires 0 <= k < |stats| => stats[k].clicks)
  }

  lemma SumTo(ns: seq<int>, k: nat)
    requires k < |ns|
    ensures Sum(ns[..k + 1]) == Sum(ns[..k]) + ns[k]
  {
    assert ns[..k + 1][..k] == ns[..k];
  }

  /** The provider's totals. */
  method AddUp(stats: seq<Stat>) returns (spend: int, impressions: int, clicks: int)
    ensures spend == Sum(Spends(stats)) && impressions == Sum(Impressions(stats)) && clicks == Sum(Clicks(stats))
  {
    spend, impressions, clicks := 0, 0, 0;
    for k := 0 to |stats|
      invariant spend == Sum(Spends(stats)[..k])
      invariant impressions == Sum(Impressions(stats)[..k])
      invariant clicks == Sum(Clicks(stats)[..k])
    {
      SumTo(Spends(stats), k);
      SumTo(Impressions(stats), k);
      SumTo(Clicks(stats), k);
      spend := spend + stats[k].spend;
      impressions := impressions + stats[k].impressions;
      clicks := clicks + stats[k].clicks;
    }
    assert Spends(stats)[..|stats|] == Spends(stats) && Clicks(stats)[..|stats|] == Clicks(stats);
    assert Impressions(stats)[..|stats|] == Impressions(stats);
  }

  method WriteTenants(p: Plan) returns (tenants: seq<Tenant>, workspaces: seq<Workspace>)
    ensures |tenants| == p.tenants && forall k | 0 <= k < |tenants| :: tenants[k] == TenantRow(p, k + 1)
    ensures |workspaces| == 2 * p.tenants && forall k | 0 <= k < |workspaces| :: workspaces[k] == WorkspaceRow(p, k + 1)
  {
    tenants, workspaces := [], [];
    for i := 1 to p.tenants + 1
      invariant |tenants| == i - 1 && forall k | 0 <= k < |tenants| :: tenants[k] == TenantRow(p, k + 1)
    {
      var state := if p.scale || i != 4 then Active else Suspended;
      tenants := tenants + [Tenant(i, state)];
    }
    for i := 1 to 2 * p.tenants + 1
      invariant |workspaces| == i - 1 && forall k | 0 <= k < |workspaces| :: workspaces[k] == WorkspaceRow(p, k + 1)
    {
      var t := (i - 1) / 2 + 1;
      var state := if p.scale || t < 3 then Active else if t == 3 then Empty else Suspended;
      workspaces := workspaces + [Workspace(i, t, state)];
    }
  }

  method WriteUsers(p: Plan) returns (users: seq<User>, members: seq<Member>)
    requires Valid(p)
    ensures |users| == p.users && forall k | 0 <= k < |users| :: users[k] == UserRow(p, k + 1)
    ensures |members| == p.users && forall k | 0 <= k < |members| :: members[k] == MemberRow(UserRow(p, k + 1))
  {
    users, members := [], [];
    for i := 1 to p.users + 1
      invariant |users| == i - 1 && forall k | 0 <= k < |users| :: users[k] == UserRow(p, k + 1)
      invariant |members| == i - 1 && forall k | 0 <= k < |members| :: members[k] == MemberRow(UserRow(p, k + 1))
    {
      var perTenant := p.users / p.tenants;
      var t, j := (i - 1) / perTenant + 1, (i - 1) % perTenant;
      var w := (t - 1) * 2 + 1 + (if p.scale then j % 2 else if j == 4 || j == 7 then 1 else 0);
      var status := if p.scale then Active else if j == 6 then Disabled else if j == 7 then Invited else Active;
      var u := User(i, t, w, j % PERSONAS, status);
      users := users + [u];
      members := members + [Member(i, u.tenant, u.home, u.id, u.persona, u.status)];
    }
  }

  method WriteCampaigns(p: Plan) returns (campaigns: seq<Campaign>)
    requires Valid(p)
    ensures |campaigns| == p.campaigns && forall k | 0 <= k < |campaigns| :: campaigns[k] == CampaignRow(p, k + 1)
  {
    campaigns := [];
    for i := 1 to p.campaigns + 1
      invariant |campaigns| == i - 1 && forall k | 0 <= k < |campaigns| :: campaigns[k] == CampaignRow(p, k + 1)
    {
      var active := if p.scale then 2 * p.tenants else 4;
      var w := (i - 1) % active + 1;
      var t := (w - 1) / 2 + 1;
      campaigns := campaigns + [Campaign(i, t, w, (i - 1) % PROVIDERS, (i - 1) % 3)];
    }
  }

  method WriteLeads(p: Plan, campaigns: seq<Campaign>) returns (leads: seq<Lead>)
    requires campaigns != []
    ensures LeadsOf(p, campaigns, leads) && |leads| == p.leads
  {
    leads := [];
    for i := 1 to p.leads + 1
      invariant |leads| == i - 1 && LeadsOf(p, campaigns, leads)
    {
      var c := campaigns[(i - 1) % |campaigns|];
      var day := (i * 37 + p.seed) % 88;
      var t := day * 86400 + ((i * 7) % 20) * 3600 + (i % 50) * MINUTE;
      var stage := if i % 10 == 0 then Customer else if i % 5 == 0 then Qualified
                   else if i % 3 == 0 then New else if i % 3 == 1 then Contacted else Lost;
      var consent := if i % 17 == 0 then Revoked else if i % 4 == 0 then Denied else Granted;
      leads := leads + [Lead(i, c.tenant, c.workspace, c.id, stage, consent, t + 3 * MINUTE, t + 9 * MINUTE,
                             i % 5 == 0)];
    }
  }

  method WriteStats(p: Plan, campaigns: seq<Campaign>) returns (stats: seq<Stat>)
    ensures StatsOf(p, campaigns, stats)
  {
    stats := [];
    for c := 0 to |campaigns|
      invariant StatsOf(p, campaigns[..c], stats)
    {
      for d := 0 to 90
        invariant |stats| == 90 * c + d
        invariant forall k | 0 <= k < |stats| :: stats[k] == StatRow(p, campaigns[k / 90], k / 90 + 1, k % 90)
      {
        var r, ci := campaigns[c], c + 1;
        stats := stats + [Stat(c * 90 + d + 1, r.tenant, r.workspace, r.id, r.provider, d,
                               1000 + ((ci + d + p.seed) % 10) * 100, 100 + (ci + d) % 40, 10 + (ci + d) % 7)];
      }
    }
    assert campaigns[..|campaigns|] == campaigns;
  }

  /** One more event: the totals that stood for the rows so far stand for the rows with it. */
  method AddToTotals(before: Totals, e: Event, ghost events: seq<Event>) returns (totals: Totals)
    requires Reconciled(events, before)
    ensures Reconciled(events + [e], totals)
  {
    totals := before;
    var count := if e.kind in totals.counts then totals.counts[e.kind] else 0;
    totals := totals.(counts := totals.counts[e.kind := count + 1]);
    if e.kind == PaymentSucceeded { totals := totals.(revenue := totals.revenue + e.amount); }
    if e.kind == PaymentRefunded { totals := totals.(refunds := totals.refunds + e.amount); }
    StillReconciled(events, before, e, totals);
    hide Reconciled;
  }

  lemma InPlace(i: nat, step: nat)
    requires step < 10
    ensures (10 * i + step) / 10 == i && (10 * i + step) % 10 == step
  {
  }

  method WriteEvents(leads: seq<Lead>) returns (events: seq<Event>, totals: Totals)
    ensures EventsOf(leads, events) && Reconciled(events, totals)
  {
    hide Reconciled, Kinds;
    events, totals := [], Totals(map[], 0, 0);
    NothingWritten();
    for i := 0 to |leads|
      invariant |events| == 10 * i && Reconciled(events, totals)
      invariant forall k | 0 <= k < |events| :: events[k] == EventRow(leads[k / 10], k / 10 + 1, k % 10)
    {
      var l := leads[i];
      var t := l.createdAt - 3 * MINUTE;
      var kinds := Kinds(i + 1);
      for step := 0 to 10
        invariant |events| == 10 * i + step && Reconciled(events, totals)
        invariant forall k | 0 <= k < |events| :: events[k] == EventRow(leads[k / 10], k / 10 + 1, k % 10)
      {
        var n := i * 10 + step + 1;
        var kind := kinds[step];
        var amount :=
          if kind == PaymentSucceeded then 100000 + ((i + 1) % 7) * 10000
          else if kind == PaymentRefunded then 10000 else 0;
        var occurred := t + step * MINUTE;
        var parent := if kind == PaymentRefunded then Some(i * 10 + 7) else None;
        var e := Event(n, l.tenant, l.workspace, l.campaign, l.id, kind, occurred, occurred + 5, amount, parent);
        totals := AddToTotals(totals, e, events);
        events := events + [e];
        InPlace(i, step);
      }
    }
  }

  lemma NothingWritten()
    ensures Reconciled([], Totals(map[], 0, 0))
  {
  }

  method Generate(p: Plan) returns (d: Dataset, r: Reconciliation)
    requires Valid(p)
    ensures Tabulated(p, d)
    ensures r.rows == p && r.statRows == |d.stats|
    ensures Reconciled(d.events, Totals(r.counts, r.revenue, r.refunds)) && r.net == r.revenue - r.refunds
    ensures r.createdLeads == p.leads && r.qualifiedLeads == p.leads / 5
    ensures r.customers == p.leads / 10 && r.refundEvents == p.leads / 50
    ensures var n := |d.stats|;
      && r.spend == Sum(seq(n, k requires 0 <= k < n => d.stats[k].spend))
      && r.impressions == Sum(seq(n, k requires 0 <= k < n => d.stats[k].impressions))
      && r.clicks == Sum(seq(n, k requires 0 <= k < n => d.stats[k].clicks))
  {
    var tenants, workspaces := WriteTenants(p);
    var users, members := WriteUsers(p);
    var campaigns := WriteCampaigns(p);
    var leads := WriteLeads(p, campaigns);
    var stats := WriteStats(p, campaigns);
    var events, totals := WriteEvents(leads);
    var spend, impressions, clicks := AddUp(stats);
    d := Dataset(tenants, workspaces, users, members, campaigns, leads, stats, events);
    r := Reconciliation(p, 90 * p.campaigns, totals.counts, totals.revenue, totals.refunds,
                        totals.revenue - totals.refunds, p.leads, p.leads / 5, p.leads / 10, p.leads / 50,
                        spend, impressions, clicks);
  }
}
