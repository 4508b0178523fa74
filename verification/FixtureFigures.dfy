/** The figures and turns of the fixture set in full: what its totals, stages, states and times come to. */
module FixtureFigures {
  import opened Wrappers
  import opened Fixtures
  import opened FixtureTheorems

  lemma {:induction false} SumBetween(ns: seq<int>, low: int, high: int, k: nat)
    requires k <= |ns| && forall i | 0 <= i < |ns| :: low <= ns[i] <= high
    ensures low * k <= Sum(ns[..k]) <= high * k
    decreases k
  {
    if k > 0 {
      SumBetween(ns, low, high, k - 1);
      SumTo(ns, k - 1);
      hide Sum;
      OnceMore(low, k - 1);
      OnceMore(high, k - 1);
    }
  }

  lemma OnceMore(x: int, k: nat)
    ensures x * (k + 1) == x * k + x
  {
  }

  /** Whatever the seed, the provider reports 100 to 139 impressions and 10 to 16 clicks for each day. */
  lemma ViewsInRange(p: Plan, campaigns: seq<Campaign>, stats: seq<Stat>)
    requires StatsOf(p, campaigns, stats)
    ensures var n := |stats|;
      && n == 90 * |campaigns|
      && 100 * n <= Sum(seq(n, k requires 0 <= k < n => stats[k].impressions)) <= 139 * n
      && 10 * n <= Sum(seq(n, k requires 0 <= k < n => stats[k].clicks)) <= 16 * n
  {
    var n := |stats|;
    assert Impressions(stats)[..n] == Impressions(stats) && Clicks(stats)[..n] == Clicks(stats);
    SumBetween(Impressions(stats), 100, 139, n);
    SumBetween(Clicks(stats), 10, 16, n);
    hide Sum;
  }

  /** The revenue of that many payments; they repeat every seven. */
  function Revenue(payments: nat): int {
    910_000 * (payments / 7) + [0, 130_000, 290_000, 410_000, 560_000, 670_000, 810_000][payments % 7]
  }

  lemma PaymentAdds(q: nat, r: nat)
    requires r < 7 && 7 * q + r > 0
    ensures Revenue(7 * q + r) == Revenue(7 * q + r - 1) + 100_000 + ((70 * q + 10 * r) % 7) * 10_000
  {
    PaymentOf(q, r);
    RevenueOf(q, r);
    if r == 0 { RevenueOf(q - 1, 6); } else { RevenueOf(q, r - 1); }
    hide Revenue;
    assert r == 0 ==> 7 * q - 1 == 7 * (q - 1) + 6;
  }

  lemma Seventy(n: nat)
    requires n % 10 == 0
    ensures n == 70 * (n / 10 / 7) + 10 * (n / 10 % 7) && n / 10 == 7 * (n / 10 / 7) + n / 10 % 7
  {
  }

  lemma OneMorePayment(n: nat)
    requires n > 0 && n % 10 == 0
    ensures Revenue(n / 10) == Revenue(n / 10 - 1) + 100_000 + (n % 7) * 10_000
  {
    Seventy(n);
    hide Revenue;
    PaymentAdds(n / 10 / 7, n / 10 % 7);
  }

  lemma PaymentOf(q: nat, r: nat)
    requires r < 7
    ensures (70 * q + 10 * r) % 7 == [0, 3, 6, 2, 5, 1, 4][r]
  {
    SevenFold(10 * q + r, 3 * r);
  }

  lemma SevenFold(k: int, x: int)
    ensures (7 * k + x) % 7 == x % 7
  {
  }

  lemma RevenueOf(q: nat, r: nat)
    requires r < 7
    ensures Revenue(7 * q + r) == 910_000 * q + [0, 130_000, 290_000, 410_000, 560_000, 670_000, 810_000][r]
  {
    assert (7 * q + r) / 7 == q && (7 * q + r) % 7 == r;
  }

  lemma AmountLast(events: seq<Event>, k: nat)
    requires k < |events|
    ensures AmountOf(events[..k + 1], PaymentSucceeded) ==
      AmountOf(events[..k], PaymentSucceeded) + (if events[k].kind == PaymentSucceeded then events[k].amount else 0)
  {
    assert events[..k + 1][..k] == events[..k];
  }

  lemma {:induction false} PaidWithin(leads: seq<Lead>, events: seq<Event>, i: nat, m: nat)
    requires EventsOf(leads, events) && i < |leads| && m <= 10
    ensures AmountOf(events[..10 * i + m], PaymentSucceeded) == AmountOf(events[..10 * i], PaymentSucceeded)
      + (if m > 6 && (i + 1) % 10 == 0 then 100_000 + ((i + 1) % 7) * 10_000 else 0)
    decreases m
  {
    hide AmountOf;
    if m > 0 {
      PaidWithin(leads, events, i, m - 1);
      var k := 10 * i + m - 1;
      AmountLast(events, k);
      assert k / 10 == i && k % 10 == m - 1;
      assert events[k] == EventRow(leads[i], i + 1, m - 1);
      OwnSteps(i + 1);
      hide KindAt;
    }
  }

  lemma {:induction false} PaidUpTo(leads: seq<Lead>, events: seq<Event>, i: nat)
    requires EventsOf(leads, events) && i <= |leads|
    ensures AmountOf(events[..10 * i], PaymentSucceeded) == Revenue(i / 10)
    decreases i
  {
    hide EventsOf, Revenue;
    if i > 0 {
      PaidUpTo(leads, events, i - 1);
      EnoughEvents(leads, events);
      PaidWithin(leads, events, i - 1, 10);
      if i % 10 == 0 { OneMorePayment(i); }
    } else {
      assert Revenue(0) == 0 by { RevenueOf(0, 0); }
    }
  }

  /** The revenue reconciled is a matter of the number of leads: one in ten pays, and the amounts repeat every seven
      payments. The two profiles' revenues are 130.03 and 1300.04 million minor units. */
  lemma RevenueIsFixed(leads: seq<Lead>, events: seq<Event>, t: Totals)
    requires EventsOf(leads, events) && Reconciled(events, t)
    ensures var n := |leads| / 10;
      t.revenue == 910_000 * (n / 7) + [0, 130_000, 290_000, 410_000, 560_000, 670_000, 810_000][n % 7]
    ensures |leads| == 10_000 ==> t.revenue == 130_030_000
    ensures |leads| == 100_000 ==> t.revenue == 1_300_040_000
  {
    PaidUpTo(leads, events, |leads|);
    assert events[..10 * |leads|] == events;
    hide AmountOf, EventsOf;
  }

  /** Who is in use: everyone in the scale profile; otherwise the fourth tenant is suspended with its workspaces, the
      third one's workspaces are empty, and of each tenant's places the seventh is disabled and the eighth invited. */
  lemma StatesInFull(p: Plan, d: Dataset)
    requires Valid(p) && Tabulated(p, d)
    ensures forall t | t in d.tenants :: t.status == if !p.scale && t.id == 4 then Suspended else Active
    ensures forall w | w in d.workspaces ::
      w.status == (if p.scale || w.tenant <= 2 then Active else if w.tenant == 3 then Empty else Suspended)
    ensures !p.scale && p.users == 8 * p.tenants ==> forall u | u in d.users ::
      && u.id == 8 * (u.tenant - 1) + u.persona + 1
      && u.status == (if u.persona == 6 then Disabled else if u.persona == 7 then Invited else Active)
      && u.home == 2 * u.tenant - (if u.persona == 4 || u.persona == 7 then 0 else 1)
    ensures p.scale ==> forall k | 0 < k < |d.users| && d.users[k].tenant == d.users[k - 1].tenant ::
      d.users[k].home != d.users[k - 1].home
    ensures forall k | 0 <= k < |d.members| ::
      d.members[k] == Member(k + 1, d.users[k].tenant, d.users[k].home, k + 1, d.users[k].persona, d.users[k].status)
  {
    if !p.scale && p.users == 8 * p.tenants {
      forall u | u in d.users
        ensures u.id == 8 * (u.tenant - 1) + u.persona + 1
        ensures u.status == (if u.persona == 6 then Disabled else if u.persona == 7 then Invited else Active)
        ensures u.home == 2 * u.tenant - (if u.persona == 4 || u.persona == 7 then 0 else 1)
      {
        var k :| 0 <= k < |d.users| && d.users[k] == u;
        EightEach(p, k);
      }
    }
    if p.scale {
      forall k | 0 < k < |d.users| && d.users[k].tenant == d.users[k - 1].tenant
        ensures d.users[k].home != d.users[k - 1].home
      {
        assert d.users[k] == UserRow(p, k + 1) && d.users[k - 1] == UserRow(p, k);
        NextPlace(p, k);
      }
    }
  }

  lemma NextPlace(p: Plan, k: nat)
    requires Valid(p) && k > 0 && TenantOf(p, k + 1) == TenantOf(p, k)
    ensures PlaceOf(p, k + 1) == PlaceOf(p, k) + 1
  {
    var per := p.users / p.tenants;
    assert k == per * (k / per) + k % per && k - 1 == per * ((k - 1) / per) + (k - 1) % per;
  }

  lemma EightEach(p: Plan, k: nat)
    requires Valid(p) && !p.scale && p.users == 8 * p.tenants
    ensures var u := UserRow(p, k + 1);
      && u.id == 8 * (u.tenant - 1) + u.persona + 1
      && u.status == (if u.persona == 6 then Disabled else if u.persona == 7 then Invited else Active)
      && u.home == 2 * u.tenant - (if u.persona == 4 || u.persona == 7 then 0 else 1)
  {
    assert p.users / p.tenants == 8;
  }

  /** Campaigns take turns: seven providers, three states, and all workspaces in use. */
  lemma CampaignsTakeTurns(p: Plan, d: Dataset, j: nat, k: nat)
    requires Valid(p) && Tabulated(p, d) && j < |d.campaigns| && k < |d.campaigns|
    ensures d.campaigns[j].provider == d.campaigns[k].provider <==> (j - k) % 7 == 0
    ensures d.campaigns[j].state == d.campaigns[k].state <==> (j - k) % 3 == 0
    ensures d.campaigns[j].workspace == d.campaigns[k].workspace <==>
      j % (if p.scale then 2 * p.tenants else 4) == k % (if p.scale then 2 * p.tenants else 4)
  {
    assert d.campaigns[j] == CampaignRow(p, j + 1) && d.campaigns[k] == CampaignRow(p, k + 1);
    hide Tabulated;
    Turns7(j, k);
    Turns3(j, k);
  }

  lemma Turns3(j: int, k: int)
    ensures j % 3 == k % 3 <==> (j - k) % 3 == 0
  {
  }

  lemma Turns7(j: int, k: int)
    ensures j % 7 == k % 7 <==> (j - k) % 7 == 0
  {
  }

  lemma Turns10(j: int, k: int)
    ensures j % 10 == k % 10 <==> (j - k) % 10 == 0
  {
  }

  lemma Turns40(j: int, k: int)
    ensures j % 40 == k % 40 <==> (j - k) % 40 == 0
  {
  }

  lemma Turns88(j: int, k: int)
    ensures j % 88 == k % 88 <==> (j - k) % 88 == 0
  {
  }

  lemma EventTimes(l: Lead, i: int, step: nat)
    requires step < 10
    ensures var e := EventRow(l, i, step);
      e.occurredAt == l.createdAt - 180 + 60 * step && e.receivedAt == e.occurredAt + 5
  {
    hide KindAt;
  }

  lemma EventIs(p: Plan, d: Dataset, k: nat)
    requires Valid(p) && Tabulated(p, d) && k < |d.events|
    ensures k / 10 < |d.leads| && d.events[k] == EventRow(d.leads[k / 10], k / 10 + 1, k % 10)
    ensures d.leads[k / 10] == LeadRow(p, d.campaigns[k / 10 % |d.campaigns|], k / 10 + 1)
  {
  }

  /** Each event is received five seconds after it happened, a minute after the one before of its lead, and the lead
      was last updated six minutes after its creation. */
  lemma TimesInStep(p: Plan, d: Dataset, k: nat)
    requires Valid(p) && Tabulated(p, d) && k < |d.events|
    ensures d.events[k].receivedAt == d.events[k].occurredAt + 5
    ensures k % 10 > 0 ==> d.events[k].occurredAt == d.events[k - 1].occurredAt + 60
    ensures var l := d.leads[k / 10];
      l.updatedAt == l.createdAt + 360 && (k % 10 == 3 ==> d.events[k].occurredAt == l.createdAt)
  {
    hide EventRow, Tabulated, LeadStart;
    EventIs(p, d, k);
    EventTimes(d.leads[k / 10], k / 10 + 1, k % 10);
    if k % 10 > 0 {
      EventIs(p, d, k - 1);
      assert (k - 1) / 10 == k / 10 && (k - 1) % 10 == k % 10 - 1;
      EventTimes(d.leads[k / 10], k / 10 + 1, k % 10 - 1);
    }
  }

  /** Which lead and campaign a row is about, and which event comes when: each lead goes from the ad to the page, is
      created and updated, and then, if at all, qualifies, pays and is refunded. */
  lemma LinksInFull(p: Plan, d: Dataset, i: nat, c: nat)
    requires Valid(p) && Tabulated(p, d) && i < |d.events| && c < |d.stats|
    ensures var l := d.leads[i / 10]; l.id == i / 10 + 1 && l.campaign == i / 10 % p.campaigns + 1
    ensures d.events[i].lead == i / 10 + 1 && d.events[i].id == i + 1
    ensures var lead := i / 10 + 1;
      d.events[i].kind == [AdImpression, AdClick, PageView, LeadCreated, LeadUpdated,
                           if lead % 5 == 0 then LeadQualified else PageView,
                           if lead % 10 == 0 then PaymentSucceeded else PageView,
                           if lead % 50 == 0 then PaymentRefunded else PageView, FormView, PageView][i % 10]
    ensures d.stats[c].campaign == c / 90 + 1 && d.stats[c].day == c % 90 && d.stats[c].id == c + 1
    ensures d.stats[c].provider == d.campaigns[c / 90].provider
  {
    EventIs(p, d, i);
    assert d.stats[c] == StatRow(p, d.campaigns[c / 90], c / 90 + 1, c % 90);
    assert d.campaigns[c / 90].id == c / 90 + 1;
    assert d.campaigns[i / 10 % |d.campaigns|].id == i / 10 % |d.campaigns| + 1;
    hide Tabulated, LeadStart;
  }

  /** The figures of two daily statistics are equal exactly when their campaigns and days differ, taken together, by
      ten for the spend, forty for the impressions, seven for the clicks, or a multiple. */
  lemma StatsRepeatExactly(p: Plan, campaigns: seq<Campaign>, stats: seq<Stat>, j: nat, k: nat)
    requires StatsOf(p, campaigns, stats) && j < |stats| && k < |stats|
    ensures var apart := (j / 90 + j % 90) - (k / 90 + k % 90);
      && (stats[j].spend == stats[k].spend <==> apart % 10 == 0)
      && (stats[j].impressions == stats[k].impressions <==> apart % 40 == 0)
      && (stats[j].clicks == stats[k].clicks <==> apart % 7 == 0)
  {
    assert stats[j] == StatRow(p, campaigns[j / 90], j / 90 + 1, j % 90);
    assert stats[k] == StatRow(p, campaigns[k / 90], k / 90 + 1, k % 90);
    hide StatsOf;
    var a, b := j / 90 + 1 + j % 90, k / 90 + 1 + k % 90;
    Turns40(a, b);
    Turns7(a, b);
    Turns10(a + p.seed, b + p.seed);
  }

  /** The seed moves the day a lead starts on by as much, around the 88 days, and not the time of day. */
  lemma SeedMovesDays(seed: int, more: nat, i: nat)
    ensures LeadStart(seed + more, i) - LeadStart(seed, i) ==
      86400 * ((i * 37 + seed + more) % 88 - (i * 37 + seed) % 88)
    ensures LeadStart(seed + more, i) == LeadStart(seed, i) <==> more % 88 == 0
  {
    Turns88(i * 37 + seed + more, i * 37 + seed);
  }

  /** Leads start together exactly when 2200 or a multiple lies between them, whatever the seed. */
  lemma LeadsStartTogetherExactly(seed: int, i: nat, j: nat)
    ensures LeadStart(seed, i) == LeadStart(seed, j) <==> (i - j) % 2200 == 0
  {
    var a, b := (i * 37 + seed) % 88, (j * 37 + seed) % 88;
    var c, d := (i * 7) % 20, (j * 7) % 20;
    Mixed(a, c, i % 50, b, d, j % 50);
    Turns88(i * 37 + seed, j * 37 + seed);
    Turns20(i * 7, j * 7);
    Turns50(i, j);
    Combined(i - j);
  }

  lemma Mixed(a: int, c: int, e: int, b: int, d: int, f: int)
    requires 0 <= c < 20 && 0 <= d < 20 && 0 <= e < 50 && 0 <= f < 50
    ensures a * 86400 + c * 3600 + e * 60 == b * 86400 + d * 3600 + f * 60 <==> a == b && c == d && e == f
  {
  }

  lemma Turns20(j: int, k: int)
    ensures j % 20 == k % 20 <==> (j - k) % 20 == 0
  {
  }

  lemma Turns50(j: int, k: int)
    ensures j % 50 == k % 50 <==> (j - k) % 50 == 0
  {
  }

  lemma Combined(n: int)
    ensures (37 * n) % 88 == 0 && (7 * n) % 20 == 0 && n % 50 == 0 <==> n % 2200 == 0
  {
    if (37 * n) % 88 == 0 && n % 50 == 0 {
      AllThree(n);
    }
    if n % 2200 == 0 {
      Exact(n, 2200);
      EachOne(n / 2200);
    }
  }

  lemma AllThree(n: int)
    requires (37 * n) % 88 == 0 && n % 50 == 0
    ensures n % 2200 == 0
  {
    Exact(37 * n, 88);
    Exact(n, 50);
    var m, r := 69 * (37 * n / 88) - 29 * n, n / 50;
    assert n == 88 * m && r == 44 * (37 * m - 21 * r);
    Multiple(2200, 37 * m - 21 * r);
  }

  lemma EachOne(m: int)
    ensures (37 * (2200 * m)) % 88 == 0 && (7 * (2200 * m)) % 20 == 0 && (2200 * m) % 50 == 0
  {
    Multiple(88, 925 * m);
    Multiple(20, 770 * m);
    Multiple(50, 44 * m);
  }

  lemma Exact(x: int, k: int)
    requires k > 0 && x % k == 0
    ensures x == k * (x / k)
  {
  }

  lemma Multiple(k: int, x: int)
    requires k in {20, 50, 88, 2200}
    ensures (k * x) % k == 0
  {
  }

  function CountStage(leads: seq<Lead>, stage: Stage): nat {
    if leads == [] then 0
    else CountStage(leads[..|leads| - 1], stage) + (if leads[|leads| - 1].stage == stage then 1 else 0)
  }

  function CountConsent(leads: seq<Lead>, consent: MarketingConsent): nat {
    if leads == [] then 0
    else CountConsent(leads[..|leads| - 1], consent) + (if leads[|leads| - 1].consent == consent then 1 else 0)
  }

  /** How many of n leads are at each stage. */
  function AtStage(stage: Stage, n: nat): int {
    match stage
    case Customer => n / 10
    case Qualified => n / 5 - n / 10
    case New => n / 3 - n / 15
    case Contacted => (n + 2) / 3 - (n + 5) / 15
    case Lost => (n + 1) / 3 - (n + 10) / 15
  }

  /** How many of n leads have given each answer. */
  function Answered(consent: MarketingConsent, n: nat): int {
    match consent
    case Revoked => n / 17
    case Denied => n / 4 - n / 68
    case Granted => n - n / 17 - n / 4 + n / 68
  }

  lemma Thirds(n: nat)
    ensures (n + 1) / 3 == n / 3 + (if (n + 1) % 3 == 0 then 1 else 0)
    ensures (n + 3) / 3 == (n + 2) / 3 + (if (n + 1) % 3 == 1 then 1 else 0)
    ensures (n + 2) / 3 == (n + 1) / 3 + (if (n + 1) % 3 == 2 then 1 else 0)
  {
  }

  lemma Fifteenths(n: nat)
    ensures (n + 1) / 15 == n / 15 + (if (n + 1) % 15 == 0 then 1 else 0)
    ensures (n + 6) / 15 == (n + 5) / 15 + (if (n + 1) % 15 == 10 then 1 else 0)
    ensures (n + 11) / 15 == (n + 10) / 15 + (if (n + 1) % 15 == 5 then 1 else 0)
  {
  }

  lemma ThreeAndFive(i: nat)
    ensures i % 15 == 0 <==> i % 3 == 0 && i % 5 == 0
    ensures i % 15 == 10 <==> i % 3 == 1 && i % 5 == 0
    ensures i % 15 == 5 <==> i % 3 == 2 && i % 5 == 0
    ensures i % 10 == 0 ==> i % 5 == 0
  {
    var q, r := i / 15, i % 15;
    SameThird(5 * q, r);
    SameFifth(3 * q, r);
    assert i == 3 * (5 * q) + r && i == 5 * (3 * q) + r;
    TenIsFive(i);
  }

  lemma SameThird(q: int, r: int)
    ensures (3 * q + r) % 3 == r % 3
  {
  }

  lemma SameFifth(q: int, r: int)
    ensures (5 * q + r) % 5 == r % 5
  {
  }

  lemma TenIsFive(i: nat)
    ensures i % 10 == 0 ==> i % 5 == 0
  {
  }

  lemma OneMoreStage(n: nat, stage: Stage)
    ensures var i := n + 1;
      var own := if i % 10 == 0 then Customer else if i % 5 == 0 then Qualified
                 else if i % 3 == 0 then New else if i % 3 == 1 then Contacted else Lost;
      AtStage(stage, i) == AtStage(stage, n) + (if own == stage then 1 else 0)
  {
    Thirds(n);
    Fifths(n);
    Tenths(n);
    Fifteenths(n);
    ThreeAndFive(n + 1);
  }

  lemma OneMoreConsent(n: nat, consent: MarketingConsent)
    ensures var i := n + 1;
      var own := if i % 17 == 0 then Revoked else if i % 4 == 0 then Denied else Granted;
      Answered(consent, i) == Answered(consent, n) + (if own == consent then 1 else 0)
  {
    Parts(n);
    FourAndSeventeen(n + 1);
  }

  lemma Parts(n: nat)
    ensures (n + 1) / 17 == n / 17 + (if (n + 1) % 17 == 0 then 1 else 0)
    ensures (n + 1) / 4 == n / 4 + (if (n + 1) % 4 == 0 then 1 else 0)
    ensures (n + 1) / 68 == n / 68 + (if (n + 1) % 68 == 0 then 1 else 0)
  {
  }

  lemma FourAndSeventeen(i: nat)
    ensures i % 68 == 0 <==> i % 4 == 0 && i % 17 == 0
  {
    var q, r := i / 68, i % 68;
    SameQuarter(17 * q, r);
    SameSeventeenth(4 * q, r);
    assert i == 4 * (17 * q) + r && i == 17 * (4 * q) + r;
    SmallMultiple(r);
  }

  lemma SmallMultiple(r: nat)
    requires r < 68
    ensures r % 4 == 0 && r % 17 == 0 <==> r == 0
  {
  }

  lemma SameQuarter(q: int, r: int)
    ensures (4 * q + r) % 4 == r % 4
  {
  }

  lemma SameSeventeenth(q: int, r: int)
    ensures (17 * q + r) % 17 == r % 17
  {
  }

  /** The leads by stage and by marketing consent, for every number of leads: the customers are as many as pay, and with
      the qualified as many as qualify. */
  lemma LeadsInFull(p: Plan, campaigns: seq<Campaign>, leads: seq<Lead>, stage: Stage,
                    consent: MarketingConsent)
    requires LeadsOf(p, campaigns, leads)
    ensures CountStage(leads, stage) == match stage
      case Customer => |leads| / 10
      case Qualified => |leads| / 5 - |leads| / 10
      case New => |leads| / 3 - |leads| / 15
      case Contacted => (|leads| + 2) / 3 - (|leads| + 5) / 15
      case Lost => (|leads| + 1) / 3 - (|leads| + 10) / 15
    ensures CountConsent(leads, consent) == match consent
      case Revoked => |leads| / 17
      case Denied => |leads| / 4 - |leads| / 68
      case Granted => |leads| - |leads| / 17 - |leads| / 4 + |leads| / 68
  {
    StagesUpTo(p, campaigns, leads, stage, consent);
    hide CountStage, CountConsent;
  }

  lemma {:induction false} StagesUpTo(p: Plan, campaigns: seq<Campaign>, leads: seq<Lead>, stage: Stage,
                                      consent: MarketingConsent)
    requires LeadsOf(p, campaigns, leads)
    ensures CountStage(leads, stage) == AtStage(stage, |leads|)
    ensures CountConsent(leads, consent) == Answered(consent, |leads|)
    decreases |leads|
  {
    if leads == [] {
      assert AtStage(stage, 0) == 0 && Answered(consent, 0) == 0;
    } else {
      var n := |leads| - 1;
      StagesUpTo(p, campaigns, leads[..n], stage, consent);
      OneMoreStage(n, stage);
      OneMoreConsent(n, consent);
      assert leads[n] == LeadRow(p, campaigns[n % |campaigns|], n + 1);
      hide AtStage, Answered, LeadStart;
    }
  }
}
