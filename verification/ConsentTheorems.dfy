/** What holds however saves, their second halves, page loads and tracking calls of many tabs interleave. */
module ConsentTheorems {
  import opened Wrappers
  import opened Runs
  import opened Consent

  predicate Clean(s: State) {
    s.stored == map[] && s.clickCookie == None
  }

  /** The latest save is still to erase, or was lost with its page. */
  predicate Owed(s: State) {
    s.saves in s.lost || (s.saves in s.pending && !s.pending[s.saves].choice.marketing)
  }

  ghost predicate Sound(s: State) {
    && s.stored.Keys <= Names(KEYS) && s.pixel.Keys <= Names(PIXELS)
    && (forall n | n in s.pending :: 1 <= n <= s.saves && s.pending[n].tab in s.pages)
    && (s.saves in s.pending ==> s.consent == Some(s.pending[s.saves].choice))
    && (s.consent.None? ==> Clean(s))
    && (MayMarket(s) || Clean(s) || Owed(s))
  }

  lemma TrackedKeeps(s: State, page: Page, category: Category, uuid: string)
    ensures var t := Tracked(s, page, category, uuid);
      t.(visitor := s.visitor, posts := s.posts) == s
  {
  }

  lemma PersistedKeeps(s: State, query: Query)
    ensures var t := Persisted(s, query);
      && t.(stored := s.stored, clickCookie := s.clickCookie) == s
      && t.stored.Keys <= s.stored.Keys + Names(KEYS)
      && (!MayMarket(s) ==> t == s)
  {
  }

  lemma InstalledKeeps(s: State, page: Page, uuid: string)
    ensures var t := Installed(s, page, uuid);
      && t.(visitor := s.visitor, posts := s.posts, stored := s.stored, clickCookie := s.clickCookie) == s
      && t.stored == Persisted(s, page.query).stored && t.clickCookie == Persisted(s, page.query).clickCookie
  {
    hide Tracked;
    var t := Persisted(Identified(s, uuid), page.query);
    PersistedKeeps(Identified(s, uuid), page.query);
    TrackedKeeps(t, page, Analytics, uuid);
    var u := if Allows(t.consent, Analytics) then Tracked(t, page, Analytics, uuid) else t;
    TrackedKeeps(u, page, Essential, uuid);
  }

  lemma FollowedKeeps(s: State, choice: Choice, page: Page, uuid: string)
    ensures var t := Followed(s, choice, page, uuid);
      var u := if choice.marketing then Persisted(s, page.query) else Forgotten(s);
      && t.(visitor := s.visitor, posts := s.posts, stored := s.stored, clickCookie := s.clickCookie) == s
      && t.stored == u.stored && t.clickCookie == u.clickCookie
  {
  }

  lemma ForgottenIsClean(s: State)
    requires s.stored.Keys <= Names(KEYS)
    ensures Clean(Forgotten(s))
  {
  }

  lemma StepKeepsSound(s: State, e: Event)
    requires Sound(s) && Enabled(s, e)
    ensures Sound(Apply(s, e))
  {
    hide Tracked, Persisted, Installed, Followed, Forgotten;
    match e
    case Load(tab, page, uuid) =>
      var t := Unloaded(s, tab);
      var u := t.(pages := t.pages[tab := page]);
      PersistedKeeps(u, page.query);
      InstalledKeeps(u, page, uuid);
    case Resume(n, uuid) =>
      var f := s.pending[n];
      var t := s.(pending := s.pending - {n});
      PersistedKeeps(t, s.pages[f.tab].query);
      ForgottenIsClean(t);
      FollowedKeeps(t, f.choice, s.pages[f.tab], uuid);
    case Track(tab, category, uuid) => TrackedKeeps(s, s.pages[tab], category, uuid);
    case _ =>
  }

  lemma {:induction false} RunKeepsSound(s: State, es: seq<Event>, t: State)
    requires Sound(s) && Run(s, es) == Some(t)
    ensures Sound(t)
    decreases |es|
  {
    hide Enabled, Apply, Sound;
    if es != [] {
      var before, e := LastStep(Step, s, es, t);
      RunKeepsSound(s, es[..|es| - 1], before);
      StepKeepsSound(before, e);
    }
  }

  lemma ReachableIsSound(es: seq<Event>, s: State)
    requires Run(EMPTY, es) == Some(s)
    ensures Sound(s)
  {
    RunKeepsSound(EMPTY, es, s);
  }

  /** Identifiers kept without marketing consent are always a withdrawal's unfinished business: the latest save's,
      which is still waiting in an open page or was lost with a closed one. */
  lemma ResidueIsOwed(es: seq<Event>, s: State)
    requires Run(EMPTY, es) == Some(s) && !MayMarket(s) && !Clean(s)
    ensures s.consent.Some? && s.saves > 0
    ensures s.saves in s.lost ||
      (s.saves in s.pending && s.pending[s.saves] == Follow(s.pending[s.saves].tab, s.consent.value))
    ensures s.lost == {} ==> s.saves in s.pending && s.pending[s.saves].tab in s.pages
  {
    ReachableIsSound(es, s);
    RunKeepsCount(es, s);
  }

  lemma {:induction false} RunKeepsCount(es: seq<Event>, s: State)
    requires Run(EMPTY, es) == Some(s)
    ensures s.consent.None? <==> s.saves == 0
    ensures forall n | n in s.lost :: 1 <= n <= s.saves
    ensures forall n | n in s.pending :: 1 <= n <= s.saves
    decreases |es|
  {
    hide Apply;
    if es != [] {
      var before, e := LastStep(Step, EMPTY, es, s);
      RunKeepsCount(es[..|es| - 1], before);
      StepKeepsCount(before, e);
    }
  }

  lemma StepKeepsCount(s: State, e: Event)
    requires Enabled(s, e)
    ensures var t := Apply(s, e);
      && (if e.Save? then t.consent.Some? && t.saves == s.saves + 1 else t.consent == s.consent && t.saves == s.saves)
      && t.pending.Keys <= s.pending.Keys + {t.saves}
      && (!e.Save? ==> t.pending.Keys <= s.pending.Keys)
      && t.lost <= s.lost + s.pending.Keys
  {
  }

  predicate Grants(e: Event) {
    e.Save? && e.choice.marketing
  }

  predicate Withdraws(s: State, e: Event) {
    e.Resume? && e.number in s.pending && !s.pending[e.number].choice.marketing
  }

  /** Somewhere in the run the second half of a withdrawal runs. */
  predicate WithdrawalRan(s: State, es: seq<Event>) {
    es != [] &&
    var init := es[..|es| - 1];
    (WithdrawalRan(s, init) || (Run(s, init).Some? && Withdraws(Run(s, init).value, es[|es| - 1])))
  }

  predicate SilentAfter(s: State, t: State) {
    |s.posts| <= |t.posts| && t.posts[..|s.posts|] == s.posts &&
    forall i | |s.posts| <= i < |t.posts| :: t.posts[i].ids == map[]
  }

  lemma TrackedSilently(s: State, page: Page, category: Category, uuid: string)
    requires !MayMarket(s)
    ensures SilentAfter(s, Tracked(s, page, category, uuid))
  {
  }

  lemma SilentTwice(s: State, t: State, u: State)
    requires SilentAfter(s, t) && SilentAfter(t, u)
    ensures SilentAfter(s, u)
  {
  }

  lemma InstalledSilently(s: State, page: Page, uuid: string)
    requires !MayMarket(s)
    ensures SilentAfter(s, Installed(s, page, uuid))
  {
  }

  lemma FollowedSilently(s: State, choice: Choice, page: Page, uuid: string)
    requires !MayMarket(s)
    ensures SilentAfter(s, Followed(s, choice, page, uuid))
  {
  }

  /** One step without a grant: the store stays as it is unless a withdrawal runs, which empties it. */
  lemma StepWithoutGrant(s: State, e: Event)
    requires Sound(s) && Enabled(s, e) && !MayMarket(s) && !Grants(e)
    ensures var t := Apply(s, e);
      && !MayMarket(t) && SilentAfter(s, t)
      && (if Withdraws(s, e) then Clean(t) else t.stored == s.stored && t.clickCookie == s.clickCookie)
  {
    hide Tracked, Persisted, Installed, Followed, Forgotten;
    match e
    case Load(tab, page, uuid) =>
      var t := Unloaded(s, tab);
      var u := t.(pages := t.pages[tab := page]);
      PersistedKeeps(u, page.query);
      InstalledKeeps(u, page, uuid);
      InstalledSilently(u, page, uuid);
    case Resume(n, uuid) =>
      var f := s.pending[n];
      var t := s.(pending := s.pending - {n});
      PersistedKeeps(t, s.pages[f.tab].query);
      ForgottenIsClean(t);
      FollowedKeeps(t, f.choice, s.pages[f.tab], uuid);
      FollowedSilently(t, f.choice, s.pages[f.tab], uuid);
    case Track(tab, category, uuid) =>
      TrackedKeeps(s, s.pages[tab], category, uuid);
      TrackedSilently(s, s.pages[tab], category, uuid);
    case _ =>
  }

  /** Without marketing consent and until it is granted again, nothing is ever stored, late grants included; what
      is stored is gone exactly when the second half of some withdrawal has run; nothing carries an identifier. */
  lemma {:induction false} UntilGranted(past: seq<Event>, s: State, es: seq<Event>, t: State)
    requires Run(EMPTY, past) == Some(s) && !MayMarket(s)
    requires Run(s, es) == Some(t) && forall e | e in es :: !Grants(e)
    ensures !MayMarket(t) && SilentAfter(s, t)
    ensures if WithdrawalRan(s, es) then Clean(t) else t.stored == s.stored && t.clickCookie == s.clickCookie
    ensures Clean(t) <==> Clean(s) || WithdrawalRan(s, es)
    decreases |es|
  {
    hide Enabled, Apply, Sound, Withdraws, SilentAfter;
    if es == [] {
      NothingSent(s);
    } else {
      var init := es[..|es| - 1];
      var before, e := LastStep(Step, s, es, t);
      UntilGranted(past, s, init, before);
      ReachableIsSound(past, s);
      RunKeepsSound(s, init, before);
      assert e in es;
      StepWithoutGrant(before, e);
      SilentTwice(s, before, t);
    }
  }

  lemma NothingSent(s: State)
    ensures SilentAfter(s, s)
  {
  }

  function Open(s: State): set<Query> {
    set tab | tab in s.pages :: s.pages[tab].query
  }

  /** The addresses that were open, at some moment of the run, while marketing consent held. */
  function Exposed(s: State, es: seq<Event>): set<Query> {
    (if es == [] then {} else Exposed(s, es[..|es| - 1])) +
    (if Run(s, es).Some? && MayMarket(Run(s, es).value) then Open(Run(s, es).value) else {})
  }

  ghost predicate From(queries: set<Query>, k: string, v: string) {
    exists q | q in queries :: First(q, k) == v
  }

  ghost predicate StoreFrom(queries: set<Query>, s: State) {
    && (forall k | k in s.stored :: From(queries, k, s.stored[k]))
    && (s.clickCookie.Some? ==> From(queries, "twclid", s.clickCookie.value))
  }

  ghost predicate SentFrom(queries: set<Query>, n: nat, s: State) {
    n <= |s.posts| &&
    forall i, k | n <= i < |s.posts| && k in s.posts[i].ids && k !in PIXELS :: From(queries, k, s.posts[i].ids[k])
  }

  lemma FromMore(queries: set<Query>, more: set<Query>, n: nat, s: State)
    requires queries <= more && StoreFrom(queries, s) && SentFrom(queries, n, s)
    ensures StoreFrom(more, s) && SentFrom(more, n, s)
  {
  }

  lemma PersistedFrom(queries: set<Query>, s: State, query: Query)
    requires StoreFrom(queries, s) && (MayMarket(s) ==> query in queries)
    ensures StoreFrom(queries, Persisted(s, query))
  {
  }

  lemma ReadFrom(queries: set<Query>, s: State, query: Query, k: string)
    requires StoreFrom(queries, s) && (MayMarket(s) ==> query in queries) && s.pixel.Keys <= Names(PIXELS)
    requires k in ClickIds(s, query) && k !in PIXELS
    ensures From(queries, k, ClickIds(s, query)[k])
  {
  }

  lemma TrackedFrom(queries: set<Query>, n: nat, s: State, page: Page, category: Category, uuid: string)
    requires StoreFrom(queries, s) && SentFrom(queries, n, s) && s.pixel.Keys <= Names(PIXELS)
    requires MayMarket(s) ==> page.query in queries
    ensures StoreFrom(queries, Tracked(s, page, category, uuid))
    ensures SentFrom(queries, n, Tracked(s, page, category, uuid))
  {
    hide First, From, ClickIds;
    var t := Tracked(s, page, category, uuid);
    var u := Identified(s, uuid);
    forall i, k | n <= i < |t.posts| && k in t.posts[i].ids && k !in PIXELS
      ensures From(queries, k, t.posts[i].ids[k])
    {
      if i == |s.posts| { ReadFrom(queries, u, page.query, k); }
    }
  }

  lemma InstalledFrom(queries: set<Query>, n: nat, s: State, page: Page, uuid: string)
    requires StoreFrom(queries, s) && SentFrom(queries, n, s) && s.pixel.Keys <= Names(PIXELS)
    requires MayMarket(s) ==> page.query in queries
    ensures StoreFrom(queries, Installed(s, page, uuid)) && SentFrom(queries, n, Installed(s, page, uuid))
  {
    hide From, Tracked, Persisted;
    var t := Persisted(Identified(s, uuid), page.query);
    PersistedFrom(queries, Identified(s, uuid), page.query);
    PersistedKeeps(Identified(s, uuid), page.query);
    TrackedKeeps(t, page, Analytics, uuid);
    TrackedFrom(queries, n, t, page, Analytics, uuid);
    var u := if Allows(t.consent, Analytics) then Tracked(t, page, Analytics, uuid) else t;
    TrackedFrom(queries, n, u, page, Essential, uuid);
  }

  lemma FollowedFrom(queries: set<Query>, n: nat, s: State, choice: Choice, page: Page, uuid: string)
    requires StoreFrom(queries, s) && SentFrom(queries, n, s) && s.pixel.Keys <= Names(PIXELS)
    requires MayMarket(s) ==> page.query in queries
    ensures StoreFrom(queries, Followed(s, choice, page, uuid)) && SentFrom(queries, n, Followed(s, choice, page, uuid))
  {
    hide From, Tracked, Persisted;
    PersistedFrom(queries, s, page.query);
    PersistedKeeps(s, page.query);
    var t := if choice.marketing then Persisted(s, page.query) else Forgotten(s);
    TrackedFrom(queries, n, t, page, Essential, uuid);
  }

  lemma StepFrom(queries: set<Query>, n: nat, s: State, e: Event)
    requires Sound(s) && Enabled(s, e) && StoreFrom(queries, s) && SentFrom(queries, n, s)
    requires MayMarket(Apply(s, e)) ==> Open(Apply(s, e)) <= queries
    ensures StoreFrom(queries, Apply(s, e)) && SentFrom(queries, n, Apply(s, e))
  {
    hide From, Tracked, Persisted, Installed, Followed, Forgotten;
    match e
    case Load(tab, page, uuid) =>
      var t := Unloaded(s, tab);
      var u := t.(pages := t.pages[tab := page]);
      InstalledKeeps(u, page, uuid);
      assert tab in Apply(s, e).pages;
      InstalledFrom(queries, n, u, page, uuid);
    case Resume(m, uuid) =>
      var f := s.pending[m];
      var t := s.(pending := s.pending - {m});
      FollowedKeeps(t, f.choice, s.pages[f.tab], uuid);
      assert f.tab in Apply(s, e).pages;
      FollowedFrom(queries, n, t, f.choice, s.pages[f.tab], uuid);
    case Track(tab, category, uuid) =>
      TrackedKeeps(s, s.pages[tab], category, uuid);
      assert tab in Apply(s, e).pages;
      TrackedFrom(queries, n, s, s.pages[tab], category, uuid);
    case _ =>
  }

  /** Since a moment when nothing was stored, every identifier that is stored or was sent comes from an address
      that was open while marketing consent held: what a withdrawal has erased does not come back. */
  lemma {:induction false} OnlyExposedIds(past: seq<Event>, s: State, es: seq<Event>, t: State)
    requires Run(EMPTY, past) == Some(s) && Clean(s) && Run(s, es) == Some(t)
    ensures StoreFrom(Exposed(s, es), t) && SentFrom(Exposed(s, es), |s.posts|, t)
    decreases |es|
  {
    hide Enabled, Apply, Sound, StoreFrom, SentFrom, Open;
    if es == [] {
      NothingFrom(Exposed(s, es), s);
    } else {
      var init := es[..|es| - 1];
      var before, e := LastStep(Step, s, es, t);
      OnlyExposedIds(past, s, init, before);
      ReachableIsSound(past, s);
      RunKeepsSound(s, init, before);
      FromMore(Exposed(s, init), Exposed(s, es), |s.posts|, before);
      StepFrom(Exposed(s, es), |s.posts|, before, e);
    }
  }

  lemma NothingFrom(queries: set<Query>, s: State)
    requires Clean(s)
    ensures StoreFrom(queries, s) && SentFrom(queries, |s.posts|, s)
  {
  }

  ghost predicate Consented(p: Post) {
    Allows(p.consent, p.category) && (p.ids != map[] ==> p.consent.Some? && p.consent.value.marketing)
  }

  /** Requests are sent, and carry click identifiers, only as the consent of that moment allows; all of them
      name one visitor. */
  lemma {:induction false} PostsAreConsented(es: seq<Event>, s: State, i: nat)
    requires Run(EMPTY, es) == Some(s) && i < |s.posts|
    ensures Consented(s.posts[i]) && s.visitor == Some(s.posts[i].visitor)
    decreases |es|
  {
    hide Enabled, Apply, Consented;
    var before, e := LastStep(Step, EMPTY, es, s);
    StepKeepsConsented(before, e, i);
    if i < |before.posts| { PostsAreConsented(es[..|es| - 1], before, i); }
  }

  /** What a tracking step may add to a state. */
  ghost predicate Extends(s: State, t: State) {
    && |s.posts| <= |t.posts| && t.posts[..|s.posts|] == s.posts
    && (s.visitor.Some? ==> t.visitor == s.visitor)
    && forall i | |s.posts| <= i < |t.posts| :: Consented(t.posts[i]) && t.visitor == Some(t.posts[i].visitor)
  }

  lemma ExtendsTwice(s: State, t: State, u: State)
    requires Extends(s, t) && Extends(t, u)
    ensures Extends(s, u)
  {
  }

  lemma TrackedExtends(s: State, page: Page, category: Category, uuid: string)
    ensures Extends(s, Tracked(s, page, category, uuid))
  {
  }

  lemma InstalledExtends(s: State, page: Page, uuid: string)
    ensures Extends(s, Installed(s, page, uuid))
  {
    hide Tracked, Consented;
    var t := Persisted(Identified(s, uuid), page.query);
    var u := if Allows(t.consent, Analytics) then Tracked(t, page, Analytics, uuid) else t;
    TrackedExtends(t, page, Analytics, uuid);
    TrackedExtends(u, page, Essential, uuid);
    assert Extends(s, t) && Extends(t, u);
    ExtendsTwice(s, t, u);
    ExtendsTwice(s, u, Tracked(u, page, Essential, uuid));
  }

  lemma StepKeepsConsented(s: State, e: Event, i: nat)
    requires Enabled(s, e) && i < |Apply(s, e).posts|
    ensures Extends(s, Apply(s, e))
    ensures i < |s.posts| ==> Apply(s, e).posts[i] == s.posts[i]
    ensures i < |s.posts| && s.visitor.Some? ==> Apply(s, e).visitor == s.visitor
    ensures i >= |s.posts| ==>
      Consented(Apply(s, e).posts[i]) && Apply(s, e).visitor == Some(Apply(s, e).posts[i].visitor)
  {
    hide Tracked, Installed, Consented;
    match e
    case Load(tab, page, uuid) =>
      var t := Unloaded(s, tab);
      InstalledExtends(t.(pages := t.pages[tab := page]), page, uuid);
    case Resume(n, uuid) =>
      var t := s.(pending := s.pending - {n});
      var f := s.pending[n];
      var u := if f.choice.marketing then Persisted(t, s.pages[f.tab].query) else Forgotten(t);
      TrackedExtends(u, s.pages[f.tab], Essential, uuid);
    case Track(tab, category, uuid) => TrackedExtends(s, s.pages[tab], category, uuid);
    case _ =>
  }

  /** The query names a click identifier. */
  ghost predicate NamesId(query: Query) {
    exists i | 0 <= i < |query| :: query[i].0 in KEYS && query[i].1 != ""
  }

  /** Anything in the request body, the addresses it reports included. */
  ghost predicate CarriesId(p: Post) {
    p.ids != map[] || NamesId(p.page.query) || NamesId(p.page.referrer)
  }

  /** The page an event's requests speak of, if it sends any by the consent in force. */
  function Reports(s: State, e: Event): Option<Page>
    requires Enabled(s, e)
  {
    match e
    case Load(_, page, _) => Some(page)
    case Track(tab, category, _) => if Allows(s.consent, category) then Some(s.pages[tab]) else None
    case Resume(n, _) => if s.pending[n].choice.analytics then Some(s.pages[s.pending[n].tab]) else None
    case _ => None
  }

  ghost predicate ReportsId(page: Page) {
    NamesId(page.query) || NamesId(page.referrer)
  }

  /** Without marketing consent an event still sends identifiers exactly when it sends anything and the page's own
      address or its referrer names one: the reported addresses are not filtered. */
  lemma SendsIdsExactly(past: seq<Event>, s: State, e: Event)
    requires Run(EMPTY, past) == Some(s) && !MayMarket(s) && Enabled(s, e)
    ensures var t := Apply(s, e);
      (exists i | |s.posts| <= i < |t.posts| :: CarriesId(t.posts[i])) <==>
      Reports(s, e).Some? && ReportsId(Reports(s, e).value)
  {
    hide Run, NamesId;
    NewPosts(s, e);
    var t := Apply(s, e);
    if |t.posts| > |s.posts| {
      var last := |t.posts| - 1;
      assert CarriesId(t.posts[last]) <==> ReportsId(Reports(s, e).value);
    }
  }

  /** Every request ever sent without marketing consent carries an identifier exactly when the address or the
      referrer it reports names one. */
  lemma UnconsentedIdsExactly(es: seq<Event>, s: State, i: nat)
    requires Run(EMPTY, es) == Some(s) && i < |s.posts|
    requires var p := s.posts[i]; p.consent.None? || !p.consent.value.marketing
    ensures CarriesId(s.posts[i]) <==> ReportsId(s.posts[i].page)
  {
    PostsAreConsented(es, s, i);
    hide Run, NamesId;
  }

  lemma NewPosts(s: State, e: Event)
    requires !MayMarket(s) && Enabled(s, e)
    ensures var t := Apply(s, e);
      && |t.posts| >= |s.posts| && (|t.posts| > |s.posts| <==> Reports(s, e).Some?)
      && forall i | |s.posts| <= i < |t.posts| :: t.posts[i].page == Reports(s, e).value && t.posts[i].ids == map[]
  {
    hide Installed, Persisted, Forgotten, Tracked;
    match e
    case Load(tab, page, uuid) =>
      var u := Unloaded(s, tab);
      InstalledPosts(u.(pages := u.pages[tab := page]), page, uuid);
    case Track(tab, category, uuid) => TrackedPosts(s, s.pages[tab], category, uuid);
    case Resume(n, uuid) =>
      var u := s.(pending := s.pending - {n});
      var f := s.pending[n];
      var v := if f.choice.marketing then Persisted(u, s.pages[f.tab].query) else Forgotten(u);
      assert v.posts == s.posts && v.consent == s.consent by { KeepsPosts(u, s.pages[f.tab].query); }
      TrackedPosts(v, s.pages[f.tab], Essential, uuid);
    case _ =>
  }

  lemma KeepsPosts(s: State, query: Query)
    ensures Persisted(s, query).posts == s.posts && Persisted(s, query).consent == s.consent
    ensures Forgotten(s).posts == s.posts && Forgotten(s).consent == s.consent
  {
  }

  lemma TrackedPosts(s: State, page: Page, category: Category, uuid: string)
    requires !MayMarket(s)
    ensures var t := Tracked(s, page, category, uuid);
      if Allows(s.consent, category)
      then |t.posts| == |s.posts| + 1 && t.posts[|s.posts|].page == page && t.posts[|s.posts|].ids == map[]
      else t == s
  {
  }

  lemma InstalledPosts(s: State, page: Page, uuid: string)
    requires !MayMarket(s)
    ensures var t := Installed(s, page, uuid);
      && |t.posts| > |s.posts|
      && forall i | |s.posts| <= i < |t.posts| :: t.posts[i].page == page && t.posts[i].ids == map[]
  {
  }

  const GRANT := Choice(false, true, false)
  const DENY := Choice(false, false, false)

  /** The address carries an identifier, marketing is granted, then withdrawn, and the page is closed at once. */
  function ClosedTooSoon(value: string, uuid: string): seq<Event> {
    [Load(0, Page([("gclid", value)], []), uuid), Save(0, GRANT, uuid), Resume(1, uuid), Save(0, DENY, uuid), Close(0)]
  }

  /** A withdrawal lost with its page leaves the identifier stored, with nothing left to erase it. */
  lemma ClosedPageKeepsIds(value: string, uuid: string)
    requires value != ""
    ensures var r := Run(EMPTY, ClosedTooSoon(value, uuid));
      r.Some? && r.value.consent == Some(DENY) && r.value.stored == map["gclid" := value] && r.value.pending == map[]
  {
    hide Enabled, Apply;
    var es := ClosedTooSoon(value, uuid);
    var page := Page([("gclid", value)], []);
    assert es[..0] == [] && es[..5] == es;
    LoadedOnce(page, uuid);
    Advance(Step, EMPTY, es, 0, EMPTY);
    var s1 := Apply(EMPTY, es[0]);
    GrantedOnce(s1, value, uuid);
    Advance(Step, EMPTY, es, 1, s1);
    var s2 := Apply(s1, es[1]);
    Advance(Step, EMPTY, es, 2, s2);
    var s3 := Apply(s2, es[2]);
    DeniedOnce(s3, uuid);
    Advance(Step, EMPTY, es, 3, s3);
    Advance(Step, EMPTY, es, 4, Apply(s3, es[3]));
  }

  lemma GrantedOnce(s: State, value: string, uuid: string)
    requires s.stored == map[] && s.pages == map[0 := Page([("gclid", value)], [])]
    requires s.pending == map[] && s.saves == 0 && value != ""
    ensures Enabled(s, Save(0, GRANT, uuid))
    ensures var t := Apply(s, Save(0, GRANT, uuid));
      Enabled(t, Resume(1, uuid)) &&
      var u := Apply(t, Resume(1, uuid));
      u.stored == map["gclid" := value] && u.pages == s.pages && u.pending == map[] && u.saves == 1
  {
    FoundOne(value);
    hide First, FoundAmong;
  }

  lemma DeniedOnce(s: State, uuid: string)
    requires 0 in s.pages && s.pending == map[] && s.saves == 1
    ensures Enabled(s, Save(0, DENY, uuid))
    ensures var t := Apply(s, Save(0, DENY, uuid));
      Enabled(t, Close(0)) &&
      var u := Apply(t, Close(0)); u.consent == Some(DENY) && u.stored == s.stored && u.pending == map[]
  {
  }

  lemma LoadedOnce(page: Page, uuid: string)
    ensures Enabled(EMPTY, Load(0, page, uuid))
    ensures var s := Apply(EMPTY, Load(0, page, uuid));
      s.stored == map[] && s.pages == map[0 := page] && s.pending == map[] && s.saves == 0
  {
  }

  lemma FoundOne(value: string)
    requires value != ""
    ensures Found([("gclid", value)]) == map["gclid" := value]
  {
    var query := [("gclid", value)];
    forall k ensures First(query, k) == if k == "gclid" then value else "" {
      assert query[1..] == [];
    }
  }

  /** Whatever a withdrawal has not erased is sent again after the next grant, from a page that does not name it. */
  lemma ResidueIsSentAfterGrant(past: seq<Event>, s: State, tab: nat, choice: Choice, k: string, uuid: string)
    requires Run(EMPTY, past) == Some(s) && !MayMarket(s) && k in s.stored
    requires tab in s.pages && First(s.pages[tab].query, k) == "" && choice.marketing
    ensures var t := Apply(Apply(s, Save(tab, choice, uuid)), Track(tab, Marketing, uuid));
      |t.posts| == |s.posts| + 1 && k in t.posts[|s.posts|].ids && t.posts[|s.posts|].ids[k] == s.stored[k]
  {
    ReachableIsSound(past, s);
    StoredIsKey(s, k);
    var u := Apply(s, Save(tab, choice, uuid));
    GrantKeepsStore(s, tab, choice, uuid);
    MarketingIsSent(u, tab, uuid);
    hide First, ClickIds, Sound, Run, Apply, Enabled;
    ClickIdsMean(u, s.pages[tab].query);
  }

  lemma StoredIsKey(s: State, k: string)
    requires Sound(s) && k in s.stored
    ensures k in KEYS && k !in s.pixel
  {
    NamesApart();
    assert k in Names(KEYS);
    hide Owed, Clean;
  }

  lemma GrantKeepsStore(s: State, tab: nat, choice: Choice, uuid: string)
    requires tab in s.pages && choice.marketing
    ensures var u := Apply(s, Save(tab, choice, uuid));
      && MayMarket(u) && u.stored == s.stored && u.pixel == s.pixel && u.pages == s.pages && u.posts == s.posts
      && u.visitor.Some?
  {
  }

  lemma MarketingIsSent(u: State, tab: nat, uuid: string)
    requires tab in u.pages && MayMarket(u) && u.visitor.Some?
    ensures var t := Apply(u, Track(tab, Marketing, uuid));
      |t.posts| == |u.posts| + 1 && t.posts[|u.posts|].ids == ClickIds(u, u.pages[tab].query)
  {
    hide ClickIds;
    assert Identified(u, uuid) == u;
  }

  lemma NamesApart()
    ensures forall k | k in KEYS :: k !in PIXELS
  {
  }

  /** The address names that value for the key, or none. */
  predicate Agrees(query: Query, k: string, v: string) {
    First(query, k) == "" || First(query, k) == v
  }

  /** Neither another choice nor another value for the key. */
  predicate Undisturbing(e: Event, k: string, v: string) {
    !e.Save? && (e.Load? ==> Agrees(e.page.query, k, v)) && (e.Push? ==> Agrees(e.query, k, v))
  }

  ghost predicate Keeps(s: State, k: string, v: string) {
    && MayMarket(s) && k in s.stored && s.stored[k] == v
    && forall tab | tab in s.pages :: Agrees(s.pages[tab].query, k, v)
  }

  lemma PersistedKeepsValue(s: State, query: Query, k: string, v: string)
    requires k in KEYS && k in s.stored && s.stored[k] == v && Agrees(query, k, v)
    ensures k in Persisted(s, query).stored && Persisted(s, query).stored[k] == v
  {
    FoundMeans(query, k);
    hide First, FoundAmong;
  }

  lemma StepKeepsValue(s: State, e: Event, k: string, v: string)
    requires k in KEYS && Keeps(s, k, v) && Enabled(s, e) && Undisturbing(e, k, v) && !Withdraws(s, e)
    ensures Keeps(Apply(s, e), k, v)
  {
    hide First, Tracked, Persisted, Installed, Followed, Forgotten;
    match e
    case Load(tab, page, uuid) =>
      var t := Unloaded(s, tab);
      var u := t.(pages := t.pages[tab := page]);
      InstalledKeeps(u, page, uuid);
      PersistedKeepsValue(u, page.query, k, v);
    case Resume(n, uuid) =>
      var f := s.pending[n];
      var t := s.(pending := s.pending - {n});
      FollowedKeeps(t, f.choice, s.pages[f.tab], uuid);
      PersistedKeepsValue(t, s.pages[f.tab].query, k, v);
    case Track(tab, category, uuid) => TrackedKeeps(s, s.pages[tab], category, uuid);
    case _ =>
  }

  lemma {:induction false} RunKeepsValue(s: State, es: seq<Event>, t: State, k: string, v: string)
    requires k in KEYS && Keeps(s, k, v) && Run(s, es) == Some(t)
    requires (forall e | e in es :: Undisturbing(e, k, v)) && !WithdrawalRan(s, es)
    ensures Keeps(t, k, v)
    decreases |es|
  {
    hide Enabled, Apply, Keeps, Undisturbing, Withdraws;
    if es != [] {
      var before, e := LastStep(Step, s, es, t);
      RunKeepsValue(s, es[..|es| - 1], before, k, v);
      assert e in es;
      StepKeepsValue(before, e, k, v);
    }
  }

  /** Under a grant, a stored identifier is kept and goes out from every page, however tabs come and go, until
      another choice, another value for it, or a withdrawal of before runs late. */
  lemma GrantedIdsAreKept(past: seq<Event>, s: State, es: seq<Event>, t: State, k: string, v: string, tab: nat)
    requires Run(EMPTY, past) == Some(s) && Keeps(s, k, v)
    requires Run(s, es) == Some(t) && (forall e | e in es :: Undisturbing(e, k, v)) && !WithdrawalRan(s, es)
    requires tab in t.pages
    ensures k in t.stored && t.stored[k] == v
    ensures Shows(ClickIds(t, t.pages[tab].query), k, Some(v))
  {
    ReachableIsSound(past, s);
    NamesApart();
    assert k in KEYS;
    RunKeepsValue(s, es, t, k, v);
    RunKeepsSound(s, es, t);
    ClickIdsMean(t, t.pages[tab].query);
    hide First, ClickIds, Run, WithdrawalRan;
  }

  // ---------------------------------------------------------------- what is sent, by the choice's own fields

  /** No request of any run goes out in a category that the choice in force at that moment refuses. */
  lemma PostsFollowTheChoice(es: seq<Event>, s: State, i: nat)
    requires Run(EMPTY, es) == Some(s) && i < |s.posts|
    ensures var p := s.posts[i];
      && (p.category.Analytics? ==> p.consent.Some? && p.consent.value.analytics)
      && (p.category.Marketing? ==> p.consent.Some? && p.consent.value.marketing)
      && (p.category.Personalization? ==> p.consent.Some? && p.consent.value.personalization)
      && (p.ids != map[] ==> p.consent.Some? && p.consent.value.marketing)
  {
    PostsAreConsented(es, s, i);
    hide Run;
  }

  /** A tracking call sends one request, under the choice in force, exactly when that choice has its category; an
      essential one always does. */
  lemma TrackSendsExactly(s: State, tab: nat, category: Category, uuid: string)
    requires tab in s.pages
    ensures var t := Apply(s, Track(tab, category, uuid));
      var granted := match category
        case Essential => true
        case Analytics => s.consent.Some? && s.consent.value.analytics
        case Marketing => s.consent.Some? && s.consent.value.marketing
        case Personalization => s.consent.Some? && s.consent.value.personalization;
      if granted
      then |t.posts| == |s.posts| + 1 && t.posts[..|s.posts|] == s.posts &&
           Sends(t.posts[|s.posts|], s, s.pages[tab], category)
      else t == s
  {
    hide ClickIds;
  }

  ghost predicate Sends(p: Post, s: State, page: Page, category: Category) {
    p.category == category && p.page == page && p.consent == s.consent
  }

  /** Loading a page sends its view exactly when analytics is granted, and the essential event always, in that
      order. */
  lemma LoadSendsExactly(s: State, tab: nat, page: Page, uuid: string)
    ensures var t := Apply(s, Load(tab, page, uuid)); var n := |s.posts|;
      if s.consent.Some? && s.consent.value.analytics
      then |t.posts| == n + 2 && t.posts[..n] == s.posts &&
           Sends(t.posts[n], s, page, Analytics) && Sends(t.posts[n + 1], s, page, Essential)
      else |t.posts| == n + 1 && t.posts[..n] == s.posts && Sends(t.posts[n], s, page, Essential)
  {
    hide ClickIds, Persisted;
    var u := Unloaded(s, tab);
    var v := Identified(u.(pages := u.pages[tab := page]), uuid);
    KeepsPosts(v, page.query);
  }

  /** The rest of a save sends its essential event exactly when the choice saved has analytics. */
  lemma ResumeSendsExactly(s: State, n: nat, uuid: string)
    requires n in s.pending && s.pending[n].tab in s.pages
    ensures var t := Apply(s, Resume(n, uuid)); var m := |s.posts|;
      if s.pending[n].choice.analytics
      then |t.posts| == m + 1 && t.posts[..m] == s.posts && Sends(t.posts[m], s, s.pages[s.pending[n].tab], Essential)
      else t.posts == s.posts
  {
    hide ClickIds, Persisted, Forgotten;
    KeepsPosts(s.(pending := s.pending - {n}), s.pages[s.pending[n].tab].query);
  }

  /** The rest of a withdrawal leaves none of the seven identifiers and no cookie; that of a grant, with marketing
      still in force, stores each the address names. */
  lemma ResumeStoresExactly(s: State, n: nat, uuid: string, k: string)
    requires n in s.pending && s.pending[n].tab in s.pages
    requires k in {"gclid", "gbraid", "wbraid", "fbclid", "msclkid", "ttclid", "twclid"}
    ensures var t := Apply(s, Resume(n, uuid)); var named := First(s.pages[s.pending[n].tab].query, k);
      && (!s.pending[n].choice.marketing ==> k !in t.stored && t.clickCookie == None)
      && (s.pending[n].choice.marketing && MayMarket(s) ==>
            if named != ""
            then k in t.stored && t.stored[k] == named && (k == "twclid" ==> t.clickCookie == Some(named))
            else (k in t.stored <==> k in s.stored) && (k in s.stored ==> t.stored[k] == s.stored[k]) &&
                 (k == "twclid" ==> t.clickCookie == s.clickCookie))
  {
    hide First, Tracked;
    var u, page := s.(pending := s.pending - {n}), s.pages[s.pending[n].tab];
    FollowedKeeps(u, s.pending[n].choice, page, uuid);
    FoundMeans(page.query, k);
  }

  /** The value a script finds for a parameter is that of its first mention, and empty if there is none. */
  lemma {:induction false} FirstIsFirst(query: Query, name: string) returns (i: nat)
    ensures i <= |query| && forall j | 0 <= j < i :: query[j].0 != name
    ensures if i < |query| then query[i] == (name, First(query, name)) else First(query, name) == ""
  {
    if query == [] || query[0].0 == name {
      i := 0;
    } else {
      var k := FirstIsFirst(query[1..], name);
      i := k + 1;
    }
  }

  /** Changing the address, closing a page, the first half of a save and other scripts' cookies send nothing, and a
      save is in force at once. */
  lemma OthersSendNothing(s: State, e: Event)
    requires Enabled(s, e) && (e.Push? || e.Close? || e.Save? || e.SetPixel?)
    ensures Apply(s, e).posts == s.posts
    ensures Apply(s, e).consent == if e.Save? then Some(e.choice) else s.consent
  {
  }

  /** What a request carries, field by field: nothing without marketing consent; with it each of the seven
      identifiers from the address, or else from the store, or else, for twclid alone, from the cookie, and the two
      pixel cookies as they are. */
  lemma TrackCarriesExactly(es: seq<Event>, s: State, tab: nat, uuid: string, k: string)
    requires Run(EMPTY, es) == Some(s) && tab in s.pages
    requires k in {"gclid", "gbraid", "wbraid", "fbclid", "msclkid", "ttclid", "twclid", "ttp", "twpid"}
    ensures var t := Apply(s, Track(tab, Essential, uuid)); var named := First(s.pages[tab].query, k);
      var marketing := s.consent.Some? && s.consent.value.marketing;
      && |t.posts| == |s.posts| + 1
      && t.posts[|s.posts|].visitor == (if s.visitor.Some? then s.visitor.value else uuid)
      && Shows(t.posts[|s.posts|].ids, k,
               if !marketing then None
               else if k == "ttp" || k == "twpid" then (if k in s.pixel then Some(s.pixel[k]) else None)
               else if named != "" then Some(named)
               else if k in s.stored then Some(s.stored[k])
               else if k == "twclid" then s.clickCookie
               else None)
  {
    ReachableIsSound(es, s);
    hide Run, First;
    var query, t := s.pages[tab].query, Identified(s, uuid);
    OnlyPixels(s, k);
    if k == "ttp" || k == "twpid" { PixelCarried(t, query, k); } else { ClickIdsMean(t, query); }
    hide ClickIds;
  }

  lemma OnlyPixels(s: State, k: string)
    requires Sound(s)
    ensures k !in {"ttp", "twpid"} ==> k !in s.pixel
    ensures k in {"ttp", "twpid"} ==> k !in s.stored && k !in KEYS
  {
    hide Owed, Clean;
  }

  lemma PixelCarried(s: State, query: Query, k: string)
    requires k !in s.stored && k !in KEYS && k != "twclid"
    ensures Shows(ClickIds(s, query), k, if MayMarket(s) && k in s.pixel then Some(s.pixel[k]) else None)
  {
    hide First;
  }

  /** What tells a step's page: loading and pushing set the address, only loading the referrer, closing takes the page
      away, and nothing else touches any. */
  lemma PagesExactly(s: State, e: Event)
    requires Enabled(s, e)
    ensures Apply(s, e).pages == match e
      case Load(tab, page, _) => s.pages[tab := page]
      case Push(tab, query) => s.pages[tab := Page(query, s.pages[tab].referrer)]
      case Close(tab) => s.pages - {tab}
      case _ => s.pages
  {
    hide Tracked, Persisted, Forgotten, Installed, Followed;
    match e
    case Load(tab, page, uuid) =>
      var t := Unloaded(s, tab);
      InstalledKeeps(t.(pages := t.pages[tab := page]), page, uuid);
    case Resume(n, uuid) =>
      var t := s.(pending := s.pending - {n});
      var query := s.pages[s.pending[n].tab].query;
      PersistedKeeps(t, query);
      FollowedKeeps(t, s.pending[n].choice, s.pages[s.pending[n].tab], uuid);
      assert Forgotten(t).pages == t.pages by { ForgottenPages(t); }
    case Track(tab, category, uuid) => TrackedKeeps(s, s.pages[tab], category, uuid);
    case _ =>
  }

  lemma ForgottenPages(s: State)
    ensures Forgotten(s).pages == s.pages
  {
  }

  /** Loading a page with marketing granted stores each identifier its address names, and changes no other. */
  lemma LoadStoresExactly(s: State, tab: nat, page: Page, uuid: string, k: string)
    requires k in {"gclid", "gbraid", "wbraid", "fbclid", "msclkid", "ttclid", "twclid"}
    ensures var t := Apply(s, Load(tab, page, uuid)); var named := First(page.query, k);
      var stores := s.consent.Some? && s.consent.value.marketing && named != "";
      && (stores ==> k in t.stored && t.stored[k] == named && (k == "twclid" ==> t.clickCookie == Some(named)))
      && (!stores ==> (k in t.stored <==> k in s.stored) && (k in s.stored ==> t.stored[k] == s.stored[k]))
      && (!stores && k == "twclid" ==> t.clickCookie == s.clickCookie)
  {
    hide First, Installed, Persisted;
    var u := Unloaded(s, tab);
    var v := u.(pages := u.pages[tab := page]);
    InstalledKeeps(v, page, uuid);
    PersistedOne(v, page.query, k);
  }

  lemma PersistedOne(s: State, query: Query, k: string)
    requires k in KEYS
    ensures var t, named := Persisted(s, query), First(query, k);
      && (MayMarket(s) && named != "" ==>
            k in t.stored && t.stored[k] == named && (k == "twclid" ==> t.clickCookie == Some(named)))
      && (!MayMarket(s) || named == "" ==>
            && (k in t.stored <==> k in s.stored) && (k in s.stored ==> t.stored[k] == s.stored[k])
            && (k == "twclid" ==> t.clickCookie == s.clickCookie))
  {
    hide First;
    FoundMeans(query, k);
  }
}
