/** Marketing consent and click identifiers in one browser: a store shared by its tabs, and consent saves whose
    second half runs only when the request announcing them has settled. A step is one stretch of code that runs
    without interruption. */
module Consent {
  import opened Wrappers
  import opened Runs

  datatype Choice = Choice(analytics: bool, marketing: bool, personalization: bool)

  datatype Category = Essential | Analytics | Marketing | Personalization

  type Query = seq<(string, string)>

  /** What a script sees of its page: the query of the address, and that of the page it came from. */
  datatype Page = Page(query: Query, referrer: Query)

  /** The rest of a consent save, waiting in its tab. */
  datatype Follow = Follow(tab: nat, choice: Choice)

  /** A tracking request, with the consent in force when it was put together. `ids` are its click-identifier
      fields that are not null. */
  datatype Post = Post(category: Category, visitor: string, ids: map<string, string>, page: Page,
                       consent: Option<Choice>)

  /** `stored` are the 'ace:' entries of localStorage and `clickCookie` the _twclid cookie; `pixel` are cookies
      other scripts set. Consent saves are numbered from 1; `lost` are those whose second half went with its page. */
  datatype State = State(consent: Option<Choice>, visitor: Option<string>, stored: map<string, string>,
                         clickCookie: Option<string>, pixel: map<string, string>, pages: map<nat, Page>,
                         saves: nat, pending: map<nat, Follow>, lost: set<nat>, posts: seq<Post>)

  datatype Event =
    | Load(tab: nat, page: Page, uuid: string)
    | Push(tab: nat, query: Query)
    | Close(tab: nat)
    | Save(tab: nat, choice: Choice, uuid: string)
    | Resume(number: nat, uuid: string)
    | Track(tab: nat, category: Category, uuid: string)
    | SetPixel(name: string, value: string)

  const KEYS := ["gclid", "gbraid", "wbraid", "fbclid", "msclkid", "ttclid", "twclid"]
  const PIXELS := ["ttp", "twpid"]

  const EMPTY := State(None, None, map[], None, map[], map[], 0, map[], {}, [])

  /** The first value of a parameter; absent and empty are never told apart. */
  function First(query: Query, name: string): string {
    if query == [] then ""
    else if query[0].0 == name then query[0].1
    else First(query[1..], name)
  }

  function Names(keys: seq<string>): set<string> {
    set k | k in keys
  }

  function FoundAmong(query: Query, keys: seq<string>): map<string, string> {
    map k | k in keys && First(query, k) != "" :: First(query, k)
  }

  function Found(query: Query): map<string, string> {
    FoundAmong(query, KEYS)
  }

  lemma FoundOneMore(query: Query, keys: seq<string>, i: nat, base: map<string, string>)
    requires i < |keys|
    ensures base + FoundAmong(query, keys[..i + 1]) ==
      var m := base + FoundAmong(query, keys[..i]);
      if First(query, keys[i]) != "" then m[keys[i] := First(query, keys[i])] else m
  {
  }

  lemma NoneFound(query: Query)
    ensures FoundAmong(query, []) == map[]
  {
  }

  lemma FoundMeans(query: Query, k: string)
    requires k in KEYS
    ensures k in Found(query) <==> First(query, k) != ""
    ensures k in Found(query) ==> Found(query)[k] == First(query, k)
  {
  }

  lemma DroppedOneMore(keys: seq<string>, i: nat, base: map<string, string>)
    requires i < |keys|
    ensures base - Names(keys[..i + 1]) == base - Names(keys[..i]) - {keys[i]}
  {
  }

  predicate MayMarket(s: State) {
    s.consent.Some? && s.consent.value.marketing
  }

  predicate Allows(consent: Option<Choice>, category: Category) {
    match category
    case Essential => true
    case Analytics => consent.Some? && consent.value.analytics
    case Marketing => consent.Some? && consent.value.marketing
    case Personalization => consent.Some? && consent.value.personalization
  }

  function Persisted(s: State, query: Query): State {
    if !MayMarket(s) then s
    else
      var found := Found(query);
      s.(stored := s.stored + found,
         clickCookie := if "twclid" in found then Some(found["twclid"]) else s.clickCookie)
  }

  function Forgotten(s: State): State {
    s.(stored := s.stored - Names(KEYS), clickCookie := None)
  }

  /** The click-identifier fields of a request: the address first, then the store, then the cookies. */
  function ClickIds(s: State, query: Query): map<string, string> {
    if !MayMarket(s) then map[]
    else
      var ids := s.stored + Found(query);
      (if "twclid" in ids || s.clickCookie.None? then ids else ids["twclid" := s.clickCookie.value]) + s.pixel
  }

  /** A field has that value, or is null. */
  predicate Shows(ids: map<string, string>, k: string, value: Option<string>) {
    if value.Some? then k in ids && ids[k] == value.value else k !in ids
  }

  lemma ClickIdsMean(s: State, query: Query)
    ensures forall k | MayMarket(s) && k in KEYS && k !in s.pixel :: Shows(ClickIds(s, query), k,
      if First(query, k) != "" then Some(First(query, k))
      else if k in s.stored then Some(s.stored[k])
      else if k == "twclid" then s.clickCookie
      else None)
  {
    hide First;
  }

  function Identified(s: State, uuid: string): State {
    s.(visitor := Some(s.visitor.GetOr(uuid)))
  }

  function Tracked(s: State, page: Page, category: Category, uuid: string): State {
    if !Allows(s.consent, category) then s
    else
      var t := Identified(s, uuid);
      t.(posts := t.posts + [Post(category, t.visitor.value, ClickIds(t, page.query), page, t.consent)])
  }

  function Installed(s: State, page: Page, uuid: string): State {
    var t := Persisted(Identified(s, uuid), page.query);
    var u := if Allows(t.consent, Analytics) then Tracked(t, page, Analytics, uuid) else t;
    Tracked(u, page, Essential, uuid)
  }

  /** A page goes away, and with it whatever was waiting in it. */
  function Unloaded(s: State, tab: nat): State {
    s.(pending := map n | n in s.pending && s.pending[n].tab != tab :: s.pending[n],
       lost := s.lost + set n | n in s.pending && s.pending[n].tab == tab)
  }

  function Saved(s: State, tab: nat, choice: Choice, uuid: string): State {
    var n := s.saves + 1;
    Identified(s.(consent := Some(choice), saves := n, pending := s.pending[n := Follow(tab, choice)]), uuid)
  }

  function Followed(s: State, choice: Choice, page: Page, uuid: string): State {
    var t := if choice.marketing then Persisted(s, page.query) else Forgotten(s);
    if choice.analytics then Tracked(t, page, Essential, uuid) else t
  }

  predicate Enabled(s: State, e: Event) {
    match e
    case Load(_, _, _) => true
    case Push(tab, _) => tab in s.pages
    case Close(tab) => tab in s.pages
    case Save(tab, _, _) => tab in s.pages
    case Resume(n, _) => n in s.pending && s.pending[n].tab in s.pages
    case Track(tab, _, _) => tab in s.pages
    case SetPixel(name, value) => name in PIXELS && value != ""
  }

  function Apply(s: State, e: Event): State
    requires Enabled(s, e)
  {
    match e
    case Load(tab, page, uuid) =>
      var t := Unloaded(s, tab);
      Installed(t.(pages := t.pages[tab := page]), page, uuid)
    case Push(tab, query) => s.(pages := s.pages[tab := Page(query, s.pages[tab].referrer)])
    case Close(tab) => var t := Unloaded(s, tab); t.(pages := t.pages - {tab})
    case Save(tab, choice, uuid) => Saved(s, tab, choice, uuid)
    case Resume(n, uuid) =>
      var f := s.pending[n];
      Followed(s.(pending := s.pending - {n}), f.choice, s.pages[f.tab], uuid)
    case Track(tab, category, uuid) => Tracked(s, s.pages[tab], category, uuid)
    case SetPixel(name, value) => s.(pixel := s.pixel[name := value])
  }

  function Step(s: State, e: Event): Option<State> {
    if Enabled(s, e) then Some(Apply(s, e)) else None
  }

  function Run(s: State, es: seq<Event>): Option<State> {
    After(Step, s, es)
  }

  /** The store and the scripts working on it, field by field. */
  class Browser {
    var consent: Option<Choice>
    var visitor: Option<string>
    var stored: map<string, string>
    var clickCookie: Option<string>
    var pixel: map<string, string>
    var pages: map<nat, Page>
    var saves: nat
    var pending: map<nat, Follow>
    ghost var lost: set<nat>
    var posts: seq<Post>

    ghost function Now(): State
      reads this
    {
      State(consent, visitor, stored, clickCookie, pixel, pages, saves, pending, lost, posts)
    }

    constructor ()
      ensures Now() == EMPTY
    {
      consent, visitor, stored, clickCookie, pixel := None, None, map[], None, map[];
      pages, saves, pending, lost, posts := map[], 0, map[], {}, [];
    }

    method GetVisitorId(uuid: string) returns (id: string)
      modifies this`visitor
      ensures Now() == Identified(old(Now()), uuid) && visitor == Some(id)
    {
      if visitor.None? { visitor := Some(uuid); }
      id := visitor.value;
    }

    method PersistClickIds(query: Query)
      modifies this`stored, this`clickCookie
      ensures Now() == Persisted(old(Now()), query)
    {
      if consent.None? || !consent.value.marketing { return; }
      hide First, FoundAmong;
      var keys := KEYS;
      NoneFound(query);
      for i := 0 to |keys|
        invariant stored == old(stored) + FoundAmong(query, keys[..i])
        invariant clickCookie == old(clickCookie)
      {
        FoundOneMore(query, keys, i, old(stored));
        var value := First(query, keys[i]);
        if value != "" { stored := stored[keys[i] := value]; }
      }
      assert keys[..|keys|] == KEYS;
      FoundMeans(query, "twclid");
      var twclid := First(query, "twclid");
      if twclid != "" { clickCookie := Some(twclid); }
    }

    method ForgetClickIds()
      modifies this`stored, this`clickCookie
      ensures Now() == Forgotten(old(Now()))
    {
      var keys := KEYS;
      for i := 0 to |keys|
        invariant stored == old(stored) - Names(keys[..i])
        invariant clickCookie == old(clickCookie)
      {
        DroppedOneMore(keys, i, old(stored));
        stored := stored - {keys[i]};
      }
      assert keys[..|keys|] == KEYS;
      clickCookie := None;
    }

    method ReadClickIds(query: Query) returns (ids: map<string, string>)
      ensures ids == ClickIds(Now(), query)
      ensures !MayMarket(Now()) ==> ids == map[]
      ensures forall k | MayMarket(Now()) && k in KEYS && k !in pixel :: Shows(ids, k,
        if First(query, k) != "" then Some(First(query, k))
        else if k in stored then Some(stored[k])
        else if k == "twclid" then clickCookie
        else None)
    {
      ClickIdsMean(Now(), query);
      if consent.None? || !consent.value.marketing { return map[]; }
      ids := stored + Found(query);
      if "twclid" !in ids && clickCookie.Some? { ids := ids["twclid" := clickCookie.value]; }
      ids := ids + pixel;
    }

    method SendTrack(page: Page, category: Category, uuid: string)
      modifies this`visitor, this`posts
      ensures Now() == Tracked(old(Now()), page, category, uuid)
    {
      if category != Essential && !Allows(consent, category) { return; }
      var id := GetVisitorId(uuid);
      var ids := ReadClickIds(page.query);
      posts := posts + [Post(category, id, ids, page, consent)];
    }

    method InstallAceTracking(page: Page, uuid: string)
      modifies this`visitor, this`stored, this`clickCookie, this`posts
      ensures Now() == Installed(old(Now()), page, uuid)
    {
      var _ := GetVisitorId(uuid);
      if consent.Some? && consent.value.marketing { PersistClickIds(page.query); }
      if consent.Some? && consent.value.analytics { SendTrack(page, Analytics, uuid); }
      SendTrack(page, Essential, uuid);
    }

    /** Up to the request that announces the choice. */
    method SaveLocalConsent(tab: nat, choice: Choice, uuid: string) returns (number: nat)
      requires Enabled(Now(), Save(tab, choice, uuid))
      modifies this`consent, this`saves, this`visitor, this`pending
      ensures Now() == Apply(old(Now()), Save(tab, choice, uuid)) && number == old(saves) + 1
    {
      consent := Some(choice);
      var _ := GetVisitorId(uuid);
      saves := saves + 1;
      number := saves;
      pending := pending[number := Follow(tab, choice)];
    }

    /** From the settling of that request on, whether it succeeded or not. */
    method ResumeSave(number: nat, uuid: string)
      requires Enabled(Now(), Resume(number, uuid))
      modifies this`pending, this`stored, this`clickCookie, this`visitor, this`posts
      ensures Now() == Apply(old(Now()), Resume(number, uuid))
    {
      var f := pending[number];
      var page := pages[f.tab];
      pending := pending - {number};
      if f.choice.marketing { PersistClickIds(page.query); } else { ForgetClickIds(); }
      if f.choice.analytics { SendTrack(page, Essential, uuid); }
    }
  }
}
