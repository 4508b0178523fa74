/** Who is signed in: the token authority of a page and the component that verifies it before showing a
    workspace. Verification attempts settle in any order; a token change is announced synchronously and starts a
    new attempt before the announcing call returns. */
module Session {
  import opened Wrappers
  import opened Runs

  /** The page's token in memory, and the two stores it may be read from. Empty means none. */
  datatype Authority = Authority(memory: string, initialized: bool, session: string, legacy: string, generation: nat)

  /** What the backend answered, or status 0 when it did not. */
  datatype Answer = Accepted(user: string) | Rejected(status: int, message: string)

  datatype View = Resolving | Ready(user: string) | SignedOut | Recoverable(message: string)

  /** `sent` holds the token each attempt went out with, `answers` what came back, `inFlight` the attempts that
      have yet to settle. */
  datatype State = State(authority: Authority, mounted: bool, view: View, generation: nat,
                         sent: map<nat, string>, inFlight: set<nat>, answers: map<nat, Answer>)

  datatype Event =
    | Mount
    | Unmount
    | Reload
    | PageShow(persisted: bool)
    | Retry
    | Login(token: string)
    | Switch(token: string)
    | Logout
    | Settle(number: nat, answer: Answer)

  predicate Denied(a: Answer) {
    a.Rejected? && (a.status == 401 || a.status == 403)
  }

  function Initialized(a: Authority): Authority {
    if a.initialized then a
    else
      var token := if a.session != "" then a.session else a.legacy;
      a.(memory := token, initialized := true, session := token, legacy := "")
  }

  /** The token the next request goes out with. */
  function Held(a: Authority): string {
    Initialized(a).memory
  }

  function WithToken(a: Authority, token: string): Authority {
    var b := Initialized(a);
    b.(memory := token, session := token, legacy := "", generation := b.generation + 1)
  }

  function Resolved(s: State): State {
    var a, n := Initialized(s.authority), s.generation + 1;
    s.(authority := a, generation := n, view := Resolving, sent := s.sent[n := a.memory], inFlight := s.inFlight + {n})
  }

  /** A published token change, as the mounted component hears it. */
  function Changed(s: State, token: string): State {
    var t := s.(authority := WithToken(s.authority, token));
    if s.mounted then Resolved(t) else t
  }

  function Settled(s: State, n: nat, answer: Answer): State {
    var t := s.(inFlight := s.inFlight - {n}, answers := s.answers[n := answer]);
    if n != s.generation then t
    else if answer.Accepted? then t.(view := Ready(answer.user))
    else if Denied(answer) then Changed(t, "").(view := SignedOut)
    else t.(view := Recoverable(answer.message))
  }

  predicate Enabled(s: State, e: Event) {
    match e
    case Mount => !s.mounted
    case Unmount => s.mounted
    case PageShow(_) => s.mounted
    case Retry => s.mounted && s.view.Recoverable?
    case Settle(n, _) => n in s.inFlight
    case _ => true
  }

  /** Reloading starts a new page over the same stores; the attempts of the old one are gone. */
  function Apply(s: State, e: Event): State
    requires Enabled(s, e)
  {
    match e
    case Mount => Resolved(s.(mounted := true))
    case Unmount => s.(mounted := false, generation := s.generation + 1)
    case Reload =>
      s.(authority := Authority("", false, s.authority.session, s.authority.legacy, 0), mounted := false,
         generation := s.generation + 1, inFlight := {})
    case PageShow(persisted) => if persisted then Resolved(s) else s
    case Retry => Resolved(s)
    case Login(token) => Changed(s, token)
    case Switch(token) => s.(authority := WithToken(s.authority, token))
    case Logout => Changed(s, "")
    case Settle(n, answer) => Settled(s, n, answer)
  }

  function Step(s: State, e: Event): Option<State> {
    if Enabled(s, e) then Some(Apply(s, e)) else None
  }

  function Run(s: State, es: seq<Event>): Option<State> {
    After(Step, s, es)
  }

  /** A page that has just been opened over some session storage and perhaps an old persistent token. */
  function Opened(session: string, legacy: string): State {
    State(Authority("", false, session, legacy, 0), false, Resolving, 0, map[], {}, map[])
  }

  class SessionAuthority {
    var memoryToken: string
    var initialized: bool
    var sessionStore: string
    var legacyStore: string
    var sessionGeneration: nat
    var listener: CustomerBootstrap?

    ghost function Value(): Authority
      reads this
    {
      Authority(memoryToken, initialized, sessionStore, legacyStore, sessionGeneration)
    }

    constructor (session: string, legacy: string)
      ensures Value() == Authority("", false, session, legacy, 0) && listener == null
    {
      memoryToken, initialized, sessionStore, legacyStore, sessionGeneration := "", false, session, legacy, 0;
      listener := null;
    }

    method Initialize()
      modifies this`memoryToken, this`initialized, this`sessionStore, this`legacyStore
      ensures Value() == Initialized(old(Value()))
    {
      if initialized { return; }
      initialized := true;
      memoryToken := sessionStore;
      var legacy := legacyStore;
      if memoryToken == "" && legacy != "" {
        memoryToken := legacy;
        sessionStore := legacy;
      }
      if legacy != "" { legacyStore := ""; }
    }

    method GetSessionToken() returns (token: string)
      modifies this`memoryToken, this`initialized, this`sessionStore, this`legacyStore
      ensures Value() == Initialized(old(Value())) && token == Held(old(Value()))
    {
      Initialize();
      token := memoryToken;
    }

    /** Announces a change to whoever listens, before returning. */
    method Publish()
      requires initialized && (listener != null ==> listener.Valid() && listener.authority == this)
      modifies listener
      modifies this`memoryToken, this`initialized, this`sessionStore, this`legacyStore
      ensures Value() == old(Value())
      ensures listener != null ==> listener.Now() == Resolved(old(listener.Now()))
    {
      if listener != null { listener.ResolveSession(); }
    }

    method SetSessionToken(token: string, publishChange: bool)
      requires listener != null ==> listener.Valid() && listener.authority == this
      modifies this`memoryToken, this`initialized, this`sessionStore, this`legacyStore, this`sessionGeneration
      modifies listener
      ensures Value() == WithToken(old(Value()), token)
      ensures listener != null && publishChange ==> listener.Now() == Changed(old(listener.Now()), token)
      ensures listener != null && !publishChange ==> listener.Now() == Apply(old(listener.Now()), Switch(token))
    {
      Initialize();
      memoryToken := token;
      sessionGeneration := sessionGeneration + 1;
      if token != "" { sessionStore := token; } else { sessionStore := ""; }
      legacyStore := "";
      if publishChange { Publish(); }
    }

    method ClearSessionToken()
      requires listener != null ==> listener.Valid() && listener.authority == this
      modifies this`memoryToken, this`initialized, this`sessionStore, this`legacyStore, this`sessionGeneration
      modifies listener
      ensures Value() == WithToken(old(Value()), "")
      ensures listener != null ==> listener.Now() == Changed(old(listener.Now()), "")
    {
      Initialize();
      memoryToken := "";
      sessionGeneration := sessionGeneration + 1;
      sessionStore := "";
      legacyStore := "";
      Publish();
    }
  }

  class CustomerBootstrap {
    const authority: SessionAuthority
    var state: View
    var generation: nat
    var sent: map<nat, string>
    var inFlight: set<nat>
    ghost var answers: map<nat, Answer>

    ghost function Now(): State
      reads this, authority
    {
      State(authority.Value(), authority.listener == this, state, generation, sent, inFlight, answers)
    }

    /** Only one component listens at a time. */
    ghost predicate Valid()
      reads this, authority
    {
      authority.listener == null || authority.listener == this
    }

    constructor (authority: SessionAuthority)
      requires authority.listener == null
      ensures this.authority == authority && Valid()
      ensures Now() == State(authority.Value(), false, Resolving, 0, map[], {}, map[])
    {
      this.authority := authority;
      state, generation, sent, inFlight, answers := Resolving, 0, map[], {}, map[];
    }

    /** Up to the request: the token is read in the same breath as the generation is taken. */
    method ResolveSession()
      requires Valid()
      modifies this, authority`memoryToken, authority`initialized, authority`sessionStore, authority`legacyStore
      ensures Now() == Resolved(old(Now()))
    {
      generation := generation + 1;
      var current := generation;
      state := Resolving;
      var token := authority.GetSessionToken();
      sent := sent[current := token];
      inFlight := inFlight + {current};
    }

    method Install()
      requires Valid() && Enabled(Now(), Mount)
      modifies this, authority
      ensures Valid() && Now() == Apply(old(Now()), Mount)
    {
      authority.listener := this;
      ResolveSession();
    }

    method OnPageShow(persisted: bool)
      requires Valid() && Enabled(Now(), PageShow(persisted))
      modifies this, authority`memoryToken, authority`initialized, authority`sessionStore, authority`legacyStore
      ensures Now() == Apply(old(Now()), PageShow(persisted))
    {
      if persisted { ResolveSession(); }
    }

    method Cleanup()
      requires Valid() && Enabled(Now(), Unmount)
      modifies this`generation, authority`listener
      ensures Valid() && Now() == Apply(old(Now()), Unmount)
    {
      generation := generation + 1;
      authority.listener := null;
    }

    /** From the answer on. */
    method OnAnswer(current: nat, answer: Answer)
      requires Valid() && Enabled(Now(), Settle(current, answer))
      modifies this, authority`memoryToken, authority`initialized, authority`sessionStore, authority`legacyStore,
        authority`sessionGeneration
      ensures Valid() && Now() == Apply(old(Now()), Settle(current, answer))
    {
      inFlight := inFlight - {current};
      answers := answers[current := answer];
      if current != generation { return; }
      match answer {
        case Accepted(user) => state := Ready(user);
        case Rejected(status, message) =>
          if status == 401 || status == 403 {
            authority.ClearSessionToken();
            state := SignedOut;
          } else {
            state := Recoverable(message);
          }
      }
    }
  }
}
