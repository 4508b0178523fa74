/** What the workspace gate guarantees over every interleaving of sign-ins, sign-outs, restores, retries, reloads
    and late answers, when every token change is published; and what an unpublished change breaks. */
module SessionTheorems {
  import opened Wrappers
  import opened Runs
  import opened Session

  predicate Quiet(es: seq<Event>) {
    forall e | e in es :: !e.Switch?
  }

  /** The newest attempt went out with the token now held. */
  predicate UpToDate(s: State) {
    s.generation in s.sent && s.sent[s.generation] == Held(s.authority)
  }

  predicate Mirrored(a: Authority) {
    a.initialized ==> a.memory == a.session && a.legacy == ""
  }

  /** What the view of a mounted component says about the newest attempt. */
  ghost predicate Truthful(s: State) {
    match s.view
    case Resolving => s.generation in s.inFlight
    case SignedOut => Held(s.authority) == "" && s.generation in s.inFlight
    case Ready(user) =>
      s.generation !in s.inFlight && s.generation in s.answers && s.answers[s.generation] == Accepted(user)
    case Recoverable(message) =>
      s.generation !in s.inFlight && s.generation in s.answers &&
      s.answers[s.generation].Rejected? && s.answers[s.generation].message == message &&
      !Denied(s.answers[s.generation])
  }

  ghost predicate Sound(s: State) {
    && Mirrored(s.authority)
    && (forall n | n in s.inFlight :: 1 <= n <= s.generation && n in s.sent)
    && (forall n | n in s.answers :: n <= s.generation && n !in s.inFlight)
    && (s.mounted ==> UpToDate(s) && Truthful(s))
    && (!s.mounted ==> s.generation !in s.inFlight)
  }

  /** The part that survives unpublished changes. */
  ghost predicate Numbered(s: State) {
    && Mirrored(s.authority)
    && (forall n | n in s.inFlight :: 1 <= n <= s.generation && n in s.sent)
    && (forall n | n in s.answers :: n <= s.generation && n !in s.inFlight)
    && (!s.mounted ==> s.generation !in s.inFlight)
  }

  lemma ResolvedIsSound(s: State)
    requires s.mounted && Mirrored(s.authority)
    requires forall n | n in s.inFlight :: 1 <= n <= s.generation && n in s.sent
    requires forall n | n in s.answers :: n <= s.generation && n !in s.inFlight
    ensures var t := Resolved(s);
      Sound(t) && t.mounted && t.generation in t.inFlight && Held(t.authority) == Held(s.authority)
  {
  }

  lemma StepKeepsNumbered(s: State, e: Event)
    requires Numbered(s) && Enabled(s, e)
    ensures Numbered(Apply(s, e))
  {
    hide Truthful, UpToDate;
  }

  lemma ChangedIsSound(s: State, token: string)
    requires Numbered(s)
    ensures var t := Changed(s, token);
      && Sound(t) && t.mounted == s.mounted && Held(t.authority) == token
      && (s.mounted ==> t.generation in t.inFlight)
  {
  }

  lemma StepKeepsSound(s: State, e: Event)
    requires Sound(s) && Enabled(s, e) && !e.Switch?
    ensures Sound(Apply(s, e))
  {
    hide Resolved, Changed, Settled;
    match e
    case Mount => ResolvedIsSound(s.(mounted := true));
    case PageShow(_) => if s.mounted { ResolvedIsSound(s); }
    case Retry => ResolvedIsSound(s);
    case Login(token) => ChangedIsSound(s, token);
    case Logout => ChangedIsSound(s, "");
    case Settle(n, answer) => SettledIsSound(s, n, answer);
    case _ =>
  }

  lemma SettledIsSound(s: State, n: nat, answer: Answer)
    requires Sound(s) && n in s.inFlight
    ensures Sound(Settled(s, n, answer))
  {
    hide Changed;
    ChangedIsSound(s.(inFlight := s.inFlight - {n}, answers := s.answers[n := answer]), "");
  }

  lemma {:induction false} RunKeepsSound(session: string, legacy: string, es: seq<Event>, s: State)
    requires Run(Opened(session, legacy), es) == Some(s) && Quiet(es)
    ensures Sound(s)
    decreases |es|
  {
    hide Enabled, Apply, Sound;
    if es == [] {
      OpenedIsSound(session, legacy);
    } else {
      var before, e := LastStep(Step, Opened(session, legacy), es, s);
      RunKeepsSound(session, legacy, es[..|es| - 1], before);
      StepKeepsSound(before, e);
    }
  }

  lemma OpenedIsSound(session: string, legacy: string)
    ensures Sound(Opened(session, legacy))
  {
  }

  /** A mounted gate shows a workspace only to the user the backend named for the token now held, says signed out
      only when no token is held, and is waiting for an answer exactly while it resolves or says signed out. */
  lemma GateIsTruthful(session: string, legacy: string, es: seq<Event>, s: State)
    requires Run(Opened(session, legacy), es) == Some(s) && Quiet(es) && s.mounted
    ensures s.generation in s.sent && s.sent[s.generation] == Held(s.authority)
    ensures s.view.Ready? ==> s.generation in s.answers && s.answers[s.generation] == Accepted(s.view.user)
    ensures s.view.SignedOut? ==> Held(s.authority) == ""
    ensures s.view.Recoverable? ==>
      s.generation in s.answers && s.answers[s.generation].Rejected? && !Denied(s.answers[s.generation])
    ensures s.generation in s.inFlight <==> s.view.Resolving? || s.view.SignedOut?
    ensures s.inFlight == {} ==> s.view.Ready? || s.view.Recoverable?
  {
    RunKeepsSound(session, legacy, es, s);
  }

  /** A session ends only by signing out, or by a denial of the very token that is held. */
  lemma SessionEndsExactly(session: string, legacy: string, es: seq<Event>, s: State, e: Event)
    requires Run(Opened(session, legacy), es) == Some(s) && Quiet(es) && Enabled(s, e) && Held(s.authority) != ""
    ensures Held(Apply(s, e).authority) == "" <==>
      || e.Logout? || e == Login("") || e == Switch("")
      || (e.Settle? && Denied(e.answer) && e.number == s.generation && s.mounted &&
          e.number in s.sent && s.sent[e.number] == Held(s.authority))
  {
    RunKeepsSound(session, legacy, es, s);
    hide Resolved, Changed;
    match e
    case Mount => ResolvedIsSound(s.(mounted := true));
    case PageShow(_) => ResolvedIsSound(s);
    case Retry => ResolvedIsSound(s);
    case Login(token) => ChangedIsSound(s, token);
    case Logout => ChangedIsSound(s, "");
    case Settle(n, answer) =>
      var t := s.(inFlight := s.inFlight - {n}, answers := s.answers[n := answer]);
      ChangedIsSound(t, "");
    case _ =>
  }

  /** An answer about a token that is no longer held, or to a component that has gone, changes nothing. */
  lemma OtherAnswersAreIgnored(session: string, legacy: string, es: seq<Event>, s: State, n: nat, answer: Answer)
    requires Run(Opened(session, legacy), es) == Some(s) && Quiet(es) && n in s.inFlight
    requires !s.mounted || (n in s.sent && s.sent[n] != Held(s.authority))
    ensures var t := Apply(s, Settle(n, answer)); t.(inFlight := s.inFlight, answers := s.answers) == s
  {
    RunKeepsSound(session, legacy, es, s);
    hide Changed, Run, Truthful;
  }

  function Denials(n: nat, k: nat): seq<Event> {
    if k == 0 then [] else Denials(n, k - 1) + [Settle(n + k - 1, Rejected(401, ""))]
  }

  /** Once signed out the gate goes on asking: each denial sends the next request, as often as the backend cares
      to deny. */
  lemma SignedOutNeverRests(session: string, legacy: string, es: seq<Event>, s: State, k: nat)
    requires Run(Opened(session, legacy), es) == Some(s) && Quiet(es) && s.mounted && s.view.SignedOut?
    ensures var r := Run(s, Denials(s.generation, k));
      && r.Some? && r.value.view.SignedOut?
      && r.value.generation == s.generation + k && r.value.generation in r.value.inFlight
  {
    hide Run, Denials;
    GateIsTruthful(session, legacy, es, s);
    DeniedTimes(s, k);
  }

  lemma {:induction false} DeniedTimes(s: State, k: nat)
    requires s.mounted && s.view.SignedOut? && s.generation in s.inFlight
    ensures var r := Run(s, Denials(s.generation, k));
      r.Some? && r.value.mounted && r.value.view.SignedOut? &&
      r.value.generation == s.generation + k && r.value.generation in r.value.inFlight
  {
    hide Enabled, Apply;
    if k > 0 {
      DeniedTimes(s, k - 1);
      var before := Run(s, Denials(s.generation, k - 1)).value;
      OneMore(Step, s, Denials(s.generation, k - 1), Settle(s.generation + k - 1, Rejected(401, "")));
      DeniedAgain(before);
    }
  }

  lemma DeniedAgain(s: State)
    requires s.mounted && s.generation in s.inFlight
    ensures Enabled(s, Settle(s.generation, Rejected(401, "")))
    ensures var t := Apply(s, Settle(s.generation, Rejected(401, "")));
      t.mounted && t.view.SignedOut? && t.generation == s.generation + 1 && t.generation in t.inFlight
  {
  }

  lemma {:induction false} RunKeepsNumbered(session: string, legacy: string, es: seq<Event>, s: State)
    requires Run(Opened(session, legacy), es) == Some(s)
    ensures Numbered(s)
    decreases |es|
  {
    hide Enabled, Apply, Numbered;
    if es == [] {
      OpenedIsNumbered(session, legacy);
    } else {
      var before, e := LastStep(Step, Opened(session, legacy), es, s);
      RunKeepsNumbered(session, legacy, es[..|es| - 1], before);
      StepKeepsNumbered(before, e);
    }
  }

  lemma OpenedIsNumbered(session: string, legacy: string)
    ensures Numbered(Opened(session, legacy))
  {
  }

  /** Reloading the page keeps the session, whatever has happened before. */
  lemma ReloadKeepsSession(session: string, legacy: string, es: seq<Event>, s: State)
    requires Run(Opened(session, legacy), es) == Some(s)
    ensures Held(Apply(s, Reload).authority) == Held(s.authority)
  {
    RunKeepsNumbered(session, legacy, es, s);
  }

  /** An unpublished change leaves the workspace on screen under a token nobody has verified, exactly when it
      changes the token. */
  lemma SwitchIsUnverifiedExactly(session: string, legacy: string, es: seq<Event>, s: State, token: string)
    requires Run(Opened(session, legacy), es) == Some(s) && Quiet(es) && s.mounted && s.view.Ready?
    ensures var t := Apply(s, Switch(token));
      t.view == s.view && t.mounted && (UpToDate(t) <==> token == Held(s.authority))
  {
    RunKeepsSound(session, legacy, es, s);
  }

  /** Nobody signs in, out or over, and no answer denies a token. */
  predicate Undisturbed(es: seq<Event>) {
    forall e | e in es :: !e.Login? && !e.Logout? && !e.Switch? && !(e.Settle? && Denied(e.answer))
  }

  lemma StepKeepsToken(s: State, e: Event)
    requires Numbered(s) && Enabled(s, e) && Undisturbed([e])
    ensures Held(Apply(s, e).authority) == Held(s.authority)
  {
    assert e in [e];
    hide Numbered;
    assert Mirrored(s.authority) by { NumberedMirrors(s); }
  }

  lemma NumberedMirrors(s: State)
    requires Numbered(s)
    ensures Mirrored(s.authority)
  {
  }

  /** Restores, reloads, retries, late answers and backend failures never change the token: it is the session
      store's, or else the legacy one, from the first look on. */
  lemma {:induction false} SessionIsKept(session: string, legacy: string, es: seq<Event>, s: State)
    requires Run(Opened(session, legacy), es) == Some(s) && Undisturbed(es)
    ensures Held(s.authority) == if session != "" then session else legacy
    decreases |es|
  {
    hide Enabled, Apply, Numbered;
    if es != [] {
      var before, e := LastStep(Step, Opened(session, legacy), es, s);
      SessionIsKept(session, legacy, es[..|es| - 1], before);
      RunKeepsNumbered(session, legacy, es[..|es| - 1], before);
      assert e in es;
      StepKeepsToken(before, e);
    }
  }

  /** Such a view is reached: a page opened over a token the backend denies. */
  lemma DeniedAtOnce(session: string) returns (s: State)
    requires session != ""
    ensures Run(Opened(session, ""), [Mount, Settle(1, Rejected(401, ""))]) == Some(s)
    ensures s.mounted && s.view.SignedOut? && Held(s.authority) == "" && s.inFlight == {2}
  {
    var s0, settle := Opened(session, ""), Settle(1, Rejected(401, ""));
    OneMore(Step, s0, [], Mount);
    OneMore(Step, s0, [Mount], settle);
    assert [] + [Mount] == [Mount] && [Mount] + [settle] == [Mount, settle];
    s := Apply(Apply(s0, Mount), settle);
  }

  /** What an answer to the newest attempt of a mounted gate does, status by status: 401 and 403 end the session, any
      other refusal keeps the token and offers a retry, an acceptance shows the user named. */
  lemma SettlesExactly(session: string, legacy: string, es: seq<Event>, s: State, answer: Answer)
    requires Run(Opened(session, legacy), es) == Some(s) && Quiet(es) && s.mounted && s.generation in s.inFlight
    ensures var t := Apply(s, Settle(s.generation, answer));
      match answer
      case Accepted(user) => t.view == Ready(user) && Held(t.authority) == Held(s.authority)
      case Rejected(status, message) =>
        && (t.view == SignedOut <==> status == 401 || status == 403)
        && (status == 401 || status == 403 ==> Held(t.authority) == "")
        && (status != 401 && status != 403 ==> t.view == Recoverable(message) && Held(t.authority) == Held(s.authority))
  {
    hide Run;
    var t := s.(inFlight := s.inFlight - {s.generation}, answers := s.answers[s.generation := answer]);
    ChangedToNothing(t);
  }

  lemma ChangedToNothing(s: State)
    ensures Held(Changed(s, "").authority) == ""
  {
  }

  /** Which events send a request: mounting, a page restored from the cache, a retry, and for a mounted gate every
      published change of the token, by sign-in, sign-out or a denial with 401 or 403. It carries the token then
      held. */
  lemma AsksExactly(s: State, e: Event)
    requires Enabled(s, e)
    ensures var t := Apply(s, e);
      var denial := e.Settle? && e.number == s.generation && e.answer.Rejected? &&
        (e.answer.status == 401 || e.answer.status == 403);
      var asks := e.Mount? || e == PageShow(true) || e.Retry? || (s.mounted && (e.Login? || e.Logout? || denial));
      && (asks ==> t.generation == s.generation + 1 && t.generation in t.inFlight)
      && t.sent == (if asks then s.sent[s.generation + 1 := Held(t.authority)] else s.sent)
      && (!asks ==> t.inFlight <= s.inFlight)
  {
  }

  /** What becomes of the token: a sign-in, switch, sign-out or ending denial puts it into memory and the session
      store, empties the old store and counts a new session; a reload empties memory; a first look reads the stores,
      the session's before the old one, and leaves the old one empty. Nothing else touches it. */
  lemma TokenExactly(s: State, e: Event)
    requires Enabled(s, e)
    ensures var a, b := s.authority, Apply(s, e).authority;
      var denial := e.Settle? && e.number == s.generation && e.answer.Rejected? &&
        (e.answer.status == 401 || e.answer.status == 403);
      var looks := e.Mount? || e == PageShow(true) || e.Retry?;
      var ended := Authority("", true, "", "", a.generation + 1);
      match e
      case Login(token) => b == Authority(token, true, token, "", a.generation + 1)
      case Switch(token) => b == Authority(token, true, token, "", a.generation + 1)
      case Logout => b == ended
      case Reload => b == Authority("", false, a.session, a.legacy, 0)
      case _ =>
        if denial then b == ended
        else if !looks || a.initialized then b == a
        else if a.session != "" then b == Authority(a.session, true, a.session, "", a.generation)
        else b == Authority(a.legacy, true, a.legacy, "", a.generation)
  {
  }
}
