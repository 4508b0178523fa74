/** One customer journey as an adaptive program: what it asks for next depends on the answers so far. */
module Journeys {
  import opened Wrappers

  /** The parts of a call that enter its idempotency key; distinct requests have distinct keys. */
  datatype Request = Request(path: string, body: string, options: string)

  type Response = string

  datatype Outcome = Returned(response: Response) | Failed

  datatype Exchange = Exchange(request: Request, outcome: Outcome)

  /** The journey's next move. A `caught` call sits inside a step whose failure does not end the attempt;
      `Abort` is an assertion on an answer failing outside such a step. */
  datatype Action = Send(request: Request, caught: bool) | Finish | Abort

  /** The business counters and the grade table. */
  datatype Tally = Tally(customers: nat, events: nat, purchases: nat, grades: multiset<string>)

  const ZERO := Tally(0, 0, 0, multiset{})

  function Plus(a: Tally, b: Tally): Tally {
    Tally(a.customers + b.customers, a.events + b.events, a.purchases + b.purchases, a.grades + b.grades)
  }

  /** `gain` is what the journey counts right after the last exchange of a history; from `limit` exchanges
      on it sends nothing more. */
  datatype Script = Script(next: seq<Exchange> -> Action, gain: seq<Exchange> -> Tally, limit: nat)

  ghost predicate Bounded(script: Script) {
    forall h: seq<Exchange> | |h| >= script.limit :: !script.next(h).Send?
  }

  /** Every exchange of the history is the call the script makes at that point. */
  ghost predicate Follows(script: Script, h: seq<Exchange>) {
    h == [] ||
    var init, last := h[..|h| - 1], h[|h| - 1];
    Follows(script, init) && script.next(init).Send? && script.next(init).request == last.request
  }

  /** What one run through the history counts. */
  function Total(script: Script, h: seq<Exchange>): Tally {
    if h == [] then ZERO else Plus(Total(script, h[..|h| - 1]), script.gain(h))
  }

  /** Every call of the history succeeded with the answer the map holds for it. */
  ghost predicate AnsweredBy(h: seq<Exchange>, answers: map<Request, Response>) {
    forall x | x in h :: x.request in answers && x.outcome == Returned(answers[x.request])
  }

  /** The run of a script, from start to finish without interruption, against given answers. */
  ghost predicate Uninterrupted(script: Script, answers: map<Request, Response>, h: seq<Exchange>) {
    Follows(script, h) && script.next(h) == Finish && AnsweredBy(h, answers)
  }

  ghost predicate Within(a: map<Request, Response>, b: map<Request, Response>) {
    forall r | r in a :: r in b && a[r] == b[r]
  }

  /** The requests of a history in the order they are first made. */
  function FirstAsked(h: seq<Exchange>): seq<Request> {
    if h == [] then []
    else
      var before, r := FirstAsked(h[..|h| - 1]), h[|h| - 1].request;
      if r in before then before else before + [r]
  }

  lemma FollowsAppend(script: Script, h: seq<Exchange>, x: Exchange)
    ensures Follows(script, h + [x]) <==>
            Follows(script, h) && script.next(h).Send? && script.next(h).request == x.request
    ensures Total(script, h + [x]) == Plus(Total(script, h), script.gain(h + [x]))
    ensures FirstAsked(h + [x]) ==
            if x.request in FirstAsked(h) then FirstAsked(h) else FirstAsked(h) + [x.request]
  {
  }

  /** A followed history is followed by every prefix, and at each prefix the script sends the next request. */
  lemma {:induction false} FollowsPrefix(script: Script, h: seq<Exchange>, n: nat)
    requires Follows(script, h) && n <= |h|
    ensures Follows(script, h[..n])
    ensures n < |h| ==> script.next(h[..n]).Send? && script.next(h[..n]).request == h[n].request
    decreases |h|
  {
    if n == |h| {
      assert h[..n] == h;
    } else {
      var init := h[..|h| - 1];
      assert init[..n] == h[..n];
      if n == |h| - 1 {
        assert h[..n] == init;
      } else {
        FollowsPrefix(script, init, n);
        assert init[n] == h[n];
      }
    }
  }

  lemma {:induction false} FirstAskedHas(h: seq<Exchange>, r: Request)
    ensures r in FirstAsked(h) <==> exists x | x in h :: x.request == r
  {
    if h != [] {
      var init, last := h[..|h| - 1], h[|h| - 1];
      FirstAskedHas(init, r);
      assert h == init + [last];
      assert last in h;
      if r in FirstAsked(h) && r != last.request {
        var x :| x in init && x.request == r;
        assert x in h;
      }
      if x :| x in h && x.request == r {
        assert x in init || x == last;
      }
    }
  }

  /** Against fixed answers a script has only one uninterrupted run. */
  lemma {:induction false} UninterruptedIsUnique(script: Script, answers: map<Request, Response>,
                                               h: seq<Exchange>, k: seq<Exchange>)
    requires Uninterrupted(script, answers, h) && Uninterrupted(script, answers, k)
    ensures h == k
  {
    var n := if |h| <= |k| then |h| else |k|;
    SameUpTo(script, answers, h, k, n);
    assert h[..|h|] == h && k[..|k|] == k;
    if n < |k| { FollowsPrefix(script, k, n); }
    if n < |h| { FollowsPrefix(script, h, n); }
  }

  lemma {:induction false} SameUpTo(script: Script, answers: map<Request, Response>,
                                   h: seq<Exchange>, k: seq<Exchange>, n: nat)
    requires Follows(script, h) && Follows(script, k) && AnsweredBy(h, answers) && AnsweredBy(k, answers)
    requires n <= |h| && n <= |k|
    ensures h[..n] == k[..n]
  {
    if n > 0 {
      SameUpTo(script, answers, h, k, n - 1);
      FollowsPrefix(script, h, n - 1);
      FollowsPrefix(script, k, n - 1);
      assert h[n - 1] in h && k[n - 1] in k;
      assert h[n - 1] == k[n - 1];
      assert h[..n] == h[..n - 1] + [h[n - 1]] && k[..n] == k[..n - 1] + [k[n - 1]];
    }
  }

}
