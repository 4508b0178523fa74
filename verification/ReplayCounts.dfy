/** What the feed's counters say, field by field: sums of what the journeys' programs count after each exchange. */
module ReplayCounts {
  import opened Wrappers
  import opened Journeys
  import opened Replay
  import opened ReplayTheorems

  function Sum(ns: seq<nat>): nat {
    if ns == [] then 0 else Sum(ns[..|ns| - 1]) + ns[|ns| - 1]
  }

  /** What a program counts after each exchange of a history, in turn. */
  function Gains(script: Script, h: seq<Exchange>): seq<Tally> {
    seq(|h|, k requires 0 <= k < |h| => script.gain(h[..k + 1]))
  }

  function Customers(gains: seq<Tally>): nat {
    Sum(seq(|gains|, k requires 0 <= k < |gains| => gains[k].customers))
  }

  function Events(gains: seq<Tally>): nat {
    Sum(seq(|gains|, k requires 0 <= k < |gains| => gains[k].events))
  }

  function Purchases(gains: seq<Tally>): nat {
    Sum(seq(|gains|, k requires 0 <= k < |gains| => gains[k].purchases))
  }

  function Graded(gains: seq<Tally>, grade: string): nat {
    Sum(seq(|gains|, k requires 0 <= k < |gains| => gains[k].grades[grade]))
  }

  lemma SumOneMore(ns: seq<nat>, n: nat)
    ensures Sum(ns + [n]) == Sum(ns) + n
  {
    assert (ns + [n])[..|ns|] == ns;
  }

  /** One more gain adds to each of the sums its own field. */
  lemma GainOneMore(gains: seq<Tally>, g: Tally, grade: string)
    ensures Customers(gains + [g]) == Customers(gains) + g.customers
    ensures Events(gains + [g]) == Events(gains) + g.events
    ensures Purchases(gains + [g]) == Purchases(gains) + g.purchases
    ensures Graded(gains + [g], grade) == Graded(gains, grade) + g.grades[grade]
  {
    FieldOneMore(gains, g, (t: Tally) => t.customers);
    FieldOneMore(gains, g, (t: Tally) => t.events);
    FieldOneMore(gains, g, (t: Tally) => t.purchases);
    FieldOneMore(gains, g, (t: Tally) => t.grades[grade]);
    hide Sum;
    SameFields(gains + [g], grade);
    SameFields(gains, grade);
  }

  function Field(gains: seq<Tally>, f: Tally -> nat): seq<nat> {
    seq(|gains|, k requires 0 <= k < |gains| => f(gains[k]))
  }

  lemma FieldOneMore(gains: seq<Tally>, g: Tally, f: Tally -> nat)
    ensures Sum(Field(gains + [g], f)) == Sum(Field(gains, f)) + f(g)
  {
    SumOneMore(Field(gains, f), f(g));
    hide Sum;
    assert Field(gains + [g], f) == Field(gains, f) + [f(g)];
  }

  lemma SameFields(gains: seq<Tally>, grade: string)
    ensures Customers(gains) == Sum(Field(gains, (t: Tally) => t.customers))
    ensures Events(gains) == Sum(Field(gains, (t: Tally) => t.events))
    ensures Purchases(gains) == Sum(Field(gains, (t: Tally) => t.purchases))
    ensures Graded(gains, grade) == Sum(Field(gains, (t: Tally) => t.grades[grade]))
  {
    hide Sum;
    var n := |gains|;
    assert seq(n, k requires 0 <= k < n => gains[k].customers) == Field(gains, (t: Tally) => t.customers);
    assert seq(n, k requires 0 <= k < n => gains[k].events) == Field(gains, (t: Tally) => t.events);
    assert seq(n, k requires 0 <= k < n => gains[k].purchases) == Field(gains, (t: Tally) => t.purchases);
    assert seq(n, k requires 0 <= k < n => gains[k].grades[grade]) == Field(gains, (t: Tally) => t.grades[grade]);
  }

  /** All gains of the completed journeys, in order. */
  function AllGains(feed: Feed, receipts: seq<Receipt>): seq<Tally> {
    if receipts == [] then []
    else
      var t := receipts[|receipts| - 1];
      AllGains(feed, receipts[..|receipts| - 1]) + Gains(feed.script(t.visit), t.trace)
  }

  /** A tally holds just what some gains add up to. */
  ghost predicate AddsUp(t: Tally, gains: seq<Tally>) {
    && t.customers == Customers(gains) && t.events == Events(gains) && t.purchases == Purchases(gains)
    && forall grade: string :: t.grades[grade] == Graded(gains, grade)
  }

  lemma NoGains()
    ensures AddsUp(ZERO, [])
  {
  }

  lemma OneMoreAddsUp(t: Tally, gains: seq<Tally>, g: Tally)
    requires AddsUp(t, gains)
    ensures AddsUp(Plus(t, g), gains + [g])
  {
    forall grade: string ensures Plus(t, g).grades[grade] == Graded(gains + [g], grade) {
      GainOneMore(gains, g, grade);
    }
    GainOneMore(gains, g, "");
    hide Customers, Events, Purchases, Graded;
  }

  lemma GainsOneMore(script: Script, h: seq<Exchange>)
    requires h != []
    ensures Gains(script, h) == Gains(script, h[..|h| - 1]) + [script.gain(h)]
  {
    var init := h[..|h| - 1];
    assert h[..|h|] == h;
    forall k: nat | k < |init| ensures Gains(script, h)[k] == Gains(script, init)[k] {
      assert init[..k + 1] == h[..k + 1];
    }
  }

  lemma {:induction false} MoreAddUp(t: Tally, gains: seq<Tally>, script: Script, h: seq<Exchange>)
    requires AddsUp(t, gains)
    ensures AddsUp(Plus(t, Total(script, h)), gains + Gains(script, h))
    decreases |h|
  {
    if h == [] {
      PlusZero(t);
      assert gains + Gains(script, h) == gains;
    } else {
      var init := h[..|h| - 1];
      GainsOneMore(script, h);
      PlusAssoc(t, Total(script, init), script.gain(h));
      assert Total(script, h) == Plus(Total(script, init), script.gain(h));
      hide AddsUp, Plus, Gains, Total;
      MoreAddUp(t, gains, script, init);
      OneMoreAddsUp(Plus(t, Total(script, init)), gains + Gains(script, init), script.gain(h));
      Grouped(gains, Gains(script, init), script.gain(h));
    }
  }

  lemma Grouped(a: seq<Tally>, b: seq<Tally>, g: Tally)
    ensures a + (b + [g]) == a + b + [g]
  {
  }

  lemma {:induction false} EarnedAddsUp(feed: Feed, receipts: seq<Receipt>)
    ensures AddsUp(Earned(feed, receipts), AllGains(feed, receipts))
    decreases |receipts|
  {
    if receipts == [] {
      NoGains();
    } else {
      var init, t := receipts[..|receipts| - 1], receipts[|receipts| - 1];
      EarnedAddsUp(feed, init);
      MoreAddUp(Earned(feed, init), AllGains(feed, init), feed.script(t.visit), t.trace);
    }
  }

  /** Replay does not double count, field by field: over every run, with any crashes and retries, each completed
      journey has moved each counter by the sum of what its program counts after the exchanges of its trace. */
  lemma ReceiptsCountExactly(feed: Feed, s0: State, startDay: int, es: seq<Event>, s: State, t: Receipt, grade: string)
    requires Initial(feed, s0, startDay) && Run(feed, s0, es) == Some(s) && t in s.audit.receipts
    ensures var gains, n := Gains(feed.script(t.visit), t.trace), |t.trace|;
      && t.after.customers == t.before.customers + Sum(seq(n, k requires 0 <= k < n => gains[k].customers))
      && t.after.events == t.before.events + Sum(seq(n, k requires 0 <= k < n => gains[k].events))
      && t.after.purchases == t.before.purchases + Sum(seq(n, k requires 0 <= k < n => gains[k].purchases))
      && t.after.grades[grade] == t.before.grades[grade] + Sum(seq(n, k requires 0 <= k < n => gains[k].grades[grade]))
  {
    ReplayCountsOnce(feed, s0, startDay, es, s);
    hide Run, Initial;
    var script := feed.script(t.visit);
    NoGains();
    MoreAddUp(ZERO, [], script, t.trace);
    assert [] + Gains(script, t.trace) == Gains(script, t.trace);
    assert Plus(ZERO, Total(script, t.trace)) == Total(script, t.trace);
  }

  /** While nothing has miscounted, the counters are, field by field, those sums over all completed journeys. */
  lemma CountersAddUp(feed: Feed, s0: State, startDay: int, es: seq<Event>, s: State, grade: string)
    requires Initial(feed, s0, startDay) && Run(feed, s0, es) == Some(s) && s.audit.exact
    ensures var gains := AllGains(feed, s.audit.receipts); var n := |gains|;
      var counters := if s.disk.calendar.active.Some? then s.disk.calendar.active.value.tally
                      else if s.process.Up? then s.process.tally else s.disk.status;
      && counters.customers == Sum(seq(n, k requires 0 <= k < n => gains[k].customers))
      && counters.events == Sum(seq(n, k requires 0 <= k < n => gains[k].events))
      && counters.purchases == Sum(seq(n, k requires 0 <= k < n => gains[k].purchases))
      && counters.grades[grade] == Sum(seq(n, k requires 0 <= k < n => gains[k].grades[grade]))
  {
    ReplayCountsOnce(feed, s0, startDay, es, s);
    EarnedAddsUp(feed, s.audit.receipts);
    hide Run, Initial, Earned, AllGains;
  }
}
