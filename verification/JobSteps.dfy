/** The job table step by step, status by status, and which forty jobs its visible list shows. */
module JobSteps {
  import opened Wrappers
  import opened Runs
  import opened Jobs
  import opened JobTheorems

  /** What a poll does with each status the backend may report. */
  lemma PollsExactly(base: map<string, string>, es: seq<Event>, s: State, id: nat, status: string,
                     artifact: Option<string>)
    requires Run(Started(base), es) == Some(s) && id in s.table.pending
    ensures var e, before, after := s.table.pending[id], s.table, Apply(s, Poll(id, status, artifact)).table;
      var ends := status in {"succeeded", "dead_letter", "cancelled", "unknown_outcome"};
      var delivers := status == "succeeded" && e.training && artifact.Some?;
      && after.pending == (if ends then before.pending - {id} else before.pending)
      && after.succeeded == before.succeeded + (if status == "succeeded" then 1 else 0)
      && after.artifacts == (if delivers then before.artifacts[e.task := artifact.value]
                             else if ends && status != "succeeded" && !e.training then before.artifacts - {e.task}
                             else before.artifacts)
      && after.training ==
         (if delivers || (ends && status != "succeeded") then before.training - {e.task} else before.training)
      && |after.lines| == |before.lines|
      && forall k | 0 <= k < |before.lines| :: after.lines[k] ==
           if before.lines[k].id == id then before.lines[k].(status := status) else before.lines[k]
  {
    RunKeepsSound(base, es, s);
    LinesAreDistinct(base, s);
    hide Sound, Run, Marked, Polled;
    MarkedLines(s.table.lines, id, status);
    PolledFields(s.table, id, status, artifact);
  }

  lemma PolledFields(t: Table, id: nat, status: string, artifact: Option<string>)
    requires id in t.pending
    ensures var e, u := t.pending[id], Polled(t, id, status, artifact);
      var fails := status in {"dead_letter", "cancelled", "unknown_outcome"};
      var delivers := status == "succeeded" && e.training && artifact.Some?;
      && u.pending == (if fails || status == "succeeded" then t.pending - {id} else t.pending)
      && u.succeeded == t.succeeded + (if status == "succeeded" then 1 else 0)
      && u.artifacts == (if delivers then t.artifacts[e.task := artifact.value]
                         else if fails && !e.training then t.artifacts - {e.task}
                         else t.artifacts)
      && u.training == (if delivers || fails then t.training - {e.task} else t.training)
      && u.lines == Marked(t.lines, id, status)
  {
    Failing(status);
    hide Marked;
  }

  lemma Failing(status: string)
    ensures status in FAILED <==> status in {"dead_letter", "cancelled", "unknown_outcome"}
    ensures status in FAILED ==> status != "succeeded"
  {
    if status in FAILED { assert status[0] != 's'; }
  }

  lemma LinesAreDistinct(base: map<string, string>, s: State)
    requires Sound(base, s)
    ensures Distinct(s.table.lines)
  {
    hide Distinct, OnePerTask, Backed, Known, Balanced, Credited, Delivered, SavedSound;
  }

  /** The list after one more job: it comes first, and forty are shown. */
  ghost predicate OnTop(l: Line, before: seq<Line>, after: seq<Line>) {
    && |after| == (if |before| < 40 then |before| + 1 else 40)
    && after[0] == l && forall k | 1 <= k < |after| :: after[k] == before[k - 1]
  }

  ghost predicate Busy(pending: map<nat, Entry>, task: string) {
    exists id | id in pending :: pending[id].task == task
  }

  /** A supervised task's turn: it is scored if it has an artifact and there are recent customers, trained if it has
      none and is not marked, and neither while a job of it is out or when the calls fail. */
  lemma CyclesExactly(base: map<string, string>, es: seq<Event>, s: State, task: string, recent: bool,
                      receipt: Option<Receipt>)
    requires Run(Started(base), es) == Some(s) && Enabled(s, Cycle(task, recent, receipt))
    ensures var before, after := s.table, Apply(s, Cycle(task, recent, receipt)).table;
      var trained := task in before.artifacts;
      var submits := receipt.Some? && !Busy(before.pending, task) &&
        (if trained then recent else task !in before.training);
      && after.pending ==
         (if submits then before.pending[receipt.value.id := Entry(task, !trained)] else before.pending)
      && after.training == (if !trained && receipt.Some? then before.training + {task} else before.training)
      && after.artifacts == before.artifacts && after.succeeded == before.succeeded
      && if submits
         then OnTop(Line(receipt.value.id, task, !trained, receipt.value.status), before.lines, after.lines)
         else after.lines == before.lines
  {
    RunKeepsVisible(base, es, s);
    hide Run;
  }

  lemma SubmitsExactly(base: map<string, string>, es: seq<Event>, s: State, task: string, training: bool, r: Receipt)
    requires Run(Started(base), es) == Some(s) && Enabled(s, Submit(task, training, Some(r)))
    ensures var before, after := s.table, Apply(s, Submit(task, training, Some(r))).table;
      if Busy(before.pending, task) then after == before
      else after.pending == before.pending[r.id := Entry(task, training)] && after.artifacts == before.artifacts &&
           OnTop(Line(r.id, task, training, r.status), before.lines, after.lines)
  {
    RunKeepsVisible(base, es, s);
    hide Run;
  }

  lemma StepKeepsVisible(s: State, e: Event)
    requires Enabled(s, e) && |s.table.lines| <= 40 && |s.saved.lines| <= 40
    ensures |Apply(s, e).table.lines| <= 40 && |Apply(s, e).saved.lines| <= 40
  {
    if e.Poll? { MarkedLength(s.table.lines, e.id, e.status); }
    hide Waiting, Marked;
  }

  lemma {:induction false} MarkedLength(lines: seq<Line>, id: nat, status: string)
    ensures |Marked(lines, id, status)| == |lines|
    ensures forall k | 0 <= k < |lines| :: Marked(lines, id, status)[k].id == lines[k].id
  {
    if lines != [] && lines[0].id != id {
      MarkedLength(lines[1..], id, status);
      assert forall k | 1 <= k < |lines| :: lines[k] == lines[1..][k - 1];
    }
  }

  lemma {:induction false} RunKeepsVisible(base: map<string, string>, es: seq<Event>, s: State)
    requires Run(Started(base), es) == Some(s)
    ensures |s.table.lines| <= 40 && |s.saved.lines| <= 40
    decreases |es|
  {
    hide Enabled, Apply;
    if es != [] {
      var before, e := LastStep(Step, Started(base), es, s);
      RunKeepsVisible(base, es[..|es| - 1], before);
      StepKeepsVisible(before, e);
    }
  }

  /** The ids on a list. */
  function Ids(lines: seq<Line>): seq<nat> {
    seq(|lines|, k requires 0 <= k < |lines| => lines[k].id)
  }

  /** The jobs a run takes on, the latest first. */
  function LatestFirst(s: State, es: seq<Event>): seq<nat> {
    if es == [] || Run(s, es[..|es| - 1]).None? then []
    else
      var before, e := Run(s, es[..|es| - 1]).value, es[|es| - 1];
      var earlier := LatestFirst(s, es[..|es| - 1]);
      match e
      case Submit(_, _, r) => if r.Some? && TakesOn(before, e, r.value.id) then [r.value.id] + earlier else earlier
      case Cycle(_, _, r) => if r.Some? && TakesOn(before, e, r.value.id) then [r.value.id] + earlier else earlier
      case _ => earlier
  }

  function Forty(ids: seq<nat>): seq<nat> {
    if |ids| <= 40 then ids else ids[..40]
  }

  lemma SubmittedShows(t: Table, task: string, training: bool, r: Receipt)
    requires r.id !in t.pending
    ensures var u := Submitted(t, task, training, r);
      Ids(u.lines) == if r.id in u.pending then Forty([r.id] + Ids(t.lines)) else Ids(t.lines)
  {
    hide Waiting;
  }

  lemma CycledShows(t: Table, task: string, recent: bool, receipt: Option<Receipt>)
    requires receipt.Some? ==> receipt.value.id !in t.pending
    ensures var u := Cycled(t, task, recent, receipt);
      Ids(u.lines) == if receipt.Some? && receipt.value.id in u.pending then Forty([receipt.value.id] + Ids(t.lines))
                      else Ids(t.lines)
  {
    if receipt.Some? {
      SubmittedShows(t, task, false, receipt.value);
      SubmittedShows(t.(training := t.training + {task}), task, true, receipt.value);
    }
    hide Submitted, Ids;
  }

  lemma PolledShows(t: Table, id: nat, status: string, artifact: Option<string>)
    requires id in t.pending
    ensures Ids(Polled(t, id, status, artifact).lines) == Ids(t.lines)
  {
    MarkedLength(t.lines, id, status);
    hide Marked;
  }

  lemma StepShowsNewest(base: map<string, string>, s: State, e: Event)
    requires Sound(base, s) && Enabled(s, e) && e != Restart
    ensures var before, after := Ids(s.table.lines), Ids(Apply(s, e).table.lines);
      after == if (e.Submit? || e.Cycle?) && e.receipt.Some? && TakesOn(s, e, e.receipt.value.id)
               then Forty([e.receipt.value.id] + before) else before
  {
    PendingAreUsed(base, s);
    hide Sound, Submitted, Cycled, Polled, Ids;
    match e
    case Submit(task, training, r) => if r.Some? { SubmittedShows(s.table, task, training, r.value); }
    case Cycle(task, recent, r) => CycledShows(s.table, task, recent, r);
    case Poll(id, status, artifact) => PolledShows(s.table, id, status, artifact);
    case _ =>
  }

  /** Between restarts the visible list shows the forty jobs taken on last, the latest first, after which come those
      that were there before. */
  lemma {:induction false} ListShowsNewest(base: map<string, string>, past: seq<Event>, s: State, es: seq<Event>,
                                           t: State)
    requires Run(Started(base), past) == Some(s) && Run(s, es) == Some(t) && Restart !in es
    ensures Ids(t.table.lines) == Forty(LatestFirst(s, es) + Ids(s.table.lines))
    decreases |es|
  {
    RunKeepsVisible(base, past, s);
    RunKeepsSound(base, past, s);
    hide Enabled, Apply, TakesOn, Sound;
    if es == [] {
      assert [] + Ids(s.table.lines) == Ids(s.table.lines);
    } else {
      var before, e := LastStep(Step, s, es, t);
      ListShowsNewest(base, past, s, es[..|es| - 1], before);
      SoundAlong(base, s, es[..|es| - 1], before);
      StepShowsNewest(base, before, e);
      var ids := LatestFirst(s, es[..|es| - 1]) + Ids(s.table.lines);
      hide Ids;
      if (e.Submit? || e.Cycle?) && e.receipt.Some? && TakesOn(before, e, e.receipt.value.id) {
        FortyOnTop(e.receipt.value.id, ids);
        assert [e.receipt.value.id] + ids == LatestFirst(s, es) + Ids(s.table.lines);
      }
    }
  }

  lemma FortyOnTop(id: nat, ids: seq<nat>)
    ensures Forty([id] + Forty(ids)) == Forty([id] + ids)
  {
  }

  /** A restart takes everything from what was saved: pending are the jobs shown as unfinished, nothing is marked as
      training or as withdrawn. */
  lemma RestartsExactly(base: map<string, string>, es: seq<Event>, s: State, k: nat)
    requires Run(Started(base), es) == Some(s) && k < |s.saved.lines|
    ensures var t, l := Apply(s, Restart).table, s.saved.lines[k];
      var unfinished := l.status in {"pending", "leased", "retry", "queued", "running"};
      && (l.id in t.pending <==> unfinished) && (unfinished ==> t.pending[l.id] == Entry(l.task, l.training))
      && t.lines == s.saved.lines && t.artifacts == s.saved.artifacts && t.succeeded == s.saved.succeeded
      && t.training == {} && t.regoverned == {}
  {
    RunKeepsSound(base, es, s);
    hide Sound, Run, PickedUp;
    SavedIsDistinct(base, s);
    PickedUpLine(s.saved.lines, k);
    Unfinished(s.saved.lines[k].status);
  }

  lemma PickedUpLine(lines: seq<Line>, k: nat)
    requires Distinct(lines) && k < |lines|
    ensures var l := lines[k];
      && (l.id in PickedUp(lines) <==> l.status in LIVE)
      && (l.status in LIVE ==> PickedUp(lines)[l.id] == Entry(l.task, l.training))
  {
    hide PickedUp, LIVE;
    PickedUpExactly(lines, lines[k].id);
    if lines[k].id in PickedUp(lines) {
      var j :| 0 <= j < |lines| && lines[j].id == lines[k].id && lines[j].status in LIVE;
    }
  }

  lemma Unfinished(status: string)
    ensures status in LIVE <==> status in {"pending", "leased", "retry", "queued", "running"}
  {
  }

  /** A withdrawal takes the artifact away once: between restarts a second one of the same task does nothing. */
  lemma {:induction false} WithdrawnOnce(s: State, es: seq<Event>, t: State, task: string)
    requires Enabled(s, Regovern(task)) && task in s.table.artifacts && Restart !in es
    requires Run(Apply(s, Regovern(task)), es) == Some(t)
    ensures task in s.table.regoverned ==> Apply(s, Regovern(task)) == s
    ensures task !in s.table.regoverned ==>
      Apply(s, Regovern(task)).table.artifacts == s.table.artifacts - {task}
    ensures Enabled(t, Regovern(task)) && task in t.table.regoverned && Apply(t, Regovern(task)) == t
    decreases |es|
  {
    if es != [] {
      hide Enabled, Apply;
      var before, e := LastStep(Step, Apply(s, Regovern(task)), es, t);
      WithdrawnOnce(s, es[..|es| - 1], before, task);
      StaysWithdrawn(before, e, task);
      NoSecondTime(t, task);
    }
  }

  lemma NoSecondTime(s: State, task: string)
    requires Enabled(s, Regovern(task)) && task in s.table.regoverned
    ensures Apply(s, Regovern(task)) == s
  {
  }

  lemma StaysWithdrawn(s: State, e: Event, task: string)
    requires Enabled(s, e) && e != Restart && Enabled(s, Regovern(task))
    ensures Enabled(Apply(s, e), Regovern(task))
    ensures task in s.table.regoverned ==> task in Apply(s, e).table.regoverned
  {
    hide Waiting, Marked, Newest;
  }

  /** Four tasks are supervised; these and the ranking of offers are those whose artifacts can be withdrawn. */
  lemma TasksExactly(s: State, task: string, training: bool)
    ensures var supervised := {"lead_qualification", "paid_conversion", "customer_churn", "future_customer_value"};
      && (Enabled(s, Cycle(task, false, None)) <==> task in supervised)
      && (Enabled(s, Submit(task, training, None)) <==> task !in supervised)
      && (Enabled(s, Regovern(task)) <==> task in supervised || task == "offer_ranking")
  {
  }
}
