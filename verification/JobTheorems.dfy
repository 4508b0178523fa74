/** The job table over every run of submissions, polls, saves and restarts, given that the backend never gives out
    an id twice. */
module JobTheorems {
  import opened Wrappers
  import opened Runs
  import opened Jobs

  ghost predicate OnePerTask(pending: map<nat, Entry>) {
    forall i, j | i in pending && j in pending && pending[i].task == pending[j].task :: i == j
  }

  ghost predicate Distinct(lines: seq<Line>) {
    forall i, j | 0 <= i < j < |lines| :: lines[i].id != lines[j].id
  }

  ghost predicate LineBacked(l: Line, pending: map<nat, Entry>) {
    && (l.status in LIVE ==> l.id in pending)
    && (l.id in pending ==> pending[l.id] == Entry(l.task, l.training))
  }

  /** Every line that reads as unfinished is a job waited for, and lines tell what their jobs are. */
  ghost predicate Backed(lines: seq<Line>, pending: map<nat, Entry>) {
    forall k | 0 <= k < |lines| :: LineBacked(lines[k], pending)
  }

  function Those(fate: map<nat, Fate>, f: Fate): set<nat> {
    set id | id in fate && fate[id] == f
  }

  ghost predicate Balanced(pending: map<nat, Entry>, fate: map<nat, Fate>) {
    forall id :: id in pending <==> id in fate && fate[id] == Open
  }

  /** The counter counts ended jobs that succeeded, each once. */
  ghost predicate Credited(succeeded: nat, counted: map<nat, Delivery>, fate: map<nat, Fate>) {
    succeeded == |counted| && forall id | id in counted :: id in fate && fate[id] == Succeeded
  }

  ghost predicate Delivered(base: map<string, string>, artifacts: map<string, string>, counted: map<nat, Delivery>) {
    forall task | task in artifacts ::
      (task in base && base[task] == artifacts[task]) ||
      exists id | id in counted :: counted[id] == Some((task, artifacts[task]))
  }

  ghost predicate Known(lines: seq<Line>, fate: map<nat, Fate>) {
    forall k | 0 <= k < |lines| :: lines[k].id in fate
  }

  ghost predicate TableSound(base: map<string, string>, t: Table, fate: map<nat, Fate>, used: set<nat>) {
    && OnePerTask(t.pending) && Distinct(t.lines) && Backed(t.lines, t.pending)
    && Balanced(t.pending, fate) && Credited(t.succeeded, t.counted, fate)
    && Known(t.lines, fate) && fate.Keys <= used
    && Delivered(base, t.artifacts, t.counted)
    && t.training !! t.artifacts.Keys
  }

  ghost predicate OneLivePerTask(lines: seq<Line>) {
    forall i, j | 0 <= i < j < |lines| && lines[i].task == lines[j].task ::
      lines[i].status !in LIVE || lines[j].status !in LIVE
  }

  /** What was written down would be picked up soundly. */
  ghost predicate SavedSound(base: map<string, string>, s: Saved, fate: map<nat, Fate>) {
    && Distinct(s.lines) && OneLivePerTask(s.lines) && Known(s.lines, fate)
    && Credited(s.succeeded, s.counted, fate) && Delivered(base, s.artifacts, s.counted)
    && Revivable(s.lines, s.counted, fate)
  }

  /** Jobs shown as unfinished are neither forgotten nor counted. */
  ghost predicate Revivable(lines: seq<Line>, counted: map<nat, Delivery>, fate: map<nat, Fate>) {
    forall k | 0 <= k < |lines| && lines[k].status in LIVE ::
      lines[k].id !in counted && (lines[k].id in fate ==> fate[lines[k].id] != Lost)
  }

  ghost predicate Sound(base: map<string, string>, s: State) {
    TableSound(base, s.table, s.fate, s.used) && SavedSound(base, s.saved, s.fate)
  }

  lemma {:induction false} MarkedLines(lines: seq<Line>, id: nat, status: string)
    requires Distinct(lines)
    ensures |Marked(lines, id, status)| == |lines| && Distinct(Marked(lines, id, status))
    ensures forall k | 0 <= k < |lines| ::
      Marked(lines, id, status)[k] == if lines[k].id == id then lines[k].(status := status) else lines[k]
  {
    var marked := Marked(lines, id, status);
    if lines != [] && lines[0].id != id {
      var rest := lines[1..];
      assert Distinct(rest);
      MarkedLines(rest, id, status);
      assert marked == [lines[0]] + Marked(rest, id, status);
      hide Marked;
      forall k | 0 <= k < |lines|
        ensures marked[k] == if lines[k].id == id then lines[k].(status := status) else lines[k]
      {
        if k > 0 { assert lines[k] == rest[k - 1]; }
      }
    }
  }

  lemma {:induction false} PickedUpExactly(lines: seq<Line>, id: nat)
    requires Distinct(lines)
    ensures id in PickedUp(lines) <==> exists k | 0 <= k < |lines| :: lines[k].id == id && lines[k].status in LIVE
    ensures forall k | 0 <= k < |lines| && lines[k].id == id && lines[k].status in LIVE ::
      PickedUp(lines)[id] == Entry(lines[k].task, lines[k].training)
  {
    if lines != [] {
      var last := |lines| - 1;
      PickedUpExactly(lines[..last], id);
      if id in PickedUp(lines[..last]) {
        var k :| 0 <= k < last && lines[..last][k].id == id && lines[..last][k].status in LIVE;
        assert lines[k].id == id;
      }
    }
  }

  lemma OneMorePerTask(t: Table, id: nat, e: Entry)
    requires OnePerTask(t.pending) && !Waiting(t, e.task)
    ensures OnePerTask(t.pending[id := e])
  {
  }

  lemma FewerPerTask(pending: map<nat, Entry>, id: nat)
    requires OnePerTask(pending)
    ensures OnePerTask(pending - {id})
  {
  }

  /** Jobs may be added, and open ones may end. */
  ghost predicate Advances(fate: map<nat, Fate>, more: map<nat, Fate>) {
    forall id | id in fate :: id in more && (more[id] == fate[id] || (fate[id] == Open && Ended(more[id])))
  }

  lemma SavedStays(base: map<string, string>, s: Saved, fate: map<nat, Fate>, more: map<nat, Fate>)
    requires SavedSound(base, s, fate) && Advances(fate, more)
    ensures SavedSound(base, s, more)
  {
    hide Delivered, Distinct, OneLivePerTask;
  }

  lemma BalancedIssue(pending: map<nat, Entry>, e: Entry, fate: map<nat, Fate>, id: nat)
    requires Balanced(pending, fate) && id !in fate
    ensures Balanced(pending[id := e], fate[id := Open])
  {
  }

  lemma BalancedEnd(pending: map<nat, Entry>, fate: map<nat, Fate>, id: nat, f: Fate)
    requires Balanced(pending, fate) && id in pending && Ended(f)
    ensures Balanced(pending - {id}, fate[id := f])
  {
  }

  lemma SubmittedOnTop(t: Table, fate: map<nat, Fate>, used: set<nat>, task: string, training: bool, r: Receipt)
    requires Distinct(t.lines) && Known(t.lines, fate) && Backed(t.lines, t.pending)
    requires fate.Keys <= used && r.id !in used
    ensures var lines := Newest([Line(r.id, task, training, r.status)] + t.lines);
      && Distinct(lines) && Known(lines, fate[r.id := Open])
      && Backed(lines, t.pending[r.id := Entry(task, training)])
  {
    var all := [Line(r.id, task, training, r.status)] + t.lines;
    forall k | 0 < k < |all| ensures all[k] == t.lines[k - 1] && all[k].id in fate && all[k].id in used {
    }
  }

  lemma CreditedStays(succeeded: nat, counted: map<nat, Delivery>, fate: map<nat, Fate>, more: map<nat, Fate>)
    requires Credited(succeeded, counted, fate) && Advances(fate, more)
    ensures Credited(succeeded, counted, more)
  {
  }

  lemma SubmittedKeeps(base: map<string, string>, t: Table, fate: map<nat, Fate>, used: set<nat>, task: string,
                       training: bool, r: Receipt)
    requires TableSound(base, t, fate, used) && r.id !in used
    ensures var u := Submitted(t, task, training, r);
      var more := if Waiting(t, task) then fate else fate[r.id := Open];
      TableSound(base, u, more, used + {r.id}) && Advances(fate, more) && (r.id in u.pending <==> !Waiting(t, task))
  {
    assert r.id !in fate && r.id !in t.pending;
    SubmittedOnTop(t, fate, used, task, training, r);
    BalancedIssue(t.pending, Entry(task, training), fate, r.id);
    CreditedStays(t.succeeded, t.counted, fate, fate[r.id := Open]);
    if !Waiting(t, task) { OneMorePerTask(t, r.id, Entry(task, training)); }
    hide OnePerTask, Distinct, Backed, Balanced, Known, Credited, Delivered, Newest, Waiting;
  }

  lemma PendingAlone(base: map<string, string>, s: State)
    requires Sound(base, s)
    ensures OnePerTask(s.table.pending)
  {
    hide OnePerTask, Distinct, Backed, Balanced, Known, Credited, Delivered, SavedSound;
  }

  lemma PendingAreUsed(base: map<string, string>, s: State)
    requires Sound(base, s)
    ensures s.table.pending.Keys <= s.fate.Keys <= s.used
  {
    hide OnePerTask, Distinct, Backed, Known, Credited, Delivered, SavedSound;
  }

  lemma SubmitKeeps(base: map<string, string>, s: State, e: Event)
    requires Sound(base, s) && Enabled(s, e) && (e.Submit? || e.Cycle?)
    ensures Sound(base, Apply(s, e))
  {
    hide TableSound, SavedSound, Submitted, Waiting;
    if e.receipt.Some? {
      var r := e.receipt.value;
      PendingAreUsed(base, s);
      match e
      case Submit(task, training, _) =>
        SubmittedKeeps(base, s.table, s.fate, s.used, task, training, r);
        SavedStays(base, s.saved, s.fate, Apply(s, e).fate);
      case Cycle(task, recent, _) =>
        CycledKeeps(base, s.table, s.fate, s.used, task, recent, r);
        SavedStays(base, s.saved, s.fate, Apply(s, e).fate);
    }
  }

  lemma MoreUsed(base: map<string, string>, t: Table, fate: map<nat, Fate>, used: set<nat>, more: set<nat>)
    requires TableSound(base, t, fate, used) && used <= more
    ensures TableSound(base, t, fate, more)
  {
    hide OnePerTask, Distinct, Backed, Balanced, Known, Credited, Delivered;
  }

  lemma InTraining(base: map<string, string>, t: Table, fate: map<nat, Fate>, used: set<nat>, task: string)
    requires TableSound(base, t, fate, used) && task !in t.artifacts
    ensures TableSound(base, t.(training := t.training + {task}), fate, used)
  {
    hide OnePerTask, Distinct, Backed, Balanced, Known, Credited, Delivered;
  }

  lemma CycledKeeps(base: map<string, string>, t: Table, fate: map<nat, Fate>, used: set<nat>, task: string,
                    recent: bool, r: Receipt)
    requires TableSound(base, t, fate, used) && r.id !in used && r.id !in t.pending
    ensures var u := Cycled(t, task, recent, Some(r));
      var more := if r.id in u.pending then fate[r.id := Open] else fate;
      TableSound(base, u, more, used + {r.id}) && Advances(fate, more)
  {
    hide TableSound, Submitted, Waiting;
    MoreUsed(base, t, fate, used, used + {r.id});
    if task in t.artifacts {
      SubmittedKeeps(base, t, fate, used, task, false, r);
    } else {
      InTraining(base, t, fate, used, task);
      SubmittedKeeps(base, t.(training := t.training + {task}), fate, used, task, true, r);
    }
    SameFate(fate);
  }

  lemma SameFate(fate: map<nat, Fate>)
    ensures Advances(fate, fate)
  {
  }

  lemma MarkedStaysBacked(t: Table, fate: map<nat, Fate>, id: nat, status: string)
    requires Distinct(t.lines) && Backed(t.lines, t.pending) && Known(t.lines, fate) && id in t.pending
    ensures var lines := Marked(t.lines, id, status);
      && Distinct(lines) && Backed(lines, t.pending) && (status !in LIVE ==> Backed(lines, t.pending - {id}))
      && Known(lines, fate) && Known(lines, fate[id := Succeeded]) && Known(lines, fate[id := Failed])
  {
    MarkedLines(t.lines, id, status);
    hide Marked;
  }

  lemma FinalStatuses(status: string)
    ensures status == SUCCEEDED || status in FAILED ==> status !in LIVE
    ensures status == SUCCEEDED ==> status !in FAILED
  {
  }

  lemma CreditedMore(succeeded: nat, counted: map<nat, Delivery>, fate: map<nat, Fate>, id: nat, d: Delivery)
    requires Credited(succeeded, counted, fate) && id in fate && fate[id] == Open
    ensures Credited(succeeded + 1, counted[id := d], fate[id := Succeeded])
  {
    assert counted[id := d].Keys == counted.Keys + {id};
    assert |counted[id := d]| == |counted[id := d].Keys| && |counted| == |counted.Keys|;
  }

  lemma DeliveredMore(base: map<string, string>, artifacts: map<string, string>, counted: map<nat, Delivery>, id: nat,
                      d: Delivery)
    requires Delivered(base, artifacts, counted) && id !in counted
    ensures Delivered(base, if d.Some? then artifacts[d.value.0 := d.value.1] else artifacts, counted[id := d])
  {
    var more := counted[id := d];
    var after := if d.Some? then artifacts[d.value.0 := d.value.1] else artifacts;
    forall task | task in after
      ensures (task in base && base[task] == after[task]) ||
        exists i | i in more :: more[i] == Some((task, after[task]))
    {
      if d.Some? && task == d.value.0 {
        assert more[id] == Some((task, after[task]));
      } else if !(task in base && base[task] == artifacts[task]) {
        var i :| i in counted && counted[i] == Some((task, artifacts[task]));
        assert i in more && more[i] == Some((task, after[task]));
      }
    }
  }

  lemma PolledKeeps(base: map<string, string>, s: State, id: nat, status: string, artifact: Option<string>)
    requires Sound(base, s) && Enabled(s, Poll(id, status, artifact))
    ensures Sound(base, Apply(s, Poll(id, status, artifact)))
  {
    var t := s.table;
    assert id in s.fate && s.fate[id] == Open && id !in t.counted;
    var e := t.pending[id];
    var d := DeliveryOf(e, artifact);
    MarkedStaysBacked(t, s.fate, id, status);
    FewerPerTask(t.pending, id);
    FinalStatuses(status);
    DeliveredMore(base, t.artifacts, t.counted, id, d);
    CreditedMore(t.succeeded, t.counted, s.fate, id, d);
    BalancedEnd(t.pending, s.fate, id, Succeeded);
    BalancedEnd(t.pending, s.fate, id, Failed);
    Advanced(s.fate, id);
    CreditedStays(t.succeeded, t.counted, s.fate, s.fate[id := Failed]);
    SavedStays(base, s.saved, s.fate, s.fate[id := Succeeded]);
    SavedStays(base, s.saved, s.fate, s.fate[id := Failed]);
    hide SavedSound, Marked, OnePerTask, Distinct, Backed, Known, Balanced, Credited, Advances;
    if status in FAILED { hide Delivered; FewerDelivered(base, t.artifacts, t.counted, e.task); }
    hide Delivered;
  }

  lemma FewerDelivered(base: map<string, string>, artifacts: map<string, string>, counted: map<nat, Delivery>,
                       task: string)
    requires Delivered(base, artifacts, counted)
    ensures Delivered(base, artifacts - {task}, counted)
  {
  }

  lemma Advanced(fate: map<nat, Fate>, id: nat)
    requires id in fate && fate[id] == Open
    ensures Advances(fate, fate[id := Succeeded]) && Advances(fate, fate[id := Failed])
  {
  }

  lemma PickedUpIsSound(lines: seq<Line>)
    requires Distinct(lines) && OneLivePerTask(lines)
    ensures OnePerTask(PickedUp(lines)) && Backed(lines, PickedUp(lines))
  {
    var m := PickedUp(lines);
    forall k | 0 <= k < |lines| ensures LineBacked(lines[k], m) {
      PickedUpExactly(lines, lines[k].id);
    }
    forall i, j | i in m && j in m && m[i].task == m[j].task ensures i == j {
      PickedUpExactly(lines, i);
      PickedUpExactly(lines, j);
    }
  }

  predicate ShownLive(lines: seq<Line>, id: nat) {
    exists k | 0 <= k < |lines| :: lines[k].id == id && lines[k].status in LIVE
  }

  lemma PickedUpIsShown(lines: seq<Line>, id: nat)
    requires Distinct(lines)
    ensures id in PickedUp(lines) <==> ShownLive(lines, id)
  {
    PickedUpExactly(lines, id);
  }

  /** What a restart makes of an account whose unfinished jobs are not forgotten and not counted. */
  lemma ReopenedIsSound(fate: map<nat, Fate>, m: map<nat, Entry>, succeeded: nat, counted: map<nat, Delivery>)
    requires Credited(succeeded, counted, fate) && forall id | id in m :: id in fate && id !in counted
    ensures var after := Reopened(fate, m);
      Balanced(m, after) && Credited(succeeded, counted, after) && after.Keys == fate.Keys
  {
  }

  lemma RestartKeeps(base: map<string, string>, s: State)
    requires Sound(base, s)
    ensures Sound(base, Apply(s, Restart))
  {
    var lines, m := s.saved.lines, PickedUp(s.saved.lines);
    PickedUpIsSound(lines);
    var fate := Reopened(s.fate, m);
    forall id | id in m ensures id in s.fate && id !in s.saved.counted {
      PickedUpIsShown(lines, id);
    }
    forall k | 0 <= k < |lines| && lines[k].status in LIVE ensures lines[k].id in m {
      PickedUpIsShown(lines, lines[k].id);
    }
    ReopenedIsSound(s.fate, m, s.saved.succeeded, s.saved.counted);
    hide PickedUp, OnePerTask, Distinct, Backed, OneLivePerTask, Delivered, Balanced, Credited;
    assert Revivable(lines, s.saved.counted, fate);
  }

  lemma PersistKeeps(base: map<string, string>, s: State)
    requires Sound(base, s)
    ensures Sound(base, Apply(s, Persist))
  {
    var t := s.table;
    forall k | 0 <= k < |t.lines| && t.lines[k].status in LIVE ensures t.lines[k].id in t.pending {
      assert LineBacked(t.lines[k], t.pending);
    }
    LiveOnce(t);
    assert Revivable(t.lines, t.counted, s.fate);
    hide OnePerTask, Distinct, Backed, OneLivePerTask, Delivered, Credited, Balanced;
  }

  lemma LiveOnce(t: Table)
    requires OnePerTask(t.pending) && Distinct(t.lines) && Backed(t.lines, t.pending)
    ensures OneLivePerTask(t.lines)
  {
    forall i, j | 0 <= i < j < |t.lines| && t.lines[i].task == t.lines[j].task
      ensures t.lines[i].status !in LIVE || t.lines[j].status !in LIVE
    {
      assert LineBacked(t.lines[i], t.pending) && LineBacked(t.lines[j], t.pending);
    }
  }

  lemma RegovernedKeeps(base: map<string, string>, s: State, task: string)
    requires Sound(base, s) && Enabled(s, Regovern(task))
    ensures Sound(base, Apply(s, Regovern(task)))
  {
    FewerDelivered(base, s.table.artifacts, s.table.counted, task);
    hide OnePerTask, Distinct, Backed, Balanced, Known, Credited, Delivered, SavedSound;
  }

  lemma StepKeepsSound(base: map<string, string>, s: State, e: Event)
    requires Sound(base, s) && Enabled(s, e)
    ensures Sound(base, Apply(s, e))
  {
    hide Sound, Enabled, Apply;
    match e
    case Submit(_, _, _) => SubmitKeeps(base, s, e);
    case Cycle(_, _, _) => SubmitKeeps(base, s, e);
    case Poll(id, status, artifact) => PolledKeeps(base, s, id, status, artifact);
    case Restart => RestartKeeps(base, s);
    case Persist => PersistKeeps(base, s);
    case Regovern(task) => RegovernedKeeps(base, s, task);
  }

  lemma {:induction false} RunKeepsSound(base: map<string, string>, es: seq<Event>, s: State)
    requires Run(Started(base), es) == Some(s)
    ensures Sound(base, s)
    decreases |es|
  {
    hide Enabled, Apply, Sound;
    if es == [] {
      StartedIsSound(base);
    } else {
      var before, e := LastStep(Step, Started(base), es, s);
      RunKeepsSound(base, es[..|es| - 1], before);
      StepKeepsSound(base, before, e);
    }
  }

  lemma StartedIsSound(base: map<string, string>)
    ensures Sound(base, Started(base))
  {
  }

  lemma {:induction false} SoundAlong(base: map<string, string>, s: State, es: seq<Event>, t: State)
    requires Sound(base, s) && Run(s, es) == Some(t)
    ensures Sound(base, t)
    decreases |es|
  {
    hide Enabled, Apply, Sound;
    if es != [] {
      var before, e := LastStep(Step, s, es, t);
      SoundAlong(base, s, es[..|es| - 1], before);
      StepKeepsSound(base, before, e);
    }
  }

  /** At most one job per task is ever waited for, restarts included. */
  lemma OneJobPerTask(base: map<string, string>, es: seq<Event>, s: State, i: nat, j: nat)
    requires Run(Started(base), es) == Some(s)
    requires i in s.table.pending && j in s.table.pending && s.table.pending[i].task == s.table.pending[j].task
    ensures i == j
  {
    RunKeepsSound(base, es, s);
  }

  lemma FatesAdd(fate: map<nat, Fate>)
    ensures |fate| == |Those(fate, Open)| + |Those(fate, Succeeded)| + |Those(fate, Failed)| + |Those(fate, Lost)|
  {
    var a, b, c, d := Those(fate, Open), Those(fate, Succeeded), Those(fate, Failed), Those(fate, Lost);
    assert |a + b| == |a| + |b|;
    assert |a + b + c| == |a + b| + |c|;
    assert |a + b + c + d| == |a + b + c| + |d|;
    assert fate.Keys == a + b + c + d;
  }

  /** This step takes on a job of that id. */
  predicate TakesOn(s: State, e: Event, id: nat) {
    && Enabled(s, e) && (e.Submit? || e.Cycle?) && e.receipt.Some? && e.receipt.value.id == id
    && id in Apply(s, e).table.pending
  }

  predicate TakenOn(s: State, es: seq<Event>, id: nat) {
    es != [] &&
    var init := es[..|es| - 1];
    (TakenOn(s, init, id) || (Run(s, init).Some? && TakesOn(Run(s, init).value, es[|es| - 1], id)))
  }

  lemma StepTakesOn(s: State, e: Event, id: nat)
    requires Enabled(s, e)
    ensures id in Apply(s, e).fate <==>
      id in s.fate || TakesOn(s, e, id) || (e.Poll? && id == e.id && FinalStatus(e.status))
  {
    hide Submitted, Cycled, Polled, Restored;
  }

  predicate FinalStatus(status: string) {
    status == SUCCEEDED || status in FAILED
  }

  /** The account holds every job ever taken on, whatever restarts came between. */
  lemma {:induction false} AccountIsComplete(base: map<string, string>, es: seq<Event>, s: State, id: nat)
    requires Run(Started(base), es) == Some(s)
    ensures id in s.fate <==> TakenOn(Started(base), es, id)
    decreases |es|
  {
    hide Enabled, Apply, TakesOn;
    if es != [] {
      var before, e := LastStep(Step, Started(base), es, s);
      AccountIsComplete(base, es[..|es| - 1], before, id);
      StepTakesOn(before, e, id);
      PolledIsKnown(base, es[..|es| - 1], before, e);
    }
  }

  lemma PolledIsKnown(base: map<string, string>, es: seq<Event>, s: State, e: Event)
    requires Run(Started(base), es) == Some(s) && Enabled(s, e)
    ensures e.Poll? ==> e.id in s.fate
  {
    RunKeepsSound(base, es, s);
    hide OnePerTask, Distinct, Backed, Known, Credited, Delivered, SavedSound, Run;
  }

  /** Every job ever taken on is waited for, has succeeded, has failed for good, or was forgotten by a restart; the
      success counter never counts a job twice. */
  lemma JobsAreConserved(base: map<string, string>, es: seq<Event>, s: State)
    requires Run(Started(base), es) == Some(s)
    ensures |s.fate| == |s.table.pending| + |Those(s.fate, Succeeded)| + |Those(s.fate, Failed)| + |Those(s.fate, Lost)|
    ensures s.table.pending.Keys == Those(s.fate, Open)
    ensures s.table.counted.Keys <= Those(s.fate, Succeeded) && s.table.succeeded == |s.table.counted|
    ensures s.table.succeeded <= |Those(s.fate, Succeeded)|
  {
    RunKeepsSound(base, es, s);
    var t := s.table;
    FatesAdd(s.fate);
    hide Known, Backed, OnePerTask, Delivered, SavedSound, Run;
    assert t.pending.Keys == Those(s.fate, Open);
    assert |t.pending| == |t.pending.Keys| && |t.counted| == |t.counted.Keys|;
    SmallerSet(t.counted.Keys, Those(s.fate, Succeeded));
  }

  lemma {:induction false} SmallerSet(a: set<nat>, b: set<nat>)
    requires a <= b
    ensures |a| <= |b|
  {
    if a != {} {
      var x :| x in a;
      SmallerSet(a - {x}, b - {x});
    }
  }

  /** Nothing is forgotten, and the successes are those counted. */
  ghost predicate AllCounted(fate: map<nat, Fate>, counted: map<nat, Delivery>) {
    Those(fate, Succeeded) == counted.Keys && Those(fate, Lost) == {}
  }

  lemma CountedAfter(fate: map<nat, Fate>, counted: map<nat, Delivery>, id: nat, d: Delivery)
    requires AllCounted(fate, counted)
    ensures id !in fate ==> AllCounted(fate[id := Open], counted)
    ensures id !in counted ==> AllCounted(fate[id := Failed], counted)
    ensures AllCounted(fate[id := Succeeded], counted[id := d])
  {
    assert Those(fate[id := Succeeded], Succeeded) == Those(fate, Succeeded) + {id};
    assert id !in fate ==> Those(fate[id := Open], Succeeded) == Those(fate, Succeeded);
    assert id !in counted ==> Those(fate[id := Failed], Succeeded) == Those(fate, Succeeded);
  }

  lemma PendingIsNotCounted(base: map<string, string>, s: State, id: nat)
    requires Sound(base, s) && id in s.table.pending
    ensures id in s.fate && id !in s.table.counted
  {
    hide OnePerTask, Distinct, Backed, Known, Delivered, SavedSound;
  }

  /** What a step other than a restart does to the account and the counted successes. */
  ghost predicate Accounts(s: State, e: Event, t: State) {
    && t.again == s.again
    && match e
       case Poll(id, status, artifact) =>
         id in s.table.pending &&
         (if status == SUCCEEDED then
            && t.fate == s.fate[id := Succeeded]
            && t.table.counted == s.table.counted[id := DeliveryOf(s.table.pending[id], artifact)]
          else
            && t.fate == (if status in FAILED then s.fate[id := Failed] else s.fate)
            && t.table.counted == s.table.counted)
       case Persist => t.fate == s.fate && t.table.counted == s.table.counted
       case Regovern(_) => t.fate == s.fate && t.table.counted == s.table.counted
       case Restart => false
       case _ =>
         t.table.counted == s.table.counted &&
         (t.fate == s.fate ||
          (e.receipt.Some? && e.receipt.value.id !in s.used && t.fate == s.fate[e.receipt.value.id := Open]))
  }

  lemma StepAccounts(s: State, e: Event)
    requires Enabled(s, e) && e != Restart
    ensures Accounts(s, e, Apply(s, e))
  {
    hide Waiting, Marked, Newest;
  }

  lemma StepKeepsAll(base: map<string, string>, s: State, e: Event)
    requires Sound(base, s) && Enabled(s, e) && e != Restart && AllCounted(s.fate, s.table.counted) && s.again == {}
    ensures AllCounted(Apply(s, e).fate, Apply(s, e).table.counted) && Apply(s, e).again == {}
  {
    PendingAreUsed(base, s);
    StepAccounts(s, e);
    hide Sound, Apply, Enabled, AllCounted;
    match e
    case Submit(_, _, r) => if r.Some? { CountedAfter(s.fate, s.table.counted, r.value.id, None); }
    case Cycle(_, _, r) => if r.Some? { CountedAfter(s.fate, s.table.counted, r.value.id, None); }
    case Poll(id, _, artifact) =>
      PendingIsNotCounted(base, s, id);
      CountedAfter(s.fate, s.table.counted, id, DeliveryOf(s.table.pending[id], artifact));
    case _ =>
  }

  /** Until the first restart nothing is forgotten, and the counter is the number of successes. */
  lemma {:induction false} CounterIsExactUntilRestart(base: map<string, string>, es: seq<Event>, s: State)
    requires Run(Started(base), es) == Some(s) && Restart !in es
    ensures AllCounted(s.fate, s.table.counted) && s.again == {}
    ensures s.table.succeeded == |Those(s.fate, Succeeded)|
    decreases |es|
  {
    hide Enabled, Apply, Sound;
    if es != [] {
      var before, e := LastStep(Step, Started(base), es, s);
      CounterIsExactUntilRestart(base, es[..|es| - 1], before);
      RunKeepsSound(base, es[..|es| - 1], before);
      assert e in es;
      StepKeepsAll(base, before, e);
    }
    JobsAreConserved(base, es, s);
    hide Run;
    assert |s.table.counted| == |s.table.counted.Keys|;
  }

  predicate HasEnded(s: State, id: nat) {
    id in s.fate && Ended(s.fate[id])
  }

  /** A restart at which the list written down still shows that ended job as unfinished. */
  predicate BringsBack(s: State, e: Event, id: nat) {
    e == Restart && HasEnded(s, id) && ShownLive(s.saved.lines, id)
  }

  predicate BroughtBack(s: State, es: seq<Event>, id: nat) {
    es != [] &&
    var init := es[..|es| - 1];
    (BroughtBack(s, init, id) || (Run(s, init).Some? && BringsBack(Run(s, init).value, es[|es| - 1], id)))
  }

  lemma StepKeepsEnded(base: map<string, string>, s: State, e: Event, id: nat)
    requires Sound(base, s) && Enabled(s, e)
    ensures var t := Apply(s, e);
      && (id in t.again <==> id in s.again || BringsBack(s, e, id))
      && (HasEnded(s, id) ==>
            if BringsBack(s, e, id) then id in t.table.pending && t.fate[id] == Open
            else id in t.fate && t.fate[id] == s.fate[id] && id !in t.table.pending)
  {
    hide Sound, Enabled, Apply, BringsBack, HasEnded;
    if e == Restart {
      RestartBringsBack(base, s, id);
    } else {
      OthersKeepEnded(base, s, e, id);
    }
  }

  lemma RestartBringsBack(base: map<string, string>, s: State, id: nat)
    requires Sound(base, s)
    ensures var t := Apply(s, Restart);
      && (id in t.again <==> id in s.again || BringsBack(s, Restart, id))
      && (HasEnded(s, id) ==>
            if BringsBack(s, Restart, id) then id in t.table.pending && t.fate[id] == Open
            else id in t.fate && t.fate[id] == s.fate[id] && id !in t.table.pending)
  {
    SavedIsDistinct(base, s);
    PickedUpIsShown(s.saved.lines, id);
    hide Sound, ShownLive, PickedUp;
  }

  lemma OthersKeepEnded(base: map<string, string>, s: State, e: Event, id: nat)
    requires Sound(base, s) && Enabled(s, e) && e != Restart
    ensures var t := Apply(s, e);
      && !BringsBack(s, e, id) && (id in t.again <==> id in s.again)
      && (HasEnded(s, id) ==> id in t.fate && t.fate[id] == s.fate[id] && id !in t.table.pending)
  {
    PendingAreUsed(base, s);
    EndedIsNotPending(base, s, id);
    StepKeepsSound(base, s, e);
    StepAccounts(s, e);
    hide Sound, ShownLive, Apply, Enabled;
    EndedIsNotPending(base, Apply(s, e), id);
  }

  lemma SavedIsDistinct(base: map<string, string>, s: State)
    requires Sound(base, s)
    ensures Distinct(s.saved.lines)
  {
    hide OnePerTask, Distinct, Backed, Known, Balanced, Credited, Delivered, Revivable, OneLivePerTask;
  }

  lemma EndedIsNotPending(base: map<string, string>, s: State, id: nat)
    requires Sound(base, s)
    ensures HasEnded(s, id) ==> id !in s.table.pending
  {
    hide Known, Backed, OnePerTask, Delivered, SavedSound, Distinct, Credited;
  }

  /** An ended job stays ended exactly until a restart at which the list written down still shows it as unfinished:
      then, and only then, it is waited for again. */
  lemma {:induction false} EndedStaysExactly(base: map<string, string>, past: seq<Event>, s: State, es: seq<Event>,
                                             t: State, id: nat)
    requires Run(Started(base), past) == Some(s) && HasEnded(s, id) && Run(s, es) == Some(t)
    ensures id in t.again <==> id in s.again || BroughtBack(s, es, id)
    ensures !BroughtBack(s, es, id) ==> id in t.fate && t.fate[id] == s.fate[id] && id !in t.table.pending
    decreases |es|
  {
    hide Enabled, Apply, Sound, BringsBack;
    RunKeepsSound(base, past, s);
    if es == [] {
      EndedIsNotPending(base, s, id);
    } else {
      var init := es[..|es| - 1];
      var before, e := LastStep(Step, s, es, t);
      EndedStaysExactly(base, past, s, init, before, id);
      SoundAlong(base, s, init, before);
      StepKeepsEnded(base, before, e, id);
    }
  }

  /** An ended job that the list written down does not show as unfinished. */
  ghost predicate Final(s: State, id: nat, f: Fate) {
    id in s.fate && s.fate[id] == f && Ended(f) && !ShownLive(s.saved.lines, id)
  }

  lemma StepKeepsFinal(base: map<string, string>, s: State, e: Event, id: nat, f: Fate)
    requires Sound(base, s) && Enabled(s, e) && Final(s, id, f)
    ensures Final(Apply(s, e), id, f)
  {
    StepKeepsEnded(base, s, e, id);
    EndedIsNotShown(base, s, id);
    hide Sound, ShownLive, Restored, Submitted, Cycled, Polled, Regoverned;
  }

  lemma EndedIsNotShown(base: map<string, string>, s: State, id: nat)
    requires Sound(base, s)
    ensures HasEnded(s, id) ==> !ShownLive(s.table.lines, id)
  {
    if ShownLive(s.table.lines, id) {
      var k :| 0 <= k < |s.table.lines| && s.table.lines[k].id == id && s.table.lines[k].status in LIVE;
      assert LineBacked(s.table.lines[k], s.table.pending);
    }
    hide Known, OnePerTask, Delivered, SavedSound, Distinct, Credited;
  }

  /** Once an ending has been written down it is final: no restart brings the job back. */
  lemma {:induction false} SavedEndingIsFinal(base: map<string, string>, past: seq<Event>, s: State, es: seq<Event>,
                                              t: State, id: nat)
    requires Run(Started(base), past) == Some(s) && HasEnded(s, id)
    requires Run(Apply(s, Persist), es) == Some(t)
    ensures Final(t, id, s.fate[id]) && id !in t.table.pending
    decreases |es|
  {
    var u := Apply(s, Persist);
    RunKeepsSound(base, past, s);
    EndedIsNotShown(base, s, id);
    StepKeepsSound(base, s, Persist);
    assert Final(u, id, s.fate[id]);
    hide Enabled, Apply, Sound, Final;
    if es == [] {
      FinalIsNotPending(base, u, id, s.fate[id]);
    } else {
      var before, e := LastStep(Step, u, es, t);
      SavedEndingIsFinal(base, past, s, es[..|es| - 1], before, id);
      SoundAlong(base, u, es[..|es| - 1], before);
      StepKeepsFinal(base, before, e, id, s.fate[id]);
      StepKeepsSound(base, before, e);
      FinalIsNotPending(base, t, id, s.fate[id]);
    }
  }

  lemma FinalIsNotPending(base: map<string, string>, s: State, id: nat, f: Fate)
    requires Sound(base, s) && Final(s, id, f)
    ensures id !in s.table.pending
  {
    EndedIsNotPending(base, s, id);
    hide Sound, ShownLive;
  }

  /** A job is taken on, and no more. */
  lemma FirstJob(base: map<string, string>, task: string, training: bool)
    requires task !in SUPERVISED
    ensures var e := Submit(task, training, Some(Receipt(1, "queued")));
      && Enabled(Started(base), e)
      && Apply(Started(base), e) == State(
           Table(map[1 := Entry(task, training)], [Line(1, task, training, "queued")], base, {}, {}, 0, map[]),
           Saved([], base, 0, map[]), {1}, map[1 := Open], {})
  {
    assert !Waiting(Started(base).table, task);
  }

  lemma RestartAfter(s: State, task: string, training: bool)
    requires s.fate.Keys == {1} && (s.saved.lines == [] || s.saved.lines == [Line(1, task, training, "queued")])
    ensures s.saved.lines == [] && s.fate[1] == Open ==>
      Apply(s, Restart).table.pending == map[] && Apply(s, Restart).fate == map[1 := Lost]
    ensures s.saved.lines != [] ==>
      Apply(s, Restart).table.pending == map[1 := Entry(task, training)] && Apply(s, Restart).fate == map[1 := Open]
    ensures s.saved.lines != [] && Ended(s.fate[1]) ==> Apply(s, Restart).again == s.again + {1}
  {
    var l := Line(1, task, training, "queued");
    if s.saved.lines != [] { assert PickedUp([l]) == PickedUp([l][..0])[1 := Entry(task, training)]; }
  }

  /** It happens: a job taken on after the last save is forgotten by a restart. */
  lemma UnsavedJobIsLost(base: map<string, string>, task: string, training: bool) returns (es: seq<Event>, s: State)
    requires task !in SUPERVISED
    ensures es == [Submit(task, training, Some(Receipt(1, "queued"))), Restart] && Run(Started(base), es) == Some(s)
    ensures s.fate == map[1 := Lost] && s.table.pending == map[]
  {
    FirstJob(base, task, training);
    es, s := Extend(Step, Started(base), [], Started(base), Submit(task, training, Some(Receipt(1, "queued"))));
    RestartAfter(s, task, training);
    hide After, Restored;
    es, s := Extend(Step, Started(base), es, s, Restart);
  }

  lemma FailsAfterSave(s: State, task: string, training: bool)
    requires s.table.pending == map[1 := Entry(task, training)] && s.fate == map[1 := Open] && s.again == {}
    requires s.table.lines == [Line(1, task, training, "queued")]
    ensures var u := Apply(s, Persist); var f := Poll(1, "dead_letter", None);
      && Enabled(u, f) && Apply(u, f).fate == map[1 := Failed] && Apply(u, f).again == {}
      && Apply(u, f).saved.lines == s.table.lines
  {
    hide Marked;
  }

  /** It happens: a job that failed for good after the last save is waited for again. */
  lemma FailedJobComesBack(base: map<string, string>, task: string, training: bool) returns (es: seq<Event>, s: State)
    requires task !in SUPERVISED
    ensures es == [Submit(task, training, Some(Receipt(1, "queued"))), Persist, Poll(1, "dead_letter", None), Restart]
    ensures Run(Started(base), es) == Some(s)
    ensures s.fate == map[1 := Open] && s.again == {1} && s.table.pending == map[1 := Entry(task, training)]
  {
    FirstJob(base, task, training);
    es, s := Extend(Step, Started(base), [], Started(base), Submit(task, training, Some(Receipt(1, "queued"))));
    hide After, Started, Submitted, Polled, Restored;
    FailsAfterSave(s, task, training);
    es, s := Extend(Step, Started(base), es, s, Persist);
    es, s := Extend(Step, Started(base), es, s, Poll(1, "dead_letter", None));
    RestartAfter(s, task, training);
    es, s := Extend(Step, Started(base), es, s, Restart);
  }

  /** Every artifact in use came out of a training job of its task that has succeeded, or was there from the start. */
  lemma ArtifactsAreProduced(base: map<string, string>, es: seq<Event>, s: State, task: string)
    requires Run(Started(base), es) == Some(s) && task in s.table.artifacts
    ensures (task in base && base[task] == s.table.artifacts[task]) ||
      exists id | id in s.table.counted ::
        s.table.counted[id] == Some((task, s.table.artifacts[task])) && id in s.fate && s.fate[id] == Succeeded
  {
    RunKeepsSound(base, es, s);
    hide Known, Backed, OnePerTask, SavedSound, Distinct, Balanced;
  }

  /** A restart right after a save picks up exactly the jobs with a line that still reads as unfinished. */
  lemma RestartKeepsExactly(base: map<string, string>, es: seq<Event>, s: State, id: nat)
    requires Run(Started(base), es) == Some(s)
    ensures var t := Apply(Apply(s, Persist), Restart).table;
      && (id in t.pending <==> id in s.table.pending && ShownLive(s.table.lines, id))
      && (id in t.pending ==> t.pending[id] == s.table.pending[id])
  {
    RunKeepsSound(base, es, s);
    PickedUpExactly(s.table.lines, id);
    hide Known, OnePerTask, SavedSound, Distinct, Balanced, Delivered, Credited, PickedUp;
  }

  /** Marked as in training, without an artifact and without a job: the task's turn does nothing. */
  predicate Stuck(t: Table, task: string) {
    task in t.training && task !in t.artifacts && !Waiting(t, task)
  }

  lemma StuckStays(s: State, e: Event, task: string)
    requires task in SUPERVISED && Stuck(s.table, task) && Enabled(s, e) && e != Restart
    ensures Stuck(Apply(s, e).table, task)
  {
  }

  /** A task that is stuck gets no job until the feed is restarted. */
  lemma {:induction false} StuckIsForever(base: map<string, string>, past: seq<Event>, s: State, es: seq<Event>,
                                          t: State, task: string)
    requires Run(Started(base), past) == Some(s) && task in SUPERVISED && Stuck(s.table, task)
    requires Run(s, es) == Some(t) && Restart !in es
    ensures Stuck(t.table, task)
    decreases |es|
  {
    hide Enabled, Apply, Stuck;
    if es != [] {
      var before, e := LastStep(Step, s, es, t);
      StuckIsForever(base, past, s, es[..|es| - 1], before, task);
      assert e in es;
      StuckStays(before, e, task);
    }
  }

  /** Submitting for one task leaves the others as they are, and its own is waited for. */
  lemma SubmittedWaits(t: Table, task: string, training: bool, r: Receipt, watched: string)
    requires r.id !in t.pending
    ensures var u := Submitted(t, task, training, r);
      && u.training == t.training && u.artifacts == t.artifacts
      && (Waiting(u, watched) <==> watched == task || Waiting(t, watched))
  {
    hide Newest;
    var u := Submitted(t, task, training, r);
    if Waiting(t, watched) {
      var j :| j in t.pending && t.pending[j].task == watched;
      assert j in u.pending && u.pending[j].task == watched;
    } else if watched == task {
      assert r.id in u.pending && u.pending[r.id].task == task;
    }
  }

  lemma CycledSticksNothing(t: Table, task: string, recent: bool, receipt: Option<Receipt>, watched: string)
    requires !Stuck(t, watched) && (receipt.Some? ==> receipt.value.id !in t.pending)
    ensures !Stuck(Cycled(t, task, recent, receipt), watched)
  {
    hide Submitted, Waiting;
    if receipt.Some? {
      SubmittedWaits(t, task, false, receipt.value, watched);
      SubmittedWaits(t.(training := t.training + {task}), task, true, receipt.value, watched);
      SameWaiting(t, t.(training := t.training + {task}), watched);
    }
  }

  lemma SameWaiting(t: Table, u: Table, task: string)
    requires t.pending == u.pending
    ensures Waiting(t, task) == Waiting(u, task)
  {
  }

  lemma PolledWaits(t: Table, id: nat, status: string, artifact: Option<string>, task: string)
    requires id in t.pending && OnePerTask(t.pending)
    ensures Waiting(Polled(t, id, status, artifact), task) <==>
      Waiting(t, task) && !((status == SUCCEEDED || status in FAILED) && t.pending[id].task == task)
  {
    hide Marked;
    var u := Polled(t, id, status, artifact);
    if Waiting(t, task) {
      var j :| j in t.pending && t.pending[j].task == task;
      if j != id { assert j in u.pending; }
      if t.pending[id].task == task { assert j == id; }
    }
  }

  /** A task gets stuck exactly when a job of it succeeds, without delivering an artifact as a training job,
      while the task is marked as in training. */
  lemma GetsStuckExactly(base: map<string, string>, es: seq<Event>, s: State, e: Event, task: string)
    requires Run(Started(base), es) == Some(s) && task in SUPERVISED && !Stuck(s.table, task)
    requires Enabled(s, e) && e != Restart
    ensures Stuck(Apply(s, e).table, task) <==>
      && e.Poll? && e.status == SUCCEEDED && s.table.pending[e.id].task == task
      && task in s.table.training && !(s.table.pending[e.id].training && e.artifact.Some?)
  {
    RunKeepsSound(base, es, s);
    PendingAreUsed(base, s);
    hide Sound, Marked, Newest, Waiting, Submitted;
    match e
    case Poll(id, status, artifact) =>
      FinalStatuses(status);
      PendingAlone(base, s);
      PolledWaits(s.table, id, status, artifact, task);
      if task in s.table.training { TrainingHasNoArtifact(base, s, task); }
      if s.table.pending[id].task == task { PendingWaits(s.table, id); }
    case Regovern(other) =>
      if task in s.table.training { TrainingHasNoArtifact(base, s, task); }
      SameWaiting(s.table, Regoverned(s.table, other), task);
    case Submit(other, training, r) => if r.Some? { SubmittedWaits(s.table, other, training, r.value, task); }
    case Cycle(other, recent, r) => CycledSticksNothing(s.table, other, recent, r, task);
    case Persist =>
  }

  lemma PendingWaits(t: Table, id: nat)
    requires id in t.pending
    ensures Waiting(t, t.pending[id].task)
  {
  }

  lemma TrainingHasNoArtifact(base: map<string, string>, s: State, task: string)
    requires Sound(base, s) && task in s.table.training
    ensures task !in s.table.artifacts
  {
  }

  /** It happens: the artifact is withdrawn for retraining while a scoring job of the task is still out, and that
      job succeeds. */
  lemma RegovernedWhileScoring(base: map<string, string>, es: seq<Event>, s: State, id: nat, task: string, r: Receipt,
                               artifact: Option<string>)
    requires Run(Started(base), es) == Some(s) && task in SUPERVISED && r.id !in s.used
    requires id in s.table.pending && s.table.pending[id] == Entry(task, false)
    requires task in s.table.artifacts && task !in s.table.regoverned
    ensures var t := Apply(s, Regovern(task)); var u := Apply(t, Cycle(task, true, Some(r)));
      id in u.table.pending && Stuck(Apply(u, Poll(id, SUCCEEDED, artifact)).table, task)
  {
    RunKeepsSound(base, es, s);
    PendingAlone(base, s);
    hide Sound, Marked, Run, Regoverned, Cycled, Polled, Stuck, Waiting;
    StillScoring(s.table, id, task, r, artifact);
  }

  lemma StillScoring(t: Table, id: nat, task: string, r: Receipt, artifact: Option<string>)
    requires OnePerTask(t.pending) && id in t.pending && t.pending[id] == Entry(task, false)
    requires task in t.artifacts && task !in t.regoverned
    ensures var u := Cycled(Regoverned(t, task), task, true, Some(r));
      id in u.pending && u.pending == t.pending && Stuck(Polled(u, id, SUCCEEDED, artifact), task)
  {
    PendingWaits(t, id);
    var u := Regoverned(t, task);
    SameWaiting(t, u, task);
    SameWaiting(t, u.(training := u.training + {task}), task);
    var v := Cycled(u, task, true, Some(r));
    SameWaiting(t, v, task);
    PolledWaits(v, id, SUCCEEDED, artifact, task);
    hide OnePerTask, Waiting, Marked;
  }

  /** A supervised task alternates as it should: a delivered artifact is what it scores with next, and after a
      scoring job has failed for good it is trained anew. */
  lemma TrainsScoresRetrains(base: map<string, string>, es: seq<Event>, s: State, id: nat, status: string,
                             artifact: Option<string>, r: Receipt)
    requires Run(Started(base), es) == Some(s) && id in s.table.pending && s.table.pending[id].task in SUPERVISED
    requires r.id !in s.used
    ensures var e := s.table.pending[id];
      var t := Apply(Apply(s, Poll(id, status, artifact)), Cycle(e.task, true, Some(r))).table;
      && (status == SUCCEEDED && e.training && artifact.Some? ==>
            t.pending == (s.table.pending - {id})[r.id := Entry(e.task, false)] && e.task in t.artifacts
            && t.artifacts[e.task] == artifact.value)
      && (status in FAILED && !e.training ==>
            t.pending == (s.table.pending - {id})[r.id := Entry(e.task, true)] && e.task !in t.artifacts)
  {
    hide Sound, Run, Waiting, Marked, Newest;
    RunKeepsSound(base, es, s);
    PendingAlone(base, s);
    FinalStatuses(status);
    var task := s.table.pending[id].task;
    var t := Polled(s.table, id, status, artifact);
    PolledWaits(s.table, id, status, artifact, task);
    SameWaiting(t, t.(training := t.training + {task}), task);
    hide OnePerTask;
  }

  const QUALIFICATION := "lead_qualification"

  lemma TrainsFirst()
    ensures var s := Started(map[]); var e := Cycle(QUALIFICATION, false, Some(Receipt(1, "queued")));
      var t := Apply(s, e);
      && Enabled(s, e) && t.used == {1} && t.table.regoverned == {}
      && t.table.pending == map[1 := Entry(QUALIFICATION, true)] && t.table.artifacts == map[]
  {
    assert !Waiting(Started(map[]).table, QUALIFICATION);
    assert QUALIFICATION in SUPERVISED;
    hide Newest;
  }

  lemma ScoresNext(s: State, artifact: string)
    requires s.used == {1} && s.table.regoverned == {} && s.table.artifacts == map[]
    requires s.table.pending == map[1 := Entry(QUALIFICATION, true)]
    ensures var e := Poll(1, SUCCEEDED, Some(artifact)); var t := Apply(s, e);
      var f := Cycle(QUALIFICATION, true, Some(Receipt(2, "queued"))); var u := Apply(t, f);
      && Enabled(s, e) && Enabled(t, f) && u.used == {1, 2} && u.table.regoverned == {}
      && u.table.pending == map[2 := Entry(QUALIFICATION, false)] && QUALIFICATION in u.table.artifacts
  {
    hide Marked, Newest;
    var t := Apply(s, Poll(1, SUCCEEDED, Some(artifact)));
    assert t.table.pending == map[] && !Waiting(t.table, QUALIFICATION);
    assert QUALIFICATION in SUPERVISED;
  }

  /** A run in which that happens, from an empty start. */
  lemma TaskGetsStuck(artifact: string) returns (es: seq<Event>, s: State)
    ensures Run(Started(map[]), es) == Some(s) && Stuck(s.table, QUALIFICATION)
  {
    var s0 := Started(map[]);
    TrainsFirst();
    es, s := Extend(Step, s0, [], s0, Cycle(QUALIFICATION, false, Some(Receipt(1, "queued"))));
    hide After, Started, Submitted, Polled, Cycled, Stuck;
    ScoresNext(s, artifact);
    es, s := Extend(Step, s0, es, s, Poll(1, SUCCEEDED, Some(artifact)));
    es, s := Extend(Step, s0, es, s, Cycle(QUALIFICATION, true, Some(Receipt(2, "queued"))));
    assert QUALIFICATION in SUPERVISED;
    RegovernedWhileScoring(map[], es, s, 2, QUALIFICATION, Receipt(3, "queued"), None);
    es, s := Extend(Step, s0, es, s, Regovern(QUALIFICATION));
    es, s := Extend(Step, s0, es, s, Cycle(QUALIFICATION, true, Some(Receipt(3, "queued"))));
    es, s := Extend(Step, s0, es, s, Poll(2, SUCCEEDED, None));
  }
}
