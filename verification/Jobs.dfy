/** The feed's table of durable model jobs: submitted at most one at a time per task, polled until they end, and
    picked up again after a restart from what was last written down. */
module Jobs {
  import opened Wrappers
  import opened Runs

  /** What the feed remembers of a job it waits for. */
  datatype Entry = Entry(task: string, training: bool)

  /** A line of the visible job list; an unknown status is empty. */
  datatype Line = Line(id: nat, task: string, training: bool, status: string)

  /** What was delivered by a job that succeeded: the artifact of a training job with its task, or nothing. */
  type Delivery = Option<(string, string)>

  /** `counted` are the successes the success counter stands for. */
  datatype Saved = Saved(lines: seq<Line>, artifacts: map<string, string>, succeeded: nat, counted: map<nat, Delivery>)

  datatype Table = Table(pending: map<nat, Entry>, lines: seq<Line>, artifacts: map<string, string>,
                         training: set<string>, regoverned: set<string>, succeeded: nat, counted: map<nat, Delivery>)

  /** What has become of a job that was taken on; `Lost` are those a restart forgot. */
  datatype Fate = Open | Succeeded | Failed | Lost

  /** `used` are the ids the backend has ever given out. An observer whom no restart touches keeps the `fate` of every
      job ever taken on, and those taken up `again` after they had ended. */
  datatype State = State(table: Table, saved: Saved, used: set<nat>, fate: map<nat, Fate>, again: set<nat>)

  /** What the backend says to a submission. */
  datatype Receipt = Receipt(id: nat, status: string)

  /** A submission's receipt is none when a call failed on the way. */
  datatype Event =
    | Submit(task: string, training: bool, receipt: Option<Receipt>)
    | Cycle(task: string, recent: bool, receipt: Option<Receipt>)
    | Regovern(task: string)
    | Poll(id: nat, status: string, artifact: Option<string>)
    | Persist
    | Restart

  const SUPERVISED := ["lead_qualification", "paid_conversion", "customer_churn", "future_customer_value"]
  const LIVE := ["pending", "leased", "retry", "queued", "running"]
  const FAILED := ["dead_letter", "cancelled", "unknown_outcome"]
  const SUCCEEDED := "succeeded"

  function Started(artifacts: map<string, string>): State {
    State(Table(map[], [], artifacts, {}, {}, 0, map[]), Saved([], artifacts, 0, map[]), {}, map[], {})
  }

  predicate Waiting(t: Table, task: string) {
    exists id | id in t.pending :: t.pending[id].task == task
  }

  function Newest(lines: seq<Line>): seq<Line> {
    if |lines| <= 40 then lines else lines[..40]
  }

  function Marked(lines: seq<Line>, id: nat, status: string): seq<Line> {
    if lines == [] then []
    else if lines[0].id == id then [lines[0].(status := status)] + lines[1..]
    else [lines[0]] + Marked(lines[1..], id, status)
  }

  /** A submission, unless a job of the task is already waited for. */
  function Submitted(t: Table, task: string, training: bool, r: Receipt): Table {
    if Waiting(t, task) then t
    else t.(pending := t.pending[r.id := Entry(task, training)],
            lines := Newest([Line(r.id, task, training, r.status)] + t.lines))
  }

  /** A supervised task's turn: score with its artifact, or train one through the governed path. */
  function Cycled(t: Table, task: string, recent: bool, receipt: Option<Receipt>): Table {
    if task in t.artifacts then
      (if recent && receipt.Some? then Submitted(t, task, false, receipt.value) else t)
    else if task in t.training then t
    else if receipt.None? then t
    else Submitted(t.(training := t.training + {task}), task, true, receipt.value)
  }

  function DeliveryOf(e: Entry, artifact: Option<string>): Delivery {
    if e.training && artifact.Some? then Some((e.task, artifact.value)) else None
  }

  function Polled(t: Table, id: nat, status: string, artifact: Option<string>): Table
    requires id in t.pending
  {
    var e := t.pending[id];
    var u := t.(lines := Marked(t.lines, id, status));
    if status == SUCCEEDED then
      var delivery := DeliveryOf(e, artifact);
      var v := u.(pending := u.pending - {id}, succeeded := u.succeeded + 1, counted := u.counted[id := delivery]);
      if delivery.Some? then
        v.(artifacts := v.artifacts[e.task := artifact.value], training := v.training - {e.task})
      else v
    else if status in FAILED then
      u.(pending := u.pending - {id}, training := u.training - {e.task},
         artifacts := if e.training then u.artifacts else u.artifacts - {e.task})
    else u
  }

  function Regoverned(t: Table, task: string): Table {
    if task in t.artifacts && task !in t.regoverned then
      t.(regoverned := t.regoverned + {task}, artifacts := t.artifacts - {task})
    else t
  }

  function PickedUp(lines: seq<Line>): map<nat, Entry> {
    if lines == [] then map[]
    else
      var l := lines[|lines| - 1];
      var m := PickedUp(lines[..|lines| - 1]);
      if l.status in LIVE then m[l.id := Entry(l.task, l.training)] else m
  }

  function Restored(s: Saved): Table {
    Table(PickedUp(s.lines), s.lines, s.artifacts, {}, {}, s.succeeded, s.counted)
  }

  predicate Ended(f: Fate) {
    f == Succeeded || f == Failed
  }

  /** The observer's account after a step other than a restart. */
  function Noted(fate: map<nat, Fate>, before: Table, after: Table, e: Event): map<nat, Fate> {
    match e
    case Submit(_, _, r) => if r.Some? && r.value.id in after.pending then fate[r.value.id := Open] else fate
    case Cycle(_, _, r) => if r.Some? && r.value.id in after.pending then fate[r.value.id := Open] else fate
    case Poll(id, status, _) =>
      if status == SUCCEEDED then fate[id := Succeeded] else if status in FAILED then fate[id := Failed] else fate
    case _ => fate
  }

  /** After a restart what is waited for is open, and what was open but is not waited for is lost. */
  function Reopened(fate: map<nat, Fate>, pending: map<nat, Entry>): map<nat, Fate> {
    map id | id in fate :: if id in pending then Open else if fate[id] == Open then Lost else fate[id]
  }

  predicate Enabled(s: State, e: Event) {
    match e
    case Submit(task, _, r) => task !in SUPERVISED && (r.Some? ==> r.value.id !in s.used)
    case Cycle(task, _, r) => task in SUPERVISED && (r.Some? ==> r.value.id !in s.used)
    case Regovern(task) => task in SUPERVISED || task == "offer_ranking"
    case Poll(id, _, _) => id in s.table.pending
    case _ => true
  }

  function Apply(s: State, e: Event): State
    requires Enabled(s, e)
  {
    match e
    case Submit(task, training, r) =>
      if r.None? then s
      else Took(s, Submitted(s.table, task, training, r.value), e).(used := s.used + {r.value.id})
    case Cycle(task, recent, r) =>
      Took(s, Cycled(s.table, task, recent, r), e).(used := if r.Some? then s.used + {r.value.id} else s.used)
    case Regovern(task) => s.(table := Regoverned(s.table, task))
    case Poll(id, status, artifact) => Took(s, Polled(s.table, id, status, artifact), e)
    case Persist => s.(saved := Saved(s.table.lines, s.table.artifacts, s.table.succeeded, s.table.counted))
    case Restart =>
      var t := Restored(s.saved);
      s.(table := t, fate := Reopened(s.fate, t.pending),
         again := s.again + set id | id in s.fate && id in t.pending && Ended(s.fate[id]))
  }

  function Took(s: State, table: Table, e: Event): State {
    s.(table := table, fate := Noted(s.fate, s.table, table, e))
  }

  function Step(s: State, e: Event): Option<State> {
    if Enabled(s, e) then Some(Apply(s, e)) else None
  }

  function Run(s: State, es: seq<Event>): Option<State> {
    After(Step, s, es)
  }

  class JobFeed {
    var pending: map<nat, Entry>
    var lines: seq<Line>
    var artifacts: map<string, string>
    var training: set<string>
    var regoverned: set<string>
    var succeeded: nat
    ghost var counted: map<nat, Delivery>

    ghost function Now(): Table
      reads this
    {
      Table(pending, lines, artifacts, training, regoverned, succeeded, counted)
    }

    /** From status.json. */
    constructor (saved: seq<Line>, artifacts: map<string, string>, succeeded: nat, ghost counted: map<nat, Delivery>)
      ensures Now() == Restored(Saved(saved, artifacts, succeeded, counted))
    {
      lines, this.artifacts, training, regoverned, this.succeeded := saved, artifacts, {}, {}, succeeded;
      var m: map<nat, Entry> := map[];
      for i := 0 to |saved|
        invariant m == PickedUp(saved[..i])
      {
        assert saved[..i + 1][..i] == saved[..i];
        if saved[i].status in LIVE { m := m[saved[i].id := Entry(saved[i].task, saved[i].training)]; }
      }
      assert saved[..|saved|] == saved;
      pending := m;
      this.counted := counted;
    }

    method SubmitMl(task: string, isTraining: bool, r: Receipt)
      modifies this`pending, this`lines
      ensures Now() == Submitted(old(Now()), task, isTraining, r)
    {
      if exists job | job in pending :: pending[job].task == task { return; }
      pending := pending[r.id := Entry(task, isTraining)];
      lines := [Line(r.id, task, isTraining, r.status)] + lines;
      if |lines| > 40 { lines := lines[..40]; }
    }

    /** The receipt is none when building the dataset, or submitting, fails. */
    method RunSupervised(task: string, recent: bool, receipt: Option<Receipt>)
      modifies this`pending, this`lines, this`training
      ensures Now() == Cycled(old(Now()), task, recent, receipt)
    {
      if task !in artifacts {
        if task in training { return; }
        training := training + {task};
        if receipt.Some? {
          SubmitMl(task, true, receipt.value);
        } else {
          training := training - {task};
        }
      } else if recent && receipt.Some? {
        SubmitMl(task, false, receipt.value);
      }
    }

    method RegovernTask(task: string)
      modifies this`artifacts, this`regoverned
      ensures Now() == Regoverned(old(Now()), task)
    {
      if task in artifacts && task !in regoverned {
        regoverned := regoverned + {task};
        artifacts := artifacts - {task};
      }
    }

    /** One job's turn in a poll. */
    method PollJob(id: nat, status: string, artifact: Option<string>)
      requires id in pending
      modifies this`pending, this`lines, this`artifacts, this`training, this`succeeded, this`counted
      ensures Now() == Polled(old(Now()), id, status, artifact)
    {
      var entry := pending[id];
      lines := Marked(lines, id, status);
      if status == SUCCEEDED {
        pending := pending - {id};
        succeeded := succeeded + 1;
        counted := counted[id := DeliveryOf(entry, artifact)];
        if entry.training && artifact.Some? {
          artifacts := artifacts[entry.task := artifact.value];
          training := training - {entry.task};
        }
      } else if status in FAILED {
        pending := pending - {id};
        training := training - {entry.task};
        if !entry.training { artifacts := artifacts - {entry.task}; }
      }
    }
  }
}
