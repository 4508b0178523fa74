/** Drafts in a browser store that several forms may share under one key, each with its own owner, version and
    lifetime; times are milliseconds. */
module Drafts {
  import opened Wrappers
  import opened Text

  datatype Owner = Owner(tenant: string, workspace: string, user: string, resource: string)

  /** Missing parts of an owner are empty. */
  predicate SameOwner(a: Owner, b: Owner) {
    && Trim(a.tenant) == Trim(b.tenant) && Trim(a.workspace) == Trim(b.workspace)
    && Trim(a.user) == Trim(b.user) && Trim(a.resource) == Trim(b.resource)
  }

  datatype Draft = Draft(version: int, createdAt: int, updatedAt: int, expiresAt: Option<int>, owner: Owner,
                         value: string)

  /** What is stored under the key; `Junk` is anything that does not read as a draft. */
  datatype Slot = Absent | Junk | Held(draft: Draft)

  datatype Form = Form(version: int, owner: Owner, ttl: Option<int>, accepts: string -> bool)

  /** Whether a write fits the size limit, and whether the browser has room for it. */
  datatype Outcome = Stored | TooLarge | NoRoom

  datatype Event =
    | Read(form: Form, now: int)
    | Write(form: Form, now: int, value: string, outcome: Outcome)
    | Clear

  predicate Expired(expiresAt: Option<int>, now: int) {
    expiresAt.Some? && expiresAt.value <= now
  }

  /** A form of the draft's version erases it when it is another owner's or has expired. */
  predicate Erases(d: Draft, form: Form, now: int) {
    d.version == form.version && (!SameOwner(d.owner, form.owner) || Expired(d.expiresAt, now))
  }

  function Looked(slot: Slot, form: Form, now: int): Slot {
    if slot.Held? && Erases(slot.draft, form, now) then Absent else slot
  }

  function Seen(slot: Slot, form: Form, now: int): Option<Draft> {
    if slot.Held? && slot.draft.version == form.version && !Erases(slot.draft, form, now)
       && form.accepts(slot.draft.value)
    then Some(slot.draft) else None
  }

  function Composed(previous: Option<Draft>, form: Form, now: int, value: string): Draft {
    Draft(form.version, if previous.Some? then previous.value.createdAt else now, now,
          if form.ttl.Some? && form.ttl.value > 0 then Some(now + form.ttl.value) else None, form.owner, value)
  }

  function Apply(slot: Slot, e: Event): Slot {
    match e
    case Read(form, now) => Looked(slot, form, now)
    case Write(form, now, value, outcome) =>
      if outcome == Stored then Held(Composed(Seen(slot, form, now), form, now, value)) else Looked(slot, form, now)
    case Clear => Absent
  }

  function Run(slot: Slot, es: seq<Event>): Slot {
    if es == [] then slot else Apply(Run(slot, es[..|es| - 1]), es[|es| - 1])
  }

  class DraftStore {
    var slot: Slot

    constructor (slot: Slot)
      ensures this.slot == slot
    {
      this.slot := slot;
    }

    method ClearDraft()
      modifies this
      ensures slot == Apply(old(slot), Clear)
    {
      slot := Absent;
    }

    method ReadDraft(form: Form, now: int) returns (r: Option<Draft>)
      modifies this
      ensures slot == Apply(old(slot), Read(form, now)) && r == Seen(old(slot), form, now)
    {
      if !slot.Held? || slot.draft.version != form.version { return None; }
      var draft := slot.draft;
      if !SameOwner(draft.owner, form.owner) {
        ClearDraft();
        return None;
      }
      if draft.expiresAt.Some? && draft.expiresAt.value <= now {
        ClearDraft();
        return None;
      }
      if !form.accepts(draft.value) { return None; }
      return Some(draft);
    }

    /** False stands for the error a write ends with. */
    method WriteDraft(form: Form, now: int, value: string, outcome: Outcome) returns (ok: bool)
      modifies this
      ensures slot == Apply(old(slot), Write(form, now, value, outcome)) && (ok <==> outcome == Stored)
    {
      hide SameOwner, Erases, Looked, Seen;
      var previous := ReadDraft(form, now);
      var expiresAt := if form.ttl.Some? && form.ttl.value > 0 then Some(now + form.ttl.value) else None;
      var createdAt := if previous.Some? then previous.value.createdAt else now;
      var payload := Draft(form.version, createdAt, now, expiresAt, form.owner, value);
      if outcome != Stored { return false; }
      slot := Held(payload);
      return true;
    }
  }

  /** What a stored write leaves behind, but for its creation time. */
  ghost predicate Wrote(e: Event, d: Draft) {
    e.Write? && e.outcome == Stored && Composed(None, e.form, e.now, e.value) == d.(createdAt := e.now)
  }

  /** The event replaces or erases that draft. */
  predicate Disturbs(e: Event, d: Draft) {
    match e
    case Clear => true
    case Read(form, now) => Erases(d, form, now)
    case Write(form, now, _, outcome) => outcome == Stored || Erases(d, form, now)
  }

  /** The draft written at position i has been left alone since. */
  ghost predicate LastsFrom(es: seq<Event>, i: nat, d: Draft) {
    i < |es| && Wrote(es[i], d) && forall k | i < k < |es| :: !Disturbs(es[k], d)
  }

  lemma LastsOneMore(es: seq<Event>, e: Event, i: nat, d: Draft)
    requires i < |es|
    ensures LastsFrom(es + [e], i, d) <==> LastsFrom(es, i, d) && !Disturbs(e, d)
  {
    hide Wrote, Disturbs;
    var more := es + [e];
    assert forall k | 0 <= k < |es| :: more[k] == es[k];
    assert more[|es|] == e;
  }

  /** Equal but for the time they were created. */
  predicate Alike(a: Draft, b: Draft) {
    a == b.(createdAt := a.createdAt)
  }

  lemma AlikeDisturbed(a: Draft, b: Draft, e: Event)
    requires Alike(a, b)
    ensures Disturbs(e, a) == Disturbs(e, b)
  {
    hide SameOwner;
  }

  /** What one event does to a held draft. */
  lemma HeldAfter(slot: Slot, e: Event)
    requires slot.Held?
    ensures !Disturbs(e, slot.draft) ==> Apply(slot, e) == slot
    ensures !(e.Write? && e.outcome == Stored) && Apply(slot, e).Held? ==>
      Apply(slot, e) == slot && !Disturbs(e, slot.draft)
  {
    hide SameOwner;
  }

  lemma WrittenNow(slot: Slot, e: Event)
    requires e.Write? && e.outcome == Stored
    ensures Apply(slot, e).Held? && Wrote(e, Apply(slot, e).draft)
    ensures forall d | Wrote(e, d) :: Alike(Apply(slot, e).draft, d)
  {
    hide SameOwner;
  }

  /** What is held is what some undisturbed write left. */
  lemma {:induction false} HeldWasWritten(es: seq<Event>) returns (i: nat)
    requires Run(Absent, es).Held?
    ensures LastsFrom(es, i, Run(Absent, es).draft)
    decreases |es|
  {
    var init, e := es[..|es| - 1], es[|es| - 1];
    assert es == init + [e] && Run(Absent, es) == Apply(Run(Absent, init), e);
    hide Apply, Disturbs, Wrote, Run;
    var slot := Run(Absent, init);
    if e.Write? && e.outcome == Stored {
      i := |init|;
      WrittenNow(slot, e);
    } else {
      NeedsDraft(slot, e);
      HeldAfter(slot, e);
      i := HeldWasWritten(init);
      LastsOneMore(init, e, i, slot.draft);
    }
  }

  lemma NeedsDraft(slot: Slot, e: Event)
    requires !(e.Write? && e.outcome == Stored) && Apply(slot, e).Held?
    ensures slot.Held?
  {
    hide SameOwner;
  }

  /** What an undisturbed write left is held. */
  lemma {:induction false} LastingIsHeld(es: seq<Event>, i: nat, d: Draft)
    requires LastsFrom(es, i, d)
    ensures Run(Absent, es).Held? && Alike(Run(Absent, es).draft, d)
    decreases |es|
  {
    var init, e := es[..|es| - 1], es[|es| - 1];
    assert es == init + [e] && Run(Absent, es) == Apply(Run(Absent, init), e);
    hide Apply, Disturbs, Wrote, Run, Alike;
    if i == |init| {
      ByWrite(e, d);
      WrittenNow(Run(Absent, init), e);
    } else {
      LastsOneMore(init, e, i, d);
      LastingIsHeld(init, i, d);
      AlikeDisturbed(Run(Absent, init).draft, d, e);
      HeldAfter(Run(Absent, init), e);
    }
  }

  lemma ByWrite(e: Event, d: Draft)
    requires Wrote(e, d)
    ensures e.Write? && e.outcome == Stored
  {
  }

  /** What is held is what the last undisturbed write left, and only that. */
  lemma HeldExactly(es: seq<Event>, d: Draft)
    ensures Run(Absent, es) == Held(d) ==> exists i: nat :: LastsFrom(es, i, d)
    ensures (exists i: nat :: LastsFrom(es, i, d)) ==> Run(Absent, es).Held? && Alike(Run(Absent, es).draft, d)
  {
    hide LastsFrom, Run, Alike;
    if Run(Absent, es) == Held(d) {
      var i := HeldWasWritten(es);
    }
    if i: nat :| LastsFrom(es, i, d) {
      LastingIsHeld(es, i, d);
    }
  }

  /** A form may use a draft: its own owner's, of its version, unexpired and valid. */
  predicate Usable(d: Draft, form: Form, now: int) {
    d.version == form.version && SameOwner(d.owner, form.owner) && !Expired(d.expiresAt, now) && form.accepts(d.value)
  }

  /** Whichever forms share the key, a form reads a draft exactly when the last write was by its own owner and
      version and nothing has erased it since: no clearing, no visit of another owner, no expiry. It gets what that
      write stored. */
  lemma ReadsOwnLastWriteExactly(es: seq<Event>, form: Form, now: int)
    ensures Seen(Run(Absent, es), form, now).Some? <==>
      exists i: nat, d: Draft :: LastsFrom(es, i, d) && Usable(d, form, now)
    ensures Seen(Run(Absent, es), form, now).Some? ==>
      exists i: nat | i < |es| :: var r := Seen(Run(Absent, es), form, now).value;
        Wrote(es[i], r) && es[i].Write? && r.value == es[i].value && r.updatedAt == es[i].now
        && SameOwner(es[i].form.owner, form.owner)
  {
    hide SameOwner, LastsFrom, Run;
    var slot := Run(Absent, es);
    if Seen(slot, form, now).Some? {
      var i := HeldWasWritten(es);
      LastsWrote(es, i, slot.draft);
      assert LastsFrom(es, i, slot.draft) && Usable(slot.draft, form, now);
    }
    if i: nat, d: Draft :| LastsFrom(es, i, d) && Usable(d, form, now) {
      LastingIsHeld(es, i, d);
    }
  }

  lemma LastsWrote(es: seq<Event>, i: nat, d: Draft)
    requires LastsFrom(es, i, d)
    ensures i < |es| && Wrote(es[i], d) && es[i].Write? && d.value == es[i].value && d.updatedAt == es[i].now
    ensures d.owner == es[i].form.owner && d.version == es[i].form.version
  {
    hide Disturbs;
  }

  /** Every write finds a draft to go on with. */
  ghost predicate Continues(slot: Slot, es: seq<Event>) {
    es == [] ||
    var init, e := es[..|es| - 1], es[|es| - 1];
    (Continues(slot, init) && e != Clear &&
     match e
     case Write(form, now, _, _) => Seen(Run(slot, init), form, now).Some?
     case Read(form, now) => !(Run(slot, init).Held? && Erases(Run(slot, init).draft, form, now))
     case Clear => false)
  }

  /** Along a chain of such writes a draft keeps the time it was created. */
  lemma {:induction false} CreationTimeIsKept(d: Draft, es: seq<Event>)
    requires Continues(Held(d), es)
    ensures Run(Held(d), es).Held? && Run(Held(d), es).draft.createdAt == d.createdAt
    decreases |es|
  {
    hide SameOwner;
    if es != [] { CreationTimeIsKept(d, es[..|es| - 1]); }
  }

  /** Equal owners, part by part, blanks around them aside. */
  predicate OneOwner(a: Owner, b: Owner) {
    [Trim(a.tenant), Trim(a.workspace), Trim(a.user), Trim(a.resource)] ==
    [Trim(b.tenant), Trim(b.workspace), Trim(b.user), Trim(b.resource)]
  }

  /** What a write at position i stored is still valid at a time. */
  predicate Fresh(e: Event, now: int)
    requires e.Write?
  {
    e.form.ttl.Some? && e.form.ttl.value > 0 ==> now < e.now + e.form.ttl.value
  }

  /** A form may visit without erasing what e stored: it is of another version, or of the same owner and in time. */
  predicate Spares(e: Event, form: Form, now: int)
    requires e.Write?
  {
    form.version == e.form.version ==> OneOwner(e.form.owner, form.owner) && Fresh(e, now)
  }

  /** The write at position i is what a form reads after these events, told from the events alone. */
  ghost predicate Readable(es: seq<Event>, i: nat, form: Form, now: int) {
    && i < |es| && es[i].Write? && es[i].outcome == Stored
    && es[i].form.version == form.version && OneOwner(es[i].form.owner, form.owner)
    && Fresh(es[i], now) && form.accepts(es[i].value)
    && forall k | i < k < |es| :: Passes(es[i], es[k])
  }

  lemma OwnersAgree(a: Owner, b: Owner)
    ensures SameOwner(a, b) <==> OneOwner(a, b)
  {
    hide Trim;
    var p := [Trim(a.tenant), Trim(a.workspace), Trim(a.user), Trim(a.resource)];
    var q := [Trim(b.tenant), Trim(b.workspace), Trim(b.user), Trim(b.resource)];
    if p == q { assert p[0] == q[0] && p[1] == q[1] && p[2] == q[2] && p[3] == q[3]; }
  }

  lemma UsableWhenFresh(e: Event, d: Draft, form: Form, now: int)
    requires Wrote(e, d)
    ensures e.Write? && e.outcome == Stored
    ensures Usable(d, form, now) <==>
      e.form.version == form.version && OneOwner(e.form.owner, form.owner) && Fresh(e, now) && form.accepts(e.value)
    ensures Erases(d, form, now) <==> !Spares(e, form, now)
  {
    hide SameOwner, OneOwner;
    OwnersAgree(e.form.owner, form.owner);
  }

  predicate Passes(e: Event, later: Event)
    requires e.Write?
  {
    match later
    case Clear => false
    case Read(g, m) => Spares(e, g, m)
    case Write(g, m, _, outcome) => outcome != Stored && Spares(e, g, m)
  }

  lemma PassesUndisturbed(e: Event, d: Draft, later: Event)
    requires Wrote(e, d)
    ensures e.Write? && (Disturbs(later, d) <==> !Passes(e, later))
  {
    hide Erases, Spares, Usable, SameOwner, OneOwner;
    if later.Read? || later.Write? { UsableWhenFresh(e, d, later.form, later.now); }
  }

  lemma ReadableLasts(es: seq<Event>, i: nat, d: Draft, form: Form, now: int)
    requires i < |es| && Wrote(es[i], d)
    ensures Readable(es, i, form, now) <==> LastsFrom(es, i, d) && Usable(d, form, now)
  {
    hide Usable, Wrote, Spares, Erases, Fresh, OneOwner, Disturbs, Passes;
    UsableWhenFresh(es[i], d, form, now);
    forall k | i < k < |es| ensures Disturbs(es[k], d) <==> !Passes(es[i], es[k]) {
      PassesUndisturbed(es[i], d, es[k]);
    }
  }

  /** Told from the events alone: a form reads a draft exactly when some write of its own version and owner, still in
      time and acceptable, has been followed by no other stored write, no clearing, and no visit of its version by
      another owner or too late; it reads that write's value. */
  lemma ReadsExactly(es: seq<Event>, form: Form, now: int)
    ensures Seen(Run(Absent, es), form, now).Some? <==> exists i: nat :: Readable(es, i, form, now)
    ensures forall i: nat | Readable(es, i, form, now) ::
      && i < |es| && es[i].Write?
      && Seen(Run(Absent, es), form, now).Some? && Seen(Run(Absent, es), form, now).value.value == es[i].value
  {
    hide Run, Seen, Readable;
    if Seen(Run(Absent, es), form, now).Some? {
      var i := SeenWasWritten(es, form, now);
    }
    forall i: nat | Readable(es, i, form, now)
      ensures Seen(Run(Absent, es), form, now).Some?
      ensures i < |es| && es[i].Write? && Seen(Run(Absent, es), form, now).value.value == es[i].value
    {
      ReadsThatWrite(es, i, form, now);
    }
  }

  lemma SeenWasWritten(es: seq<Event>, form: Form, now: int) returns (i: nat)
    requires Seen(Run(Absent, es), form, now).Some?
    ensures Readable(es, i, form, now)
  {
    i := HeldWasWritten(es);
    var d := Run(Absent, es).draft;
    assert Usable(d, form, now) by { hide SameOwner; }
    hide Run, Seen, Usable, Wrote, Readable;
    LastsWroteIt(es, i, d);
    ReadableLasts(es, i, d, form, now);
  }

  lemma LastsWroteIt(es: seq<Event>, i: nat, d: Draft)
    requires LastsFrom(es, i, d)
    ensures i < |es| && Wrote(es[i], d)
  {
  }

  lemma WriteOf(es: seq<Event>, i: nat, form: Form, now: int) returns (d: Draft)
    requires Readable(es, i, form, now)
    ensures i < |es| && Wrote(es[i], d) && d.value == es[i].value
  {
    hide OneOwner, Fresh, Passes;
    d := Composed(None, es[i].form, es[i].now, es[i].value);
  }

  lemma SeenAlike(held: Draft, d: Draft, form: Form, now: int)
    requires Alike(held, d) && Usable(d, form, now)
    ensures Seen(Held(held), form, now) == Some(held) && held.value == d.value
  {
    hide SameOwner;
  }

  lemma ReadsThatWrite(es: seq<Event>, i: nat, form: Form, now: int)
    requires Readable(es, i, form, now)
    ensures i < |es| && es[i].Write?
    ensures Seen(Run(Absent, es), form, now).Some? && Seen(Run(Absent, es), form, now).value.value == es[i].value
  {
    var d := WriteOf(es, i, form, now);
    hide Run, Seen, Usable, LastsFrom, Readable, Alike;
    LastsWroteHere(es[i], d);
    ReadableLasts(es, i, d, form, now);
    LastingIsHeld(es, i, d);
    SeenAlike(Run(Absent, es).draft, d, form, now);
  }

  lemma LastsWroteHere(e: Event, d: Draft)
    requires Wrote(e, d)
    ensures e.Write?
  {
  }

  /** A stored write keeps the creation time of the draft it sees, and starts anew when it sees none. */
  lemma CreatedExactly(slot: Slot, form: Form, now: int, value: string)
    ensures var d := Apply(slot, Write(form, now, value, Stored)).draft;
      && d.updatedAt == now && d.value == value && d.version == form.version && d.owner == form.owner
      && d.createdAt == match Seen(slot, form, now) case Some(seen) => seen.createdAt case None => now
  {
    hide Seen;
  }
}
