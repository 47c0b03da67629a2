/** The mailbox between a remote desktop session and the pane that shows it. The session's threads
    note changes under a lock and wake the pane after they release it; the pane takes everything at
    once, and is woken again by the next change. */
module Mailbox {
  import opened Common

  /** What happened since the pane last looked. Texts and pictures are numbers here. */
  datatype Mail = Mail(
    status: Option<nat>, certificate: Option<nat>, pointer: Option<nat>, clipboard: Option<nat>,
    dirty: bool, unencrypted: bool, helperEnded: Option<nat>)

  const NO_MAIL := Mail(None, None, None, None, false, false, None)

  /** What the session says. */
  datatype Change =
    | Status(s: nat) | Certificate(c: nat) | Pointer(p: nat) | Clipboard(t: nat)
    | Dirty | Unencrypted | Ended(why: nat)

  function Note(m: Mail, c: Change): Mail {
    match c
    case Status(s) => m.(status := Some(s))
    case Certificate(c) => m.(certificate := Some(c))
    case Pointer(p) => m.(pointer := Some(p))
    case Clipboard(t) => m.(clipboard := Some(t))
    case Dirty => m.(dirty := true)
    case Unencrypted => m.(unencrypted := true)
    case Ended(why) => m.(helperEnded := Some(why))
  }

  type Waker = nat

  /** What the lock protects. */
  datatype Shared = Shared(mail: Mail, waker: Option<Waker>, notified: bool)

  /** A change is noted; the waker to call once the lock is released, if any. */
  function Notified(s: Shared, c: Change): (Shared, Option<Waker>) {
    var noted := s.(mail := Note(s.mail, c));
    if s.notified || s.waker == None then (noted, None) else (noted.(notified := true), s.waker)
  }

  function Attached(s: Shared, w: Waker): Shared {
    s.(waker := Some(w), notified := true)
  }

  function Taken(s: Shared): Shared {
    Shared(NO_MAIL, s.waker, false)
  }

  // ---- What the pane makes of it ------------------------------------------------------------

  /** The latest of each kind that was taken. */
  datatype Store = Store(
    status: Option<nat>, certificate: Option<nat>, pointer: Option<nat>, clipboard: Option<nat>,
    dirty: bool, unencrypted: bool, helperEnded: Option<nat>)

  const NOTHING_SEEN := Store(None, None, None, None, false, false, None)

  function Later(seen: Option<nat>, news: Option<nat>): Option<nat> {
    if news == None then seen else news
  }

  function Apply(s: Store, m: Mail): Store {
    Store(Later(s.status, m.status), Later(s.certificate, m.certificate), Later(s.pointer, m.pointer),
          Later(s.clipboard, m.clipboard), s.dirty || m.dirty, s.unencrypted || m.unencrypted,
          Later(s.helperEnded, m.helperEnded))
  }

  /** One change on its own. */
  function ApplyOne(s: Store, c: Change): Store {
    match c
    case Status(x) => s.(status := Some(x))
    case Certificate(x) => s.(certificate := Some(x))
    case Pointer(x) => s.(pointer := Some(x))
    case Clipboard(x) => s.(clipboard := Some(x))
    case Dirty => s.(dirty := true)
    case Unencrypted => s.(unencrypted := true)
    case Ended(x) => s.(helperEnded := Some(x))
  }

  /** Every change of a sequence, one by one. */
  function ApplyAll(s: Store, changes: seq<Change>): Store {
    if changes == [] then s
    else ApplyOne(ApplyAll(s, changes[..|changes| - 1]), changes[|changes| - 1])
  }

  /** The changes as they are noted in an empty mail. */
  function MailOf(changes: seq<Change>): Mail {
    if changes == [] then NO_MAIL
    else Note(MailOf(changes[..|changes| - 1]), changes[|changes| - 1])
  }

  /** Noting in the mail and then taking it is the same as taking it first. */
  lemma NotingIsLater(s: Store, m: Mail, c: Change)
    ensures Apply(s, Note(m, c)) == ApplyOne(Apply(s, m), c)
  {
  }

  /** Coalescing keeps meaning: one mail does what its changes do one by one. */
  lemma {:induction false} CoalescingKeepsMeaning(s: Store, changes: seq<Change>)
    ensures Apply(s, MailOf(changes)) == ApplyAll(s, changes)
  {
    if changes != [] {
      var before, c := changes[..|changes| - 1], changes[|changes| - 1];
      CoalescingKeepsMeaning(s, before);
      NotingIsLater(s, MailOf(before), c);
    }
  }

  lemma {:induction false} ApplyBoth(s: Store, a: seq<Change>, b: seq<Change>)
    ensures ApplyAll(s, a + b) == ApplyAll(ApplyAll(s, a), b)
  {
    if b == [] {
      assert a + b == a;
    } else {
      assert (a + b)[..|a + b| - 1] == a + b[..|b| - 1];
      ApplyBoth(s, a, b[..|b| - 1]);
    }
  }

  /** Where the frame was last said to have changed; -1 if never. */
  function LastDirty(changes: seq<Change>): (i: int)
    ensures -1 <= i < |changes|
  {
    if changes == [] then -1
    else if changes[|changes| - 1] == Dirty then |changes| - 1
    else LastDirty(changes[..|changes| - 1])
  }

  lemma LastDirtyMore(changes: seq<Change>, c: Change)
    ensures LastDirty(changes + [c]) == if c == Dirty then |changes| else LastDirty(changes)
  {
    assert (changes + [c])[..|changes|] == changes;
  }

  lemma {:induction false} MailIsDirty(changes: seq<Change>, from: nat)
    requires from <= |changes|
    ensures MailOf(changes[from..]).dirty <==> LastDirty(changes) >= from
  {
    if from < |changes| {
      var before := changes[..|changes| - 1];
      assert changes[from..][..|changes| - from - 1] == before[from..];
      MailIsDirty(before, from);
    }
  }

  // ---- Every interleaving -------------------------------------------------------------------

  /** A pane: what it was told so far and made of it, whether a repaint was asked for, and the frame
      it painted last. */
  datatype Pane = Pane(told: seq<Change>, store: Store, repaint: bool, painted: nat)

  const NEW_PANE := Pane([], NOTHING_SEEN, false, 0)

  /** The session's threads, the wakes on their way to panes, and the panes. */
  datatype System = System(
    shared: Shared,
    // Threads that noted a change, released the lock and are about to wake a pane.
    raising: multiset<Waker>,
    // Wakes in the GUI thread's queue, and those it is running that haven't taken yet.
    queued: multiset<Waker>,
    draining: multiset<Waker>,
    // Changes of the frame so far, threads that changed it and haven't noted that yet.
    frame: nat,
    writers: nat,
    panes: map<Waker, Pane>,
    // Panes that were closed, or went on to another connection.
    gone: set<Waker>,
    // Every change noted so far; for those taken, by which pane; and how many wakes `Notify` raised
    // since the last take.
    history: seq<Change>,
    got: seq<Waker>,
    raised: nat)

  const START := System(Shared(NO_MAIL, None, false), multiset{}, multiset{}, multiset{}, 0, 0,
                        map[], {}, [], [], 0)

  function PaneOf(s: System, w: Waker): Pane {
    if w in s.panes then s.panes[w] else NEW_PANE
  }

  /** The changes that wait. */
  function Waiting(s: System): seq<Change> {
    if |s.got| <= |s.history| then s.history[|s.got|..] else []
  }

  datatype Action =
    | WriteFrame | NoteFrame | NoteOther(change: Change) | Attach(w: Waker) | Leave(w: Waker)
    | Raise(w: Waker) | Deliver(w: Waker) | Take(w: Waker) | Paint(w: Waker)

  function ActionOf(c: Change): Action { if c == Dirty then NoteFrame else NoteOther(c) }

  predicate Enabled(s: System, a: Action) {
    match a
    case NoteFrame => s.writers > 0
    case NoteOther(c) => c != Dirty
    case Attach(w) => w !in s.gone
    case Leave(w) => w !in s.draining
    case Raise(w) => w in s.raising
    case Deliver(w) => w in s.queued
    case Take(w) => w in s.draining
    case Paint(w) => PaneOf(s, w).repaint
    case WriteFrame => true
  }

  function Noted(s: System, c: Change): System {
    var (shared, wake) := Notified(s.shared, c);
    var told := s.(shared := shared, history := s.history + [c]);
    if wake == None then told
    else told.(raising := s.raising + multiset{wake.value}, raised := s.raised + 1)
  }

  /** All that a new pane is told of the past: the session's latest status, and why it ended. */
  function Latest(s: Store): seq<Change> {
    (if s.status.Some? then [Status(s.status.value)] else []) +
    (if s.helperEnded.Some? then [Ended(s.helperEnded.value)] else [])
  }

  function Told(p: Pane, changes: seq<Change>, mail: Mail): Pane {
    Pane(p.told + changes, Apply(p.store, mail), p.repaint || mail.dirty, p.painted)
  }

  function Handed(p: Pane, history: seq<Change>): Pane {
    var latest := Latest(ApplyAll(NOTHING_SEEN, history));
    Told(p, latest, MailOf(latest))
  }

  /** The state after an action; one that can't happen changes nothing. */
  function Step(s: System, a: Action): System {
    if !Enabled(s, a) then s
    else match a
    case WriteFrame => s.(frame := s.frame + 1, writers := s.writers + 1)
    case NoteFrame => Noted(s.(writers := s.writers - 1), Dirty)
    case NoteOther(c) => Noted(s, c)
    case Attach(w) =>
      s.(shared := Attached(s.shared, w), raising := s.raising + multiset{w},
         panes := s.panes[w := Handed(PaneOf(s, w), s.history)])
    case Leave(w) => s.(queued := s.queued[w := 0], gone := s.gone + {w})
    case Raise(w) =>
      s.(raising := s.raising - multiset{w},
         queued := if w in s.gone then s.queued else s.queued + multiset{w})
    case Deliver(w) => s.(queued := s.queued - multiset{w}, draining := s.draining + multiset{w})
    case Take(w) =>
      s.(shared := Taken(s.shared), draining := s.draining - multiset{w},
         panes := s.panes[w := Told(PaneOf(s, w), Waiting(s), s.shared.mail)],
         got := s.got + seq(|Waiting(s)|, _ => w), raised := 0)
    case Paint(w) => s.(panes := s.panes[w := PaneOf(s, w).(repaint := false, painted := s.frame)])
  }

  /** The state after a run. */
  function Run(s: System, actions: seq<Action>): System {
    if actions == [] then s
    else Step(Run(s, actions[..|actions| - 1]), actions[|actions| - 1])
  }

  function After(actions: seq<Action>): System {
    Run(START, actions)
  }

  /** A wake for `w` is about to be raised, queued, or being drained. */
  predicate OnItsWay(s: System, w: Waker) {
    w in s.raising || w in s.queued || w in s.draining
  }

  /** The attached pane will take what waits: a wake is on its way to it, or it is no longer there. */
  predicate Served(s: System) {
    s.shared.waker.Some? && (OnItsWay(s, s.shared.waker.value) || s.shared.waker.value in s.gone)
  }

  /** A pane made of it what it was told; and if it took the last change of the frame and nothing
      more is coming, it painted that. */
  ghost predicate PaneIsGood(s: System, w: Waker) {
    var p, last := PaneOf(s, w), LastDirty(s.history);
    && p.store == ApplyAll(NOTHING_SEEN, p.told)
    && (0 <= last < |s.got| && s.got[last] == w && s.writers == 0 ==> p.repaint || p.painted == s.frame)
  }

  /** The mail is what waits, the attached pane is woken if there is any, and none that left is. */
  ghost predicate Kept(s: System) {
    && |s.got| <= |s.history|
    && s.shared.mail == MailOf(Waiting(s))
    && (s.shared.notified ==> Served(s))
    && (s.shared.mail != NO_MAIL && s.shared.waker.Some? ==> s.shared.notified)
    && s.raised <= (if s.shared.notified then 1 else 0)
    && (forall w :: w in s.gone ==> w !in s.queued && w !in s.draining)
  }

  ghost predicate Good(s: System) {
    forall w :: Kept(s) && PaneIsGood(s, w)
  }

  lemma NotingIsKept(s: System, c: Change)
    requires Kept(s) && (c == Dirty ==> s.writers > 0)
    ensures Kept(Step(s, ActionOf(c)))
  {
    var t := Step(s, ActionOf(c));
    assert Waiting(t)[..|Waiting(t)| - 1] == Waiting(s);
  }

  lemma StaysKept(s: System, a: Action)
    requires Kept(s)
    ensures Kept(Step(s, a))
  {
    match a
    case NoteFrame => if s.writers > 0 { NotingIsKept(s, Dirty); }
    case NoteOther(c) => if c != Dirty { NotingIsKept(s, c); }
    case Take(w) => if w in s.draining { TakingIsKept(s, w); }
    case Leave(w) => LeavingIsKept(s, w);
    case Raise(w) => RaisingIsKept(s, w);
    case Deliver(w) => DeliveringIsKept(s, w);
    case _ =>
  }

  lemma TakingIsKept(s: System, w: Waker)
    requires Kept(s) && w in s.draining
    ensures Kept(Step(s, Take(w)))
  {
    assert Waiting(Step(s, Take(w))) == [];
  }

  lemma LeavingIsKept(s: System, w: Waker)
    requires Kept(s)
    ensures Kept(Step(s, Leave(w)))
  {
  }

  lemma RaisingIsKept(s: System, w: Waker)
    requires Kept(s)
    ensures Kept(Step(s, Raise(w)))
  {
  }

  lemma DeliveringIsKept(s: System, w: Waker)
    requires Kept(s)
    ensures Kept(Step(s, Deliver(w)))
  {
  }

  lemma NotingIsNotTaking(s: System, c: Change, w: Waker)
    requires |s.got| <= |s.history| && PaneIsGood(s, w)
    ensures PaneIsGood(Step(s, ActionOf(c)), w)
  {
    LastDirtyMore(s.history, c);
  }

  lemma TakingIsTold(s: System, w: Waker)
    requires Kept(s) && PaneIsGood(s, w)
    ensures PaneIsGood(Step(s, Take(w)), w)
  {
    MailIsDirty(s.history, |s.got|);
    CoalescingKeepsMeaning(PaneOf(s, w).store, Waiting(s));
    ApplyBoth(NOTHING_SEEN, PaneOf(s, w).told, Waiting(s));
  }

  lemma HandingIsTold(s: System, w: Waker)
    requires PaneIsGood(s, w)
    ensures PaneIsGood(Step(s, Attach(w)), w)
  {
    var latest := Latest(ApplyAll(NOTHING_SEEN, s.history));
    CoalescingKeepsMeaning(PaneOf(s, w).store, latest);
    ApplyBoth(NOTHING_SEEN, PaneOf(s, w).told, latest);
  }

  lemma PaneStaysGood(s: System, a: Action, w: Waker)
    requires Kept(s) && PaneIsGood(s, w)
    ensures PaneIsGood(Step(s, a), w)
  {
    match a
    case NoteFrame => NotingIsNotTaking(s, Dirty, w);
    case NoteOther(c) => if c != Dirty { NotingIsNotTaking(s, c, w); }
    case Take(v) => if v == w { TakingIsTold(s, w); } else { OthersTaking(s, v, w); }
    case Attach(v) => if v == w { HandingIsTold(s, w); }
    case _ => ElsewhereIsGood(s, a, w);
  }

  lemma ElsewhereIsGood(s: System, a: Action, w: Waker)
    requires PaneIsGood(s, w) && !a.NoteFrame? && !a.NoteOther? && !a.Take? && !a.Attach?
    ensures PaneIsGood(Step(s, a), w)
  {
  }

  lemma OthersTaking(s: System, v: Waker, w: Waker)
    requires PaneIsGood(s, w) && v != w
    ensures PaneIsGood(Step(s, Take(v)), w)
  {
  }

  lemma StepIsGood(s: System, a: Action)
    requires Good(s)
    ensures Good(Step(s, a))
  {
    assert PaneIsGood(s, 0);
    StaysKept(s, a);
    forall w ensures PaneIsGood(Step(s, a), w) {
      PaneStaysGood(s, a, w);
    }
  }

  /** What every interleaving keeps. */
  lemma {:induction false} RunIsGood(s: System, actions: seq<Action>)
    requires Good(s)
    ensures Good(Run(s, actions))
  {
    if actions != [] {
      RunIsGood(s, actions[..|actions| - 1]);
      StepIsGood(Run(s, actions[..|actions| - 1]), actions[|actions| - 1]);
    }
  }

  lemma StartIsGood()
    ensures Good(START)
  {
    assert Waiting(START) == [];
    assert Kept(START);
  }

  lemma AlwaysGood(actions: seq<Action>)
    ensures Good(After(actions))
  {
    StartIsGood();
    RunIsGood(START, actions);
  }

  /** No wake-up is lost: while a change waits and the attached pane is there, a wake for it is on
      its way; and between two takes `Notify` raises one wake at most. */
  lemma NoLostWakeUp(actions: seq<Action>)
    ensures var s := After(actions);
            && (s.shared.mail != NO_MAIL && s.shared.waker.Some? ==> Served(s))
            && s.raised <= 1
  {
    AlwaysGood(actions);
    assert PaneIsGood(After(actions), 0);
  }

  // ---- What the attached pane misses --------------------------------------------------------

  /** A wake of another pane than `w` is still on its way, and that pane is there to be woken. */
  predicate Late(s: System, w: Waker, v: Waker) {
    v != w && v !in s.gone && OnItsWay(s, v)
  }

  ghost predicate NoneLate(s: System, w: Waker) {
    forall v :: !Late(s, w, v)
  }

  /** From `s` to `t` a pane other than `w` took a change. */
  ghost predicate Misses(s: System, t: System, w: Waker) {
    exists i :: |s.got| <= i < |t.got| && t.got[i] != w
  }

  predicate NoAttach(actions: seq<Action>) {
    forall i :: 0 <= i < |actions| ==> !actions[i].Attach?
  }

  /** What was taken from `s` to `t`. */
  function News(s: System, t: System): seq<Change> {
    if |s.got| <= |t.got| <= |t.history| then t.history[|s.got|..|t.got|] else []
  }

  /** What a step without an attach keeps: the past, who took what, and the pane that is attached. */
  ghost predicate GoesOn(s: System, t: System) {
    && s.got <= t.got && s.history <= t.history && |t.got| <= |t.history|
    && t.shared.waker == s.shared.waker
  }

  /** From `s` to `t` pane `w` was told every change that was taken, in order. */
  ghost predicate ToldAll(s: System, t: System, w: Waker) {
    !Misses(s, t, w) && PaneOf(t, w).told == PaneOf(s, w).told + News(s, t)
  }

  lemma StepGoesOn(s: System, a: Action)
    requires |s.got| <= |s.history| && !a.Attach?
    ensures GoesOn(s, Step(s, a))
  {
  }

  lemma {:induction false} RunGoesOn(s: System, actions: seq<Action>)
    requires Good(s) && NoAttach(actions)
    ensures GoesOn(s, Run(s, actions))
  {
    assert PaneIsGood(s, 0);
    if actions != [] {
      RunGoesOn(s, actions[..|actions| - 1]);
      StepGoesOn(Run(s, actions[..|actions| - 1]), actions[|actions| - 1]);
    }
  }

  /** If no other pane's wake is late, a step that attaches none makes none late, and whatever is
      taken in it the attached pane takes. */
  lemma NoneGetsLate(s: System, w: Waker, a: Action)
    requires Good(s) && s.shared.waker == Some(w) && !a.Attach? && NoneLate(s, w)
    ensures NoneLate(Step(s, a), w)
    ensures a.Take? && Enabled(s, a) ==> a.w == w
  {
    forall v | v != w ensures !Late(Step(s, a), w, v) {
      assert !Late(s, w, v);
      OnlyItsWakes(s, a, v);
    }
    assert PaneIsGood(s, 0);
    assert a.Take? ==> !Late(s, w, a.w);
  }

  /** Only the attached pane is sent a wake. */
  lemma OnlyItsWakes(s: System, a: Action, v: Waker)
    requires !a.Attach? && s.shared.waker != Some(v)
    ensures OnItsWay(Step(s, a), v) ==> OnItsWay(s, v)
    ensures v in s.gone ==> v in Step(s, a).gone
  {
  }

  lemma StepTellsAll(s: System, w: Waker, a: Action)
    requires |s.got| <= |s.history| && !a.Attach? && (a.Take? && Enabled(s, a) ==> a.w == w)
    ensures ToldAll(s, Step(s, a), w)
  {
  }

  lemma NewsAdds(s: System, t: System, u: System)
    requires GoesOn(s, t) && GoesOn(t, u)
    ensures News(s, u) == News(s, t) + News(t, u)
  {
    assert t.history == u.history[..|t.history|];
    assert u.history[|s.got|..|u.got|] == u.history[|s.got|..|t.got|] + u.history[|t.got|..|u.got|];
  }

  lemma ToldAllComposes(s: System, t: System, u: System, w: Waker)
    requires GoesOn(s, t) && GoesOn(t, u) && ToldAll(s, t, w) && ToldAll(t, u, w)
    ensures ToldAll(s, u, w)
  {
    NewsAdds(s, t, u);
    forall i | |s.got| <= i < |u.got| ensures u.got[i] == w {
      assert i < |t.got| ==> u.got[i] == t.got[i];
    }
  }

  /** If no other pane's wake is late, none will be, and the attached pane is told every change, in
      order. */
  lemma {:induction false} NothingIsMissed(s: System, w: Waker, actions: seq<Action>)
    requires Good(s) && s.shared.waker == Some(w) && NoAttach(actions) && NoneLate(s, w)
    ensures ToldAll(s, Run(s, actions), w) && NoneLate(Run(s, actions), w)
  {
    if actions == [] {
      assert PaneIsGood(s, 0);
      assert News(s, s) == [];
    } else {
      var before, a := actions[..|actions| - 1], actions[|actions| - 1];
      var t := Run(s, before);
      NothingIsMissed(s, w, before);
      RunIsGood(s, before);
      RunGoesOn(s, before);
      NextIsNotMissed(s, t, w, a);
    }
  }

  lemma NextIsNotMissed(s: System, t: System, w: Waker, a: Action)
    requires Good(t) && GoesOn(s, t) && t.shared.waker == Some(w) && !a.Attach? && NoneLate(t, w)
    requires ToldAll(s, t, w)
    ensures ToldAll(s, Step(t, a), w) && NoneLate(Step(t, a), w)
  {
    NoneGetsLate(t, w, a);
    StepGoesOn(t, a);
    StepTellsAll(t, w, a);
    ToldAllComposes(s, t, Step(t, a), w);
  }

  lemma RunOneMore(s: System, actions: seq<Action>, a: Action)
    ensures Run(s, actions + [a]) == Step(Run(s, actions), a)
  {
    assert (actions + [a])[..|actions|] == actions;
  }

  lemma RunsOne(s: System, a: Action)
    ensures Run(s, [a]) == Step(s, a)
  {
    assert [] + [a] == [a];
    RunOneMore(s, [], a);
  }

  /** Nothing changes but the wakes on their way. */
  ghost predicate OnlyWakes(s: System, t: System) {
    t == s.(raising := t.raising, queued := t.queued, draining := t.draining)
  }

  /** The late pane's wake arrives. */
  function Arrival(s: System, v: Waker): seq<Action> {
    if v in s.draining then []
    else if v in s.queued then [Deliver(v)]
    else [Raise(v)] + [Deliver(v)]
  }

  lemma Arrives(s: System, v: Waker)
    requires OnItsWay(s, v) && v !in s.gone
    ensures var t := Run(s, Arrival(s, v)); v in t.draining && OnlyWakes(s, t)
  {
    if v !in s.draining && v !in s.queued {
      RunOneMore(s, [Raise(v)], Deliver(v));
      RunsOne(s, Raise(v));
      RaisedArrives(s, v);
    } else if v !in s.draining {
      RunsOne(s, Deliver(v));
      QueuedArrives(s, v);
    }
  }

  lemma QueuedArrives(s: System, v: Waker)
    requires v in s.queued
    ensures var t := Step(s, Deliver(v)); v in t.draining && OnlyWakes(s, t)
  {
  }

  lemma RaisedArrives(s: System, v: Waker)
    requires v in s.raising && v !in s.gone
    ensures var t := Step(Step(s, Raise(v)), Deliver(v)); v in t.draining && OnlyWakes(s, t)
  {
    QueuedArrives(Step(s, Raise(v)), v);
  }

  /** It arrives, and takes a change that was just noted. */
  function Theft(s: System, v: Waker, c: Change): seq<Action> {
    Arrival(s, v) + [NoteOther(c)] + [Take(v)]
  }

  /** If another pane's wake is late, that pane can take a change the attached pane is never told. */
  lemma LateWakeTakes(s: System, w: Waker, v: Waker, c: Change)
    requires Good(s) && s.shared.waker == Some(w) && Late(s, w, v) && c != Dirty
    ensures var t := Run(s, Theft(s, v, c));
            && t.history == s.history + [c] && |t.got| == |t.history| && t.got[|s.history|] == v
            && PaneOf(t, w) == PaneOf(s, w) && t.shared.mail == NO_MAIL
  {
    var there := Arrival(s, v);
    Arrives(s, v);
    RunOneMore(s, there, NoteOther(c));
    RunOneMore(s, there + [NoteOther(c)], Take(v));
    NotesAndTakes(s, Run(s, there), v, c);
  }

  lemma NotesAndTakes(s: System, there: System, v: Waker, c: Change)
    requires Good(s) && v in there.draining && OnlyWakes(s, there) && c != Dirty
    ensures var t := Step(Step(there, NoteOther(c)), Take(v));
            && t.history == s.history + [c] && |t.got| == |t.history| && t.got[|s.history|] == v
            && t.shared.mail == NO_MAIL && forall w :: w != v ==> PaneOf(t, w) == PaneOf(s, w)
  {
    assert PaneIsGood(s, 0);
  }

  /** Exactly when the attached pane can miss a change before another pane attaches. */
  lemma CanMiss(s: System, w: Waker)
    requires Good(s) && s.shared.waker == Some(w)
    ensures (exists actions :: NoAttach(actions) && Misses(s, Run(s, actions), w)) <==> !NoneLate(s, w)
  {
    if NoneLate(s, w) {
      forall actions | NoAttach(actions) ensures !Misses(s, Run(s, actions), w) {
        NothingIsMissed(s, w, actions);
      }
    } else {
      var v :| Late(s, w, v);
      var c := Certificate(0);
      LateWakeTakes(s, w, v, c);
      assert PaneIsGood(s, 0);
      assert NoAttach(Theft(s, v, c)) && Run(s, Theft(s, v, c)).got[|s.history|] != w;
    }
  }

  /** Once no wake is on its way to the attached pane, and no other pane's was late when it attached,
      it knows of every change since, and painted the last frame. */
  lemma QuietMeansTaken(s: System, w: Waker, actions: seq<Action>)
    requires Good(s) && s.shared.waker == Some(w) && NoAttach(actions) && NoneLate(s, w)
    requires !Served(Run(s, actions))
    ensures var t := Run(s, actions);
            && GoesOn(s, t) && |t.got| == |t.history|
            && PaneOf(t, w).store == ApplyAll(PaneOf(s, w).store, t.history[|s.got|..])
            && (LastDirty(t.history) >= |s.got| && t.writers == 0 && !PaneOf(t, w).repaint ==>
                PaneOf(t, w).painted == t.frame)
  {
    NothingIsMissed(s, w, actions);
    RunIsGood(s, actions);
    RunGoesOn(s, actions);
    KnowsAll(s, Run(s, actions), w);
  }

  lemma KnowsAll(s: System, t: System, w: Waker)
    requires Good(s) && Good(t) && GoesOn(s, t) && ToldAll(s, t, w)
    requires t.shared.waker == Some(w) && !Served(t)
    ensures |t.got| == |t.history|
    ensures PaneOf(t, w).store == ApplyAll(PaneOf(s, w).store, t.history[|s.got|..])
    ensures LastDirty(t.history) >= |s.got| && t.writers == 0 && !PaneOf(t, w).repaint ==>
            PaneOf(t, w).painted == t.frame
  {
    assert PaneIsGood(s, w) && PaneIsGood(t, w);
    NothingWaits(t);
    assert t.history[|s.got|..] == News(s, t);
    ApplyBoth(NOTHING_SEEN, PaneOf(s, w).told, News(s, t));
  }

  /** Without a wake on its way to the attached pane, everything was taken. */
  lemma NothingWaits(s: System)
    requires Kept(s) && s.shared.waker.Some? && !Served(s)
    ensures |s.got| == |s.history|
  {
  }

  /** What a store and changes amount to, kind by kind. */
  lemma LaterWins(s: Store, changes: seq<Change>)
    ensures var all, news := ApplyAll(s, changes), MailOf(changes);
            all.status == Later(s.status, news.status) && all.helperEnded == Later(s.helperEnded, news.helperEnded)
  {
    CoalescingKeepsMeaning(s, changes);
  }

  lemma MailOfOneMore(changes: seq<Change>, c: Change)
    ensures MailOf(changes + [c]) == Note(MailOf(changes), c)
  {
    assert (changes + [c])[..|changes|] == changes;
  }

  lemma LatestSays(all: Store)
    ensures var m := MailOf(Latest(all)); m.status == all.status && m.helperEnded == all.helperEnded
  {
    var status := if all.status.Some? then [Status(all.status.value)] else [];
    if all.status.Some? {
      assert [] + status == status;
      MailOfOneMore([], Status(all.status.value));
    }
    if all.helperEnded.Some? {
      MailOfOneMore(status, Ended(all.helperEnded.value));
    } else {
      assert Latest(all) == status;
    }
  }

  lemma NewPane(s: System, w: Waker)
    requires Good(s) && w !in s.gone && w !in s.panes && NoneLate(s, w)
    ensures var from, all := Step(s, Attach(w)), ApplyAll(NOTHING_SEEN, s.history);
            && Good(from) && NoneLate(from, w) && from.shared.waker == Some(w)
            && from.history == s.history && from.got == s.got && |s.got| <= |s.history|
            && PaneOf(from, w).store.status == all.status
            && PaneOf(from, w).store.helperEnded == all.helperEnded
  {
    var from := Step(s, Attach(w));
    assert PaneIsGood(s, 0);
    StepIsGood(s, Attach(w));
    forall v ensures !Late(from, w, v) {
      assert !Late(s, w, v);
    }
    LatestSays(ApplyAll(NOTHING_SEEN, s.history));
  }

  /** A new pane, with no wake of another late, knows the session's latest status and why it ended,
      though it was told of the past by the session and not by the pane before it. */
  lemma LatestIsKnown(s: System, w: Waker, actions: seq<Action>)
    requires Good(s) && w !in s.gone && w !in s.panes && NoAttach(actions)
    requires NoneLate(s, w) && !Served(Run(Step(s, Attach(w)), actions))
    ensures var t := Run(Step(s, Attach(w)), actions);
            var known, all := PaneOf(t, w).store, ApplyAll(NOTHING_SEEN, t.history);
            known.status == all.status && known.helperEnded == all.helperEnded
  {
    var from := Step(s, Attach(w));
    NewPane(s, w);
    QuietMeansTaken(from, w, actions);
    LatestAgrees(s.history, |s.got|, Run(from, actions).history, PaneOf(from, w).store);
  }

  /** Of changes applied again, the latest is the same. */
  lemma LatestAgrees(past: seq<Change>, from: nat, all: seq<Change>, seen: Store)
    requires from <= |past| && past <= all
    requires var p := ApplyAll(NOTHING_SEEN, past); seen.status == p.status && seen.helperEnded == p.helperEnded
    ensures var known, whole := ApplyAll(seen, all[from..]), ApplyAll(NOTHING_SEEN, all);
            known.status == whole.status && known.helperEnded == whole.helperEnded
  {
    var a, b, c := past[..from], past[from..], all[|past|..];
    var upTo := ApplyAll(NOTHING_SEEN, a);
    assert past == a + b && all == past + c && all[from..] == b + c;
    ApplyBoth(NOTHING_SEEN, a, b);
    ApplyBoth(NOTHING_SEEN, past, c);
    ApplyBoth(seen, b, c);
    LaterWins(upTo, b);
    LaterWins(seen, b);
    LaterWins(ApplyAll(seen, b), c);
    LaterWins(ApplyAll(upTo, b), c);
  }

  // ---- The critical sections ----------------------------------------------------------------

  lemma NotingWakes(s: System, c: Change)
    requires Good(s) && (c == Dirty ==> s.writers > 0)
    ensures var after, (shared, wake) := Step(s, ActionOf(c)), Notified(s.shared, c);
            && Good(after) && after.shared == shared
            && (shared.waker.Some? ==> Served(after))
            && (wake.Some? ==> wake == shared.waker && wake.value in after.raising && after.raised == 1)
  {
    StepIsGood(s, ActionOf(c));
    assert PaneIsGood(s, 0) && PaneIsGood(Step(s, ActionOf(c)), 0);
  }

  /** The lock's sections as the program has them. Each is one action of the interleaved system,
      which `system` follows; what a section returns is called after the lock is released. */
  class Connection {
    var state: Shared
    ghost var system: System

    ghost predicate Valid()
      reads this
    {
      system.shared == state && Good(system)
    }

    constructor ()
      ensures Valid() && system == START
    {
      StartIsGood();
      state := Shared(NO_MAIL, None, false);
      system := START;
    }

    /** Notes a change (of the frame, if a thread just changed it). If a pane is attached, a wake is
        on its way to it then; a second one is only raised after a take. */
    method Notify(change: Change) returns (wake: Option<Waker>)
      requires Valid() && (change == Dirty ==> system.writers > 0)
      modifies this
      ensures Valid() && system == Step(old(system), ActionOf(change))
      ensures wake.Some? ==> wake == state.waker && wake.value in system.raising && system.raised == 1
      ensures state.waker == old(state).waker
      ensures state.waker.Some? ==> Served(system)
    {
      NotingWakes(system, change);
      system := Step(system, ActionOf(change));
      state := state.(mail := Note(state.mail, change));
      wake := None;
      if state.notified {
        return;
      }
      match state.waker
      case None =>
      case Some(w) =>
        state := state.(notified := true);
        wake := Some(w);
    }

    /** A pane attaches: what waits is kept for it, and a wake is about to be raised for it. */
    method Attach(w: Waker) returns (wake: Waker)
      requires Valid() && w !in system.gone
      modifies this
      ensures Valid() && system == Step(old(system), Action.Attach(w))
      ensures state.waker == Some(w) && state.mail == old(state).mail
      ensures wake == w && w in system.raising && OnItsWay(system, w)
    {
      StepIsGood(system, Action.Attach(w));
      system := Step(system, Action.Attach(w));
      state := state.(waker := Some(w), notified := true);
      wake := w;
    }

    /** A pane that was woken takes everything that waits, attached or not: it then knows of these
        changes what it would know from each on its own, nothing waits, and the next change wakes the
        attached pane again. */
    method Take(ghost w: Waker) returns (mail: Mail)
      requires Valid() && w in system.draining
      modifies this
      ensures Valid() && system == Step(old(system), Action.Take(w))
      ensures mail == old(state).mail
      ensures PaneOf(system, w).store == ApplyAll(PaneOf(old(system), w).store, Waiting(old(system)))
      ensures |system.got| == |system.history| && forall v :: v != w ==> PaneOf(system, v) == PaneOf(old(system), v)
      ensures state.mail == NO_MAIL && state.waker == old(state).waker && !state.notified
    {
      StepIsGood(system, Action.Take(w));
      assert PaneIsGood(system, w);
      CoalescingKeepsMeaning(PaneOf(system, w).store, Waiting(system));
      system := Step(system, Action.Take(w));
      mail := state.mail;
      var waker := state.waker;
      state := Shared(NO_MAIL, None, false);
      state := state.(waker := waker);
    }

    /** A step that doesn't hold the lock: the frame changes, a wake is raised or delivered, or a pane
        paints or leaves. */
    ghost method Elsewhere(a: Action)
      requires Valid() && Enabled(system, a) && (a.WriteFrame? || a.Raise? || a.Deliver? || a.Paint? || a.Leave?)
      modifies this
      ensures Valid() && system == Step(old(system), a) && state == old(state)
    {
      StepIsGood(system, a);
      system := Step(system, a);
    }
  }
}
