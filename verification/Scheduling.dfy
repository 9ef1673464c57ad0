/** Scheduling maintenance runs: one unfinished task per key, and no coverage requirement
    is forgotten while a run is under way. */
module Scheduling {
  import opened Basics
  import opened Custody

  datatype Key = Key(project: Name, session: SessionId, model: Option<Name>, window: Option<nat>)

  /** A task ever created: finished when `done`, its callback delivered when `notified`. */
  datatype Task = Task(key: Key, requirement: Option<nat>, done: bool, notified: bool)

  /** `tasks` and `pending` are the two dictionaries; `runs` lists all tasks by number. */
  datatype State = State(tasks: map<Key, nat>, pending: map<Key, nat>, runs: seq<Task>)

  function Join(a: Option<nat>, b: Option<nat>): Option<nat> {
    if a.None? then b
    else if b.None? then a
    else if b.value > a.value then b else a
  }

  function Pending(s: State, key: Key): Option<nat> {
    if key in s.pending then Some(s.pending[key]) else None
  }

  predicate Active(s: State, key: Key) {
    key in s.tasks && s.tasks[key] < |s.runs| && !s.runs[s.tasks[key]].done
  }

  // ---------- Specification ----------

  function Scheduled(s: State, key: Key, required: Option<nat>, enabled: bool): State {
    if !enabled then s
    else if Active(s, key) then
      if required.Some? && (key !in s.pending || required.value > s.pending[key])
      then s.(pending := s.pending[key := required.value])
      else s
    else
      State(s.tasks[key := |s.runs|], s.pending - {key},
            s.runs + [Task(key, Join(required, Pending(s, key)), false, false)])
  }

  function Completed(s: State, id: nat): State {
    if id < |s.runs| && !s.runs[id].done then s.(runs := s.runs[id := s.runs[id].(done := true)]) else s
  }

  /** The callback's own bookkeeping, before any follow-up. */
  function Cleared(s: State, id: nat): State
    requires id < |s.runs|
  {
    var key := s.runs[id].key;
    State(if key in s.tasks && s.tasks[key] == id then s.tasks - {key} else s.tasks,
          s.pending - {key},
          s.runs[id := s.runs[id].(notified := true)])
  }

  function Finished(s: State, id: nat, enabled: bool): State {
    if id >= |s.runs| || !s.runs[id].done || s.runs[id].notified then s
    else
      var task := s.runs[id];
      var followUp := Pending(s, task.key);
      if followUp.Some? && (task.requirement.None? || followUp.value > task.requirement.value)
      then Scheduled(Cleared(s, id), task.key, followUp, enabled)
      else Cleared(s, id)
  }

  // ---------- The scheduler ----------

  class Scheduler {
    var tasks: map<Key, nat>
    var pending: map<Key, nat>
    var runs: seq<Task>

    ghost function Now(): State
      reads this
    {
      State(tasks, pending, runs)
    }

    constructor ()
      ensures Now() == State(map[], map[], [])
    {
      tasks, pending, runs := map[], map[], [];
    }

    method Schedule(key: Key, required: Option<nat>, enabled: bool)
      modifies this
      ensures Now() == Scheduled(old(Now()), key, required, enabled)
    {
      if !enabled { return; }
      if key in tasks && tasks[key] < |runs| && !runs[tasks[key]].done {
        if required.Some? {
          if key !in pending || required.value > pending[key] {
            pending := pending[key := required.value];
          }
        }
        return;
      }
      var waiting := if key in pending then Some(pending[key]) else None;
      pending := pending - {key};
      var requirement := Join(required, waiting);
      tasks := tasks[key := |runs|];
      runs := runs + [Task(key, requirement, false, false)];
    }

    /** The completion callback of one task. */
    method OnFinished(id: nat, enabled: bool)
      requires id < |runs| && runs[id].done && !runs[id].notified
      modifies this
      ensures Now() == Finished(old(Now()), id, enabled)
    {
      var task := runs[id];
      runs := runs[id := task.(notified := true)];
      if task.key in tasks && tasks[task.key] == id { tasks := tasks - {task.key}; }
      var followUp := if task.key in pending then Some(pending[task.key]) else None;
      pending := pending - {task.key};
      if followUp.Some? && (task.requirement.None? || followUp.value > task.requirement.value) {
        Schedule(task.key, followUp, enabled);
      }
    }
  }

  // ---------- Invariant ----------

  /** Each dictionary entry is a live task of its key, an unfinished task is the entry of
      its key, and a pending requirement has a task whose callback will take it up. */
  ghost predicate Sound(s: State) {
    && (forall k | k in s.tasks :: s.tasks[k] < |s.runs| && s.runs[s.tasks[k]].key == k && !s.runs[s.tasks[k]].notified)
    && (forall i | 0 <= i < |s.runs| && !s.runs[i].done :: s.runs[i].key in s.tasks && s.tasks[s.runs[i].key] == i)
    && (forall i | 0 <= i < |s.runs| && s.runs[i].notified :: s.runs[i].done)
    && (forall k | k in s.pending :: Carried(s, k))
  }

  ghost predicate Carried(s: State, k: Key) {
    exists i :: 0 <= i < |s.runs| && s.runs[i].key == k && !s.runs[i].notified
  }

  /** A requirement is met by a started run, or waits to be. */
  ghost predicate Covered(s: State, k: Key, required: nat) {
    || (k in s.pending && required <= s.pending[k])
    || Met(s, k, required)
  }

  ghost predicate Met(s: State, k: Key, required: nat) {
    exists i :: 0 <= i < |s.runs| && s.runs[i].key == k && s.runs[i].requirement.Some?
        && required <= s.runs[i].requirement.value
  }

  lemma ScheduledSound(s: State, key: Key, required: Option<nat>, enabled: bool)
    requires Sound(s)
    ensures Sound(Scheduled(s, key, required, enabled))
  {
    var t := Scheduled(s, key, required, enabled);
    forall k | k in t.pending ensures Carried(t, k) {
      if k in s.pending {
        assert Carried(s, k);
        var i :| 0 <= i < |s.runs| && s.runs[i].key == k && !s.runs[i].notified;
        assert t.runs[i] == s.runs[i];
      } else {
        assert t.runs[s.tasks[k]].key == k;
      }
    }
  }

  lemma CompletedSound(s: State, id: nat)
    requires Sound(s)
    ensures Sound(Completed(s, id))
  {
    var t := Completed(s, id);
    forall k | k in t.pending ensures Carried(t, k) {
      assert Carried(s, k);
      var i :| 0 <= i < |s.runs| && s.runs[i].key == k && !s.runs[i].notified;
      assert t.runs[i].key == k && !t.runs[i].notified;
    }
  }

  lemma ClearedSound(s: State, id: nat)
    requires Sound(s) && id < |s.runs| && s.runs[id].done
    ensures Sound(Cleared(s, id))
  {
    var t := Cleared(s, id);
    forall k | k in t.pending ensures Carried(t, k) {
      assert Carried(s, k);
      var i :| 0 <= i < |s.runs| && s.runs[i].key == k && !s.runs[i].notified;
      assert t.runs[i] == s.runs[i];
    }
  }

  lemma FinishedSound(s: State, id: nat, enabled: bool)
    requires Sound(s)
    ensures Sound(Finished(s, id, enabled))
  {
    hide Sound;
    if id < |s.runs| && s.runs[id].done && !s.runs[id].notified {
      ClearedSound(s, id);
      ScheduledSound(Cleared(s, id), s.runs[id].key, Pending(s, s.runs[id].key), enabled);
    }
  }

  // ---------- No requirement is lost ----------

  lemma MetStays(s: State, t: State, k: Key, required: nat)
    requires Met(s, k, required) && |s.runs| <= |t.runs|
    requires forall i | 0 <= i < |s.runs| ::
               t.runs[i].key == s.runs[i].key && t.runs[i].requirement == s.runs[i].requirement
    ensures Met(t, k, required)
  {
    var i :| 0 <= i < |s.runs| && s.runs[i].key == k && s.runs[i].requirement.Some?
        && required <= s.runs[i].requirement.value;
    assert t.runs[i].key == k;
  }

  /** Scheduling covers what it is asked for, and keeps what was covered. */
  lemma ScheduledCovers(s: State, key: Key, required: Option<nat>, k: Key, r: nat)
    requires Covered(s, k, r) || (k == key && required.Some? && r <= required.value)
    ensures Covered(Scheduled(s, key, required, true), k, r)
  {
    var t := Scheduled(s, key, required, true);
    if Met(s, k, r) {
      MetStays(s, t, k, r);
    } else if !Active(s, key) && k == key {
      assert t.runs[|s.runs|].key == k;
    }
  }

  lemma CompletedCovers(s: State, id: nat, k: Key, r: nat)
    requires Covered(s, k, r)
    ensures Covered(Completed(s, id), k, r)
  {
    if Met(s, k, r) { MetStays(s, Completed(s, id), k, r); }
  }

  /** The callback drops a pending requirement only when its own run already met it. */
  lemma FinishedCovers(s: State, id: nat, k: Key, r: nat)
    requires Covered(s, k, r)
    ensures Covered(Finished(s, id, true), k, r)
  {
    if id < |s.runs| && s.runs[id].done && !s.runs[id].notified {
      var c := Cleared(s, id);
      if Met(s, k, r) {
        MetStays(s, c, k, r);
        ScheduledCovers(c, s.runs[id].key, Pending(s, s.runs[id].key), k, r);
      } else if k == s.runs[id].key {
        if s.runs[id].requirement.None? || s.pending[k] > s.runs[id].requirement.value {
          ScheduledCovers(c, k, Some(s.pending[k]), k, r);
        }
      } else {
        ScheduledCovers(c, s.runs[id].key, Pending(s, s.runs[id].key), k, r);
      }
    }
  }

  /** Exactly when the callback keeps a pending requirement: the policy is still enabled,
      or some started run already meets it. */
  lemma FollowUpKeptIff(s: State, id: nat, enabled: bool)
    requires Sound(s) && id < |s.runs| && s.runs[id].done && !s.runs[id].notified
    requires s.runs[id].key in s.pending
    ensures var k := s.runs[id].key;
            Covered(Finished(s, id, enabled), k, s.pending[k]) <==> enabled || Met(s, k, s.pending[k])
  {
    var k := s.runs[id].key;
    var r := s.pending[k];
    if enabled {
      FinishedCovers(s, id, k, r);
    } else {
      MetSame(s, Cleared(s, id), k, r);
    }
  }

  lemma MetSame(s: State, t: State, k: Key, required: nat)
    requires |s.runs| == |t.runs|
    requires forall i | 0 <= i < |s.runs| ::
               t.runs[i].key == s.runs[i].key && t.runs[i].requirement == s.runs[i].requirement
    ensures Met(s, k, required) <==> Met(t, k, required)
  {
    if Met(s, k, required) { MetStays(s, t, k, required); }
    if Met(t, k, required) { MetStays(t, s, k, required); }
  }

  // ---------- Runs ----------

  datatype Event =
    | Observe(key: Key, required: Option<nat>, enabled: bool)
    | Complete(id: nat)
    | Notify(id: nat, enabled: bool)

  function Step(s: State, e: Event): State {
    match e
    case Observe(key, required, enabled) => Scheduled(s, key, required, enabled)
    case Complete(id) => Completed(s, id)
    case Notify(id, enabled) => Finished(s, id, enabled)
  }

  function After(events: seq<Event>): State {
    if events == [] then State(map[], map[], []) else Step(After(events[..|events| - 1]), events[|events| - 1])
  }

  lemma {:induction false} AlwaysSound(events: seq<Event>)
    ensures Sound(After(events))
  {
    hide Sound;
    if events == [] {
      EmptySound();
    } else {
      AlwaysSound(events[..|events| - 1]);
      StepSound(After(events[..|events| - 1]), events[|events| - 1]);
    }
  }

  lemma EmptySound()
    ensures Sound(State(map[], map[], []))
  {
  }

  /** At most one unfinished task per key, whatever was observed and in whatever order
      tasks ended and callbacks came. */
  lemma OneUnfinishedPerKey(events: seq<Event>, i: nat, j: nat)
    requires i < |After(events).runs| && j < |After(events).runs|
    requires !After(events).runs[i].done && !After(events).runs[j].done
    requires After(events).runs[i].key == After(events).runs[j].key
    ensures i == j
  {
    AlwaysSound(events);
  }

  ghost predicate Enabled(events: seq<Event>) {
    forall i | 0 <= i < |events| && !events[i].Complete? :: events[i].enabled
  }

  /** With the policy enabled, every requirement ever observed is, at any later time, at
      most the pending entry of its key or at most the requirement of a run started for
      that key. */
  lemma {:induction false} NothingLost(events: seq<Event>, i: nat)
    requires Enabled(events) && i < |events|
    requires events[i].Observe? && events[i].required.Some?
    ensures Covered(After(events), events[i].key, events[i].required.value)
  {
    var init, last := events[..|events| - 1], events[|events| - 1];
    var k, r := events[i].key, events[i].required.value;
    var s := After(init);
    if i < |init| {
      assert events[i] == init[i];
      assert Enabled(init) by {
        forall j | 0 <= j < |init| && !init[j].Complete? ensures init[j].enabled {
          assert init[j] == events[j];
        }
      }
      NothingLost(init, i);
      match last
      case Observe(key, required, _) => ScheduledCovers(s, key, required, k, r);
      case Complete(id) => CompletedCovers(s, id, k, r);
      case Notify(id, _) => FinishedCovers(s, id, k, r);
    } else {
      ScheduledCovers(s, k, events[i].required, k, r);
    }
  }

  /** Once every callback has been delivered nothing is pending, so every requirement
      observed was met by a run. */
  lemma QuietMeansMet(events: seq<Event>, i: nat)
    requires Enabled(events) && i < |events|
    requires events[i].Observe? && events[i].required.Some?
    requires forall j | 0 <= j < |After(events).runs| :: After(events).runs[j].notified
    ensures After(events).pending == map[]
    ensures Met(After(events), events[i].key, events[i].required.value)
  {
    AlwaysSound(events);
    NothingLost(events, i);
    var s := After(events);
    forall k ensures k !in s.pending { NobodyCarries(s, k); }
    assert s.pending.Keys == {};
  }

  lemma NobodyCarries(s: State, k: Key)
    requires Sound(s) && forall j | 0 <= j < |s.runs| :: s.runs[j].notified
    ensures k !in s.pending
  {
  }

  // ---------- No requirement is made up ----------

  ghost predicate Asked(events: seq<Event>, key: Key, required: nat) {
    exists i :: 0 <= i < |events| && events[i].Observe? && events[i].key == key && events[i].required == Some(required)
  }

  /** Every pending entry and every requirement of a run is one that was observed. */
  ghost predicate OnlyAsked(s: State, events: seq<Event>) {
    && (forall k | k in s.pending :: Asked(events, k, s.pending[k]))
    && (forall i | 0 <= i < |s.runs| && s.runs[i].requirement.Some? ::
          Asked(events, s.runs[i].key, s.runs[i].requirement.value))
  }

  lemma ScheduledAsked(s: State, key: Key, required: Option<nat>, enabled: bool, events: seq<Event>)
    requires OnlyAsked(s, events) && (required.Some? ==> Asked(events, key, required.value))
    ensures OnlyAsked(Scheduled(s, key, required, enabled), events)
  {
    hide Asked;
  }

  lemma ClearedAsked(s: State, id: nat, events: seq<Event>)
    requires OnlyAsked(s, events) && id < |s.runs|
    ensures OnlyAsked(Cleared(s, id), events)
  {
    hide Asked;
  }

  lemma AskedGrows(s: State, events: seq<Event>, e: Event)
    requires OnlyAsked(s, events)
    ensures OnlyAsked(s, events + [e])
  {
    forall k: Key, r: nat | Asked(events, k, r) ensures Asked(events + [e], k, r) {
      var i :| 0 <= i < |events| && events[i].Observe? && events[i].key == k && events[i].required == Some(r);
      assert (events + [e])[i] == events[i];
    }
  }

  /** Together with `NothingLost`: a run is never asked for more than was observed. */
  lemma {:induction false} NothingMadeUp(events: seq<Event>)
    ensures OnlyAsked(After(events), events)
  {
    if events != [] {
      var init, e := events[..|events| - 1], events[|events| - 1];
      var s := After(init);
      NothingMadeUp(init);
      AskedGrows(s, init, e);
      assert events == init + [e];
      hide OnlyAsked;
      match e
      case Observe(key, required, enabled) =>
        assert events[|events| - 1] == e;
        ScheduledAsked(s, key, required, enabled, events);
      case Complete(id) => CompletedAsked(s, id, events);
      case Notify(id, enabled) => FinishedAsked(s, id, enabled, events);
    }
  }

  lemma CompletedAsked(s: State, id: nat, events: seq<Event>)
    requires OnlyAsked(s, events)
    ensures OnlyAsked(Completed(s, id), events)
  {
    hide Asked;
  }

  lemma FinishedAsked(s: State, id: nat, enabled: bool, events: seq<Event>)
    requires OnlyAsked(s, events)
    ensures OnlyAsked(Finished(s, id, enabled), events)
  {
    if id < |s.runs| && s.runs[id].done && !s.runs[id].notified {
      ClearedAsked(s, id, events);
      ScheduledAsked(Cleared(s, id), s.runs[id].key, Pending(s, s.runs[id].key), enabled, events);
    }
  }

  /** An observation starts a run exactly when the policy is enabled and no run of its key is
      unfinished. The run gets the stronger of what is asked and what was pending. */
  lemma StartsExactlyWhen(s: State, key: Key, required: Option<nat>, enabled: bool)
    requires Sound(s)
    ensures var t := Scheduled(s, key, required, enabled);
            var idle := Idle(s, key);
            && |t.runs| == |s.runs| + (if enabled && idle then 1 else 0)
            && t.runs[..|s.runs|] == s.runs
            && (!enabled ==> t == s)
            && (enabled && idle ==>
                  var run := t.runs[|s.runs|];
                  && run.key == key && !run.done && !run.notified
                  && (required.Some? ==> run.requirement.Some? && run.requirement.value >= required.value)
                  && (key in s.pending ==> run.requirement.Some? && run.requirement.value >= s.pending[key])
                  && (run.requirement.None? || run.requirement == required
                      || (key in s.pending && run.requirement == Some(s.pending[key])))
                  && t.pending == s.pending - {key})
  {
    if key in s.tasks { assert s.runs[s.tasks[key]].key == key; }
  }

  /** A delivered callback starts a run exactly when a pending requirement is stronger than
      what its own run was for, the policy is enabled and no run of the key is unfinished;
      the run is for that requirement. */
  lemma FollowsUpExactlyWhen(s: State, id: nat, enabled: bool)
    requires Sound(s) && id < |s.runs| && s.runs[id].done && !s.runs[id].notified
    ensures var t, key := Finished(s, id, enabled), s.runs[id].key;
            var stronger := key in s.pending
                && (s.runs[id].requirement.None? || s.pending[key] > s.runs[id].requirement.value);
            var idle := Idle(s, key);
            && |t.runs| == |s.runs| + (if stronger && enabled && idle then 1 else 0)
            && t.runs[id] == s.runs[id].(notified := true)
            && (forall i | 0 <= i < |s.runs| && i != id :: t.runs[i] == s.runs[i])
            && (stronger && enabled && idle ==> t.runs[|s.runs|] == Task(key, Some(s.pending[key]), false, false))
            && t.pending == if stronger && enabled && !idle then s.pending else s.pending - {key}
  {
    var key, c := s.runs[id].key, Cleared(s, id);
    ClearedSound(s, id);
    ClearedFields(s, id);
    hide Sound, Scheduled, Cleared;
    assert Idle(c, key) == Idle(s, key);
    if key in s.pending {
      FollowUp(c, key, s.pending[key], enabled);
      assert c.pending[key := s.pending[key]] == s.pending;
    }
  }

  ghost predicate Idle(s: State, key: Key) {
    forall i | 0 <= i < |s.runs| && s.runs[i].key == key :: s.runs[i].done
  }

  lemma ClearedFields(s: State, id: nat)
    requires id < |s.runs|
    ensures var c := Cleared(s, id);
            && c.runs == s.runs[id := s.runs[id].(notified := true)]
            && c.pending == s.pending - {s.runs[id].key}
  {
  }

  lemma FollowUp(c: State, key: Key, required: nat, enabled: bool)
    requires Sound(c) && key !in c.pending
    ensures var t := Scheduled(c, key, Some(required), enabled);
            && t.runs == (if enabled && Idle(c, key) then c.runs + [Task(key, Some(required), false, false)]
               else c.runs)
            && t.pending == if enabled && !Idle(c, key) then c.pending[key := required] else c.pending
  {
    if key in c.tasks { assert c.runs[c.tasks[key]].key == key; }
    assert c.pending - {key} == c.pending;
  }

  // ---------- The follow-up chain ends ----------

  function Owed(runs: seq<Task>): nat {
    if runs == [] then 0
    else
      var last := runs[|runs| - 1];
      Owed(runs[..|runs| - 1]) + (if !last.done then 2 else if !last.notified then 1 else 0)
  }

  lemma {:induction false} OwedUpdate(runs: seq<Task>, id: nat, task: Task)
    requires id < |runs|
    requires !runs[id].done ==> task == runs[id].(done := true) && !task.notified
    requires runs[id].done ==> !runs[id].notified && task == runs[id].(notified := true)
    ensures Owed(runs[id := task]) == Owed(runs) - 1
  {
    var last := |runs| - 1;
    if id == last {
      assert runs[id := task][..last] == runs[..last];
    } else {
      OwedUpdate(runs[..last], id, task);
      assert runs[id := task][..last] == runs[..last][id := task];
    }
  }

  function Measure(s: State): nat {
    3 * |s.pending| + Owed(s.runs)
  }

  lemma PendingShrinks(m: map<Key, nat>, k: Key)
    ensures |m - {k}| == |m| - (if k in m then 1 else 0)
  {
    assert (m - {k}).Keys == m.Keys - {k};
    assert |m.Keys - {k}| == |m.Keys| - (if k in m.Keys then 1 else 0);
  }

  lemma PendingGrows(m: map<Key, nat>, k: Key, v: nat)
    ensures |m[k := v]| == |m| + (if k in m then 0 else 1)
  {
    assert m[k := v].Keys == m.Keys + {k};
  }

  /** Starting or recording a follow-up costs at most what the pending entry was worth. */
  lemma FollowUpPays(c: State, key: Key, required: nat, enabled: bool)
    requires key !in c.pending
    ensures Measure(Scheduled(c, key, Some(required), enabled)) <= Measure(c) + 3
  {
    PendingGrows(c.pending, key, required);
    PendingShrinks(c.pending, key);
    var task := Task(key, Join(Some(required), Pending(c, key)), false, false);
    assert (c.runs + [task])[..|c.runs|] == c.runs;
  }

  lemma ClearingPays(s: State, id: nat)
    requires id < |s.runs| && s.runs[id].done && !s.runs[id].notified
    ensures Measure(Cleared(s, id)) == Measure(s) - 1 - (if s.runs[id].key in s.pending then 3 else 0)
  {
    OwedUpdate(s.runs, id, s.runs[id].(notified := true));
    PendingShrinks(s.pending, s.runs[id].key);
  }

  lemma CompletingPays(s: State, id: nat)
    requires Sound(s) && id < |s.runs| && !s.runs[id].done
    ensures Measure(Completed(s, id)) == Measure(s) - 1
  {
    OwedUpdate(s.runs, id, s.runs[id].(done := true));
  }

  /** Without new observations every completion and every callback uses up the measure. */
  lemma StepPays(s: State, e: Event)
    requires Sound(s) && !e.Observe?
    ensures Step(s, e) == s || Measure(Step(s, e)) < Measure(s)
  {
    hide Sound, Measure, Cleared, Scheduled;
    match e
    case Complete(id) =>
      if id < |s.runs| && !s.runs[id].done { CompletingPays(s, id); }
    case Notify(id, enabled) =>
      if id < |s.runs| && s.runs[id].done && !s.runs[id].notified {
        var k := s.runs[id].key;
        ClearingPays(s, id);
        if k in s.pending {
          assert k !in Cleared(s, id).pending by { ClearedDrops(s, id); }
          FollowUpPays(Cleared(s, id), k, s.pending[k], enabled);
        }
      }
  }

  lemma ClearedDrops(s: State, id: nat)
    requires id < |s.runs|
    ensures s.runs[id].key !in Cleared(s, id).pending
  {
  }

  ghost function Effective(s: State, events: seq<Event>): nat
    decreases |events|
  {
    if events == [] then 0 else (if Step(s, events[0]) == s then 0 else 1) + Effective(Step(s, events[0]), events[1..])
  }

  /** Once observations stop, the follow-up chain ends: at most `Measure` further events
      have any effect, however completions and callbacks interleave. */
  lemma {:induction false} ChainEnds(s: State, events: seq<Event>)
    requires Sound(s) && forall i | 0 <= i < |events| :: !events[i].Observe?
    ensures Effective(s, events) <= Measure(s)
    decreases |events|
  {
    hide Sound, Measure, Step;
    if events != [] {
      StepPays(s, events[0]);
      StepSound(s, events[0]);
      ChainEnds(Step(s, events[0]), events[1..]);
    }
  }

  lemma StepSound(s: State, e: Event)
    requires Sound(s)
    ensures Sound(Step(s, e))
  {
    hide Sound;
    match e
    case Observe(key, required, enabled) => ScheduledSound(s, key, required, enabled);
    case Complete(id) => CompletedSound(s, id);
    case Notify(id, enabled) => FinishedSound(s, id, enabled);
  }

  /** A run that drops a requirement: it waits behind an unfinished run, the policy is
      switched off, and the callback pops it without starting anything. */
  lemma DisabledPolicyLoses(key: Key)
    ensures var events := [Observe(key, Some(1), true), Observe(key, Some(2), true), Complete(0), Notify(0, false)];
            && Covered(After(events[..3]), key, 2)
            && !Covered(After(events), key, 2)
            && After(events) == State(map[], map[], [Task(key, Some(1), true, true)])
  {
    var events := [Observe(key, Some(1), true), Observe(key, Some(2), true), Complete(0), Notify(0, false)];
    var first := Task(key, Some(1), false, false);
    assert events[..1][..0] == [] && events[..2][..1] == events[..1];
    assert events[..3][..2] == events[..2] && events[..4] == events;
    assert After(events[..1]) == State(map[key := 0], map[], [first]);
    assert After(events[..2]) == State(map[key := 0], map[key := 2], [first]);
    assert After(events[..3]) == State(map[key := 0], map[key := 2], [first.(done := true)]);
    assert After(events) == Finished(After(events[..3]), 0, false);
  }
}
