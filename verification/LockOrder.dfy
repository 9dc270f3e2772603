/** The serial order against the order in which the locks were taken, and against real time. */
module LockOrder {
  import opened Config
  import opened TableModel
  import opened Serial
  import opened Locking
  import opened LockingInvariant
  import opened Serializability

  /** single_global_lock and called_destroy_mutex. */
  datatype Lock = G | D

  function Owner(s: State, lock: Lock): Option<nat> { if lock.G? then s.g else s.d }

  /** Events that happen under the lock: calls on files under G; opens, closes and both parts of a destroy under D. */
  predicate Under(lock: Lock, e: Event) { if lock.G? then e.Did? else !e.Did? || NeedsD(e.op) }

  function EventsUnder(lock: Lock, log: seq<Event>): seq<Event>
    decreases |log|
  {
    if log == [] then []
    else EventsUnder(lock, log[..|log| - 1]) + if Under(lock, log[|log| - 1]) then [log[|log| - 1]] else []
  }

  /** From one acquisition of a lock to its release: who took it, in which call, and what it did. */
  datatype Section = Section(tid: nat, call: Call, events: seq<Event>)

  /** What one step does to the sections of a lock: it takes the lock, or acts under it, or neither. */
  function Extended(lock: Lock, s: State, a: Action, r: State, sections: seq<Section>): seq<Section>
    requires Sound(s)
  {
    if Owner(s, lock).None? && Owner(r, lock).Some? && Owner(r, lock).value < |r.threads| then
      sections + [Section(Owner(r, lock).value, r.threads[Owner(r, lock).value].call, [])]
    else if Emitted(s, a) != [] && Under(lock, Emitted(s, a)[0]) && sections != [] then
      var last := sections[|sections| - 1];
      sections[|sections| - 1 := last.(events := last.events + [Emitted(s, a)[0]])]
    else sections
  }

  /** The sections of a lock, in the order in which it was taken during the run. */
  function Sections(lock: Lock, s: State, actions: seq<Action>): seq<Section>
    requires Sound(s) && Execute(s, actions).Some?
    decreases |actions|
  {
    if actions == [] then []
    else
      var front, a := actions[..|actions| - 1], actions[|actions| - 1];
      Extended(lock, Execute(s, front).value, a, Execute(s, actions).value, Sections(lock, s, front))
  }

  function Flat(sections: seq<Section>): seq<Event>
    decreases |sections|
  {
    if sections == [] then [] else Flat(sections[..|sections| - 1]) + sections[|sections| - 1].events
  }

  predicate JustMarked(events: seq<Event>) { |events| == 1 && events[0].Marked? }

  /** The second part of a destroy, with or without the first. */
  predicate Done(events: seq<Event>) {
    && 1 <= |events| <= 2 && events[|events| - 1].Finished?
    && (|events| == 2 ==> events[0].Marked?)
  }

  /** A section of a call holds that call and nothing else. One of a destroyer holds its first part, its second, or
      both; or nothing, if it woke up and went back to sleep. */
  predicate Whole(c: Section) {
    match c.call
    case Do(op) => |c.events| == 1 && c.events[0].Did? && c.events[0].op == op
    case Destroy => c.events == [] || JustMarked(c.events) || Done(c.events)
  }

  /** The last section while its thread still owns the lock. */
  predicate Open(c: Section, th: Thread) {
    match c.call
    case Do(op) => if Settled(th) then Whole(c) else c.events == []
    case Destroy =>
      match th.pc
      case Mark => c.events == []
      case Test => c.events == [] || JustMarked(c.events)
      case _ => Done(c.events)
  }

  predicate OwnEvents(c: Section) { forall j :: 0 <= j < |c.events| ==> c.events[j].tid == c.tid }

  ghost predicate SectionsOk(lock: Lock, s: State, sections: seq<Section>) {
    && Flat(sections) == EventsUnder(lock, s.log)
    && (forall k :: 0 <= k < |sections| ==> OwnEvents(sections[k]) && (lock.G? ==> sections[k].call.Do?))
    && (forall k :: 0 <= k < |sections| - 1 ==> Whole(sections[k]))
    && match Owner(s, lock)
       case None => sections != [] ==> Whole(sections[|sections| - 1])
       case Some(t) =>
         && t < |s.threads| && sections != []
         && var last := sections[|sections| - 1];
         last.tid == t && last.call == s.threads[t].call && Open(last, s.threads[t])
  }

  // ----- One step -----

  lemma FlatPush(sections: seq<Section>, c: Section)
    ensures Flat(sections + [c]) == Flat(sections) + c.events
  {
    assert (sections + [c])[..|sections|] == sections;
  }

  lemma FlatGrow(sections: seq<Section>, e: Event)
    requires sections != []
    ensures var last := sections[|sections| - 1];
            Flat(sections[|sections| - 1 := last.(events := last.events + [e])]) == Flat(sections) + [e]
  {
    var last := sections[|sections| - 1];
    var r := sections[|sections| - 1 := last.(events := last.events + [e])];
    assert r[..|r| - 1] == sections[..|sections| - 1];
  }

  lemma {:induction false} EventsUnderPush(lock: Lock, log: seq<Event>, emitted: seq<Event>)
    requires |emitted| <= 1
    ensures EventsUnder(lock, log + emitted) ==
              EventsUnder(lock, log) + if emitted != [] && Under(lock, emitted[0]) then emitted else []
  {
    if emitted == [] {
      assert log + emitted == log;
    } else {
      assert (log + emitted)[..|log|] == log;
    }
  }

  /** What one action does to the owner of a lock, and to the owner's thread. */
  predicate Takes(lock: Lock, s: State, a: Action, r: State) {
    && Owner(s, lock).None? && Owner(r, lock) == Some(a.tid) && a.tid < |r.threads|
  }

  predicate Drops(lock: Lock, s: State, a: Action, r: State) { Owner(s, lock) == Some(a.tid) && Owner(r, lock).None? }

  lemma OwnerMoves(lock: Lock, s: State, a: Action)
    requires Base(s) && Step(s, a).Some?
    ensures var r := Step(s, a).value;
            Owner(r, lock) == Owner(s, lock) || Takes(lock, s, a, r) || Drops(lock, s, a, r)
  {
  }

  /** Taking the lock: a call has not happened yet, a destroyer is about to mark or to test. */
  lemma TakerOpens(lock: Lock, s: State, a: Action)
    requires Base(s) && Step(s, a).Some? && Takes(lock, s, a, Step(s, a).value)
    ensures var r := Step(s, a).value;
            && Emitted(s, a) == [] && (lock.G? ==> r.threads[a.tid].call.Do?)
            && Open(Section(a.tid, r.threads[a.tid].call, []), r.threads[a.tid])
  {
  }

  /** Letting it go: whatever the section lacked has happened. */
  lemma DropperWhole(lock: Lock, s: State, a: Action, c: Section)
    requires Base(s) && Step(s, a).Some? && Drops(lock, s, a, Step(s, a).value) && a.tid < |s.threads|
    requires c.tid == a.tid && c.call == s.threads[a.tid].call && Open(c, s.threads[a.tid])
    ensures Emitted(s, a) == [] && Whole(c)
  {
  }

  /** A step that leaves the owner of the lock alone: it is not the owner's and nothing happens under the lock, or the
      owner's section grows by what it emits under it. */
  lemma OwnerActs(lock: Lock, s: State, a: Action, c: Section)
    requires Base(s) && Step(s, a).Some? && Owner(Step(s, a).value, lock) == Owner(s, lock) == Some(a.tid)
    requires a.tid < |s.threads| && c.tid == a.tid && c.call == s.threads[a.tid].call && Open(c, s.threads[a.tid])
    ensures var r, e := Step(s, a).value, Emitted(s, a);
            && |e| <= 1 && (e != [] ==> Under(lock, e[0]) && e[0].tid == a.tid)
            && r.threads[a.tid].call == c.call && Open(c.(events := c.events + e), r.threads[a.tid])
  {
  }

  lemma OthersAct(lock: Lock, s: State, a: Action)
    requires Base(s) && Step(s, a).Some? && Owner(Step(s, a).value, lock) == Owner(s, lock) != Some(a.tid)
    ensures var r, e := Step(s, a).value, Emitted(s, a);
            && |e| <= 1 && (e != [] ==> !Under(lock, e[0]))
            && forall t :: 0 <= t < |s.threads| && Owner(s, lock) == Some(t) ==>
                 r.threads[t].call == s.threads[t].call && (r.threads[t].pc == s.threads[t].pc)
  {
  }

  lemma EmittedUnder(s: State, a: Action)
    requires Base(s) && Step(s, a).Some?
    ensures Step(s, a).value.log == s.log + Emitted(s, a) && |Emitted(s, a)| <= 1
  {
    StepSimulates(s, a);
  }

  /** A new section begins; nothing else about the sections depends on the state. */
  lemma PushKeepsSections(lock: Lock, s: State, r: State, t: nat, sections: seq<Section>)
    requires SectionsOk(lock, s, sections) && Owner(s, lock).None? && Owner(r, lock) == Some(t) && t < |r.threads|
    requires r.log == s.log && (lock.G? ==> r.threads[t].call.Do?)
    requires Open(Section(t, r.threads[t].call, []), r.threads[t])
    ensures SectionsOk(lock, r, sections + [Section(t, r.threads[t].call, [])])
  {
    FlatPush(sections, Section(t, r.threads[t].call, []));
  }

  lemma TakeKeepsSections(lock: Lock, s: State, a: Action, sections: seq<Section>)
    requires Base(s) && Step(s, a).Some? && SectionsOk(lock, s, sections) && Takes(lock, s, a, Step(s, a).value)
    ensures SectionsOk(lock, Step(s, a).value, Extended(lock, s, a, Step(s, a).value, sections))
  {
    EmittedUnder(s, a);
    TakerOpens(lock, s, a);
    assert s.log + [] == s.log;
    PushKeepsSections(lock, s, Step(s, a).value, a.tid, sections);
  }

  lemma DropKeepsSections(lock: Lock, s: State, a: Action, sections: seq<Section>)
    requires Base(s) && Step(s, a).Some? && SectionsOk(lock, s, sections) && Drops(lock, s, a, Step(s, a).value)
    ensures SectionsOk(lock, Step(s, a).value, Extended(lock, s, a, Step(s, a).value, sections))
  {
    EmittedUnder(s, a);
    DropperWhole(lock, s, a, sections[|sections| - 1]);
    assert s.log + [] == s.log;
  }

  lemma LastGrows(sections: seq<Section>, e: seq<Event>)
    requires sections != [] && |e| <= 1
    ensures e == [] ==> Grown(sections, e) == sections
    ensures Flat(Grown(sections, e)) == Flat(sections) + e
  {
    if e == [] {
      var last := sections[|sections| - 1];
      assert last.events + [] == last.events;
      assert sections[|sections| - 1 := last] == sections;
    } else {
      assert e == [e[0]];
      FlatGrow(sections, e[0]);
    }
  }

  function Grown(sections: seq<Section>, e: seq<Event>): seq<Section>
    requires sections != []
  {
    var last := sections[|sections| - 1];
    sections[|sections| - 1 := last.(events := last.events + e)]
  }

  /** The owner's section grows by what it did; nothing else about the sections depends on the state. */
  lemma GrownKeepsSections(lock: Lock, s: State, r: State, t: nat, sections: seq<Section>, e: seq<Event>)
    requires SectionsOk(lock, s, sections) && Owner(s, lock) == Owner(r, lock) == Some(t) && t < |r.threads|
    requires |e| <= 1 && r.log == s.log + e && (e != [] ==> Under(lock, e[0]) && e[0].tid == t)
    requires var last := sections[|sections| - 1];
             r.threads[t].call == last.call && Open(last.(events := last.events + e), r.threads[t])
    ensures SectionsOk(lock, r, Grown(sections, e))
  {
    EventsUnderPush(lock, s.log, e);
    LastGrows(sections, e);
  }

  lemma OwnerActKeepsSections(lock: Lock, s: State, a: Action, sections: seq<Section>)
    requires Base(s) && Step(s, a).Some? && SectionsOk(lock, s, sections)
    requires Owner(Step(s, a).value, lock) == Owner(s, lock) == Some(a.tid)
    ensures SectionsOk(lock, Step(s, a).value, Extended(lock, s, a, Step(s, a).value, sections))
  {
    EmittedUnder(s, a);
    OwnerActs(lock, s, a, sections[|sections| - 1]);
    GrownKeepsSections(lock, s, Step(s, a).value, a.tid, sections, Emitted(s, a));
    LastGrows(sections, Emitted(s, a));
  }

  lemma OtherActKeepsSections(lock: Lock, s: State, a: Action, sections: seq<Section>)
    requires Base(s) && Step(s, a).Some? && SectionsOk(lock, s, sections)
    requires Owner(Step(s, a).value, lock) == Owner(s, lock) != Some(a.tid)
    ensures SectionsOk(lock, Step(s, a).value, Extended(lock, s, a, Step(s, a).value, sections))
  {
    EmittedUnder(s, a);
    EventsUnderPush(lock, s.log, Emitted(s, a));
    OthersAct(lock, s, a);
  }

  lemma SectionsKept(lock: Lock, s: State, a: Action, sections: seq<Section>)
    requires Base(s) && Step(s, a).Some? && SectionsOk(lock, s, sections)
    ensures SectionsOk(lock, Step(s, a).value, Extended(lock, s, a, Step(s, a).value, sections))
  {
    var r := Step(s, a).value;
    OwnerMoves(lock, s, a);
    if Takes(lock, s, a, r) { TakeKeepsSections(lock, s, a, sections); }
    else if Drops(lock, s, a, r) { DropKeepsSections(lock, s, a, sections); }
    else if Owner(s, lock) == Some(a.tid) { OwnerActKeepsSections(lock, s, a, sections); }
    else { OtherActKeepsSections(lock, s, a, sections); }
  }

  /**
   Any threads, any interleaving, either lock: the logged events that belong under the lock are the sections of the
   lock put one after another in the order in which it was taken. Each section holds events of its own thread only, and
   each finished one holds its whole call: so the serial order is the order of acquisition, for both locks at once.
   */
  lemma {:induction false} SerialInLockOrder(lock: Lock, t: Tables, n: nat, actions: seq<Action>)
    requires t.Shaped() && Execute(Initial(t, n), actions).Some?
    ensures var s, sections := Execute(Initial(t, n), actions).value, Sections(lock, Initial(t, n), actions);
            Base(s) && SectionsOk(lock, s, sections)
    decreases |actions|
  {
    if actions != [] {
      var front, a := actions[..|actions| - 1], actions[|actions| - 1];
      SerialInLockOrder(lock, t, n, front);
      var m := Execute(Initial(t, n), front).value;
      BaseKept(m, a);
      SectionsKept(lock, m, a, Sections(lock, Initial(t, n), front));
    }
  }

  function Tids(events: seq<Event>): (r: seq<nat>)
    ensures |r| == |events| && forall k :: 0 <= k < |r| ==> r[k] == events[k].tid
  {
    seq(|events|, k requires 0 <= k < |events| => events[k].tid)
  }

  function Takers(sections: seq<Section>): (r: seq<nat>)
    ensures |r| == |sections| && forall k :: 0 <= k < |r| ==> r[k] == sections[k].tid
  {
    seq(|sections|, k requires 0 <= k < |sections| => sections[k].tid)
  }

  lemma {:induction false} OneEventEach(sections: seq<Section>)
    requires forall k :: 0 <= k < |sections| ==> OwnEvents(sections[k]) && sections[k].call.Do? && Whole(sections[k])
    ensures Tids(Flat(sections)) == Takers(sections)
    decreases |sections|
  {
    if sections != [] {
      var front, last := sections[..|sections| - 1], sections[|sections| - 1];
      OneEventEach(front);
      assert Tids(Flat(sections)) == Tids(Flat(front)) + [last.tid];
      assert Takers(sections) == Takers(front) + [last.tid];
    }
  }

  /** For single_global_lock, which only calls on files take: the threads of the logged calls, then its present owner
      if its call has not happened yet, are the threads that took it, in that order. */
  lemma GlobalLockOrder(t: Tables, n: nat, actions: seq<Action>)
    requires t.Shaped() && Execute(Initial(t, n), actions).Some?
    ensures var s := Execute(Initial(t, n), actions).value;
            && (s.g.Some? ==> s.g.value < |s.threads|)
            && Takers(Sections(G, Initial(t, n), actions)) ==
                 Tids(EventsUnder(G, s.log)) + if s.g.Some? && !Settled(s.threads[s.g.value]) then [s.g.value] else []
  {
    SerialInLockOrder(G, t, n, actions);
    OwnerLast(Execute(Initial(t, n), actions).value, Sections(G, Initial(t, n), actions));
  }

  lemma OwnerLast(s: State, sections: seq<Section>)
    requires Base(s) && SectionsOk(G, s, sections)
    ensures Takers(sections) ==
              Tids(EventsUnder(G, s.log)) + if s.g.Some? && !Settled(s.threads[s.g.value]) then [s.g.value] else []
  {
    if s.g.Some? && !Settled(s.threads[s.g.value]) {
      var front, last := sections[..|sections| - 1], sections[|sections| - 1];
      OneEventEach(front);
      assert Takers(sections) == Takers(front) + [last.tid];
      assert Flat(sections) == Flat(front) + [] == Flat(front);
    } else {
      OneEventEach(sections);
      assert Takers(sections) + [] == Takers(sections);
    }
  }

  // ----- Real time -----

  /** The place in the log of the event that completes the `k`-th call of thread `t`. */
  function Position(log: seq<Event>, t: nat, k: nat): (i: nat)
    requires k < |CallsOf(log, t)|
    ensures i < |log| && log[i].tid == t && Completes(log[i]) == [CallsOf(log, t)[k]]
    decreases |log|
  {
    var front := log[..|log| - 1];
    if k < |CallsOf(front, t)| then Position(front, t, k) else |log| - 1
  }

  /** The calls a thread has begun. */
  function Begun(th: Thread): nat { |th.done| + if th.pc.Idle? then 0 else 1 }

  lemma {:induction false} PositionInPrefix(log: seq<Event>, more: seq<Event>, t: nat, k: nat)
    requires log <= more && k < |CallsOf(log, t)|
    ensures k < |CallsOf(more, t)| && Position(more, t, k) == Position(log, t, k)
    decreases |more|
  {
    if |log| < |more| {
      PositionInPrefix(log, more[..|more| - 1], t, k);
    } else {
      assert log == more;
    }
  }

  lemma {:induction false} PositionBeyondPrefix(log: seq<Event>, more: seq<Event>, t: nat, k: nat)
    requires log <= more && |CallsOf(log, t)| <= k < |CallsOf(more, t)|
    ensures Position(more, t, k) >= |log|
    decreases |more|
  {
    assert |log| == |more| ==> log == more;
    var front := more[..|more| - 1];
    if k < |CallsOf(front, t)| {
      PositionBeyondPrefix(log, front, t, k);
    }
  }

  lemma {:induction false} Continued(s: State, before: seq<Action>, rest: seq<Action>)
    requires Sound(s) && Execute(s, before + rest).Some?
    ensures Execute(s, before).Some? && Execute(Execute(s, before).value, rest) == Execute(s, before + rest)
    decreases |rest|
  {
    if rest == [] {
      assert before + rest == before;
    } else {
      var front := rest[..|rest| - 1];
      assert (before + rest)[..|before + rest| - 1] == before + front;
      Continued(s, before, front);
    }
  }

  /**
   The serial order respects real time: a call that has returned by the end of `before`, of any thread, completes in
   the log ahead of every call that any thread begins in `rest`.
   */
  lemma RealTimeOrder(t: Tables, n: nat, before: seq<Action>, rest: seq<Action>, v: nat, j: nat, u: nat, k: nat)
    requires t.Shaped() && Execute(Initial(t, n), before + rest).Some? && Execute(Initial(t, n), before).Some?
    requires var s := Execute(Initial(t, n), before).value;
             v < |s.threads| && j < |s.threads[v].done| && u < |s.threads| && Begun(s.threads[u]) <= k
    requires var r := Execute(Initial(t, n), before + rest).value;
             u < |r.threads| && k < |History(r.threads[u])|
    ensures var s, r := Execute(Initial(t, n), before).value, Execute(Initial(t, n), before + rest).value;
            && |CallsOf(r.log, v)| > j && CallsOf(r.log, v)[j] == s.threads[v].done[j]
            && |CallsOf(r.log, u)| > k && CallsOf(r.log, u)[k] == History(r.threads[u])[k]
            && Position(r.log, v, j) < Position(r.log, u, k)
  {
    EveryRunIsSerial(t, n, before);
    EveryRunIsSerial(t, n, before + rest);
    Continued(Initial(t, n), before, rest);
    LogOnlyGrows(Execute(Initial(t, n), before).value, rest);
    OrderInLogs(Execute(Initial(t, n), before).value, Execute(Initial(t, n), before + rest).value, v, j, u, k);
  }

  lemma OrderInLogs(s: State, r: State, v: nat, j: nat, u: nat, k: nat)
    requires HistoriesAgree(s) && HistoriesAgree(r) && s.log <= r.log
    requires v < |s.threads| && j < |s.threads[v].done| && u < |s.threads| && Begun(s.threads[u]) <= k
    requires u < |r.threads| && k < |History(r.threads[u])|
    ensures |CallsOf(r.log, v)| > j && CallsOf(r.log, v)[j] == s.threads[v].done[j]
    ensures |CallsOf(r.log, u)| > k && CallsOf(r.log, u)[k] == History(r.threads[u])[k]
    ensures Position(r.log, v, j) < Position(r.log, u, k)
  {
    assert CallsOf(s.log, v) == History(s.threads[v]) && CallsOf(s.log, u) == History(s.threads[u]);
    PositionInPrefix(s.log, r.log, v, j);
    PositionBeyondPrefix(s.log, r.log, u, k);
    PrefixOfCalls(s.log, r.log, v);
  }

  lemma {:induction false} PrefixOfCalls(log: seq<Event>, more: seq<Event>, t: nat)
    requires log <= more
    ensures CallsOf(log, t) <= CallsOf(more, t)
    decreases |more|
  {
    if |log| < |more| {
      PrefixOfCalls(log, more[..|more| - 1], t);
    } else {
      assert log == more;
    }
  }
}
