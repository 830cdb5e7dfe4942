/** The scheduler of one MapReduce phase: it hands tasks to workers as registrations and results come in. */
module MrSchedule {
  import opened Common
  import opened FiniteSets

  /** What the scheduler receives: a registered worker, or the result of the task a worker was running. */
  datatype Event =
    | Register(worker: string)
    | Succeeded(worker: string)
    | Failed(worker: string)

  /** `flight` maps each busy worker to its task; `known` are the workers announced in this phase. */
  datatype Sched = Sched(
    ntasks: nat, queue: seq<nat>, idle: seq<string>, done: set<nat>,
    flight: map<string, nat>, known: set<string>, finished: bool)

  function Start(ntasks: nat): Sched
  {
    Sched(ntasks, seq(ntasks, i => i), [], {}, map[], {}, false)
  }

  /** Each worker is announced once, and a result comes only from a worker that is running a task. */
  predicate Enabled(s: Sched, e: Event)
  {
    !s.finished &&
    match e
    case Register(w) => w !in s.known
    case Succeeded(w) => w in s.flight
    case Failed(w) => w in s.flight
  }

  /** A free worker takes the next task, or waits. */
  function Give(s: Sched, w: string): Sched
  {
    if s.queue != [] then s.(flight := s.flight[w := s.queue[0]], queue := s.queue[1..])
    else s.(idle := s.idle + [w])
  }

  function Step(s: Sched, e: Event): Sched
    requires Enabled(s, e)
  {
    match e
    case Register(w) =>
      var s1 := s.(known := s.known + {w});
      if w == "" then s1 else Give(s1, w)
    case Succeeded(w) =>
      var s1 := s.(flight := s.flight - {w}, done := s.done + {s.flight[w]});
      if s.flight[w] !in s.done && |s1.done| == s.ntasks then s1.(finished := true) else Give(s1, w)
    case Failed(w) =>
      var s1 := s.(flight := s.flight - {w}, queue := s.queue + [s.flight[w]]);
      if s.idle != [] then Give(s1.(idle := s.idle[1..]), s.idle[0]) else s1
  }

  // ---------------------------------------------------------------- what every step keeps

  ghost predicate Flying(s: Sched, t: nat)
  {
    exists w :: w in s.flight && s.flight[w] == t
  }

  /** A task is in exactly one of three places. */
  ghost predicate InOnePlace(s: Sched, t: nat)
  {
    (t in s.queue || Flying(s, t) || t in s.done) &&
    !(t in s.queue && Flying(s, t)) && !(t in s.queue && t in s.done) && !(Flying(s, t) && t in s.done)
  }

  ghost predicate TaskInv(s: Sched)
  {
    (forall t: nat :: t < s.ntasks ==> InOnePlace(s, t)) &&
    (forall t :: t in s.queue ==> t < s.ntasks) && (forall w :: w in s.flight ==> s.flight[w] < s.ntasks) &&
    (forall t :: t in s.done ==> t < s.ntasks) && Distinct(s.queue) &&
    forall w, v :: w in s.flight && v in s.flight && w != v ==> s.flight[w] != s.flight[v]
  }

  /** Busy and waiting workers are different, known workers; nobody waits while a task is queued. */
  ghost predicate WorkerInv(s: Sched)
  {
    Distinct(s.idle) && (forall w :: w in s.flight ==> w in s.known && w !in s.idle && w != "") &&
    (forall w :: w in s.idle ==> w in s.known && w != "") && (s.idle != [] ==> s.queue == [])
  }

  ghost predicate Inv(s: Sched)
  {
    s.ntasks > 0 && TaskInv(s) && WorkerInv(s) && (s.finished <==> |s.done| == s.ntasks)
  }

  lemma StartInv(ntasks: nat)
    requires ntasks > 0
    ensures Inv(Start(ntasks))
  {
    var s := Start(ntasks);
    forall t: nat | t < ntasks
      ensures InOnePlace(s, t)
    {
      assert s.queue[t] == t;
    }
  }

  lemma HeadTail<T>(q: seq<T>)
    requires q != [] && Distinct(q)
    ensures Distinct(q[1..]) && q[0] in q && q[0] !in q[1..] && forall x :: x in q <==> x == q[0] || x in q[1..]
  {
  }

  lemma Appended<T>(q: seq<T>, x: T)
    requires Distinct(q) && x !in q
    ensures Distinct(q + [x]) && forall y :: y in q + [x] <==> y == x || y in q
  {
  }

  /** A queued task goes to a worker. */
  lemma TakenOff(s: Sched, s': Sched, w: string)
    requires w !in s.flight && s.queue != [] && s'.flight == s.flight[w := s.queue[0]]
    ensures forall t: nat :: Flying(s', t) <==> Flying(s, t) || t == s.queue[0]
  {
    forall t: nat
      ensures Flying(s', t) <==> Flying(s, t) || t == s.queue[0]
    {
      assert s'.flight[w] == s.queue[0];
      assert forall v :: v in s.flight ==> s'.flight[v] == s.flight[v];
    }
  }

  lemma TakeKeeps(s: Sched, w: string)
    requires TaskInv(s) && s.queue != [] && w !in s.flight
    ensures TaskInv(s.(flight := s.flight[w := s.queue[0]], queue := s.queue[1..]))
  {
    var q0 := s.queue[0];
    var s' := s.(flight := s.flight[w := q0], queue := s.queue[1..]);
    HeadTail(s.queue);
    hide Distinct;
    assert InOnePlace(s, q0);
    TakenOff(s, s', w);
    assert forall v :: v in s.flight ==> Flying(s, s.flight[v]);
    forall t: nat | t < s.ntasks
      ensures InOnePlace(s', t)
    {
      assert InOnePlace(s, t);
    }
  }

  lemma Landed(s: Sched, s': Sched, w: string)
    requires TaskInv(s) && w in s.flight && s'.flight == s.flight - {w}
    ensures forall t: nat :: Flying(s', t) <==> Flying(s, t) && t != s.flight[w]
  {
    forall t: nat
      ensures Flying(s', t) <==> Flying(s, t) && t != s.flight[w]
    {
      assert forall v :: v in s'.flight ==> v in s.flight && s'.flight[v] == s.flight[v];
    }
  }

  /** A task leaves a worker and is done. */
  lemma FinishKeeps(s: Sched, w: string)
    requires TaskInv(s) && w in s.flight
    ensures TaskInv(s.(flight := s.flight - {w}, done := s.done + {s.flight[w]})) && s.flight[w] !in s.done
  {
    var t0 := s.flight[w];
    var s' := s.(flight := s.flight - {w}, done := s.done + {t0});
    Landed(s, s', w);
    hide Distinct;
    assert Flying(s, t0);
    assert InOnePlace(s, t0);
    forall t: nat | t < s.ntasks
      ensures InOnePlace(s', t)
    {
      assert InOnePlace(s, t);
    }
  }

  /** A task leaves a worker and is queued again. */
  lemma RequeueKeeps(s: Sched, w: string)
    requires TaskInv(s) && w in s.flight
    ensures TaskInv(s.(flight := s.flight - {w}, queue := s.queue + [s.flight[w]]))
  {
    var t0 := s.flight[w];
    var s' := s.(flight := s.flight - {w}, queue := s.queue + [t0]);
    Landed(s, s', w);
    assert Flying(s, t0);
    assert InOnePlace(s, t0);
    Appended(s.queue, t0);
    hide Distinct;
    forall t: nat | t < s.ntasks
      ensures InOnePlace(s', t)
    {
      assert InOnePlace(s, t);
    }
  }

  lemma GiveKeeps(s: Sched, w: string)
    requires TaskInv(s) && w !in s.flight && w in s.known && w !in s.idle && w != ""
    requires Distinct(s.idle) && (forall v :: v in s.flight ==> v in s.known && v !in s.idle && v != "")
    requires (forall v :: v in s.idle ==> v in s.known && v != "") && (s.idle != [] ==> |s.queue| <= 1)
    ensures TaskInv(Give(s, w)) && WorkerInv(Give(s, w))
  {
    if s.queue != [] {
      TakeKeeps(s, w);
    } else {
      Appended(s.idle, w);
      var s' := Give(s, w);
      forall t: nat
        ensures InOnePlace(s', t) <==> InOnePlace(s, t)
      {
        assert Flying(s', t) <==> Flying(s, t);
      }
    }
  }

  lemma InvNext(s: Sched, e: Event)
    requires Inv(s) && Enabled(s, e)
    ensures Inv(Step(s, e))
  {
    hide Inv;
    match e
    case Register(w) => RegisterKeeps(s, w);
    case Succeeded(w) => SuccessKeeps(s, w);
    case Failed(w) => FailureKeeps(s, w);
  }

  lemma RegisterKeeps(s: Sched, w: string)
    requires Inv(s) && Enabled(s, Register(w))
    ensures Inv(Step(s, Register(w)))
  {
    hide TaskInv;
    var s1 := s.(known := s.known + {w});
    KnownOnly(s, s1);
    if w != "" {
      GiveKeeps(s1, w);
    }
  }

  lemma SuccessKeeps(s: Sched, w: string)
    requires Inv(s) && Enabled(s, Succeeded(w))
    ensures Inv(Step(s, Succeeded(w)))
  {
    hide TaskInv;
    FinishKeeps(s, w);
    var s1 := s.(flight := s.flight - {w}, done := s.done + {s.flight[w]});
    DoneBound(s1);
    if |s1.done| == s.ntasks {
      KnownOnly(s1, s1.(finished := true));
    } else {
      GiveKeeps(s1, w);
    }
  }

  lemma FailureKeeps(s: Sched, w: string)
    requires Inv(s) && Enabled(s, Failed(w))
    ensures Inv(Step(s, Failed(w)))
  {
    hide TaskInv;
    RequeueKeeps(s, w);
    var s1 := s.(flight := s.flight - {w}, queue := s.queue + [s.flight[w]]);
    if s.idle != [] {
      HeadTail(s.idle);
      KnownOnly(s1, s1.(idle := s.idle[1..]));
      GiveKeeps(s1.(idle := s.idle[1..]), s.idle[0]);
    }
  }

  /** The tasks' places do not depend on who waits or is known. */
  lemma KnownOnly(s: Sched, s': Sched)
    requires TaskInv(s) && s' == s.(known := s'.known, idle := s'.idle, finished := s'.finished)
    ensures TaskInv(s')
  {
    forall t: nat
      ensures InOnePlace(s', t) <==> InOnePlace(s, t)
    {
      assert Flying(s', t) <==> Flying(s, t);
    }
  }

  lemma DoneBound(s: Sched)
    requires TaskInv(s)
    ensures |s.done| <= s.ntasks
  {
    SubsetSize(s.done, Ids(s.ntasks));
  }

  // ---------------------------------------------------------------- runs

  ghost predicate IsRun(ntasks: nat, states: seq<Sched>, events: seq<Event>)
  {
    |states| == |events| + 1 && states[0] == Start(ntasks) &&
    forall k :: 0 <= k < |events| ==> Enabled(states[k], events[k]) && states[k + 1] == Step(states[k], events[k])
  }

  lemma {:induction false} InvAlong(ntasks: nat, states: seq<Sched>, events: seq<Event>, k: nat)
    requires IsRun(ntasks, states, events) && k < |states| && ntasks > 0
    ensures Inv(states[k]) && states[k].ntasks == ntasks
  {
    hide Inv;
    if k == 0 {
      StartInv(ntasks);
    } else {
      InvAlong(ntasks, states, events, k - 1);
      InvNext(states[k - 1], events[k - 1]);
    }
  }

  function Successes(events: seq<Event>): nat
  {
    if events == [] then 0
    else Successes(events[..|events| - 1]) + (if events[|events| - 1].Succeeded? then 1 else 0)
  }

  /** Every success completes one more task. */
  lemma {:induction false} DoneCounts(ntasks: nat, states: seq<Sched>, events: seq<Event>, k: nat)
    requires IsRun(ntasks, states, events) && k < |states| && ntasks > 0
    ensures |states[k].done| == Successes(events[..k])
  {
    hide Inv, Step, Enabled;
    if k > 0 {
      DoneCounts(ntasks, states, events, k - 1);
      InvAlong(ntasks, states, events, k - 1);
      assert events[..k][..k - 1] == events[..k - 1];
      DoneNext(states[k - 1], events[k - 1]);
    }
  }

  lemma DoneNext(s: Sched, e: Event)
    requires Inv(s) && Enabled(s, e)
    ensures |Step(s, e).done| == |s.done| + if e.Succeeded? then 1 else 0
  {
    hide TaskInv;
    if e.Succeeded? {
      FinishKeeps(s, e.worker);
    }
  }

  /** In every interleaving: each task is in one place, each worker runs at most one task, no task waits while
      a worker idles, and if a worker idles before the end, some task is running. */
  lemma Conservation(ntasks: nat, states: seq<Sched>, events: seq<Event>, k: nat)
    requires IsRun(ntasks, states, events) && k < |states| && ntasks > 0
    ensures var s := states[k];
            (forall t: nat :: t < ntasks ==> InOnePlace(s, t)) && Distinct(s.queue) &&
            (forall w, v :: w in s.flight && v in s.flight && w != v ==> s.flight[w] != s.flight[v]) &&
            (s.idle != [] ==> s.queue == []) && (s.idle != [] && !s.finished ==> s.flight != map[])
  {
    InvAlong(ntasks, states, events, k);
    var s := states[k];
    if s.idle != [] && !s.finished {
      StillRunning(s);
    }
  }

  // ---------------------------------------------------------------- where the workers are

  /** The phase has ended with this worker's success. */
  ghost predicate EndedBy(s: Sched, past: seq<Event>, w: string)
  {
    s.finished && past != [] && past[|past| - 1] == Succeeded(w)
  }

  /** An announced worker runs a task, waits, has failed, or has ended the phase; one that has failed does
      neither of the first two. */
  ghost predicate Accounted(s: Sched, past: seq<Event>, w: string)
  {
    (Register(w) in past && w != "" ==> w in s.flight || w in s.idle || Failed(w) in past || EndedBy(s, past, w)) &&
    (Failed(w) in past ==> w !in s.flight && w !in s.idle && w in s.known)
  }

  ghost predicate WorkersOk(s: Sched, past: seq<Event>)
  {
    (forall w :: w in s.known <==> Register(w) in past) && forall w :: Accounted(s, past, w)
  }

  lemma WorkersNext(s: Sched, past: seq<Event>, e: Event)
    requires Inv(s) && Enabled(s, e) && WorkersOk(s, past)
    ensures WorkersOk(Step(s, e), past + [e])
  {
    hide TaskInv, Distinct;
    var s', past' := Step(s, e), past + [e];
    assert past'[|past'| - 1] == e && forall x :: x in past' <==> x in past || x == e;
    forall w
      ensures Accounted(s', past', w)
    {
      assert Accounted(s, past, w);
      Moves(s, e, w);
    }
  }

  /** Who runs and who waits after an event, besides those who did before. */
  lemma Moves(s: Sched, e: Event, w: string)
    requires Inv(s) && Enabled(s, e)
    ensures var s' := Step(s, e);
            (w in s.flight || w in s.idle ==> w in s'.flight || w in s'.idle || e == Failed(w) || (s'.finished && e == Succeeded(w))) &&
            (w in s'.flight || w in s'.idle ==> (w in s.flight || w in s.idle || e == Register(w)) && e != Failed(w)) &&
            (e == Register(w) && w != "" ==> w in s'.flight || w in s'.idle) && !s.finished
  {
    hide TaskInv;
    if s.idle != [] {
      HeadTail(s.idle);
    }
  }

  /** In every interleaving no worker is forgotten: the announced workers are running a task or waiting, except
      those that have failed since, and, at the end, the one whose success was the last. */
  lemma {:induction false} Workers(ntasks: nat, states: seq<Sched>, events: seq<Event>, k: nat)
    requires IsRun(ntasks, states, events) && k < |states| && ntasks > 0
    ensures WorkersOk(states[k], events[..k])
  {
    hide Inv, Step, Enabled, WorkersOk;
    if k == 0 {
      assert WorkersOk(Start(ntasks), events[..0]) by { NobodyYet(ntasks, events[..0]); }
    } else {
      Workers(ntasks, states, events, k - 1);
      InvAlong(ntasks, states, events, k - 1);
      WorkersNext(states[k - 1], events[..k - 1], events[k - 1]);
      assert events[..k - 1] + [events[k - 1]] == events[..k];
    }
  }

  lemma NobodyYet(ntasks: nat, past: seq<Event>)
    requires past == []
    ensures WorkersOk(Start(ntasks), past)
  {
  }

  /** As long as one announced worker has not failed, some task is running until the phase ends. */
  lemma NeverStuck(ntasks: nat, states: seq<Sched>, events: seq<Event>, k: nat, w: string)
    requires IsRun(ntasks, states, events) && k < |states| && ntasks > 0 && !states[k].finished
    requires w != "" && Register(w) in events[..k] && Failed(w) !in events[..k]
    ensures states[k].flight != map[]
  {
    hide Inv, Step, Enabled;
    Workers(ntasks, states, events, k);
    Conservation(ntasks, states, events, k);
    assert Accounted(states[k], events[..k], w);
  }

  /** The events can happen from `s` one after the other and end in `s'`. */
  ghost predicate Leads(s: Sched, events: seq<Event>, s': Sched)
    decreases |events|
  {
    if events == [] then s' == s else Enabled(s, events[0]) && Leads(Step(s, events[0]), events[1..], s')
  }

  /** And if the running tasks succeed from then on, the phase ends. */
  lemma {:induction false} CanFinish(s: Sched) returns (events: seq<Event>, s': Sched)
    requires Inv(s) && !s.finished && s.flight != map[]
    ensures Leads(s, events, s') && s'.finished && forall e :: e in events ==> e.Succeeded?
    decreases s.ntasks - |s.done|
  {
    hide TaskInv;
    var w :| w in s.flight;
    var e := Succeeded(w);
    InvNext(s, e);
    DoneNext(s, e);
    var s1 := Step(s, e);
    DoneBound(s1);
    if s1.finished {
      events, s' := [e], s1;
      assert Leads(s1, [e][1..], s1);
    } else {
      StillRunning(s1);
      var rest;
      rest, s' := CanFinish(s1);
      events := [e] + rest;
      assert events[1..] == rest;
    }
  }

  lemma StillRunning(s: Sched)
    requires Inv(s) && !s.finished && (s.idle != [] || s.flight != map[])
    ensures s.flight != map[]
  {
    if s.flight == map[] {
      forall t: nat | t < s.ntasks
        ensures t in s.done
      {
        assert InOnePlace(s, t) && !Flying(s, t);
      }
      SubsetSize(Ids(s.ntasks), s.done);
      SubsetSize(s.done, Ids(s.ntasks));
      assert false;
    }
  }

  /** The scheduler returns exactly at the success that completes the last task, and then nothing is queued
      or running. */
  lemma ReturnsWhenAllDone(ntasks: nat, states: seq<Sched>, events: seq<Event>, k: nat)
    requires IsRun(ntasks, states, events) && k < |states| && ntasks > 0
    ensures states[k].finished <==> Successes(events[..k]) == ntasks
    ensures states[k].finished ==> states[k].queue == [] && states[k].flight == map[] && states[k].done == Ids(ntasks)
  {
    InvAlong(ntasks, states, events, k);
    DoneCounts(ntasks, states, events, k);
    var s := states[k];
    if s.finished {
      AllDone(s);
      assert s.queue != [] ==> s.queue[0] in s.queue && InOnePlace(s, s.queue[0]);
      assert forall w :: w in s.flight ==> Flying(s, s.flight[w]) && InOnePlace(s, s.flight[w]);
    }
  }

  lemma AllDone(s: Sched)
    requires Inv(s) && s.finished
    ensures s.done == Ids(s.ntasks)
  {
    if t: nat :| t < s.ntasks && t !in s.done {
      SubsetSize(s.done + {t}, Ids(s.ntasks));
      assert false;
    }
  }

  /** A phase without tasks never returns: the end is noticed only when a task succeeds. */
  lemma {:induction false} NoTasksNeverReturns(states: seq<Sched>, events: seq<Event>, k: nat)
    requires IsRun(0, states, events) && k < |states|
    ensures !states[k].finished && states[k].queue == [] && states[k].flight == map[]
  {
    if k > 0 {
      NoTasksNeverReturns(states, events, k - 1);
    }
  }

  // ---------------------------------------------------------------- the scheduler's variables

  lemma NoneFinished(s: Sched, w: string)
    ensures Give(s, w).finished == s.finished
  {
  }

  /** Both queues are slices with a head index; entries before the head stay behind. */
  class Scheduler {
    const ntasks: nat
    var taskQu: seq<nat>
    var taskHead: nat
    var idleWorkers: seq<string>
    var idleHead: nat
    var doneMap: set<nat>
    var doneN: nat

    ghost var flight: map<string, nat>
    ghost var known: set<string>
    ghost var finished: bool

    ghost predicate Valid()
      reads this
    {
      taskHead <= |taskQu| && idleHead <= |idleWorkers| && doneN == |doneMap|
    }

    ghost function View(): Sched
      requires Valid()
      reads this
    {
      Sched(ntasks, taskQu[taskHead..], idleWorkers[idleHead..], doneMap, flight, known, finished)
    }

    constructor (ntasks: nat)
      ensures Valid() && View() == Start(ntasks)
    {
      this.ntasks := ntasks;
      taskQu, taskHead := seq(ntasks, i => i), 0;
      idleWorkers, idleHead := [], 0;
      doneMap, doneN := {}, 0;
      flight, known, finished := map[], {}, false;
    }

    /** Takes one message from the channels. The worker it frees is returned, or "" if there is none. */
    method Receive(e: Event, taskIdx: nat) returns (worker: string, all: bool)
      requires Valid() && Inv(View()) && Enabled(View(), e) && (!e.Register? ==> taskIdx == flight[e.worker])
      modifies this
      ensures Valid() && all == Step(old(View()), e).finished && (!all && !e.Failed? ==> worker == e.worker)
      ensures if worker == "" || all then View() == Step(old(View()), e) else Give(View(), worker) == Step(old(View()), e)
    {
      hide TaskInv, Distinct, Give;
      match e {
        case Register(w) =>
          known := known + {w};
          worker, all := w, false;
        case Succeeded(w) =>
          all := RecordDone(w, taskIdx);
          worker := w;
        case Failed(w) =>
          assert View().idle != [] ==> View().idle[0] in View().idle;
          worker := Requeue(w, taskIdx);
          all := false;
      }
      NoneFinished(View(), worker);
    }

    /** Counts the task unless it was done already. */
    method RecordDone(w: string, taskIdx: nat) returns (all: bool)
      requires Valid() && w in flight && flight[w] == taskIdx
      modifies this
      ensures Valid() && all == (taskIdx !in old(doneMap) && |doneMap| == ntasks)
      ensures View() == old(View()).(flight := old(flight) - {w}, done := old(doneMap) + {taskIdx}, finished := old(finished) || all)
    {
      all := false;
      flight := flight - {w};
      if taskIdx !in doneMap {
        doneN := doneN + 1;
        doneMap := doneMap + {taskIdx};
        if doneN == ntasks {
          finished := true;
          return true;
        }
      }
      assert doneMap == old(doneMap) + {taskIdx};
    }

    /** The task is queued again, and a waiting worker is called. */
    method Requeue(w: string, taskIdx: nat) returns (worker: string)
      requires Valid() && w in flight && flight[w] == taskIdx
      modifies this
      ensures Valid()
      ensures var s := old(View());
              var s1 := s.(flight := s.flight - {w}, queue := s.queue + [taskIdx]);
              if s.idle != [] then worker == s.idle[0] && View() == s1.(idle := s.idle[1..]) else worker == "" && View() == s1
    {
      flight := flight - {w};
      taskQu := taskQu + [taskIdx];
      assert taskQu[taskHead..] == old(taskQu[taskHead..]) + [taskIdx];
      worker := "";
      if |idleWorkers| != idleHead {
        worker := idleWorkers[idleHead];
        idleHead := idleHead + 1;
      }
    }

    /** One message is received and the worker it frees, if any, is placed. */
    method Handle(e: Event, taskIdx: nat) returns (all: bool)
      requires Valid() && Inv(View()) && Enabled(View(), e) && (!e.Register? ==> taskIdx == flight[e.worker])
      modifies this
      ensures Valid() && Inv(View()) && View() == Step(old(View()), e) && all == View().finished
      ensures !all && !e.Failed? && e.worker != "" ==> e.worker in flight || e.worker in View().idle
    {
      hide Inv, Step, Give;
      InvNext(View(), e);
      Moves(View(), e, e.worker);
      assert e.Succeeded? ==> e.worker in View().flight;
      var worker;
      worker, all := Receive(e, taskIdx);
      if worker != "" && !all {
        var _ := Place(worker);
      }
    }

    /** Gives the worker the task at the head of the queue, if there is one. */
    method Place(worker: string) returns (taskIdx: int)
      requires Valid()
      modifies this
      ensures Valid() && View() == Give(old(View()), worker)
      ensures var s := old(View());
              if s.queue == [] then taskIdx == -1 && View() == s.(idle := s.idle + [worker])
              else taskIdx == s.queue[0] && View() == s.(flight := s.flight[worker := s.queue[0]], queue := s.queue[1..])
    {
      if |taskQu| != taskHead {
        taskIdx := taskQu[taskHead];
        flight := flight[worker := taskIdx];
        taskHead := taskHead + 1;
        return;
      }
      idleWorkers := idleWorkers + [worker];
      taskIdx := -1;
      assert idleWorkers[idleHead..] == old(idleWorkers[idleHead..]) + [worker];
    }
  }
}
