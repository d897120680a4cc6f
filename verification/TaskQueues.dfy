/** The queue between the network threads and the game tick, src/common/TaskQueue.hpp: every
    interleaving of its locked sections and of the tasks that drainers run outside the lock. */
module TaskQueues {
  import opened Numbers

  // What one locked section took out of the queue.
  datatype Segment<T> = Taken(tasks: seq<T>) | Cleared(tasks: seq<T>)

  // A task run by the drain that took it.
  datatype Ran<T> = Ran(drain: nat, task: T)

  // The queue, and the history of everything that went through it. Segments are in lock order;
  // progress says how much of each taken segment has been run.
  datatype Shared<T> = Shared(
    pushed: seq<T>,
    pending: seq<T>,
    segments: seq<Segment<T>>,
    progress: seq<nat>,
    log: seq<Ran<T>>)

  // One atomic step of some thread. A drain is a Take and then one Run per task of its batch; a
  // running task pushes by Push steps of its own.
  datatype Step<T> = Push(task: Option<T>) | Clear | Take(budget: nat) | Run(drain: nat)

  function Batch<T>(pending: seq<T>, budget: nat): (batch: seq<T>)
    ensures batch <= pending
  {
    if budget == 0 || budget >= |pending| then pending else pending[..budget]
  }

  function Close<T>(s: Shared<T>, segment: Segment<T>, left: seq<T>): Shared<T> {
    s.(pending := left, segments := s.segments + [segment], progress := s.progress + [0])
  }

  predicate CanRun<T>(s: Shared<T>, d: nat) {
    d < |s.segments| && d < |s.progress| && s.segments[d].Taken? && s.progress[d] < |s.segments[d].tasks|
  }

  function Apply<T>(s: Shared<T>, step: Step<T>): Shared<T> {
    match step
    case Push(task) =>
      if task.None? then s else s.(pushed := s.pushed + [task.value], pending := s.pending + [task.value])
    case Clear => Close(s, Cleared(s.pending), [])
    case Take(budget) =>
      if s.pending == [] then s
      else
        var batch := Batch(s.pending, budget);
        Close(s, Taken(batch), s.pending[|batch|..])
    case Run(d) =>
      if !CanRun(s, d) then s
      else
        s.(progress := s.progress[d := s.progress[d] + 1],
           log := s.log + [Ran(d, s.segments[d].tasks[s.progress[d]])])
  }

  function ApplyAll<T>(s: Shared<T>, steps: seq<Step<T>>): Shared<T> {
    if steps == [] then s else Apply(ApplyAll(s, steps[..|steps| - 1]), steps[|steps| - 1])
  }

  function New<T>(): Shared<T> {
    Shared([], [], [], [], [])
  }

  // ---------------------------------------------------------------- conservation

  function Flatten<T>(segments: seq<Segment<T>>): seq<T> {
    if segments == [] then [] else Flatten(segments[..|segments| - 1]) + segments[|segments| - 1].tasks
  }

  // The tasks one drain has run, in order.
  function RanBy<T>(log: seq<Ran<T>>, d: nat): seq<T> {
    if log == [] then []
    else RanBy(log[..|log| - 1], d) + (if log[|log| - 1].drain == d then [log[|log| - 1].task] else [])
  }

  // The pushes that are not null.
  function Pushes<T>(steps: seq<Step<T>>): seq<T> {
    if steps == [] then []
    else
      var last := steps[|steps| - 1];
      Pushes(steps[..|steps| - 1]) + (if last.Push? && last.task.Some? then [last.task.value] else [])
  }

  // Nothing is lost, nothing is run twice: what was taken and cleared, in lock order, and what is
  // pending make up what was pushed, and every drain has run a prefix of its own batch.
  ghost predicate Conserved<T(!new)>(s: Shared<T>) {
    && Flatten(s.segments) + s.pending == s.pushed
    && |s.progress| == |s.segments|
    && (forall d :: 0 <= d < |s.segments| ==> s.progress[d] <= |s.segments[d].tasks|)
    && (forall d :: 0 <= d < |s.segments| ==> RanBy(s.log, d) == s.segments[d].tasks[..s.progress[d]])
    && (forall d :: 0 <= d < |s.segments| && s.segments[d].Cleared? ==> s.progress[d] == 0)
    && (forall d: nat :: d >= |s.segments| ==> RanBy(s.log, d) == [])
  }

  lemma FlattenSnoc<T>(segments: seq<Segment<T>>, last: Segment<T>)
    ensures Flatten(segments + [last]) == Flatten(segments) + last.tasks
  {
    assert (segments + [last])[..|segments|] == segments;
  }

  lemma RanBySnoc<T>(log: seq<Ran<T>>, last: Ran<T>, d: nat)
    ensures RanBy(log + [last], d) == RanBy(log, d) + if last.drain == d then [last.task] else []
  {
    assert (log + [last])[..|log|] == log;
  }

  lemma CloseConserves<T(!new)>(s: Shared<T>, segment: Segment<T>, left: seq<T>)
    requires Conserved(s) && segment.tasks + left == s.pending
    ensures Conserved(Close(s, segment, left))
  {
    hide Flatten, RanBy;
    FlattenSnoc(s.segments, segment);
    var r := Close(s, segment, left);
    assert Flatten(r.segments) + r.pending == Flatten(s.segments) + (segment.tasks + left);
  }

  lemma RunConserves<T(!new)>(s: Shared<T>, d: nat)
    requires Conserved(s) && CanRun(s, d)
    ensures Conserved(Apply(s, Run(d)))
  {
    var r := Apply(s, Run(d));
    var last := r.log[|s.log|];
    forall e: nat
      ensures RanBy(r.log, e) == RanBy(s.log, e) + if d == e then [last.task] else []
    {
      RanBySnoc(s.log, last, e);
    }
    assert s.segments[d].tasks[..r.progress[d]] == s.segments[d].tasks[..s.progress[d]] + [last.task];
  }

  lemma ApplyConserves<T(!new)>(s: Shared<T>, step: Step<T>)
    requires Conserved(s)
    ensures Conserved(Apply(s, step))
  {
    match step {
      case Push(task) =>
        if task.Some? {
          assert Flatten(s.segments) + (s.pending + [task.value]) == Flatten(s.segments) + s.pending + [task.value];
        }
      case Clear => CloseConserves(s, Cleared(s.pending), []);
      case Take(budget) =>
        if s.pending != [] {
          var batch := Batch(s.pending, budget);
          CloseConserves(s, Taken(batch), s.pending[|batch|..]);
        }
      case Run(d) =>
        if CanRun(s, d) {
          RunConserves(s, d);
        }
    }
  }

  // For every interleaving of pushes, clears and overlapping drains.
  lemma {:induction false} NothingLostOrRunTwice<T(!new)>(steps: seq<Step<T>>)
    ensures Conserved(ApplyAll(New(), steps))
    ensures ApplyAll(New(), steps).pushed == Pushes(steps)
  {
    if steps != [] {
      NothingLostOrRunTwice(steps[..|steps| - 1]);
      ApplyConserves(ApplyAll(New(), steps[..|steps| - 1]), steps[|steps| - 1]);
    }
  }

  // ---------------------------------------------------------------- batches are fixed at the lock

  // What happens to the queue later leaves earlier segments as they were.
  lemma {:induction false} SegmentsStay<T>(s: Shared<T>, steps: seq<Step<T>>)
    ensures s.segments <= ApplyAll(s, steps).segments && s.pushed <= ApplyAll(s, steps).pushed
  {
    if steps != [] {
      SegmentsStay(s, steps[..|steps| - 1]);
    }
  }

  lemma {:induction false} ConservedStays<T(!new)>(s: Shared<T>, steps: seq<Step<T>>)
    requires Conserved(s)
    ensures Conserved(ApplyAll(s, steps))
  {
    if steps != [] {
      ConservedStays(s, steps[..|steps| - 1]);
      ApplyConserves(ApplyAll(s, steps[..|steps| - 1]), steps[|steps| - 1]);
    }
  }

  // How often the drain with this number gets a turn.
  function Turns<T>(steps: seq<Step<T>>, d: nat): nat {
    if steps == [] then 0
    else Turns(steps[..|steps| - 1], d) + if steps[|steps| - 1] == Run(d) then 1 else 0
  }

  // Each turn of a drain runs one more task of its batch, until that is used up.
  lemma {:induction false} TurnsAreUsed<T>(s: Shared<T>, steps: seq<Step<T>>, d: nat)
    requires d < |s.segments| == |s.progress| && s.segments[d].Taken? && s.progress[d] <= |s.segments[d].tasks|
    ensures var u, made := ApplyAll(s, steps), s.progress[d] + Turns(steps, d);
            && |u.progress| == |u.segments| && d < |u.progress| && u.segments[d] == s.segments[d]
            && u.progress[d] == if made < |s.segments[d].tasks| then made else |s.segments[d].tasks|
  {
    if steps != [] {
      TurnsAreUsed(s, steps[..|steps| - 1], d);
    }
  }

  // A drain runs the tasks that were pending when it took its batch, one a turn and no others,
  // whatever is pushed, taken or cleared while it runs; in particular nothing that a task of the
  // batch pushes. A budget of 0 takes all that is pending.
  lemma DrainRunsItsBatch<T(!new)>(s: Shared<T>, budget: nat, steps: seq<Step<T>>)
    requires Conserved(s) && s.pending != []
    ensures var turns, all := Turns(steps, |s.segments|), s.pending;
            var most := if budget == 0 || |all| < budget then |all| else budget;
            RanBy(ApplyAll(Apply(s, Take(budget)), steps).log, |s.segments|)
            == all[..if turns < most then turns else most]
  {
    var t := Apply(s, Take(budget));
    ApplyConserves(s, Take(budget));
    ConservedStays(t, steps);
    TurnsAreUsed(t, steps, |s.segments|);
    var u, d := ApplyAll(t, steps), |s.segments|;
    assert RanBy(u.log, d) == u.segments[d].tasks[..u.progress[d]];
  }

  // ---------------------------------------------------------------- one drainer runs in push order

  predicate Idle<T>(s: Shared<T>) {
    && |s.progress| == |s.segments|
    && forall d :: 0 <= d < |s.segments| && s.segments[d].Taken? ==> s.progress[d] == |s.segments[d].tasks|
  }

  // Drains do not overlap: one is taken only when the others have finished.
  predicate OneDrainer<T>(s: Shared<T>, steps: seq<Step<T>>) {
    steps == [] ||
    (OneDrainer(s, steps[..|steps| - 1])
     && (steps[|steps| - 1].Take? ==> Idle(ApplyAll(s, steps[..|steps| - 1]))))
  }

  function Tasks<T>(log: seq<Ran<T>>): seq<T> {
    if log == [] then [] else Tasks(log[..|log| - 1]) + [log[|log| - 1].task]
  }

  predicate NoClears<T>(steps: seq<Step<T>>) {
    forall i :: 0 <= i < |steps| ==> !steps[i].Clear?
  }

  // Everything taken before the last batch has been run, and of the last batch a prefix.
  ghost predicate InOrder<T>(s: Shared<T>) {
    && |s.progress| == |s.segments|
    && (forall d :: 0 <= d < |s.segments| ==> s.segments[d].Taken? && s.progress[d] <= |s.segments[d].tasks|)
    && (forall d :: 0 <= d < |s.segments| - 1 ==> s.progress[d] == |s.segments[d].tasks|)
    && (var n := |s.segments| - 1;
        if s.segments == [] then Tasks(s.log) == []
        else Tasks(s.log) == Flatten(s.segments[..n]) + s.segments[n].tasks[..s.progress[n]])
  }

  lemma TasksSnoc<T>(log: seq<Ran<T>>, last: Ran<T>)
    ensures Tasks(log + [last]) == Tasks(log) + [last.task]
  {
    assert (log + [last])[..|log|] == log;
  }

  lemma TakeInOrder<T>(s: Shared<T>, budget: nat)
    requires InOrder(s) && Idle(s)
    ensures InOrder(Apply(s, Take(budget)))
  {
    if s.pending != [] {
      var r, n := Apply(s, Take(budget)), |s.segments|;
      assert r.segments[..n] == s.segments;
      if n > 0 {
        assert s.segments[n - 1].tasks[..s.progress[n - 1]] == s.segments[n - 1].tasks;
      }
    }
  }

  lemma RunInOrder<T>(s: Shared<T>, d: nat)
    requires InOrder(s) && CanRun(s, d)
    ensures InOrder(Apply(s, Run(d)))
  {
    var r, n := Apply(s, Run(d)), |s.segments| - 1;
    assert d == n;
    var tasks := s.segments[n].tasks;
    TasksSnoc(s.log, r.log[|s.log|]);
    assert tasks[..s.progress[n] + 1] == tasks[..s.progress[n]] + [tasks[s.progress[n]]];
  }

  lemma {:induction false} OneDrainerInOrder<T>(steps: seq<Step<T>>)
    requires OneDrainer(New(), steps) && NoClears(steps)
    ensures InOrder(ApplyAll(New(), steps))
  {
    if steps != [] {
      var before, last := ApplyAll(New(), steps[..|steps| - 1]), steps[|steps| - 1];
      OneDrainerInOrder(steps[..|steps| - 1]);
      if last.Take? {
        TakeInOrder(before, last.budget);
      } else if last.Run? && CanRun(before, last.drain) {
        RunInOrder(before, last.drain);
      }
    }
  }

  // With drains that do not overlap and no clears, the tasks run so far and the pending ones are
  // exactly the pushes in order, whenever no drain is under way.
  lemma OneDrainerRunsInPushOrder<T(!new)>(steps: seq<Step<T>>)
    requires OneDrainer(New(), steps) && NoClears(steps) && Idle(ApplyAll(New(), steps))
    ensures Tasks(ApplyAll(New(), steps).log) + ApplyAll(New(), steps).pending == Pushes(steps)
  {
    var s := ApplyAll(New(), steps);
    NothingLostOrRunTwice(steps);
    OneDrainerInOrder(steps);
    if s.segments != [] {
      var n := |s.segments| - 1;
      assert s.segments[n].tasks[..s.progress[n]] == s.segments[n].tasks;
    }
  }

  // ---------------------------------------------------------------- progress

  function TakeCount<T>(steps: seq<Step<T>>): nat {
    if steps == [] then 0
    else TakeCount(steps[..|steps| - 1]) + if steps[|steps| - 1].Take? then 1 else 0
  }

  predicate BudgetedDrains<T>(steps: seq<Step<T>>, budget: nat) {
    forall i :: 0 <= i < |steps| ==> !steps[i].Clear? && (steps[i].Take? ==> steps[i].budget == budget)
  }

  // How many tasks have left the queue.
  function Gone<T>(s: Shared<T>): nat {
    |Flatten(s.segments)|
  }

  lemma ApplyGone<T>(s: Shared<T>, step: Step<T>)
    requires !step.Clear?
    ensures var r := Apply(s, step);
            Gone(r) == Gone(s) + if step.Take? then |Batch(s.pending, step.budget)| else 0
  {
    if step.Take? && s.pending != [] {
      FlattenSnoc(s.segments, Taken(Batch(s.pending, step.budget)));
    }
  }

  lemma TakeGone<T(!new)>(s: Shared<T>, step: Step<T>, budget: nat)
    requires Conserved(s) && budget > 0 && !step.Clear? && (step.Take? ==> step.budget == budget)
    ensures var r := Apply(s, step);
            if !step.Take? then Gone(r) == Gone(s)
            else Gone(r) == Gone(s) + budget || (Gone(r) == |s.pushed| && Gone(r) < Gone(s) + budget)
  {
    ApplyGone(s, step);
    assert Gone(s) + |s.pending| == |s.pushed|;
  }

  // What the drains among these steps may take all together.
  function Quota<T>(steps: seq<Step<T>>, budget: nat): nat {
    if steps == [] then 0
    else Quota(steps[..|steps| - 1], budget) + if steps[|steps| - 1].Take? then budget else 0
  }

  lemma {:induction false} QuotaIsProduct<T>(steps: seq<Step<T>>, budget: nat)
    ensures Quota(steps, budget) == TakeCount(steps) * budget
  {
    if steps != [] {
      QuotaIsProduct(steps[..|steps| - 1], budget);
    }
  }

  // Each drain takes a full budget unless it empties the queue.
  lemma {:induction false} GoneAfter<T(!new)>(s: Shared<T>, steps: seq<Step<T>>, budget: nat)
    requires Conserved(s) && budget > 0 && BudgetedDrains(steps, budget)
    ensures var gone, full := Gone(ApplyAll(s, steps)), Gone(s) + Quota(steps, budget);
            gone <= full && (gone == full || gone >= |s.pushed|)
  {
    if steps != [] {
      var init, last := steps[..|steps| - 1], steps[|steps| - 1];
      GoneAfter(s, init, budget);
      ConservedStays(s, init);
      PushedGrows(s, init);
      TakeGone(ApplyAll(s, init), last, budget);
    }
  }

  lemma PushedGrows<T>(s: Shared<T>, steps: seq<Step<T>>)
    ensures |s.pushed| <= |ApplyAll(s, steps).pushed|
  {
    SegmentsStay(s, steps);
  }

  lemma TimesMonotone(a: nat, b: nat, n: nat)
    requires a <= b
    ensures a * n <= b * n
  {
    assert b * n == a * n + (b - a) * n;
  }

  lemma DrainsNeeded(k: nat, m: nat, budget: nat)
    requires budget > 0
    ensures k < m * budget <==> k / budget < m
  {
    var q := k / budget;
    assert k == q * budget + k % budget;
    if q < m {
      TimesMonotone(q + 1, m, budget);
      assert (q + 1) * budget == q * budget + budget;
    } else {
      TimesMonotone(m, q, budget);
    }
  }

  // With a positive budget and no clears, the task at index k leaves the queue with the drain
  // number k / budget + 1 from now, not sooner and not later, whatever is pushed meanwhile.
  lemma TakenInTime<T(!new)>(s: Shared<T>, steps: seq<Step<T>>, budget: nat, k: nat)
    requires Conserved(s) && budget > 0 && BudgetedDrains(steps, budget) && k < |s.pending|
    ensures var r := ApplyAll(s, steps);
            && Gone(s) + k < |r.pushed| && r.pushed[Gone(s) + k] == s.pending[k]
            && (Gone(s) + k < Gone(r) <==> k / budget < TakeCount(steps))
  {
    GoneAfter(s, steps, budget);
    QuotaIsProduct(steps, budget);
    SegmentsStay(s, steps);
    DrainsNeeded(k, TakeCount(steps), budget);
    assert s.pushed[Gone(s) + k] == s.pending[k];
  }

  // ---------------------------------------------------------------- the object

  lemma {:induction false} ApplyInTwo<T>(s: Shared<T>, a: seq<Step<T>>, b: seq<Step<T>>)
    ensures ApplyAll(s, a + b) == ApplyAll(ApplyAll(s, a), b)
  {
    if |b| == 0 {
      assert a + b == a;
    } else {
      var n := |b| - 1;
      ApplyInTwo(s, a, b[..n]);
      assert (a + b)[..|a| + n] == a + b[..n];
    }
  }

  function PushSteps<T>(tasks: seq<Option<T>>): seq<Step<T>> {
    seq(|tasks|, i requires 0 <= i < |tasks| => Push(tasks[i]))
  }

  // A drainer running its batch, each task pushing what `spawn` says it pushes.
  function RunSteps<T>(batch: seq<T>, d: nat, spawn: T -> seq<Option<T>>): seq<Step<T>> {
    if |batch| == 0 then []
    else
      var n := |batch| - 1;
      RunSteps(batch[..n], d, spawn) + ([Run(d)] + PushSteps(spawn(batch[n])))
  }

  lemma RunStepsSnoc<T>(batch: seq<T>, i: nat, d: nat, spawn: T -> seq<Option<T>>)
    requires i < |batch|
    ensures RunSteps(batch[..i + 1], d, spawn)
            == RunSteps(batch[..i], d, spawn) + ([Run(d)] + PushSteps(spawn(batch[i])))
  {
    assert batch[..i + 1][..i] == batch[..i];
  }

  class TaskQueue<T> {
    var pending: seq<T>
    ghost var shared: Shared<T>

    ghost predicate Valid()
      reads this
    {
      shared.pending == pending && |shared.progress| == |shared.segments|
    }

    constructor ()
      ensures Valid() && shared == New()
    {
      pending, shared := [], New();
    }

    method Push(task: Option<T>)
      requires Valid()
      modifies this
      ensures Valid() && shared == Apply(old(shared), Step.Push(task))
    {
      shared := Apply(shared, Step.Push(task));
      if task.Some? {
        pending := pending + [task.value];
      }
    }

    // The locked section of a drain.
    method TakeBatch(budget: nat) returns (running: seq<T>)
      requires Valid()
      modifies this
      ensures Valid() && shared == Apply(old(shared), Take(budget)) && running == Batch(old(pending), budget)
    {
      shared := Apply(shared, Take(budget));
      if |pending| == 0 {
        return [];
      }
      if budget == 0 || budget >= |pending| {
        running, pending := pending, [];
      } else {
        running, pending := pending[..budget], pending[budget..];
      }
    }

    // Takes a batch and runs it outside the lock, when no other thread is at work: exactly the
    // batch is run, in order.
    method Drain(budget: nat, spawn: T -> seq<Option<T>>) returns (count: nat)
      requires Valid()
      modifies this
      ensures Valid() && count == |Batch(old(pending), budget)|
      ensures shared == ApplyAll(Apply(old(shared), Take(budget)),
                                 RunSteps(Batch(old(pending), budget), |old(shared).segments|, spawn))
      ensures Tasks(shared.log) == Tasks(old(shared).log) + Batch(old(pending), budget)
    {
      ghost var d := |shared.segments|;
      var running := TakeBatch(budget);
      if |running| == 0 {
        return 0;
      }
      RunBatch(running, d, spawn);
      return |running|;
    }

    method RunBatch(running: seq<T>, ghost d: nat, spawn: T -> seq<Option<T>>)
      requires Valid() && d < |shared.segments|
      requires shared.segments[d] == Taken(running) && shared.progress[d] == 0
      modifies this
      ensures Valid()
      ensures shared == ApplyAll(old(shared), RunSteps(running, d, spawn))
      ensures Tasks(shared.log) == Tasks(old(shared).log) + running
    {
      hide Apply, Tasks;
      for i := 0 to |running|
        invariant Valid() && shared.segments == old(shared).segments && shared.progress[d] == i
        invariant shared == ApplyAll(old(shared), RunSteps(running[..i], d, spawn))
        invariant Tasks(shared.log) == Tasks(old(shared).log) + running[..i]
      {
        RunOne(running[i], d, spawn(running[i]));
        RunStepsSnoc(running, i, d, spawn);
        ApplyInTwo(old(shared), RunSteps(running[..i], d, spawn), [Run(d)] + PushSteps(spawn(running[i])));
      }
      assert running[..|running|] == running;
    }

    // One task of the batch that drain d took, and the pushes it makes.
    method RunOne(task: T, ghost d: nat, pushes: seq<Option<T>>)
      requires Valid() && CanRun(shared, d) && shared.segments[d].tasks[shared.progress[d]] == task
      modifies this
      ensures Valid() && shared == ApplyAll(old(shared), [Run(d)] + PushSteps(pushes))
      ensures shared.segments == old(shared).segments
      ensures shared.progress == old(shared).progress[d := old(shared).progress[d] + 1]
      ensures Tasks(shared.log) == Tasks(old(shared).log) + [task]
    {
      TasksSnoc(shared.log, Ran(d, task));
      shared := Apply(shared, Run(d));
      ghost var started := shared;
      for i := 0 to |pushes|
        invariant Valid()
        invariant shared == ApplyAll(old(shared), [Run(d)] + PushSteps(pushes[..i]))
        invariant shared.segments == started.segments && shared.progress == started.progress
        invariant shared.log == started.log
      {
        var steps := [Run(d)] + PushSteps(pushes[..i + 1]);
        assert steps[..|steps| - 1] == [Run(d)] + PushSteps(pushes[..i]);
        Push(pushes[i]);
      }
      assert pushes[..|pushes|] == pushes;
    }

    method Clear()
      requires Valid()
      modifies this
      ensures Valid() && shared == Apply(old(shared), Step.Clear)
    {
      shared := Apply(shared, Step.Clear);
      pending := [];
    }
  }
}
