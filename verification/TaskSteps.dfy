// The goroutines of readInto and of the KV proxies: they read the stream's reader, or
// the proxy's context, some time after the call.
module TaskSteps {
  import opened Base
  import opened Objects
  import opened Programs
  import opened Potentials
  import opened Middleware
  import opened Invariants
  import opened EventSteps
  import opened LocalSteps
  import opened RequestSteps
  import opened FetchSteps
  import opened TakeSteps

  // On the request, its context and its event.

  lemma EventTasks(r: Id, q: Req, e: Evt, tasks: seq<Task>)
    requires EventInv(r, q, e)
    ensures EventInv(r, q.(tasks := tasks), e)
  {
    var q' := q.(tasks := tasks);
    assert Owed(q', e) == Owed(q, e) && DueWrites(q') == DueWrites(q);
  }

  lemma TasksChange(q: Req, tasks: seq<Task>)
    requires RequestInv(q) && !q.http.GotContext? && !q.http.Prepared?
    requires forall i :: 0 <= i < |tasks| ==> TaskInv(q, tasks[i])
    ensures RequestInv(q.(tasks := tasks))
  {
    var q' := q.(tasks := tasks);
    assert forall o :: Live(q', o) == Live(q, o) && Active(q', o) == Active(q, o);
    forall i | 0 <= i < |q'.fetches| ensures FetchInv(q', q'.fetches[i]) { assert FetchInv(q, q.fetches[i]); }
    forall i | 0 <= i < |tasks| ensures TaskInv(q', tasks[i]) { assert TaskInv(q, tasks[i]); }
  }

  lemma TrioTasks(r: Id, q: Req, x: Ctx, e: Evt, tasks: seq<Task>)
    requires Trio(r, q, x, e) && !q.http.GotContext? && !q.http.Prepared?
    requires forall i :: 0 <= i < |tasks| ==> TaskInv(q, tasks[i])
    ensures Trio(r, q.(tasks := tasks), x, e)
  {
    TasksChange(q, tasks);
    EventTasks(r, q, e, tasks);
  }

  predicate OnStack(s: Sys, r: Id, t: Task) {
    t.late.ReadInto? ==> Return(Obj(KStream, t.late.stream)) in Stack(s, r)
  }

  // A request in use changes its tasks, all of which read what is on its stack.
  lemma TasksKeep(s: Sys, r: Id, tasks: seq<Task>)
    requires Inv(s) && r < |s.reqs| && InUse(s.reqs[r]) && !s.reqs[r].http.Prepared?
    requires forall i :: 0 <= i < |tasks| ==> TaskInv(s.reqs[r], tasks[i])
    requires forall i :: 0 <= i < |tasks| ==> OnStack(s, r, tasks[i])
    ensures Inv(s.(reqs := s.reqs[r := s.reqs[r].(tasks := tasks)]))
  {
    var q := s.reqs[r];
    var s' := s.(reqs := s.reqs[r := q.(tasks := tasks)]);
    assert Trio(r, q.(tasks := tasks), s.Ctx(q.ctx), s.Evt(q.evt)) by {
      TrioInPlace(s, r);
      TrioTasks(r, q, s.Ctx(q.ctx), s.Evt(q.evt), tasks);
    }
    TasksLocal(s, s', r, tasks);
    LocalKeeps(s, s', r);
  }

  lemma TasksLocal(s: Sys, s': Sys, r: Id, tasks: seq<Task>)
    requires Inv(s) && r < |s.reqs| && InUse(s.reqs[r]) && s' == s.(reqs := s.reqs[r := s.reqs[r].(tasks := tasks)])
    requires forall i :: 0 <= i < |tasks| ==> OnStack(s, r, tasks[i])
    ensures Local(s, s', r) && HeldInv(s') && HoldingInv(s', s'.reqs[r], Stack(s, r))
  {
    assert Local(s, s', r);
    HeldKept(s, s', r);
    TasksHold(s, s', r, tasks);
  }

  lemma TasksHold(s: Sys, s': Sys, r: Id, tasks: seq<Task>)
    requires Inv(s) && r < |s.reqs| && InUse(s.reqs[r]) && s' == s.(reqs := s.reqs[r := s.reqs[r].(tasks := tasks)])
    requires forall i :: 0 <= i < |tasks| ==> OnStack(s, r, tasks[i])
    ensures HoldingInv(s', s'.reqs[r], Stack(s, r))
  {
    assert HoldingInv(s, s.reqs[r], Stack(s, r)) by { InPlace(s, r); }
  }

  // What the script holds is on the stack, so a late read can only be about that.
  lemma StartedOnStack(s: Sys, r: Id, late: Late)
    requires Inv(s) && r < |s.reqs| && InUse(s.reqs[r]) && CanStart(s, r, late)
    ensures late.UseKV? ==> s.reqs[r].kvRead
    ensures late.ReadInto? ==> Return(Obj(KStream, late.stream)) in Stack(s, r)
  {
    InPlace(s, r);
  }

  lemma OldTasks(s: Sys, r: Id)
    requires Inv(s) && r < |s.reqs| && InUse(s.reqs[r])
    ensures TasksInv(s.reqs[r])
    ensures forall i :: 0 <= i < |s.reqs[r].tasks| ==> OnStack(s, r, s.reqs[r].tasks[i])
  {
    InPlace(s, r);
    assert RequestInv(s.reqs[r]) by { assert ReqInv(s, r); }
  }

  lemma KeepsStartTask(s: Sys, r: Id, o: Owner, late: Late)
    requires Inv(s) && r < |s.reqs| && Active(s.reqs[r], o) && CanStart(s, r, late)
    ensures Inv(s.SetReq(r, s.reqs[r].(tasks := s.reqs[r].tasks + [Task(o, late, InFlight)])))
  {
    LiveInUse(s, r, o);
    assert !s.reqs[r].http.Prepared? by { assert ReqInv(s, r) && RequestInv(s.reqs[r]); }
    StartedOnStack(s, r, late);
    OldTasks(s, r);
    OneTaskMore(s, r, Task(o, late, InFlight));
    TasksKeep(s, r, s.reqs[r].tasks + [Task(o, late, InFlight)]);
  }

  lemma OneTaskMore(s: Sys, r: Id, t: Task)
    requires r < |s.reqs| && TasksInv(s.reqs[r]) && TaskInv(s.reqs[r], t)
    requires forall i :: 0 <= i < |s.reqs[r].tasks| ==> OnStack(s, r, s.reqs[r].tasks[i])
    requires OnStack(s, r, t)
    ensures var tasks := s.reqs[r].tasks + [t];
      forall i :: 0 <= i < |tasks| ==> TaskInv(s.reqs[r], tasks[i]) && OnStack(s, r, tasks[i])
  {}

  // A task that has not settled keeps its request in use.
  lemma TaskInUse(s: Sys, r: Id, i: nat)
    requires Inv(s) && r < |s.reqs| && i < |s.reqs[r].tasks| && !s.reqs[r].tasks[i].pc.TaskDone?
    ensures InUse(s.reqs[r]) && !s.reqs[r].http.Prepared? && Active(s.reqs[r], s.reqs[r].tasks[i].owner)
  {
    assert RequestInv(s.reqs[r]) && TaskInv(s.reqs[r], s.reqs[r].tasks[i]) by { assert ReqInv(s, r); }
    LiveInUse(s, r, s.reqs[r].tasks[i].owner);
  }

  // What the goroutine finds: the stream has its reader, and the KV proxy is bound
  // to the context of the request that made the call.
  lemma TaskFinds(s: Sys, r: Id, i: nat)
    requires Inv(s) && r < |s.reqs| && i < |s.reqs[r].tasks| && !s.reqs[r].tasks[i].pc.TaskDone?
    ensures match s.reqs[r].tasks[i].late
            case ReadInto(t) => s.Stream(t).reader && Return(Obj(KStream, t)) in Stack(s, r)
            case UseKV => s.Evt(s.reqs[r].evt).kv == Some(s.reqs[r].ctx)
  {
    TaskInUse(s, r, i);
    OldTasks(s, r);
    var st := Stack(s, r);
    match s.reqs[r].tasks[i].late {
      case ReadInto(t) =>
        assert Return(Obj(KStream, t)) in st;
        var j :| 0 <= j < |st| && st[j] == Return(Obj(KStream, t));
        assert EntryInv(s, s.reqs[r].ctx, st, j) by { assert ReqInv(s, r) && OpenInv(s, r); }
      case UseKV =>
        assert TaskInv(s.reqs[r], s.reqs[r].tasks[i]);
        InPlace(s, r);
    }
  }

  // One task moves on.
  lemma TaskMoves(s: Sys, r: Id, i: nat, pc: TaskPc)
    requires Inv(s) && r < |s.reqs| && i < |s.reqs[r].tasks| && !s.reqs[r].tasks[i].pc.TaskDone?
    requires pc.Queued? && s.reqs[r].tasks[i].late.UseKV? ==> pc.found == Some(s.reqs[r].ctx)
    ensures Inv(s.(reqs := s.reqs[r := SetTask(s.reqs[r], i, pc)]))
  {
    TaskInUse(s, r, i);
    OldTasks(s, r);
    var q := s.reqs[r];
    assert TaskInv(q, q.tasks[i]);
    TasksKeep(s, r, q.tasks[i := q.tasks[i].(pc := pc)]);
  }

  lemma KeepsRunTask(s: Sys, r: Id, i: nat)
    requires Inv(s) && r < |s.reqs| && i < |s.reqs[r].tasks| && s.reqs[r].tasks[i].pc.InFlight?
    ensures Inv(DoRunTask(s, r, i))
  {
    TaskFinds(s, r, i);
    TaskMoves(s, r, i, Queued(if s.reqs[r].tasks[i].late.UseKV? then Some(s.reqs[r].ctx) else None));
  }

  lemma KeepsEndTask(s: Sys, r: Id, i: nat)
    requires Inv(s) && r < |s.reqs| && i < |s.reqs[r].tasks| && s.reqs[r].tasks[i].pc.Queued?
    ensures Inv(s.SetReq(r, SetTask(s.reqs[r], i, TaskDone)))
  {
    TaskMoves(s, r, i, TaskDone);
  }
}
