/**
 The auditor's side: replaying the statements alone, evaluating them as a batch, and when
 either gives back the machine that was run.
 */
module Audit {
  import opened Wrappers
  import opened Machine
  import opened Frames
  import opened Polling
  import Sorting

  /** Statements evaluated one by one, as the auditor does; a throw ends the replay. */
  function Replay(d: MachineData, ws: seq<WitnessData>): Step
    decreases |ws|
  {
    if ws == [] then Step(Done, d)
    else
      var next := EvalWitness(d, [ws[0]]);
      if next.outcome.Throw? then next else Replay(next.data, ws[1..])
  }

  /** The fields verify_contract_execution compares. */
  predicate FieldsAgree(d: MachineData, d': MachineData) {
    && d.activeAt == d'.activeAt && d.closed == d'.closed && d.closedAt == d'.closedAt
    && d.commitAt == d'.commitAt && d.engine == d'.engine && d.expiresAt == d'.expiresAt
    && d.head == d'.head && d.output == d'.output && d.step == d'.step && d.vmid == d'.vmid
  }

  /** verify_contract_execution: the statements replayed from the start give the machine at hand. */
  predicate ExecutionMatches(cfg: MachineConfig, vmdata: MachineData, ws: seq<WitnessData>) {
    && InitVM(cfg).Some?
    && var replay := Replay(InitVM(cfg).value, ws);
    replay.outcome.Done? && FieldsAgree(replay.data, vmdata)
  }

  /* ---- Replaying without the polls ---- */

  function StatementsOf(events: seq<Event>): seq<WitnessData> {
    if events == [] then []
    else
      match events[0]
      case Statements(ws) => ws + StatementsOf(events[1..])
      case Poll(_) => StatementsOf(events[1..])
  }

  ghost predicate Singles(events: seq<Event>) {
    forall e | e in events && e.Statements? :: |e.ws| == 1
  }

  /** No statement is stamped before a poll that came earlier. */
  ghost predicate PollsPrecede(events: seq<Event>) {
    forall i, j | 0 <= i < j < |events| && events[i].Poll? && events[j].Statements? ::
      forall w | w in events[j].ws :: events[i].stopAt <= w.stamp
  }

  ghost predicate NeverThrows(d: MachineData, events: seq<Event>)
    decreases |events|
  {
    events == [] || (!Apply(d, events[0]).outcome.Throw? && NeverThrows(Apply(d, events[0]).data, events[1..]))
  }

  lemma {:induction false} ReplayIgnoresError(d: MachineData, d': MachineData, ws: seq<WitnessData>)
    requires SameButError(d, d')
    ensures Replay(d, ws).outcome == Replay(d', ws).outcome
    ensures SameButError(Replay(d, ws).data, Replay(d', ws).data)
    decreases |ws|
  {
    if ws != [] {
      ReplayIgnoresError(EvalWitness(d, [ws[0]]).data, EvalWitness(d', [ws[0]]).data, ws[1..]);
    }
  }

  /** A poll before the first statement makes no difference to a replay. */
  lemma PollThenReplay(d: MachineData, t: int, ws: seq<WitnessData>)
    requires QueueOk(d) && ws != [] && t <= ws[0].stamp
    ensures var polled, direct := Replay(EvalSchedule(d, t), ws), Replay(d, ws);
            polled.outcome.Done? ==> direct.outcome.Done? && SameButError(direct.data, polled.data)
  {
    PollThenEval(d, t, [ws[0]]);
    var polled, direct := EvalWitness(EvalSchedule(d, t), [ws[0]]), EvalWitness(d, [ws[0]]);
    if !polled.outcome.Throw? {
      ReplayIgnoresError(direct.data, polled.data, ws[1..]);
    }
  }

  lemma {:induction false} FirstStatement(events: seq<Event>, t: int)
    requires events != [] && events[|events| - 1].Statements? && Singles(events)
    requires forall e | e in events && e.Statements? :: forall w | w in e.ws :: t <= w.stamp
    ensures StatementsOf(events) != [] && t <= StatementsOf(events)[0].stamp
  {
    if events[0].Poll? {
      FirstStatement(events[1..], t);
    } else {
      assert events[0] in events && events[0].ws[0] in events[0].ws;
    }
  }

  lemma HeadStatement(events: seq<Event>)
    requires Singles(events) && events != [] && events[0].Statements?
    ensures var ws := StatementsOf(events);
            ws != [] && events[0].ws == [ws[0]] && ws[1..] == StatementsOf(events[1..])
  {
    assert events[0] in events;
  }

  lemma PollIsEarly(events: seq<Event>)
    requires Singles(events) && PollsPrecede(events)
    requires events != [] && events[0].Poll? && events[|events| - 1].Statements?
    ensures StatementsOf(events) != [] && StatementsOf(events) == StatementsOf(events[1..])
    ensures events[0].stopAt <= StatementsOf(events)[0].stamp
  {
    forall e | e in events && e.Statements?
      ensures forall w | w in e.ws :: events[0].stopAt <= w.stamp
    {
      var j :| 0 <= j < |events| && events[j] == e;
    }
    FirstStatement(events, events[0].stopAt);
  }

  lemma TailFacts(events: seq<Event>)
    requires events != [] && Singles(events) && PollsPrecede(events)
    ensures Singles(events[1..]) && PollsPrecede(events[1..])
  {
    forall i, j | 0 <= i < j < |events[1..]| && events[1..][i].Poll? && events[1..][j].Statements?
      ensures forall w | w in events[1..][j].ws :: events[1..][i].stopAt <= w.stamp
    {
      assert events[i + 1].Poll? && events[j + 1].Statements?;
    }
  }

  /**
   Any interleaving of statements and polls that ends in a statement, and in which no
   evaluation throws, is reproduced by replaying its statements alone.
   */
  lemma {:induction false} ReplayReproduces(d: MachineData, events: seq<Event>)
    requires QueueOk(d) && Singles(events) && PollsPrecede(events) && NeverThrows(d, events)
    requires events == [] || events[|events| - 1].Statements?
    ensures var replay := Replay(d, StatementsOf(events));
            replay.outcome.Done? && SameButError(replay.data, Run(d, events))
    decreases |events|
  {
    if events != [] {
      TailFacts(events);
      ApplyKeepsQueue(d, events[0]);
      ReplayReproduces(Apply(d, events[0]).data, events[1..]);
      match events[0] {
        case Statements(ws) =>
          HeadStatement(events);
        case Poll(t) =>
          PollIsEarly(events);
          PollThenReplay(d, t, StatementsOf(events));
      }
    }
  }

  lemma {:induction false} AuditAccepts(cfg: MachineConfig, events: seq<Event>)
    requires InitVM(cfg).Some? && forall task | task in cfg.schedule :: 0 <= task.timer
    requires Singles(events) && PollsPrecede(events) && NeverThrows(InitVM(cfg).value, events)
    requires events == [] || events[|events| - 1].Statements?
    ensures ExecutionMatches(cfg, Run(InitVM(cfg).value, events), StatementsOf(events))
  {
    InitQueue(cfg);
    ReplayReproduces(InitVM(cfg).value, events);
    ErrorIsNotCompared(Replay(InitVM(cfg).value, StatementsOf(events)).data, Run(InitVM(cfg).value, events));
  }

  lemma ErrorIsNotCompared(d: MachineData, d': MachineData)
    requires SameButError(d, d')
    ensures FieldsAgree(d, d')
  {
    var same := d.(error := None);
    assert FieldsAgree(d, same) && FieldsAgree(same, d');
  }

  lemma CommitsShow(d: MachineData, d': MachineData)
    requires CommitsAndShifts(d, d')
    ensures FieldsAgree(d, d') <==> d'.step == d.step
  {}

  /**
   Whatever statements the audit accepts a machine with, it accepts it after one more poll
   exactly when that committed nothing.
   */
  lemma PollAfterAudit(cfg: MachineConfig, machine: MachineData, ws: seq<WitnessData>, t: int)
    requires ExecutionMatches(cfg, machine, ws)
    ensures ExecutionMatches(cfg, EvalSchedule(machine, t), ws) <==> EvalSchedule(machine, t).step == machine.step
  {
    var polled := EvalSchedule(machine, t);
    if machine.output.None? {
      RunTasksCommits(machine, GetTasks(machine, t));
      CommitsShow(machine, polled);
    }
    var replayed := Replay(InitVM(cfg).value, ws).data;
    assert FieldsAgree(replayed, polled) <==> FieldsAgree(machine, polled);
  }

  /**
   The replay never runs the schedule past the last statement: with one more poll at the
   end, the audit accepts exactly when that poll committed nothing.
   */
  lemma {:induction false} AuditAfterPoll(cfg: MachineConfig, events: seq<Event>, machine: MachineData, t: int)
    requires InitVM(cfg).Some? && forall task | task in cfg.schedule :: 0 <= task.timer
    requires Singles(events) && PollsPrecede(events) && NeverThrows(InitVM(cfg).value, events)
    requires events == [] || events[|events| - 1].Statements?
    requires IsRun(cfg, events, machine)
    ensures var polled := EvalSchedule(machine, t);
            && (ExecutionMatches(cfg, polled, StatementsOf(events)) <==> polled.step == machine.step)
            && (machine.output.None? && polled.output.Some? ==> !ExecutionMatches(cfg, polled, StatementsOf(events)))
  {
    AuditAccepts(cfg, events);
    PollAfterAudit(cfg, machine, StatementsOf(events), t);
    PollOutputs(machine, t);
  }

  lemma PollOutputs(d: MachineData, t: int)
    ensures d.output.None? && EvalSchedule(d, t).output.Some? ==> EvalSchedule(d, t).step != d.step
  {
    RunTasksCommits(d, GetTasks(d, t));
  }

  /* ---- Batches ---- */

  /** How many of the sorted statements a batch evaluation gets to. */
  function Reached(d: MachineData, stack: seq<WitnessData>): (n: nat)
    ensures n <= |stack| && (stack != [] ==> n > 0)
    decreases |stack|
  {
    if stack == [] then 0
    else
      var timed := RunSchedule(d, stack[0].stamp);
      if timed.closed then 1
      else
        var next := RunProgram(timed, stack[0]);
        if !next.outcome.Done? || next.data.closed then 1 else 1 + Reached(next.data, stack[1..])
  }

  /** The record a batch or a single evaluation returns for what its stack came to. */
  function Handled(last: Step): Step {
    match last.outcome
    case VMError(fault) => Step(Done, last.data.(error := Some(fault)))
    case _ => last
  }

  lemma EvalOne(d: MachineData, w: WitnessData)
    requires d.output.None? && d.error.None?
    ensures EvalWitness(d, [w]).outcome == Handled(EvalStack(d, [w])).outcome
    ensures !EvalWitness(d, [w]).outcome.Throw? ==> EvalWitness(d, [w]) == Handled(EvalStack(d, [w]))
  {
    assert GetStatements([w]) == [w];
    assert d.(error := None) == d;
  }

  lemma {:induction false} StackIsFold(d: MachineData, stack: seq<WitnessData>)
    requires d.output.None? && d.error.None?
    ensures var batch, fold := Handled(EvalStack(d, stack)), Replay(d, stack[..Reached(d, stack)]);
            && batch.outcome == fold.outcome
            && (batch.outcome.Done? ==> batch == fold)
    decreases |stack|
  {
    if stack != [] {
      var n := Reached(d, stack);
      EvalOne(d, stack[0]);
      var timed := RunSchedule(d, stack[0].stamp);
      var next := RunProgram(timed, stack[0]);
      ReplayHead(d, stack, n);
      if timed.closed || !next.outcome.Done? || next.data.closed {
        OneStops(d, stack);
      } else {
        GoesOn(d, stack[0]);
        StackIsFold(next.data, stack[1..]);
      }
    }
  }

  lemma ReplayHead(d: MachineData, stack: seq<WitnessData>, n: nat)
    requires 0 < n <= |stack|
    ensures var first := EvalWitness(d, [stack[0]]);
            Replay(d, stack[..n]) == if first.outcome.Throw? then first else Replay(first.data, stack[1..][..n - 1])
  {
    assert stack[..n][0] == stack[0] && stack[..n][1..] == stack[1..][..n - 1];
  }

  /** After a statement that fails, or closes the machine, the others do not matter. */
  lemma OneStops(d: MachineData, stack: seq<WitnessData>)
    requires stack != []
    requires var timed := RunSchedule(d, stack[0].stamp);
             timed.closed || !RunProgram(timed, stack[0]).outcome.Done? || RunProgram(timed, stack[0]).data.closed
    ensures EvalStack(d, [stack[0]]) == EvalStack(d, stack)
  {
  }

  /** A statement that neither fails nor closes the machine leaves a record for the next one. */
  lemma GoesOn(d: MachineData, w: WitnessData)
    requires d.output.None? && d.error.None?
    requires var timed := RunSchedule(d, w.stamp);
        !timed.closed && RunProgram(timed, w).outcome.Done? && !RunProgram(timed, w).data.closed
    ensures var next := RunProgram(RunSchedule(d, w.stamp), w).data;
            next.output.None? && next.error.None? && EvalWitness(d, [w]) == Step(Done, next)
  {
    var timed := RunSchedule(d, w.stamp);
    EvalOne(d, w);
    RunTasksCommits(d, GetTasks(d, w.stamp));
    RunProgramLater(timed, w);
    assert EvalStack(RunProgram(timed, w).data, [w][1..]) == Step(Done, RunProgram(timed, w).data);
  }

  lemma {:induction false} CutShort(d: MachineData, stack: seq<WitnessData>)
    requires Reached(d, stack) < |stack|
    ensures var last := EvalStack(d, stack); !last.outcome.Done? || last.data.closed
    decreases |stack|
  {
    var timed := RunSchedule(d, stack[0].stamp);
    var next := RunProgram(timed, stack[0]);
    if !timed.closed && next.outcome.Done? && !next.data.closed {
      CutShort(next.data, stack[1..]);
    }
  }

  /**
   A batch is the fold of single evaluations over the statements it gets to, in stamp
   order; and it gets to all of them unless one fails or the machine closes.
   */
  lemma {:induction false} BatchIsFold(d: MachineData, ws: seq<WitnessData>)
    requires ws != [] && d.output.None?
    ensures var stack := GetStatements(ws);
            var n := Reached(d.(error := None), stack);
            var batch, fold := EvalWitness(d, ws), Replay(d, stack[..n]);
            && 0 < n <= |stack|
            && batch.outcome == fold.outcome
            && (batch.outcome.Done? ==> batch == fold)
            && (n < |stack| ==> batch.outcome.Throw? || batch.data.error.Some? || batch.data.closed)
  {
    var stack := GetStatements(ws);
    var cleared := d.(error := None);
    var n := Reached(cleared, stack);
    StackIsFold(cleared, stack);
    if n < |stack| {
      CutShort(cleared, stack);
    }
    ReplayFromCleared(d, stack[..n]);
    assert EvalStack(cleared, stack) == EvalStack(d.(error := None), GetStatements(ws));
  }

  lemma ReplayFromCleared(d: MachineData, ws: seq<WitnessData>)
    requires ws != [] && d.output.None?
    ensures Replay(d, ws).outcome == Replay(d.(error := None), ws).outcome
    ensures Replay(d, ws).outcome.Done? ==> Replay(d, ws) == Replay(d.(error := None), ws)
  {
    ReplayIgnoresError(d, d.(error := None), ws);
    assert !EvalWitness(d, [ws[0]]).outcome.Throw?
        ==> EvalWitness(d, [ws[0]]) == EvalWitness(d.(error := None), [ws[0]]);
  }

  lemma {:induction false} ReplayFinal(d: MachineData, ws: seq<WitnessData>)
    requires d.output.Some?
    ensures Replay(d, ws) == Step(Done, d)
    decreases |ws|
  {
    if ws != [] {
      ReplayFinal(d, ws[1..]);
    }
  }

  lemma {:induction false} ReplayConcat(d: MachineData, a: seq<WitnessData>, b: seq<WitnessData>)
    requires Replay(d, a).outcome.Done?
    ensures Replay(d, a + b) == Replay(Replay(d, a).data, b)
    decreases |a|
  {
    if a == [] {
      assert a + b == b;
    } else {
      assert (a + b)[0] == a[0] && (a + b)[1..] == a[1..] + b;
      ReplayConcat(EvalWitness(d, [a[0]]).data, a[1..], b);
    }
  }

  /** When nothing fails and the machine does not close on null, a batch is the whole fold. */
  lemma {:induction false} BatchIsWholeFold(d: MachineData, ws: seq<WitnessData>)
    requires ws != [] && d.output.None?
    requires var batch := EvalWitness(d, ws);
             batch.outcome.Done? && batch.data.error.None? && (batch.data.closed ==> batch.data.output.Some?)
    ensures EvalWitness(d, ws) == Replay(d, GetStatements(ws))
  {
    BatchIsFold(d, ws);
    var stack := GetStatements(ws);
    FinishFold(d, stack, Reached(d.(error := None), stack), EvalWitness(d, ws).data);
  }

  lemma FinishFold(d: MachineData, stack: seq<WitnessData>, n: nat, last: MachineData)
    requires n <= |stack| && Replay(d, stack[..n]) == Step(Done, last)
    requires n < |stack| ==> last.output.Some?
    ensures Replay(d, stack) == Step(Done, last)
  {
    assert stack == stack[..n] + stack[n..];
    if n < |stack| {
      ReplayConcat(d, stack[..n], stack[n..]);
      ReplayFinal(last, stack[n..]);
    } else {
      assert stack[..n] == stack;
    }
  }

  lemma {:induction false} ReplayLater(d: MachineData, ws: seq<WitnessData>)
    ensures Later(d, Replay(d, ws).data)
    decreases |ws|
  {
    if ws != [] {
      EvalWitnessLater(d, [ws[0]]);
      ReplayLater(EvalWitness(d, [ws[0]]).data, ws[1..]);
    }
  }

  lemma LaterAgrees(d: MachineData, d': MachineData)
    requires Later(d, d')
    ensures FieldsAgree(d', d) <==> d'.step == d.step
  {
    if d'.step == d.step {
      assert d'.log == d.log;
    }
  }

  /** What is left of a list to replay decides whether all of it gives the same result as a part. */
  lemma RestDecides(d: MachineData, stack: seq<WitnessData>, n: nat, last: MachineData)
    requires n <= |stack| && Replay(d, stack[..n]) == Step(Done, last)
    ensures var all, rest := Replay(d, stack), Replay(last, stack[n..]);
            all.outcome.Done? && FieldsAgree(all.data, last) <==> rest.outcome.Done? && rest.data.step == last.step
  {
    assert stack == stack[..n] + stack[n..];
    ReplayConcat(d, stack[..n], stack[n..]);
    ReplayLater(last, stack[n..]);
    LaterAgrees(last, Replay(last, stack[n..]).data);
  }

  /**
   A session check runs its statements as one batch and then audits the result against the
   same statements one by one, which the batch has left in stamp order. It accepts exactly
   when those the batch did not get to, had they been evaluated after it, would commit nothing.
   */
  lemma {:induction false} SessionCheckIff(cfg: MachineConfig, ws: seq<WitnessData>)
    requires InitVM(cfg).Some? && ws != []
    requires EvalWitness(InitVM(cfg).value, ws).outcome.Done?
    ensures var d, stack := InitVM(cfg).value, GetStatements(ws);
            var batch := EvalWitness(d, ws).data;
            var rest := Replay(batch, stack[Reached(d, stack)..]);
            ExecutionMatches(cfg, batch, stack) <==> rest.outcome.Done? && rest.data.step == batch.step
  {
    var d, stack := InitVM(cfg).value, GetStatements(ws);
    var n := Reached(d, stack);
    assert d.(error := None) == d;
    BatchIsFold(d, ws);
    RestDecides(d, stack, n, EvalWitness(d, ws).data);
  }

  /** In particular it accepts whenever the batch got to every statement, or gave an output. */
  lemma {:induction false} SessionAccepted(cfg: MachineConfig, ws: seq<WitnessData>)
    requires InitVM(cfg).Some? && ws != []
    requires EvalWitness(InitVM(cfg).value, ws).outcome.Done?
    requires Reached(InitVM(cfg).value, GetStatements(ws)) == |ws|
        || EvalWitness(InitVM(cfg).value, ws).data.output.Some?
    ensures ExecutionMatches(cfg, EvalWitness(InitVM(cfg).value, ws).data, GetStatements(ws))
  {
    var d, stack := InitVM(cfg).value, GetStatements(ws);
    var batch := EvalWitness(d, ws).data;
    SessionCheckIff(cfg, ws);
    if batch.output.Some? {
      ReplayFinal(batch, stack[Reached(d, stack)..]);
    } else {
      assert stack[Reached(d, stack)..] == [];
    }
  }

  /** With distinct stamps a batch does not depend on the order its statements come in. */
  lemma {:induction false} BatchIgnoresOrder(d: MachineData, ws: seq<WitnessData>, ws': seq<WitnessData>)
    requires multiset(ws) == multiset(ws')
    requires forall i, j | 0 <= i < j < |ws| :: ws[i].stamp != ws[j].stamp
    ensures EvalWitness(d, ws) == EvalWitness(d, ws')
  {
    var key := (w: WitnessData) => w.stamp;
    assert Sorting.DistinctKeys(ws, key);
    Sorting.SortIgnoresOrder(ws, ws', key);
  }

  /* ---- Replaying batches ---- */

  /** The statements of a batch that its evaluation gets to, in the order it takes them. */
  function HeardOf(d: MachineData, ws: seq<WitnessData>): seq<WitnessData> {
    var stack := GetStatements(ws);
    if d.output.Some? then stack else stack[..Reached(d.(error := None), stack)]
  }

  /** The statements a run gets to, in the order it takes them. */
  function Heard(d: MachineData, events: seq<Event>): seq<WitnessData>
    decreases |events|
  {
    if events == [] then []
    else
      var next := Apply(d, events[0]).data;
      match events[0]
      case Statements(ws) => HeardOf(d, ws) + Heard(next, events[1..])
      case Poll(_) => Heard(next, events[1..])
  }

  lemma {:induction false} FirstHeard(d: MachineData, events: seq<Event>, t: int)
    requires events != [] && events[|events| - 1].Statements? && events[|events| - 1].ws != []
    requires forall e | e in events && e.Statements? :: forall w | w in e.ws :: t <= w.stamp
    ensures Heard(d, events) != [] && t <= Heard(d, events)[0].stamp
    decreases |events|
  {
    var e := events[0];
    assert e in events;
    if e.Statements? && e.ws != [] {
      var stack := GetStatements(e.ws);
      assert stack[0] in multiset(stack);
      assert Heard(d, events)[0] == stack[0];
    } else {
      var next := Apply(d, e).data;
      FirstHeard(next, events[1..], t);
      assert Heard(d, events) == Heard(next, events[1..]);
    }
  }

  /** Evaluating a batch is replaying what it gets to, the error field aside. */
  lemma BatchIsHeard(d: MachineData, ws: seq<WitnessData>)
    requires !EvalWitness(d, ws).outcome.Throw?
    ensures var replay := Replay(d, HeardOf(d, ws));
            replay.outcome.Done? && SameButError(replay.data, EvalWitness(d, ws).data)
  {
    if d.output.Some? {
      ReplayFinal(d, GetStatements(ws));
    } else if ws != [] {
      BatchIsFold(d, ws);
    }
  }

  lemma HeardTail(events: seq<Event>)
    requires events != [] && PollsPrecede(events)
    ensures PollsPrecede(events[1..])
    ensures events[0].Poll? ==>
              forall e | e in events && e.Statements? :: forall w | w in e.ws :: events[0].stopAt <= w.stamp
  {
    forall i, j | 0 <= i < j < |events[1..]| && events[1..][i].Poll? && events[1..][j].Statements?
      ensures forall w | w in events[1..][j].ws :: events[1..][i].stopAt <= w.stamp
    {
      assert events[i + 1].Poll? && events[j + 1].Statements?;
    }
    if events[0].Poll? {
      forall e | e in events && e.Statements?
        ensures forall w | w in e.ws :: events[0].stopAt <= w.stamp
      {
        var j :| 0 <= j < |events| && events[j] == e;
      }
    }
  }

  lemma ReplayAfter(d: MachineData, first: seq<WitnessData>, next: MachineData, rest: seq<WitnessData>)
    requires Replay(d, first).outcome.Done? && SameButError(Replay(d, first).data, next)
    ensures Replay(d, first + rest).outcome == Replay(next, rest).outcome
    ensures SameButError(Replay(d, first + rest).data, Replay(next, rest).data)
  {
    ReplayConcat(d, first, rest);
    ReplayIgnoresError(Replay(d, first).data, next, rest);
  }

  /**
   With batches of any size: a run in which no evaluation throws, and whose last event is a
   batch that is not empty, is reproduced by replaying, one by one and in stamp order within
   each batch, the statements that its batches got to.
   */
  lemma {:induction false} ReplayReproducesBatches(d: MachineData, events: seq<Event>)
    requires QueueOk(d) && PollsPrecede(events) && NeverThrows(d, events)
    requires events == [] || (events[|events| - 1].Statements? && events[|events| - 1].ws != [])
    ensures var replay := Replay(d, Heard(d, events));
            replay.outcome.Done? && SameButError(replay.data, Run(d, events))
    decreases |events|
  {
    if events != [] {
      var next := Apply(d, events[0]).data;
      HeardTail(events);
      ApplyKeepsQueue(d, events[0]);
      ReplayReproducesBatches(next, events[1..]);
      match events[0] {
        case Statements(ws) =>
          BatchIsHeard(d, ws);
          ReplayAfter(d, HeardOf(d, ws), next, Heard(next, events[1..]));
        case Poll(t) =>
          FirstHeard(d, events, t);
          PollThenReplay(d, t, Heard(d, events));
      }
    }
  }

  /** So the auditor accepts every such run with the statements it got to. */
  lemma {:induction false} AuditAcceptsBatches(cfg: MachineConfig, events: seq<Event>, d: MachineData)
    requires IsRun(cfg, events, d) && forall task | task in cfg.schedule :: 0 <= task.timer
    requires PollsPrecede(events) && NeverThrows(InitVM(cfg).value, events)
    requires events == [] || (events[|events| - 1].Statements? && events[|events| - 1].ws != [])
    ensures ExecutionMatches(cfg, d, Heard(InitVM(cfg).value, events))
  {
    InitQueue(cfg);
    ReplayReproducesBatches(InitVM(cfg).value, events);
    ErrorIsNotCompared(Replay(InitVM(cfg).value, Heard(InitVM(cfg).value, events)).data, d);
  }

  /* ---- What the audit compares ---- */

  /**
   Of two records, both of which the audit accepts with the same statements, the ten fields
   it compares are the same; and an accepted record with any of them changed is rejected.
   */
  lemma {:induction false} AuditBinds(cfg: MachineConfig, vm: MachineData, vm': MachineData, ws: seq<WitnessData>)
    requires ExecutionMatches(cfg, vm, ws)
    ensures ExecutionMatches(cfg, vm', ws)
       <==> && vm'.activeAt == vm.activeAt && vm'.expiresAt == vm.expiresAt && vm'.commitAt == vm.commitAt
            && vm'.closed == vm.closed && vm'.closedAt == vm.closedAt
            && vm'.engine == vm.engine && vm'.vmid == vm.vmid
            && vm'.head == vm.head && vm'.output == vm.output && vm'.step == vm.step
  {
  }

  /** So a forged output, head or closing date is rejected. */
  lemma {:induction false} ForgeryRejected(
    cfg: MachineConfig, vm: MachineData, ws: seq<WitnessData>, path: Option<string>, head: Head, at: Option<int>)
    requires ExecutionMatches(cfg, vm, ws)
    ensures ExecutionMatches(cfg, vm.(output := path), ws) <==> path == vm.output
    ensures ExecutionMatches(cfg, vm.(head := head), ws) <==> head == vm.head
    ensures ExecutionMatches(cfg, vm.(closedAt := at), ws) <==> at == vm.closedAt
  {
    AuditBinds(cfg, vm, vm.(output := path), ws);
    AuditBinds(cfg, vm, vm.(head := head), ws);
    AuditBinds(cfg, vm, vm.(closedAt := at), ws);
  }
}
