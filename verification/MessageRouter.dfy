/** Per-session serialization of agent runs: one run per session, a first-in first-out queue behind it, and
    a drain when a run finishes. */
module MessageRouter {
  import opened Messages

  /** An inbound message; `command` is the name the command matcher reads from its text, if any. */
  datatype Inbound = Inbound(text: string, command: Option<string>)

  /** `started` logs, per session, the messages whose run was started, in order. */
  datatype State = State(
    runs: map<string, Inbound>, pending: map<string, seq<Inbound>>, stopping: bool,
    commands: set<string>, agentReady: bool, started: map<string, seq<Inbound>>)

  datatype Step =
    | Receive(session: string, inbound: Inbound)
    | Finish(session: string)
    | SetCommands(commands: set<string>)
    | SetAgent(ready: bool)
    | BeginStop
    | EndStop

  function Log(m: map<string, seq<Inbound>>, session: string): seq<Inbound> {
    if session in m then m[session] else []
  }

  function Queue(s: State, session: string): seq<Inbound> {
    Log(s.pending, session)
  }

  predicate IsCommand(s: State, m: Inbound) {
    m.command.Some? && m.command.value in s.commands
  }

  function Started(s: State, session: string, m: Inbound): State {
    s.(runs := s.runs[session := m], started := s.started[session := Log(s.started, session) + [m]])
  }

  /** A registered command is answered at once; otherwise the message starts a run or waits behind one. */
  function Dispatched(s: State, session: string, m: Inbound): State {
    if IsCommand(s, m) || s.stopping || !s.agentReady then s
    else if session in s.runs then s.(pending := s.pending[session := Queue(s, session) + [m]])
    else Started(s, session, m)
  }

  /** The next queued message of the session is dispatched anew. */
  function Drained(s: State, session: string): State {
    var queue := Queue(s, session);
    if queue == [] then s
    else
      var rest := if |queue| == 1 then s.pending - {session} else s.pending[session := queue[1..]];
      Dispatched(s.(pending := rest), session, queue[0])
  }

  function Finished(s: State, session: string): State {
    var t := s.(runs := s.runs - {session});
    if s.stopping then t.(pending := t.pending - {session}) else Drained(t, session)
  }

  /** Stopping ends once no run is left. */
  predicate Enabled(s: State, step: Step) {
    match step
    case Finish(session) => session in s.runs
    case EndStop => s.stopping && s.runs == map[]
    case _ => true
  }

  function Apply(s: State, step: Step): State {
    match step
    case Receive(session, m) => Dispatched(s, session, m)
    case Finish(session) => Finished(s, session)
    case SetCommands(commands) => s.(commands := commands)
    case SetAgent(ready) => s.(agentReady := ready)
    case BeginStop => s.(stopping := true)
    case EndStop => s.(pending := map[])
  }

  // ---- The invariant while commands are fixed and the router is not stopping ----

  /** Whoever waits, waits behind a run; nothing that waits is a command. */
  predicate Served(s: State, session: string) {
    && (session in s.pending ==> s.pending[session] != [] && session in s.runs)
    && (forall m :: m in Queue(s, session) ==> !IsCommand(s, m))
  }

  ghost predicate Inv(s: State) {
    !s.stopping && s.agentReady && forall session :: Served(s, session)
  }

  predicate IsTraffic(step: Step) {
    step.Receive? || step.Finish?
  }

  lemma TrafficKeepsInv(s: State, step: Step)
    requires Inv(s) && Enabled(s, step) && IsTraffic(step)
    ensures Inv(Apply(s, step))
    ensures Apply(s, step).commands == s.commands
  {
    assert Served(s, step.session);
    forall session ensures Served(Apply(s, step), session) {
      assert Served(s, session);
      if step.Receive? {
        ReceiveServes(s, step.session, step.inbound, session);
      } else {
        FinishServes(s, step.session, session);
      }
    }
    if step.Finish? && Queue(s, step.session) != [] {
      assert !IsCommand(s, Queue(s, step.session)[0]);
    }
  }

  lemma ReceiveServes(s: State, at: string, m: Inbound, session: string)
    requires !s.stopping && s.agentReady && Served(s, at) && Served(s, session)
    ensures Served(Dispatched(s, at, m), session)
  {
    assert forall x :: x in Queue(s, at) + [m] ==> x in Queue(s, at) || x == m;
    assert forall x :: IsCommand(Dispatched(s, at, m), x) == IsCommand(s, x);
  }

  lemma FinishServes(s: State, at: string, session: string)
    requires !s.stopping && s.agentReady && Served(s, at) && Served(s, session)
    ensures Served(Finished(s, at), session)
  {
    var t, queue := Finished(s, at), Queue(s, at);
    assert at != session ==> Queue(t, session) == Queue(s, session);
    assert queue != [] ==> !IsCommand(s, queue[0]) && Queue(t, at) == queue[1..];
    assert forall m :: m in Queue(t, at) ==> m in queue;
    assert forall m :: IsCommand(t, m) == IsCommand(s, m);
  }

  // ---- Whole runs ----

  predicate CanRun(s: State, steps: seq<Step>)
    decreases |steps|
  {
    steps == [] || (Enabled(s, steps[0]) && CanRun(Apply(s, steps[0]), steps[1..]))
  }

  function Exec(s: State, steps: seq<Step>): State
    decreases |steps|
  {
    if steps == [] then s else Exec(Apply(s, steps[0]), steps[1..])
  }

  /** The messages for one session that ask for a run, in arrival order. */
  function Arrivals(commands: set<string>, steps: seq<Step>, session: string): seq<Inbound> {
    if steps == [] then []
    else
      var step := steps[0];
      if step.Receive? && step.session == session && !(step.inbound.command.Some? && step.inbound.command.value in commands)
      then [step.inbound] + Arrivals(commands, steps[1..], session)
      else Arrivals(commands, steps[1..], session)
  }

  function Finishes(steps: seq<Step>, session: string): nat {
    if steps == [] then 0
    else (if steps[0] == Finish(session) then 1 else 0) + Finishes(steps[1..], session)
  }

  predicate AllTraffic(steps: seq<Step>) {
    forall k :: 0 <= k < |steps| ==> IsTraffic(steps[k])
  }

  /** Everything a session asked for so far: what was started, then what waits. */
  function Asked(s: State, session: string): seq<Inbound> {
    Log(s.started, session) + Queue(s, session)
  }

  function ActiveCount(s: State, session: string): nat {
    if session in s.runs then 1 else 0
  }

  lemma ReceiveStep(s: State, at: string, m: Inbound, session: string)
    requires !s.stopping && s.agentReady && Served(s, at)
    ensures var t := Dispatched(s, at, m);
      && Asked(t, session) == (if at == session && !IsCommand(s, m) then Asked(s, session) + [m] else Asked(s, session))
      && |Log(t.started, session)| - ActiveCount(t, session) == |Log(s.started, session)| - ActiveCount(s, session)
  {
    if at == session && !IsCommand(s, m) {
      var log, queue := Log(s.started, session), Queue(s, session);
      Assoc(log, queue, [m]);
      assert log + [] == log && (log + [m]) + [] == log + [m];
    }
  }

  lemma FinishStep(s: State, at: string, session: string)
    requires !s.stopping && s.agentReady && Served(s, at) && at in s.runs
    ensures var t := Finished(s, at);
      && Asked(t, session) == Asked(s, session)
      && |Log(t.started, session)| - ActiveCount(t, session)
         == |Log(s.started, session)| - ActiveCount(s, session) + if at == session then 1 else 0
  {
    var log, queue := Log(s.started, at), Queue(s, at);
    if queue != [] {
      assert !IsCommand(s, queue[0]);
      assert queue == [queue[0]] + queue[1..];
      Assoc(log, [queue[0]], queue[1..]);
    }
  }

  /** One step: an arrival is appended to what was asked for, nothing else changes it; and starts exceed
      finishes by the active run. */
  lemma TrafficStep(s: State, step: Step, session: string)
    requires Inv(s) && Enabled(s, step) && IsTraffic(step)
    ensures Asked(Apply(s, step), session) == Asked(s, session) + Arrivals(s.commands, [step], session)
    ensures |Log(Apply(s, step).started, session)| - ActiveCount(Apply(s, step), session)
         == |Log(s.started, session)| - ActiveCount(s, session) + Finishes([step], session)
  {
    assert Served(s, step.session);
    assert [step][1..] == [];
    assert Asked(s, session) + [] == Asked(s, session);
    match step
    case Receive(at, m) => ReceiveStep(s, at, m, session);
    case Finish(at) => FinishStep(s, at, session);
  }

  lemma {:induction false} RunsAreSerialized(s: State, steps: seq<Step>, session: string)
    requires Inv(s) && CanRun(s, steps) && AllTraffic(steps)
    ensures var t := Exec(s, steps);
      && Inv(t)
      && Asked(t, session) == Asked(s, session) + Arrivals(s.commands, steps, session)
      && |Log(t.started, session)| - ActiveCount(t, session)
         == |Log(s.started, session)| - ActiveCount(s, session) + Finishes(steps, session)
    decreases |steps|
  {
    if steps == [] {
      assert Asked(s, session) + [] == Asked(s, session);
    } else {
      var step, rest := steps[0], steps[1..];
      TrafficKeepsInv(s, step);
      TrafficStep(s, step, session);
      RunsAreSerialized(Apply(s, step), rest, session);
      assert [step][1..] == [];
      Assoc(Asked(s, session), Arrivals(s.commands, [step], session), Arrivals(s.commands, rest, session));
      assert Arrivals(s.commands, steps, session)
          == Arrivals(s.commands, [step], session) + Arrivals(s.commands, rest, session);
    }
  }

  function Initial(commands: set<string>): State {
    State(map[], map[], false, commands, true, map[])
  }

  /** From an empty router: every requested run is started in arrival order, the rest waits behind exactly
      one active run, and starts never outnumber finishes by more than one. */
  lemma FirstInFirstOut(commands: set<string>, steps: seq<Step>, session: string)
    requires CanRun(Initial(commands), steps) && AllTraffic(steps)
    ensures var t := Exec(Initial(commands), steps);
      && Log(t.started, session) + Queue(t, session) == Arrivals(commands, steps, session)
      && (Queue(t, session) != [] ==> session in t.runs)
      && Finishes(steps, session) <= |Log(t.started, session)| <= Finishes(steps, session) + 1
      && (session in t.runs <==> |Log(t.started, session)| == Finishes(steps, session) + 1)
  {
    var s := Initial(commands);
    assert forall i :: Served(s, i);
    RunsAreSerialized(s, steps, session);
    assert Asked(s, session) + Arrivals(commands, steps, session) == Arrivals(commands, steps, session);
    assert Served(Exec(s, steps), session);
  }

  // ---- When commands or the agent change while messages wait ----

  predicate WaitsBehindRun(s: State, session: string) {
    Queue(s, session) != [] ==> session in s.runs
  }

  /** The next message of the queue would start a run. */
  predicate HeadStarts(s: State, session: string)
    requires Queue(s, session) != []
  {
    s.agentReady && !IsCommand(s, Queue(s, session)[0])
  }

  /** A run ends, and the one message drained after it starts none although more are waiting. */
  predicate Strands(s: State, step: Step) {
    step.Finish? && !s.stopping && |Queue(s, step.session)| > 1 && !HeadStarts(s, step.session)
  }

  /** A drained message that has become a command, or finds no agent, starts nothing: exactly then the rest of
      the queue is left without a run. */
  lemma DrainStrandsQueue(s: State, session: string)
    requires session in s.runs
    ensures WaitsBehindRun(Finished(s, session), session)
        <==> s.stopping || |Queue(s, session)| <= 1 || HeadStarts(s, session)
  {
    var queue := Queue(s, session);
    if !s.stopping && |queue| > 1 {
      var t := s.(runs := s.runs - {session}, pending := s.pending[session := queue[1..]]);
      assert Finished(s, session) == Dispatched(t, session, queue[0]);
    }
  }

  ghost predicate AllBehind(s: State) {
    forall session :: WaitsBehindRun(s, session)
  }

  lemma StepStaysBehind(s: State, step: Step)
    requires AllBehind(s) && Enabled(s, step)
    ensures AllBehind(Apply(s, step)) <==> !Strands(s, step)
  {
    var t := Apply(s, step);
    if step.Finish? {
      DrainStrandsQueue(s, step.session);
      assert WaitsBehindRun(t, step.session) <==> !Strands(s, step);
    }
    forall session ensures WaitsBehindRun(t, session) || Strands(s, step) {
      assert WaitsBehindRun(s, session);
    }
  }

  /** At every moment of the run every queue waits behind a run of its session. */
  ghost predicate AlwaysBehind(s: State, steps: seq<Step>)
    decreases |steps|
  {
    AllBehind(s) && (steps == [] || AlwaysBehind(Apply(s, steps[0]), steps[1..]))
  }

  predicate NeverStrands(s: State, steps: seq<Step>)
    decreases |steps|
  {
    steps == [] || (!Strands(s, steps[0]) && NeverStrands(Apply(s, steps[0]), steps[1..]))
  }

  /** Over every run, with commands and agent changing and the router stopping at any time: all queues always
      wait behind runs exactly when no finish meets a queue longer than one whose head starts no run. */
  lemma {:induction false} QueuesStayBehind(s: State, steps: seq<Step>)
    requires AllBehind(s) && CanRun(s, steps)
    ensures AlwaysBehind(s, steps) <==> NeverStrands(s, steps)
    decreases |steps|
  {
    if steps != [] {
      StepStaysBehind(s, steps[0]);
      if !Strands(s, steps[0]) {
        QueuesStayBehind(Apply(s, steps[0]), steps[1..]);
      }
    }
  }

  // ---- Arrival order ----

  /** `a` is what is left of `b` after some messages were taken out. */
  predicate InOrderOf(a: seq<Inbound>, b: seq<Inbound>) {
    a == []
    || (b != [] && InOrderOf(a, b[..|b| - 1]))
    || (b != [] && a[|a| - 1] == b[|b| - 1] && InOrderOf(a[..|a| - 1], b[..|b| - 1]))
  }

  lemma {:induction false} InOrderSelf(a: seq<Inbound>)
    ensures InOrderOf(a, a)
  {
    if a != [] {
      InOrderSelf(a[..|a| - 1]);
    }
  }

  lemma {:induction false} InOrderElements(a: seq<Inbound>, b: seq<Inbound>)
    requires InOrderOf(a, b)
    ensures forall m :: m in a ==> m in b
    decreases |b|
  {
    if a != [] {
      var n, k := |b| - 1, |a| - 1;
      if InOrderOf(a, b[..n]) {
        InOrderElements(a, b[..n]);
      } else {
        InOrderElements(a[..k], b[..n]);
        assert a == a[..k] + [a[k]];
      }
    }
  }

  lemma {:induction false} InOrderTrans(a: seq<Inbound>, b: seq<Inbound>, c: seq<Inbound>)
    requires InOrderOf(a, b) && InOrderOf(b, c)
    ensures InOrderOf(a, c)
    decreases |c|
  {
    if a != [] {
      var k, m, n := |a| - 1, |b| - 1, |c| - 1;
      if InOrderOf(b, c[..n]) {
        InOrderTrans(a, b, c[..n]);
      } else if InOrderOf(a, b[..m]) {
        InOrderTrans(a, b[..m], c[..n]);
      } else {
        InOrderTrans(a[..k], b[..m], c[..n]);
      }
    }
  }

  lemma InOrderMore(a: seq<Inbound>, b: seq<Inbound>, m: Inbound)
    requires InOrderOf(a, b)
    ensures InOrderOf(a, b + [m]) && InOrderOf(a + [m], b + [m])
  {
    assert (a + [m])[..|a|] == a && (b + [m])[..|b|] == b;
  }

  lemma {:induction false} InOrderAppend(a: seq<Inbound>, b: seq<Inbound>, rest: seq<Inbound>)
    requires InOrderOf(a, b)
    ensures InOrderOf(a + rest, b + rest) && InOrderOf(a, b + rest)
    decreases |rest|
  {
    if rest == [] {
      assert a + rest == a && b + rest == b;
    } else {
      var n := |rest| - 1;
      InOrderAppend(a, b, rest[..n]);
      assert rest == rest[..n] + [rest[n]];
      Assoc(a, rest[..n], [rest[n]]);
      Assoc(b, rest[..n], [rest[n]]);
      InOrderMore(a + rest[..n], b + rest[..n], rest[n]);
      InOrderMore(a, b + rest[..n], rest[n]);
    }
  }

  /** What the step brings in for the session. */
  function Brought(step: Step, session: string): seq<Inbound> {
    if step.Receive? && step.session == session then [step.inbound] else []
  }

  /** A message starts a run while older ones of its session wait without one. */
  predicate Overtakes(s: State, step: Step, session: string) {
    && step.Receive? && step.session == session && Queue(s, session) != [] && session !in s.runs
    && !s.stopping && s.agentReady && !IsCommand(s, step.inbound)
  }

  /** Then it is started before them. */
  lemma OvertakingStep(s: State, step: Step, session: string)
    requires Overtakes(s, step, session)
    ensures Asked(Apply(s, step), session) == (Log(s.started, session) + [step.inbound]) + Queue(s, session)
  {
  }

  /** Any other step keeps what was asked for in order: messages only drop out or join at the end. */
  lemma OrderedStep(s: State, step: Step, session: string)
    requires Enabled(s, step) && !Overtakes(s, step, session)
    ensures InOrderOf(Asked(Apply(s, step), session), Asked(s, session) + Brought(step, session))
  {
    var t, log, queue := Apply(s, step), Log(s.started, session), Queue(s, session);
    InOrderSelf(log + queue);
    InOrderSelf(log);
    assert (log + queue) + [] == log + queue && log + [] == log;
    if step.Receive? && step.session == session {
      ReceivedInOrder(s, session, step.inbound);
    } else if step == Finish(session) {
      FinishedInOrder(s, session);
    } else if step.EndStop? {
      InOrderAppend(log, log, queue);
    } else {
      assert Asked(t, session) == log + queue;
    }
  }

  /** What is asked for once a run has ended: the drained message moves to the front part, or drops out. */
  lemma AskedOnceFinished(s: State, session: string)
    ensures var log, queue, after := Log(s.started, session), Queue(s, session), Asked(Finished(s, session), session);
      && (s.stopping || queue == [] ==> after == log)
      && (!s.stopping && queue != [] ==>
           after == if HeadStarts(s, session) then (log + [queue[0]]) + queue[1..] else log + queue[1..])
  {
  }

  lemma FinishedInOrder(s: State, session: string)
    requires session in s.runs
    ensures InOrderOf(Asked(Finished(s, session), session), Asked(s, session))
  {
    var log, queue := Log(s.started, session), Queue(s, session);
    AskedOnceFinished(s, session);
    if s.stopping || queue == [] {
      InOrderSelf(log);
      InOrderAppend(log, log, queue);
    } else {
      InOrderSelf(log + queue);
      DrainedInOrder(log, queue);
    }
  }

  lemma ReceivedInOrder(s: State, session: string, m: Inbound)
    requires !Overtakes(s, Receive(session, m), session)
    ensures InOrderOf(Asked(Dispatched(s, session, m), session), Asked(s, session) + [m])
  {
    var log, queue := Log(s.started, session), Queue(s, session);
    InOrderSelf(log + queue);
    InOrderMore(log + queue, log + queue, m);
    Assoc(log, queue, [m]);
    if queue == [] {
      assert log + queue == log && (log + [m]) + [] == log + [m];
    }
  }

  lemma DrainedInOrder(log: seq<Inbound>, queue: seq<Inbound>)
    requires queue != []
    ensures (log + [queue[0]]) + queue[1..] == log + queue
    ensures InOrderOf(log + queue[1..], log + queue)
  {
    assert queue == [queue[0]] + queue[1..];
    Assoc(log, [queue[0]], queue[1..]);
    InOrderSelf(log);
    InOrderMore(log, log, queue[0]);
    InOrderAppend(log, log + [queue[0]], queue[1..]);
  }

  /** At every moment of the run what was started, then what waits, is in the order of `arrived`. */
  predicate AlwaysInOrder(s: State, arrived: seq<Inbound>, steps: seq<Step>, session: string)
    decreases |steps|
  {
    && InOrderOf(Asked(s, session), arrived)
    && (steps == [] || AlwaysInOrder(Apply(s, steps[0]), arrived + Brought(steps[0], session), steps[1..], session))
  }

  predicate NeverOvertakes(s: State, steps: seq<Step>, session: string)
    decreases |steps|
  {
    steps == [] || (!Overtakes(s, steps[0], session) && NeverOvertakes(Apply(s, steps[0]), steps[1..], session))
  }

  /** No message of the session arrives twice. */
  predicate AllNew(arrived: seq<Inbound>, steps: seq<Step>, session: string)
    decreases |steps|
  {
    steps == []
    || ((forall m :: m in Brought(steps[0], session) ==> m !in arrived)
        && AllNew(arrived + Brought(steps[0], session), steps[1..], session))
  }

  /** Over every run: the messages of a session are started in arrival order exactly when none overtakes a queue
      without a run. */
  lemma {:induction false} OrderIsKept(s: State, arrived: seq<Inbound>, steps: seq<Step>, session: string)
    requires CanRun(s, steps) && InOrderOf(Asked(s, session), arrived) && AllNew(arrived, steps, session)
    ensures AlwaysInOrder(s, arrived, steps, session) <==> NeverOvertakes(s, steps, session)
    decreases |steps|
  {
    if steps != [] {
      var step, brought := steps[0], Brought(steps[0], session);
      var t := Apply(s, step);
      if Overtakes(s, step, session) {
        OvertakenIsOutOfOrder(s, arrived, step, session);
      } else {
        OrderedStep(s, step, session);
        InOrderAppend(Asked(s, session), arrived, brought);
        InOrderTrans(Asked(t, session), Asked(s, session) + brought, arrived + brought);
        OrderIsKept(t, arrived + brought, steps[1..], session);
      }
    }
  }

  lemma OvertakenIsOutOfOrder(s: State, arrived: seq<Inbound>, step: Step, session: string)
    requires Overtakes(s, step, session) && step.inbound !in arrived && InOrderOf(Asked(s, session), arrived)
    ensures !InOrderOf(Asked(Apply(s, step), session), arrived + [step.inbound])
  {
    var m, queue := step.inbound, Queue(s, session);
    var after := Asked(Apply(s, step), session);
    OvertakingStep(s, step, session);
    assert after[|Log(s.started, session)|] == m;
    assert m in after[..|after| - 1];
    assert (arrived + [m])[..|arrived|] == arrived;
    if InOrderOf(after, arrived + [m]) {
      if InOrderOf(after, arrived) {
        InOrderElements(after, arrived);
      } else {
        InOrderElements(after[..|after| - 1], arrived);
      }
      assert false;
    }
  }

  /** Where nothing is stranded nothing is overtaken. */
  lemma {:induction false} BehindIsInOrder(s: State, steps: seq<Step>, session: string)
    requires AllBehind(s) && CanRun(s, steps) && NeverStrands(s, steps)
    ensures NeverOvertakes(s, steps, session)
    decreases |steps|
  {
    assert WaitsBehindRun(s, session);
    if steps != [] {
      StepStaysBehind(s, steps[0]);
      BehindIsInOrder(Apply(s, steps[0]), steps[1..], session);
    }
  }

  lemma FirstStep(s: State, step: Step, rest: seq<Step>)
    ensures Exec(s, [step] + rest) == Exec(Apply(s, step), rest)
    ensures CanRun(s, [step] + rest) <==> Enabled(s, step) && CanRun(Apply(s, step), rest)
    ensures NeverStrands(s, [step] + rest) <==> !Strands(s, step) && NeverStrands(Apply(s, step), rest)
  {
    assert ([step] + rest)[1..] == rest;
  }

  function Plain(text: string): Inbound {
    Inbound(text, Some(text))
  }

  /** Three messages of a session arrive. */
  function ThreeArrive(session: string, later: seq<Step>): seq<Step> {
    [Receive(session, Plain("a"))] + ([Receive(session, Plain("b"))] + ([Receive(session, Plain("c"))] + later))
  }

  function Waiting(session: string): State {
    State(map[session := Plain("a")], map[session := [Plain("b"), Plain("c")]], false, {}, true, map[session := [Plain("a")]])
  }

  lemma TwoWait(session: string, later: seq<Step>)
    ensures Exec(Initial({}), ThreeArrive(session, later)) == Exec(Waiting(session), later)
    ensures CanRun(Initial({}), ThreeArrive(session, later)) == CanRun(Waiting(session), later)
    ensures NeverStrands(Initial({}), ThreeArrive(session, later)) == NeverStrands(Waiting(session), later)
  {
    var s := Initial({});
    var a, b, c := Receive(session, Plain("a")), Receive(session, Plain("b")), Receive(session, Plain("c"));
    FirstStep(s, a, [b] + ([c] + later));
    FirstStep(Apply(s, a), b, [c] + later);
    FirstStep(Apply(Apply(s, a), b), c, later);
    var first := Apply(s, a);
    assert Log(s.started, session) + [Plain("a")] == [Plain("a")];
    assert first == State(map[session := Plain("a")], map[], false, {}, true, map[session := [Plain("a")]]);
    assert [Plain("b")] + [Plain("c")] == [Plain("b"), Plain("c")];
    assert Queue(Apply(first, b), session) == [Plain("b")];
    assert Apply(Apply(first, b), c) == Waiting(session);
  }

  /** The first waiting message has become a command when the run ends: the second is left without a run, and a
      message that arrives later is started before it. */
  lemma QueueIsOvertaken(session: string)
    ensures var steps := ThreeArrive(session, [SetCommands({"b"})] + ([Finish(session)] + ([Receive(session, Plain("d"))] + [])));
      && CanRun(Initial({}), steps) && !NeverStrands(Initial({}), steps)
      && Queue(Exec(Initial({}), steps), session) == [Plain("c")]
      && Log(Exec(Initial({}), steps).started, session) == [Plain("a"), Plain("d")]
  {
    var s, change, finish, late := Waiting(session), SetCommands({"b"}), Finish(session), Receive(session, Plain("d"));
    TwoWait(session, [change] + ([finish] + ([late] + [])));
    FirstStep(s, change, [finish] + ([late] + []));
    FirstStep(Apply(s, change), finish, [late] + []);
    FirstStep(Apply(Apply(s, change), finish), late, []);
  }

  /** The agent is removed before the run ends: the first waiting message is lost, the second left without a run. */
  lemma QueueLosesAgent(session: string)
    ensures var steps := ThreeArrive(session, [SetAgent(false)] + ([Finish(session)] + []));
      && CanRun(Initial({}), steps) && !NeverStrands(Initial({}), steps)
      && Queue(Exec(Initial({}), steps), session) == [Plain("c")]
      && Exec(Initial({}), steps).runs == map[]
  {
    var s, change, finish := Waiting(session), SetAgent(false), Finish(session);
    TwoWait(session, [change] + ([finish] + []));
    FirstStep(s, change, [finish] + []);
    FirstStep(Apply(s, change), finish, []);
  }

  // ---- Stopping ----

  lemma StoppingStep(s: State, step: Step, session: string)
    requires s.stopping && Enabled(s, step)
    ensures var t := Apply(s, step);
      && t.stopping && t.started == s.started
      && (session in t.runs <==> session in s.runs && step != Finish(session))
      && (session in t.pending <==> session in s.pending && step != Finish(session) && !step.EndStop?)
  {
  }

  /** Once stopping, whatever arrives and in whatever order runs end: nothing starts, a session has a run exactly
      if it had one that has not finished, and a queue exactly if it had one, its run has not finished, and
      stopping has not ended. */
  lemma {:induction false} StoppingRun(s: State, steps: seq<Step>, session: string)
    requires s.stopping && CanRun(s, steps)
    ensures var t := Exec(s, steps);
      && t.stopping && t.started == s.started
      && (session in t.runs <==> session in s.runs && Finish(session) !in steps)
      && (session in t.pending <==> session in s.pending && Finish(session) !in steps && EndStop !in steps)
    decreases |steps|
  {
    if steps != [] {
      assert steps == [steps[0]] + steps[1..];
      StoppingStep(s, steps[0], session);
      StoppingRun(Apply(s, steps[0]), steps[1..], session);
    }
  }

  /** Stopping drains: from the moment it begins no run starts, and once every run of that moment has finished
      there is no run left, no session that had a run has a queue, and stopping can end, which leaves no queue. */
  lemma StopDrains(s: State, steps: seq<Step>)
    requires var stopping := Apply(s, BeginStop);
      CanRun(stopping, steps) && forall session :: session in s.runs ==> Finish(session) in steps
    ensures var t := Exec(Apply(s, BeginStop), steps);
      && t.runs == map[] && t.started == s.started
      && (forall session :: session in s.runs ==> session !in t.pending)
      && Enabled(t, EndStop) && Apply(t, EndStop).pending == map[]
  {
    var stopping := Apply(s, BeginStop);
    var t := Exec(stopping, steps);
    StoppingRun(stopping, steps, "");
    forall session ensures session !in t.runs && (session in s.runs ==> session !in t.pending) {
      StoppingRun(stopping, steps, session);
    }
  }

  // ---- The tracker and the router ----

  class ActiveRunTracker {
    var runs: map<string, Inbound>

    constructor ()
      ensures runs == map[]
    {
      runs := map[];
    }

    /** Refuses a second run of a session, where the original raises. */
    method Start(session: string, m: Inbound) returns (ok: bool)
      modifies this
      ensures ok <==> session !in old(runs)
      ensures runs == if ok then old(runs)[session := m] else old(runs)
    {
      ok := session !in runs;
      if ok {
        runs := runs[session := m];
      }
    }

    method Finish(session: string)
      modifies this
      ensures runs == old(runs) - {session}
    {
      runs := runs - {session};
    }

    predicate IsActive(session: string)
      reads this
    {
      session in runs
    }
  }

  class Router {
    const tracker: ActiveRunTracker
    var pending: map<string, seq<Inbound>>
    var stopping: bool
    var commands: set<string>
    var agentReady: bool
    ghost var started: map<string, seq<Inbound>>

    ghost function View(): State
      reads this, tracker
    {
      State(tracker.runs, pending, stopping, commands, agentReady, started)
    }

    constructor (tracker: ActiveRunTracker, commands: set<string>)
      requires tracker.runs == map[]
      ensures this.tracker == tracker && View() == Initial(commands)
    {
      this.tracker, this.commands := tracker, commands;
      pending, stopping, agentReady, started := map[], false, true, map[];
    }

    /** `raised` tells whether the tracker refused the run; it never does. */
    method DispatchMessage(session: string, m: Inbound) returns (raised: bool)
      modifies this, tracker
      ensures View() == Dispatched(old(View()), session, m) && !raised
    {
      raised := false;
      if m.command.Some? && m.command.value in commands {
        return;
      }
      if stopping || !agentReady {
        return;
      }
      if tracker.IsActive(session) {
        var queue := if session in pending then pending[session] else [];
        pending := pending[session := queue + [m]];
        return;
      }
      var ok := tracker.Start(session, m);
      started := started[session := Log(started, session) + [m]];
      raised := !ok;
    }

    method DrainPending(session: string) returns (raised: bool)
      modifies this, tracker
      ensures View() == Drained(old(View()), session) && !raised
    {
      if session !in pending || pending[session] == [] {
        return false;
      }
      var queue := pending[session];
      var next := queue[0];
      queue := queue[1..];
      pending := if queue == [] then pending - {session} else pending[session := queue];
      raised := DispatchMessage(session, next);
    }

    /** What happens once an agent run is over, however it ended. */
    method RunFinished(session: string) returns (raised: bool)
      modifies this, tracker
      ensures View() == Finished(old(View()), session) && !raised
    {
      tracker.Finish(session);
      if stopping {
        pending := pending - {session};
        raised := false;
      } else {
        raised := DrainPending(session);
      }
    }
  }
}
