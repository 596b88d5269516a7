/**
 * The broadcast workflow of stacks/SchedulerStack.ts as an explicit state
 * machine: SendTestEmail -> Wait -> UpdateNewsletterContent ->
 * GetNewsletterContent -> SendEmail -> Succeed. The four task states catch
 * every task failure and route it to PublishError (the SNS alert carrying the
 * error document) and then to Fail. There are no retries and no branches.
 *
 * Which tasks reject is a parameter (`failing`), since the rejection comes
 * from a Lambda, DynamoDB or SNS that the model does not contain. A missing
 * JSON path (`$.waitTimestamp`, `$.id`) is a States.Runtime error, which
 * no catch handles: the execution fails on the spot, without an alert.
 */
module Scheduler {
  import opened Wrappers
  import opened Newsletters
  import opened SendLambda
  import opened NewsletterHandlers

  datatype StateName =
    | SendTestEmailState
    | WaitState
    | UpdateNewsletterContentStateSDK
    | GetNewsletterContentStateSDK
    | SendEmailState
    | PublishErrorState
    | SucceedState
    | FailState

  /** The success path, in the order the definition chains it. */
  const Chain: seq<StateName> :=
    [SendTestEmailState, WaitState, UpdateNewsletterContentStateSDK, GetNewsletterContentStateSDK, SendEmailState, SucceedState]

  /** Position of SucceedState in the chain. */
  const SucceedIndex: nat := 5

  /** The states with a catch to PublishErrorState. */
  predicate Catches(s: StateName) {
    match s
    case SendTestEmailState => true
    case UpdateNewsletterContentStateSDK => true
    case GetNewsletterContentStateSDK => true
    case SendEmailState => true
    case _ => false
  }

  /**
   * The state document. The execution input and what the result paths add to
   * it ($.sent, $.updateResult); the GetItem output, which replaces it since
   * that state has no result path; SendEmail's Lambda result; and the error
   * output a catch puts in place of the document (default result path `$`).
   */
  datatype Document =
    | Payload(id: Option<string>, waitTimestamp: Option<int>, sent: bool, updateResult: bool)
    | ItemPayload(item: Option<Newsletter>)
    | LambdaPayload(statusCode: nat)
    | ErrorPayload(failedState: StateName)

  datatype Status = Running | Succeeded | Failed | Aborted

  /** One invocation of the send Lambda: the invoking state and the event it passed. */
  datatype Invoke = Invoke(state: StateName, event: SendEvent)

  /**
   * An execution: current state, status, document and clock, the states
   * entered so far, the send Lambda invocations and the published alerts.
   */
  datatype Execution = Execution(
    at: StateName,
    status: Status,
    doc: Document,
    clock: int,
    trace: seq<StateName>,
    invocations: seq<Invoke>,
    alerts: seq<Document>)

  /** An execution together with the newsletters table it reads and writes. */
  datatype World = World(exec: Execution, table: Store)

  /** A new execution for publish's input, started at `clock`. */
  function Start(input: ExecutionInput, clock: int): (e: Execution)
    ensures e.status == Running && e.at == Chain[0] && e.trace == [Chain[0]]
    ensures e.invocations == [] && e.alerts == []
  {
    Execution(SendTestEmailState, Running, Payload(Some(input.id), Some(input.waitTimestamp), false, false),
              clock, [SendTestEmailState], [], [])
  }

  function Max(a: int, b: int): int {
    if a < b then b else a
  }

  /**
   * The UpdateItem of UpdateNewsletterContentStateSDK: `SET #status = :status`
   * with 'PUBLIC' on the key $.id. Only that record's status changes. An id
   * the table does not hold is left alone (see the README).
   */
  function SetPublic(table: Store, id: string): (r: Store)
    ensures r.Keys == table.Keys
    ensures forall k :: k != id ==> Get(r, k) == Get(table, k)
    ensures id in table ==> r[id] == table[id].(status := PUBLIC) && r[id].status == PUBLIC
  {
    if id in table then table[id := table[id].(status := PUBLIC)] else table
  }

  /** The event a LambdaInvoke passes: the whole state document. */
  function EventOf(doc: Document): SendEvent {
    match doc
    case Payload(_, waitTimestamp, _, _) => SendEvent(waitTimestamp, None)
    case ItemPayload(item) => SendEvent(None, item)
    case _ => SendEvent(None, None)
  }

  /** The chain successor of a state, as the definition's `.next` calls give it. */
  function Next(s: StateName): Option<StateName> {
    match s
    case SendTestEmailState => Some(WaitState)
    case WaitState => Some(UpdateNewsletterContentStateSDK)
    case UpdateNewsletterContentStateSDK => Some(GetNewsletterContentStateSDK)
    case GetNewsletterContentStateSDK => Some(SendEmailState)
    case SendEmailState => Some(SucceedState)
    case PublishErrorState => Some(FailState)
    case _ => None
  }

  /** The machine's transitions: the successor, and a catch to PublishErrorState. */
  predicate Edge(a: StateName, b: StateName) {
    Next(a) == Some(b) || (Catches(a) && b == PublishErrorState)
  }

  /** The chain is the path of successors from SendTestEmailState to SucceedState. */
  lemma ChainFollowsNext()
    ensures forall i :: 0 <= i < SucceedIndex ==> Next(Chain[i]) == Some(Chain[i + 1])
    ensures Next(Chain[SucceedIndex]).None? && Chain[SucceedIndex] == SucceedState
  {
  }

  /** Steps left before an execution is no longer running. */
  function Rank(s: StateName): nat {
    match s
    case SendTestEmailState => 8
    case WaitState => 7
    case UpdateNewsletterContentStateSDK => 6
    case GetNewsletterContentStateSDK => 5
    case SendEmailState => 4
    case PublishErrorState => 2
    case SucceedState => 1
    case FailState => 1
  }

  function Measure(e: Execution): nat {
    if e.status.Running? then Rank(e.at) else 0
  }

  function Enter(e: Execution, s: StateName, doc: Document): Execution {
    e.(at := s, doc := doc, trace := e.trace + [s])
  }

  /** A catch: the error output replaces the document and control moves to PublishErrorState. */
  function Catch(e: Execution, failed: StateName): Execution {
    Enter(e, PublishErrorState, ErrorPayload(failed))
  }

  /**
   * One transition of a running execution. Each step enters one state along
   * an edge of the machine or ends the execution where it is; only the update
   * step writes the table, only Wait moves the clock, and only PublishError
   * adds an alert: the document it was given.
   */
  function Step(e: Execution, table: Store, failing: set<StateName>): (r: World)
    requires e.status.Running?
    ensures Measure(r.exec) < Measure(e)
    ensures r.exec.status.Running? ==>
              r.exec.trace == e.trace + [r.exec.at] && Edge(e.at, r.exec.at)
    ensures !r.exec.status.Running? ==> r.exec.trace == e.trace && r.exec.at == e.at
    ensures r.exec.status == Succeeded ==> e.at == SucceedState
    ensures r.table == table ||
              (e.at == UpdateNewsletterContentStateSDK && e.doc.Payload? && e.doc.id.Some? &&
               r.table == SetPublic(table, e.doc.id.value))
    ensures r.exec.clock == e.clock ||
              (e.at == WaitState && e.doc.Payload? && e.doc.waitTimestamp.Some? &&
               r.exec.clock == Max(e.clock, e.doc.waitTimestamp.value))
    ensures r.exec.alerts == e.alerts ||
              (e.at == PublishErrorState && r.exec.alerts == e.alerts + [e.doc])
  {
    match e.at
    case SendTestEmailState =>
      var called := e.(invocations := e.invocations + [Invoke(SendTestEmailState, EventOf(e.doc))]);
      if SendTestEmailState in failing then World(Catch(called, SendTestEmailState), table)
      else World(Enter(called, WaitState, if e.doc.Payload? then e.doc.(sent := true) else e.doc), table)
    case WaitState =>
      if e.doc.Payload? && e.doc.waitTimestamp.Some? then
        var waited := e.(clock := Max(e.clock, e.doc.waitTimestamp.value));
        World(Enter(waited, UpdateNewsletterContentStateSDK, e.doc), table)
      else
        World(e.(status := Failed), table)
    case UpdateNewsletterContentStateSDK =>
      if !(e.doc.Payload? && e.doc.id.Some?) then World(e.(status := Failed), table)
      else if UpdateNewsletterContentStateSDK in failing then World(Catch(e, UpdateNewsletterContentStateSDK), table)
      else
        World(Enter(e, GetNewsletterContentStateSDK, e.doc.(updateResult := true)), SetPublic(table, e.doc.id.value))
    case GetNewsletterContentStateSDK =>
      if !(e.doc.Payload? && e.doc.id.Some?) then World(e.(status := Failed), table)
      else if GetNewsletterContentStateSDK in failing then World(Catch(e, GetNewsletterContentStateSDK), table)
      else
        World(Enter(e, SendEmailState, ItemPayload(Get(table, e.doc.id.value))), table)
    case SendEmailState =>
      var called := e.(invocations := e.invocations + [Invoke(SendEmailState, EventOf(e.doc))]);
      if SendEmailState in failing then World(Catch(called, SendEmailState), table)
      else
        World(Enter(called, SucceedState, LambdaPayload(200)), table)
    case PublishErrorState =>
      if PublishErrorState in failing then World(e.(status := Failed), table)
      else World(Enter(e.(alerts := e.alerts + [e.doc]), FailState, e.doc), table)
    case SucceedState =>
      World(e.(status := Succeeded), table)
    case FailState =>
      World(e.(status := Failed), table)
  }

  /** Runs an execution to its end. Every run ends: it succeeds, fails or was aborted. */
  function Run(e: Execution, table: Store, failing: set<StateName>): (r: World)
    decreases Measure(e)
    ensures !r.exec.status.Running?
    ensures !e.status.Running? ==> r == World(e, table)
    ensures r.exec.status == Succeeded ==> e.status == Succeeded || r.exec.at == SucceedState
  {
    if !e.status.Running? then World(e, table)
    else
      var w := Step(e, table, failing);
      Run(w.exec, w.table, failing)
  }

  /**
   * `states:StopExecution`: a running execution is aborted and takes no
   * further step; a finished one is left as it is.
   */
  function Cancel(e: Execution): (r: Execution)
    ensures e.status.Running? ==> r.status == Aborted
    ensures !e.status.Running? ==> r == e
    ensures r.trace == e.trace && r.alerts == e.alerts && r.invocations == e.invocations
  {
    if e.status.Running? then e.(status := Aborted) else e
  }

  /** A cancelled execution stays as it was cancelled, whatever the table or the failures. */
  lemma CancelIsFinal(e: Execution, table: Store, failing: set<StateName>)
    requires e.status.Running?
    ensures Run(Cancel(e), table, failing) == World(Cancel(e), table)
    ensures Run(Cancel(e), table, failing).exec.status == Aborted
  {
  }

  // ------------------------------------------------------------ reference route

  /** Position of a state along the chain; the error states come after it. */
  function Pos(s: StateName): nat {
    match s
    case SendTestEmailState => 0
    case WaitState => 1
    case UpdateNewsletterContentStateSDK => 2
    case GetNewsletterContentStateSDK => 3
    case SendEmailState => 4
    case SucceedState => 5
    case PublishErrorState => 6
    case FailState => 7
  }

  predicate OnChain(s: StateName) {
    Pos(s) <= SucceedIndex
  }

  lemma PosOfChain()
    ensures forall i :: 0 <= i <= SucceedIndex ==> Pos(Chain[i]) == i
  {
  }

  /** The first state from `s` on along the chain that catches a failure; SucceedState if none. */
  function FirstFailure(s: StateName, failing: set<StateName>): (f: StateName)
    requires OnChain(s)
    ensures OnChain(f) && Pos(s) <= Pos(f)
    ensures f != SucceedState ==> Catches(f) && f in failing
    decreases Rank(s)
  {
    if s == SucceedState then s
    else if Catches(s) && s in failing then s
    else FirstFailure(Next(s).value, failing)
  }

  /** After a caught failure: PublishError, then Fail unless the alert itself fails. */
  function ErrorRoute(failing: set<StateName>): seq<StateName> {
    [PublishErrorState] + (if PublishErrorState in failing then [] else [FailState])
  }

  /**
   * The states a run enters after chain state `s`: the error route if `s`
   * catches a failure, nothing after SucceedState, or the next chain state and
   * what follows it.
   */
  function RouteAfter(s: StateName, failing: set<StateName>): seq<StateName>
    requires OnChain(s)
    decreases Rank(s)
  {
    if s == SucceedState then []
    else if Catches(s) && s in failing then ErrorRoute(failing)
    else [Next(s).value] + RouteAfter(Next(s).value, failing)
  }

  /** The send Lambda invocations a run makes from `s` when its first failure is at `f`. */
  function Calls(s: StateName, f: StateName, input: ExecutionInput, table0: Store): seq<Invoke> {
    (if s == SendTestEmailState then [Invoke(SendTestEmailState, SendEvent(Some(input.waitTimestamp), None))] else []) +
    (if Pos(s) <= 4 <= Pos(f) then [Invoke(SendEmailState, SendEvent(None, Get(SetPublic(table0, input.id), input.id)))] else [])
  }

  /** The invocation the state `s` makes, if it is a LambdaInvoke. */
  function CallAt(s: StateName, input: ExecutionInput, table0: Store): seq<Invoke> {
    Calls(s, s, input, table0)
  }

  /**
   * What a run of publish's input looks like when it stands at chain state
   * `e.at`, having started on table `table0`: the document the result paths
   * built so far, and the table the update step left.
   */
  predicate Staged(e: Execution, table: Store, input: ExecutionInput, table0: Store) {
    var i := Pos(e.at);
    && i <= SucceedIndex && e.status.Running?
    && (i <= 2 ==> e.doc == Payload(Some(input.id), Some(input.waitTimestamp), i >= 1, false) && table == table0)
    && (i == 3 ==> e.doc == Payload(Some(input.id), Some(input.waitTimestamp), true, true))
    && (i == 4 ==> e.doc == ItemPayload(Get(SetPublic(table0, input.id), input.id)))
    && (i >= 3 ==> table == SetPublic(table0, input.id))
  }

  /** A running execution's run is the run from its next step. */
  lemma RunUnfold(e: Execution, table: Store, failing: set<StateName>)
    requires e.status.Running?
    ensures var w := Step(e, table, failing);
            Run(e, table, failing) == Run(w.exec, w.table, failing)
  {
  }

  /** From PublishErrorState: one alert with the error document and Fail, or a failed alert and no Fail. */
  lemma ErrorTail(e: Execution, table: Store, failing: set<StateName>)
    requires e.status.Running? && e.at == PublishErrorState
    ensures var r := Run(e, table, failing);
            && r.table == table && r.exec.status == Failed
            && r.exec.trace == e.trace + ErrorRoute(failing)[1..]
            && r.exec.alerts == e.alerts + (if PublishErrorState in failing then [] else [e.doc])
            && r.exec.clock == e.clock && r.exec.invocations == e.invocations
  {
    var w := Step(e, table, failing);
    if PublishErrorState !in failing {
      assert Run(w.exec, w.table, failing) == World(w.exec.(status := Failed), table);
    }
  }

  /** A state that does not fail hands its successor the document that one expects. */
  lemma StageAdvance(e: Execution, table: Store, input: ExecutionInput, table0: Store, failing: set<StateName>)
    requires Staged(e, table, input, table0) && e.at != SucceedState
    requires !(Catches(e.at) && e.at in failing)
    ensures var w := Step(e, table, failing);
            && w.exec.at == Next(e.at).value
            && Staged(w.exec, w.table, input, table0)
            && w.exec.trace == e.trace + [w.exec.at]
            && w.exec.alerts == e.alerts
            && w.exec.clock == (if e.at == WaitState then Max(e.clock, input.waitTimestamp) else e.clock)
            && w.exec.invocations == e.invocations + CallAt(e.at, input, table0)
  {
  }

  /** A task that fails hands its error document to PublishErrorState and changes nothing else. */
  lemma StageCatch(e: Execution, table: Store, input: ExecutionInput, table0: Store, failing: set<StateName>)
    requires Staged(e, table, input, table0)
    requires Catches(e.at) && e.at in failing
    ensures var w := Step(e, table, failing);
            && w.exec.status.Running? && w.exec.at == PublishErrorState
            && w.exec.doc == ErrorPayload(e.at)
            && w.table == table
            && w.exec.trace == e.trace + [PublishErrorState]
            && w.exec.alerts == e.alerts && w.exec.clock == e.clock
            && w.exec.invocations == e.invocations + CallAt(e.at, input, table0)
  {
  }

  /**
   * The run from `e` follows the reference route: its trace, its final status
   * and its alert are those the first failing task determines.
   */
  ghost predicate FollowsRoute(e: Execution, table: Store, failing: set<StateName>)
    requires OnChain(e.at)
  {
    var r, f := Run(e, table, failing), FirstFailure(e.at, failing);
    && r.exec.trace == e.trace + RouteAfter(e.at, failing)
    && r.exec.status == (if f == SucceedState then Succeeded else Failed)
    && r.exec.alerts == e.alerts + (if f != SucceedState && PublishErrorState !in failing then [ErrorPayload(f)] else [])
  }

  /**
   * The run from `e` writes the table, moves the clock and invokes the send
   * Lambda as the first failing task determines: the update and the wait take
   * effect when they are reached, SendEmail is invoked when it is reached.
   */
  ghost predicate HasRouteEffects(e: Execution, table: Store, input: ExecutionInput, table0: Store, failing: set<StateName>)
    requires OnChain(e.at)
  {
    var r, s, f := Run(e, table, failing), e.at, FirstFailure(e.at, failing);
    && r.table == (if Pos(s) <= 2 && Pos(f) >= 3 then SetPublic(table0, input.id) else table)
    && r.exec.clock == (if Pos(s) <= 1 && Pos(f) >= 2 then Max(e.clock, input.waitTimestamp) else e.clock)
    && r.exec.invocations == e.invocations + Calls(s, f, input, table0)
  }

  lemma RouteAtSucceed(e: Execution, table: Store, input: ExecutionInput, table0: Store, failing: set<StateName>)
    requires Staged(e, table, input, table0) && e.at == SucceedState
    ensures FollowsRoute(e, table, failing) && HasRouteEffects(e, table, input, table0, failing)
  {
    var w := Step(e, table, failing);
    assert Run(e, table, failing) == Run(w.exec, w.table, failing) == w;
  }

  lemma RouteAtCatch(e: Execution, table: Store, input: ExecutionInput, table0: Store, failing: set<StateName>)
    requires Staged(e, table, input, table0)
    requires Catches(e.at) && e.at in failing
    ensures FollowsRoute(e, table, failing) && HasRouteEffects(e, table, input, table0, failing)
  {
    var w := Step(e, table, failing);
    RunUnfold(e, table, failing);
    StageCatch(e, table, input, table0, failing);
    ErrorTail(w.exec, w.table, failing);
    assert [PublishErrorState] + ErrorRoute(failing)[1..] == ErrorRoute(failing);
  }

  lemma RouteAtAdvance(e: Execution, table: Store, input: ExecutionInput, table0: Store, failing: set<StateName>)
    requires Staged(e, table, input, table0) && e.at != SucceedState
    requires !(Catches(e.at) && e.at in failing)
    requires var w := Step(e, table, failing);
             OnChain(w.exec.at) && FollowsRoute(w.exec, w.table, failing)
    ensures FollowsRoute(e, table, failing)
  {
    var w := Step(e, table, failing);
    RunUnfold(e, table, failing);
    StageAdvance(e, table, input, table0, failing);
    RouteShifts(e, w.exec, failing);
  }

  /**
   * The route arithmetic of a step that moves on along the chain: the first
   * failure and the route from `e.at` are those from its successor, one state later.
   */
  lemma RouteShifts(e: Execution, next: Execution, failing: set<StateName>)
    requires OnChain(e.at) && e.at != SucceedState && !(Catches(e.at) && e.at in failing)
    requires next.at == Next(e.at).value && OnChain(next.at)
    requires next.trace == e.trace + [next.at] && next.alerts == e.alerts
    ensures FirstFailure(e.at, failing) == FirstFailure(next.at, failing)
    ensures e.trace + RouteAfter(e.at, failing) == next.trace + RouteAfter(next.at, failing)
    ensures next.alerts == e.alerts
  {
    assert e.trace + RouteAfter(e.at, failing) == (e.trace + [next.at]) + RouteAfter(next.at, failing);
  }

  lemma EffectsAtAdvance(e: Execution, table: Store, input: ExecutionInput, table0: Store, failing: set<StateName>)
    requires Staged(e, table, input, table0) && e.at != SucceedState
    requires !(Catches(e.at) && e.at in failing)
    requires var w := Step(e, table, failing);
             OnChain(w.exec.at) && HasRouteEffects(w.exec, w.table, input, table0, failing)
    ensures HasRouteEffects(e, table, input, table0, failing)
  {
    var w := Step(e, table, failing);
    RunUnfold(e, table, failing);
    StageAdvance(e, table, input, table0, failing);
    var f := FirstFailure(e.at, failing);
    assert f == FirstFailure(w.exec.at, failing);
    assert Calls(e.at, f, input, table0) == CallAt(e.at, input, table0) + Calls(w.exec.at, f, input, table0);
  }

  /** Every run of publish's input, from any chain state it reaches, follows the reference route. */
  lemma {:induction false} RunFollowsRoute(e: Execution, table: Store, input: ExecutionInput, table0: Store,
                                           failing: set<StateName>)
    requires Staged(e, table, input, table0)
    decreases Rank(e.at)
    ensures FollowsRoute(e, table, failing)
    ensures HasRouteEffects(e, table, input, table0, failing)
  {
    if e.at == SucceedState {
      RouteAtSucceed(e, table, input, table0, failing);
    } else if Catches(e.at) && e.at in failing {
      RouteAtCatch(e, table, input, table0, failing);
    } else {
      StageAdvance(e, table, input, table0, failing);
      var w := Step(e, table, failing);
      RunFollowsRoute(w.exec, w.table, input, table0, failing);
      RouteAtAdvance(e, table, input, table0, failing);
      EffectsAtAdvance(e, table, input, table0, failing);
    }
  }

  // ------------------------------------------------------------ executions of publish's input

  /** The execution publish starts, run to its end on the table as it stands. */
  function Execute(input: ExecutionInput, clock: int, table: Store, failing: set<StateName>): (r: World)
    ensures !r.exec.status.Running?
  {
    Run(Start(input, clock), table, failing)
  }

  /** No task state from `s` on along the chain fails. */
  predicate ClearFrom(s: StateName, failing: set<StateName>) {
    forall t :: Catches(t) && Pos(s) <= Pos(t) ==> t !in failing
  }

  /** FirstFailure finds the first failing task: none before it fails, and it is SucceedState iff none fails. */
  lemma {:induction false} FirstFailureIsFirst(s: StateName, failing: set<StateName>)
    requires OnChain(s)
    decreases Rank(s)
    ensures FirstFailure(s, failing) == SucceedState <==> ClearFrom(s, failing)
    ensures forall t :: Catches(t) && Pos(s) <= Pos(t) < Pos(FirstFailure(s, failing)) ==> t !in failing
  {
    if s != SucceedState && !(Catches(s) && s in failing) {
      var n := Next(s).value;
      assert Pos(n) == Pos(s) + 1;
      FirstFailureIsFirst(n, failing);
    }
  }

  /** With no failing task the run is exactly the chain, it succeeds and sends no alert. */
  lemma ExecuteFollowsChain(input: ExecutionInput, clock: int, table: Store, failing: set<StateName>)
    requires ClearFrom(SendTestEmailState, failing)
    ensures var r := Execute(input, clock, table, failing);
            && r.exec.trace == Chain
            && r.exec.status == Succeeded
            && r.exec.alerts == []
            && r.table == SetPublic(table, input.id)
            && r.exec.clock == Max(clock, input.waitTimestamp)
  {
    var e := Start(input, clock);
    RunFollowsRoute(e, table, input, table, failing);
    FirstFailureIsFirst(SendTestEmailState, failing);
    assert RouteAfter(SendTestEmailState, failing) == Chain[1..] by {
      assert RouteAfter(SucceedState, failing) == [];
      assert RouteAfter(SendEmailState, failing) == [SucceedState];
      assert RouteAfter(GetNewsletterContentStateSDK, failing) == [SendEmailState, SucceedState];
      assert RouteAfter(UpdateNewsletterContentStateSDK, failing) == Chain[3..];
      assert RouteAfter(WaitState, failing) == Chain[2..];
    }
  }

  /** A chain prefix up to position `k` followed by the error route holds no chain state past `k`. */
  lemma ChainPrefixEndsAt(k: nat, failing: set<StateName>)
    requires k <= SucceedIndex
    ensures forall x :: x in Chain[..k + 1] + ErrorRoute(failing) ==> !OnChain(x) || Pos(x) <= k
  {
    forall x | x in Chain[..k + 1] + ErrorRoute(failing)
      ensures !OnChain(x) || Pos(x) <= k
    {
      if x in Chain[..k + 1] {
        var j :| 0 <= j <= k && Chain[j] == x;
        PosOfChain();
      }
    }
  }

  /** With `t` the first failing task, the route from the start is the chain up to `t`, then the error route. */
  lemma RouteToFailure(failing: set<StateName>, t: StateName)
    requires Catches(t) && t in failing
    requires forall u :: Catches(u) && Pos(u) < Pos(t) ==> u !in failing
    ensures FirstFailure(SendTestEmailState, failing) == t
    ensures RouteAfter(SendTestEmailState, failing) == Chain[1..Pos(t) + 1] + ErrorRoute(failing)
  {
    var route := RouteAfter(SendTestEmailState, failing);
    if t == SendTestEmailState {
      assert Chain[1..1] == [];
    } else {
      assert SendTestEmailState !in failing;
      assert route == [WaitState] + RouteAfter(WaitState, failing);
      assert RouteAfter(WaitState, failing) == [UpdateNewsletterContentStateSDK] + RouteAfter(UpdateNewsletterContentStateSDK, failing);
      if t == UpdateNewsletterContentStateSDK {
        assert Chain[1..3] == [WaitState, UpdateNewsletterContentStateSDK];
      } else {
        assert UpdateNewsletterContentStateSDK !in failing;
        var fromGet := RouteAfter(GetNewsletterContentStateSDK, failing);
        assert RouteAfter(UpdateNewsletterContentStateSDK, failing) == [GetNewsletterContentStateSDK] + fromGet;
        if t == GetNewsletterContentStateSDK {
          assert fromGet == ErrorRoute(failing);
          assert Chain[1..4] == [WaitState, UpdateNewsletterContentStateSDK, GetNewsletterContentStateSDK];
          assert route == [WaitState, UpdateNewsletterContentStateSDK, GetNewsletterContentStateSDK] + ErrorRoute(failing);
        } else {
          assert GetNewsletterContentStateSDK !in failing && t == SendEmailState;
          assert fromGet == [SendEmailState] + ErrorRoute(failing);
          assert Chain[1..5] == [WaitState, UpdateNewsletterContentStateSDK, GetNewsletterContentStateSDK, SendEmailState];
          assert route == [WaitState, UpdateNewsletterContentStateSDK, GetNewsletterContentStateSDK, SendEmailState] + ErrorRoute(failing);
        }
      }
    }
  }

  /**
   * A failure in a task state, with no earlier task failing, routes the run
   * to PublishErrorState and then FailState: the chain up to the failing task
   * and no later state, a failed status and one alert carrying the error,
   * unless the alert itself fails. The table is written only when the failure
   * comes after the update step.
   */
  lemma ExecuteCatchesFailure(input: ExecutionInput, clock: int, table: Store, failing: set<StateName>, t: StateName)
    requires Catches(t) && t in failing
    requires forall u :: Catches(u) && Pos(u) < Pos(t) ==> u !in failing
    ensures var r := Execute(input, clock, table, failing);
            && r.exec.trace == Chain[..Pos(t) + 1] + ErrorRoute(failing)
            && (forall s :: OnChain(s) && Pos(t) < Pos(s) ==> s !in r.exec.trace)
            && r.exec.status == Failed
            && r.exec.alerts == (if PublishErrorState in failing then [] else [ErrorPayload(t)])
            && r.table == (if Pos(t) >= 3 then SetPublic(table, input.id) else table)
  {
    RunFollowsRoute(Start(input, clock), table, input, table, failing);
    RouteToFailure(failing, t);
    assert [SendTestEmailState] + Chain[1..Pos(t) + 1] == Chain[..Pos(t) + 1];
    ChainPrefixEndsAt(Pos(t), failing);
  }

  /**
   * Every execution of publish's input ends succeeded or failed; it succeeds
   * exactly when no task fails, then at SucceedState with no alert; otherwise
   * it never reaches SucceedState. At most one alert is published.
   */
  lemma ExecuteEnds(input: ExecutionInput, clock: int, table: Store, failing: set<StateName>)
    ensures var r := Execute(input, clock, table, failing);
            && (r.exec.status == Succeeded || r.exec.status == Failed)
            && (r.exec.status == Succeeded <==> ClearFrom(SendTestEmailState, failing))
            && (r.exec.status == Succeeded ==> r.exec.alerts == [] && r.exec.at == SucceedState)
            && |r.exec.alerts| <= 1
  {
    var e := Start(input, clock);
    RunFollowsRoute(e, table, input, table, failing);
    FirstFailureIsFirst(SendTestEmailState, failing);
  }

  /**
   * The run writes only through the update step: the same ids, every other
   * record untouched, and the record under $.id at most switched to PUBLIC.
   */
  lemma ExecuteUpdatesOnlyStatus(input: ExecutionInput, clock: int, table: Store, failing: set<StateName>)
    ensures var r := Execute(input, clock, table, failing);
            && r.table.Keys == table.Keys
            && (forall k :: k != input.id ==> Get(r.table, k) == Get(table, k))
            && (input.id in table ==>
                  r.table[input.id] == table[input.id] || r.table[input.id] == table[input.id].(status := PUBLIC))
  {
    RunFollowsRoute(Start(input, clock), table, input, table, failing);
  }

  /**
   * What the send Lambda sees. SendTestEmail passes the execution input, so
   * it is in test mode at time `now` exactly when waitTimestamp is later.
   * SendEmail passes only the GetItem output, read after the update step:
   * the record with status PUBLIC, and no waitTimestamp, so never test mode.
   */
  lemma ExecuteInvocations(input: ExecutionInput, clock: int, table: Store, failing: set<StateName>)
    ensures var r := Execute(input, clock, table, failing);
            && |r.exec.invocations| <= 2
            && (forall v :: v in r.exec.invocations && v.state == SendTestEmailState ==>
                  v.event == SendEvent(Some(input.waitTimestamp), None) &&
                  forall now :: IsTestMode(v.event, now) <==> input.waitTimestamp > now)
            && (forall v :: v in r.exec.invocations && v.state == SendEmailState ==>
                  && v.event == SendEvent(None, Get(SetPublic(table, input.id), input.id))
                  && r.table == SetPublic(table, input.id)
                  && (input.id in table ==> v.event.item == Some(table[input.id].(status := PUBLIC)))
                  && forall now :: !IsTestMode(v.event, now))
  {
    RunFollowsRoute(Start(input, clock), table, input, table, failing);
  }
}
