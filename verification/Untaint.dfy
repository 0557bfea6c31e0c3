/** The untaint controller: takes the agent-not-ready taint off a node once its agent is ready, or
    when a deadline has passed and the policy says so, racing with other writers of the node. */
module Untaint {
  import opened PendingSlot

  // ---------------------------------------------------------------- taints

  datatype Effect = NoSchedule | OtherEffect(name: string)

  datatype Taint = Taint(key: string, value: string, effect: Effect, added: Option<int>)

  const TAINT_KEY := "agent.datadoghq.com/not-ready"
  const TAINT_VALUE := "presence"

  predicate IsStartupTaint(t: Taint) {
    t.key == TAINT_KEY && t.value == TAINT_VALUE && t.effect == NoSchedule
  }

  predicate HasStartupTaint(taints: seq<Taint>) {
    exists i :: 0 <= i < |taints| && IsStartupTaint(taints[i])
  }

  function Kept(taints: seq<Taint>): seq<Taint> {
    if taints == [] then []
    else Kept(taints[..|taints| - 1]) + if IsStartupTaint(taints[|taints| - 1]) then [] else [taints[|taints| - 1]]
  }

  /** Where the kept taints stood. */
  function Positions(taints: seq<Taint>): seq<nat> {
    if taints == [] then []
    else Positions(taints[..|taints| - 1]) + if IsStartupTaint(taints[|taints| - 1]) then [] else [|taints| - 1]
  }

  lemma {:induction false} PositionsExactly(taints: seq<Taint>, p: nat)
    ensures p in Positions(taints) <==> p < |taints| && !IsStartupTaint(taints[p])
  {
    if taints != [] {
      var front := taints[..|taints| - 1];
      PositionsExactly(front, p);
      assert p < |front| ==> front[p] == taints[p];
    }
  }

  lemma {:induction false} PositionsLength(taints: seq<Taint>)
    ensures |Kept(taints)| == |Positions(taints)|
  {
    if taints != [] {
      PositionsLength(taints[..|taints| - 1]);
    }
  }

  lemma {:induction false} PositionsElement(taints: seq<Taint>, i: nat)
    requires i < |Positions(taints)| == |Kept(taints)|
    ensures Positions(taints)[i] < |taints| && Kept(taints)[i] == taints[Positions(taints)[i]]
  {
    var front := taints[..|taints| - 1];
    PositionsLength(front);
    if i < |Positions(front)| {
      PositionsElement(front, i);
    }
  }

  lemma {:induction false} PositionsAscend(taints: seq<Taint>, i: nat, j: nat)
    requires i < j < |Positions(taints)| == |Kept(taints)|
    ensures Positions(taints)[i] < Positions(taints)[j]
  {
    var front := taints[..|taints| - 1];
    PositionsLength(front);
    if j < |Positions(front)| {
      PositionsAscend(front, i, j);
    } else {
      PositionsElement(front, i);
    }
  }

  /** Exactly the other taints are kept, in their order. */
  lemma KeptInOrder(taints: seq<Taint>)
    ensures var at := Positions(taints);
            && |Kept(taints)| == |at|
            && (forall i :: 0 <= i < |at| ==> at[i] < |taints| && Kept(taints)[i] == taints[at[i]])
            && (forall i, j :: 0 <= i < j < |at| ==> at[i] < at[j])
            && (forall p: nat :: p in at <==> p < |taints| && !IsStartupTaint(taints[p]))
  {
    var at := Positions(taints);
    PositionsLength(taints);
    forall i | 0 <= i < |at| ensures at[i] < |taints| && Kept(taints)[i] == taints[at[i]] {
      PositionsElement(taints, i);
    }
    forall i, j | 0 <= i < j < |at| ensures at[i] < at[j] {
      PositionsAscend(taints, i, j);
    }
    forall p: nat ensures p in at <==> p < |taints| && !IsStartupTaint(taints[p]) {
      PositionsExactly(taints, p);
    }
  }

  lemma {:induction false} KeptHasNone(taints: seq<Taint>)
    ensures !HasStartupTaint(Kept(taints))
    ensures |Kept(taints)| <= |taints|
    ensures |Kept(taints)| == |taints| <==> !HasStartupTaint(taints)
    ensures !HasStartupTaint(taints) ==> Kept(taints) == taints
  {
    if taints != [] {
      var front := taints[..|taints| - 1];
      KeptHasNone(front);
      assert taints == front + [taints[|taints| - 1]];
      assert HasStartupTaint(taints) <==> HasStartupTaint(front) || IsStartupTaint(taints[|taints| - 1]) by {
        if i :| 0 <= i < |front| && IsStartupTaint(front[i]) { assert taints[i] == front[i]; }
        if i :| 0 <= i < |taints| && IsStartupTaint(taints[i]) { assert i < |front| ==> front[i] == taints[i]; }
      }
    }
  }

  // ---------------------------------------------------------------- the patch

  /** Operations of a JSON patch on the node's list of taints (RFC 6902, sections 4.6 and 4.3). */
  datatype PatchOp = Test(value: seq<Taint>) | Replace(value: seq<Taint>)

  /** The list may be missing; both operations need it to be there. None: the patch fails. */
  function ApplyPatch(taints: Option<seq<Taint>>, patch: seq<PatchOp>): Option<Option<seq<Taint>>>
    decreases |patch|
  {
    if patch == [] then Some(taints)
    else if taints.None? then None
    else
      match patch[0]
      case Test(value) => if taints.value == value then ApplyPatch(taints, patch[1..]) else None
      case Replace(value) => ApplyPatch(Some(value), patch[1..])
  }

  function UntaintPatch(read: seq<Taint>): seq<PatchOp> {
    [Test(read), Replace(Kept(read))]
  }

  /** The patch lands exactly on the list it was computed from. */
  lemma PatchLandsIff(taints: Option<seq<Taint>>, read: seq<Taint>)
    ensures ApplyPatch(taints, UntaintPatch(read)) == if taints == Some(read) then Some(Some(Kept(read))) else None
  {
    var patch := UntaintPatch(read);
    assert patch[1..] == [Replace(Kept(read))];
    assert patch[1..][1..] == [];
    assert taints.Some? ==> ApplyPatch(taints, patch[1..]) == Some(Some(Kept(read)));
  }

  // ---------------------------------------------------------------- pods and clocks

  datatype Condition = Condition(isReady: bool, isTrue: bool, since: int)

  datatype Pod = Pod(conditions: seq<Condition>, started: Option<int>)

  predicate IsReady(pod: Pod) {
    exists i :: 0 <= i < |pod.conditions| && pod.conditions[i].isReady && pod.conditions[i].isTrue
  }

  predicate AnyReady(pods: seq<Pod>) {
    exists i :: 0 <= i < |pods| && IsReady(pods[i])
  }

  /** `at` is the latest start among the pods that have one. */
  predicate IsLatestStart(pods: seq<Pod>, at: Option<int>) {
    match at
    case None => forall i :: 0 <= i < |pods| ==> pods[i].started.None?
    case Some(t) =>
      && (exists i :: 0 <= i < |pods| && pods[i].started == Some(t))
      && (forall i :: 0 <= i < |pods| && pods[i].started.Some? ==> pods[i].started.value <= t)
  }

  function LatestStart(pods: seq<Pod>): Option<int> {
    if pods == [] then None
    else
      var front := LatestStart(pods[..|pods| - 1]);
      var last := pods[|pods| - 1].started;
      if last.None? then front
      else if front.None? || front.value < last.value then last
      else front
  }

  lemma {:induction false} LatestStartIs(pods: seq<Pod>)
    ensures IsLatestStart(pods, LatestStart(pods))
  {
    if pods != [] {
      var front := pods[..|pods| - 1];
      LatestStartIs(front);
      var last := pods[|pods| - 1];
      assert forall i :: 0 <= i < |front| ==> front[i] == pods[i];
      if last.started.None? || (LatestStart(front).Some? && last.started.value <= LatestStart(front).value) {
        if LatestStart(front).Some? {
          var i :| 0 <= i < |front| && front[i].started == LatestStart(front);
          assert pods[i].started == LatestStart(pods);
        }
      } else {
        assert pods[|pods| - 1].started == LatestStart(pods);
      }
    }
  }

  // ---------------------------------------------------------------- the decision

  datatype Policy = Remove | Keep

  datatype Config = Config(waitForCSI: bool, readinessTimeout: int, schedulingTimeout: int, policy: Policy)

  /** The controller refuses to start with a timeout that is not positive. */
  predicate ValidConfig(config: Config) {
    config.readinessTimeout > 0 && config.schedulingTimeout > 0
  }

  datatype Node = Node(taints: seq<Taint>, created: Option<int>)

  datatype Decision = Nothing | Requeue(delay: int) | Untaint | TimedOut

  /** The readiness criteria for taking the taint off. */
  predicate Gate(config: Config, agents: seq<Pod>, csis: seq<Pod>) {
    AnyReady(agents) && (config.waitForCSI ==> AnyReady(csis))
  }

  function SchedulingTimeout(config: Config, node: Node, now: int): Decision {
    if node.created.None? then Requeue(config.schedulingTimeout)
    else
      var elapsed := now - node.created.value;
      if elapsed >= config.schedulingTimeout then TimedOut else Requeue(config.schedulingTimeout - elapsed)
  }

  function ReadinessTimeout(config: Config, now: int, start: int): Decision {
    var elapsed := now - start;
    if elapsed >= config.readinessTimeout then TimedOut else Requeue(config.readinessTimeout - elapsed)
  }

  function Timeouts(config: Config, node: Node, agents: seq<Pod>, csis: seq<Pod>, now: int): Decision {
    if !config.waitForCSI then
      if agents == [] then SchedulingTimeout(config, node, now)
      else
        match LatestStart(agents)
        case None => Requeue(config.readinessTimeout)
        case Some(start) => ReadinessTimeout(config, now, start)
    else if agents == [] || csis == [] then SchedulingTimeout(config, node, now)
    else if LatestStart(agents).None? || LatestStart(csis).None? then Requeue(config.readinessTimeout)
    else
      var agent, csi := LatestStart(agents).value, LatestStart(csis).value;
      ReadinessTimeout(config, now, if csi > agent then csi else agent)
  }

  function Decide(config: Config, node: Node, agents: seq<Pod>, csis: seq<Pod>, now: int): Decision {
    if !HasStartupTaint(node.taints) then Nothing
    else if Gate(config, agents, csis) then Untaint
    else Timeouts(config, node, agents, csis, now)
  }

  /** Something required has no pod on the node. */
  predicate Unscheduled(config: Config, agents: seq<Pod>, csis: seq<Pod>) {
    agents == [] || (config.waitForCSI && csis == [])
  }

  /** `deadline` is when the timeout that applies fires: counted from the node's creation while a
      required workload has no pod there, from the last start of a required pod otherwise. */
  ghost predicate IsDeadline(config: Config, node: Node, agents: seq<Pod>, csis: seq<Pod>, deadline: int) {
    if Unscheduled(config, agents, csis) then
      node.created.Some? && deadline == node.created.value + config.schedulingTimeout
    else
      exists a: int, c: int ::
        && IsLatestStart(agents, Some(a)) && (config.waitForCSI ==> IsLatestStart(csis, Some(c)))
        && deadline == (if config.waitForCSI && c > a then c else a) + config.readinessTimeout
  }

  lemma LatestStartUnique(pods: seq<Pod>, t: int)
    requires IsLatestStart(pods, Some(t))
    ensures LatestStart(pods) == Some(t)
  {
    LatestStartIs(pods);
  }

  /** A tainted node whose readiness criteria are not met and whose clock is known: before the
      deadline the controller requeues for exactly the time that is left, from the deadline on
      the timeout fires. */
  lemma DecideAtDeadline(config: Config, node: Node, agents: seq<Pod>, csis: seq<Pod>, now: int, deadline: int)
    requires HasStartupTaint(node.taints) && !Gate(config, agents, csis)
    requires IsDeadline(config, node, agents, csis, deadline)
    ensures Decide(config, node, agents, csis, now) == if now >= deadline then TimedOut else Requeue(deadline - now)
  {
    if !Unscheduled(config, agents, csis) {
      var a: int, c: int :|
        && IsLatestStart(agents, Some(a)) && (config.waitForCSI ==> IsLatestStart(csis, Some(c)))
        && deadline == (if config.waitForCSI && c > a then c else a) + config.readinessTimeout;
      LatestStartUnique(agents, a);
      if config.waitForCSI { LatestStartUnique(csis, c); }
    }
  }

  function DeadlineOf(config: Config, node: Node, agents: seq<Pod>, csis: seq<Pod>): Option<int> {
    if Unscheduled(config, agents, csis) then
      if node.created.None? then None else Some(node.created.value + config.schedulingTimeout)
    else if LatestStart(agents).None? || (config.waitForCSI && LatestStart(csis).None?) then None
    else
      var a := LatestStart(agents).value;
      Some((if config.waitForCSI && LatestStart(csis).value > a then LatestStart(csis).value else a) + config.readinessTimeout)
  }

  /** There is a deadline exactly when the clock that applies is known. */
  lemma DeadlineIs(config: Config, node: Node, agents: seq<Pod>, csis: seq<Pod>)
    ensures var d := DeadlineOf(config, node, agents, csis); d.Some? ==> IsDeadline(config, node, agents, csis, d.value)
  {
    LatestStartIs(agents);
    LatestStartIs(csis);
    if !Unscheduled(config, agents, csis) && DeadlineOf(config, node, agents, csis).Some? {
      var c := if config.waitForCSI then LatestStart(csis).value else 0;
      assert IsLatestStart(agents, Some(LatestStart(agents).value)) && (config.waitForCSI ==> IsLatestStart(csis, Some(c)));
    }
  }

  /** A timeout fires only when a deadline has passed. */
  lemma TimedOutMeans(config: Config, node: Node, agents: seq<Pod>, csis: seq<Pod>, now: int)
    requires Decide(config, node, agents, csis, now) == TimedOut
    ensures !Gate(config, agents, csis) && exists deadline :: deadline <= now && IsDeadline(config, node, agents, csis, deadline)
  {
    DeadlineIs(config, node, agents, csis);
    assert DeadlineOf(config, node, agents, csis).value <= now;
  }

  // ---------------------------------------------------------------- runs against other writers

  /** What the API server does to a call: nothing unusual, or an error, with a patch done or not. */
  datatype Fault = NoFault | ErrorBefore | ErrorAfter

  /** What an attempt has read so far; `Patching` is about to send the patch. */
  datatype Attempt =
    | Idle
    | GotNode(node: Node)
    | GotAgents(node: Node, agents: seq<Pod>)
    | GotAll(node: Node, agents: seq<Pod>, csis: seq<Pod>)
    | Patching(node: Node, agents: seq<Pod>, csis: seq<Pod>, decided: int)

  /** `node`: the object on the API server, if it exists. */
  datatype World = World(config: Config, node: Option<Node>, agents: seq<Pod>, csis: seq<Pod>, now: int, attempt: Attempt)

  datatype Step =
    | Others(node: Option<Node>, agents: seq<Pod>, csis: seq<Pod>)   // any other writer
    | Tick(to: int)
    | Advance(fault: Fault)                                          // the next call of a reconcile

  predicate Enabled(w: World, step: Step) {
    step.Tick? ==> w.now <= step.to
  }

  /** What the API server's node is as a patch document. */
  function TaintsMember(node: Node): Option<seq<Taint>> {
    if node.taints == [] then None else Some(node.taints)
  }

  function Next(w: World, step: Step): World {
    match step
    case Others(node, agents, csis) => w.(node := node, agents := agents, csis := csis)
    case Tick(to) => w.(now := to)
    case Advance(fault) =>
      if w.attempt.Patching? then w.(node := SentPatch(w.node, w.attempt.node.taints, fault), attempt := Idle)
      else if fault != NoFault then w.(attempt := Idle)
      else
        match w.attempt
        case Idle =>
          w.(attempt := if w.node.None? || !HasStartupTaint(w.node.value.taints) then Idle else GotNode(w.node.value))
        case GotNode(node) => w.(attempt := GotAgents(node, w.agents))
        case GotAgents(node, agents) => w.(attempt := GotAll(node, agents, if w.config.waitForCSI then w.csis else []))
        case GotAll(node, agents, csis) =>
          var decision := Decide(w.config, node, agents, csis, w.now);
          w.(attempt := if decision == Untaint || (decision == TimedOut && w.config.policy == Remove)
                        then Patching(node, agents, csis, w.now) else Idle)
  }

  /** The node after the patch was sent; it may land although the client sees an error. */
  function SentPatch(node: Option<Node>, read: seq<Taint>, fault: Fault): Option<Node> {
    if node.None? || fault == ErrorBefore then node
    else
      match ApplyPatch(TaintsMember(node.value), UntaintPatch(read))
      case None => node
      case Some(taints) => Some(node.value.(taints := if taints.Some? then taints.value else []))
  }

  predicate IsRun(worlds: seq<World>, steps: seq<Step>) {
    && |worlds| == |steps| + 1 && worlds[0].attempt == Idle
    && forall i :: 0 <= i < |steps| ==> Enabled(worlds[i], steps[i]) && worlds[i + 1] == Next(worlds[i], steps[i])
  }

  /** The readiness criteria held for what was read, or a deadline of what was read had passed
      when the decision was made and the policy is to remove. */
  ghost predicate Justified(config: Config, node: Node, agents: seq<Pod>, csis: seq<Pod>, decided: int) {
    || Gate(config, agents, csis)
    || (config.policy == Remove && exists deadline :: deadline <= decided && IsDeadline(config, node, agents, csis, deadline))
  }

  ghost predicate AttemptOK(w: World) {
    match w.attempt
    case Idle => true
    case GotNode(node) => HasStartupTaint(node.taints)
    case GotAgents(node, _) => HasStartupTaint(node.taints)
    case GotAll(node, _, _) => HasStartupTaint(node.taints)
    case Patching(node, agents, csis, decided) =>
      HasStartupTaint(node.taints) && decided <= w.now && Justified(w.config, node, agents, csis, decided)
  }

  lemma StepKeepsAttempt(w: World, step: Step)
    requires AttemptOK(w) && Enabled(w, step)
    ensures AttemptOK(Next(w, step))
  {
    if step.Advance? && w.attempt.GotAll? {
      var GotAll(node, agents, csis) := w.attempt;
      if Decide(w.config, node, agents, csis, w.now) == TimedOut {
        TimedOutMeans(w.config, node, agents, csis, w.now);
      }
    }
  }

  lemma {:induction false} ReachableAttempt(worlds: seq<World>, steps: seq<Step>, i: nat)
    requires IsRun(worlds, steps) && i < |worlds|
    ensures AttemptOK(worlds[i])
  {
    if i > 0 {
      ReachableAttempt(worlds, steps, i - 1);
      StepKeepsAttempt(worlds[i - 1], steps[i - 1]);
    }
  }

  /** The node was on the API server at n, the agent pods at a, and after them, if they count, the
      CSI pods at c. */
  predicate ReadAt(worlds: seq<World>, n: int, a: int, c: int, i: int, node: Node, agents: seq<Pod>, csis: seq<Pod>)
    requires i < |worlds|
  {
    && 0 <= n < a < c < i
    && worlds[n].node == Some(node) && worlds[a].agents == agents
    && (worlds[i].config.waitForCSI ==> worlds[c].csis == csis)
  }

  /** Whatever an attempt holds, the cluster had, in the order of the reads. */
  ghost predicate ReadBefore(worlds: seq<World>, i: int)
    requires 0 <= i < |worlds|
  {
    match worlds[i].attempt
    case Idle => true
    case GotNode(node) => exists n :: 0 <= n < i && worlds[n].node == Some(node)
    case GotAgents(node, agents) =>
      exists n, a :: 0 <= n < a < i && worlds[n].node == Some(node) && worlds[a].agents == agents
    case GotAll(node, agents, csis) => exists n, a, c :: ReadAt(worlds, n, a, c, i, node, agents, csis)
    case Patching(node, agents, csis, _) => exists n, a, c :: ReadAt(worlds, n, a, c, i, node, agents, csis)
  }

  lemma {:induction false} AttemptWasRead(worlds: seq<World>, steps: seq<Step>, i: nat)
    requires IsRun(worlds, steps) && i < |worlds|
    ensures ReadBefore(worlds, i)
  {
    if i > 0 {
      AttemptWasRead(worlds, steps, i - 1);
      StepReads(worlds, steps, i - 1);
    }
  }

  lemma StepReads(worlds: seq<World>, steps: seq<Step>, k: nat)
    requires IsRun(worlds, steps) && k < |steps| && ReadBefore(worlds, k)
    ensures ReadBefore(worlds, k + 1)
  {
    assert worlds[k + 1] == Next(worlds[k], steps[k]);
    match worlds[k].attempt {
      case Idle => assert worlds[k].node == worlds[k].node;
      case GotNode(node) =>
        var n :| 0 <= n < k && worlds[n].node == Some(node);
        assert n < k && worlds[n].node == Some(node) && worlds[k].agents == worlds[k].agents;
      case GotAgents(node, agents) =>
        var n, a :| 0 <= n < a < k && worlds[n].node == Some(node) && worlds[a].agents == agents;
        if worlds[k + 1].attempt.GotAll? {
          assert ReadAt(worlds, n, a, k, k + 1, node, agents, worlds[k + 1].attempt.csis);
        }
      case GotAll(node, agents, csis) =>
        var n, a, c :| ReadAt(worlds, n, a, c, k, node, agents, csis);
        assert ReadAt(worlds, n, a, c, k + 1, node, agents, csis);
      case Patching(node, agents, csis, _) =>
        var n, a, c :| ReadAt(worlds, n, a, c, k, node, agents, csis);
        assert ReadAt(worlds, n, a, c, k + 1, node, agents, csis);
    }
  }

  /** Untainting is safe against any other writers: in every run, when the controller changes the
      node, the node carried the taint at that very moment, the change takes off exactly the
      agent-not-ready taints and leaves the others in order, and the attempt was justified, with
      policy keep by readiness, by a node and pods that the cluster had before, read in this order. */
  lemma UntaintIsSafe(worlds: seq<World>, steps: seq<Step>, i: nat)
    requires IsRun(worlds, steps) && i < |steps| && steps[i].Advance? && worlds[i + 1].node != worlds[i].node
    ensures worlds[i].node.Some? && worlds[i + 1].node.Some? && worlds[i].attempt.Patching?
    ensures var before := worlds[i].node.value;
            && HasStartupTaint(before.taints) && before.taints == worlds[i].attempt.node.taints
            && worlds[i + 1].node.value == before.(taints := Kept(before.taints))
            && !HasStartupTaint(worlds[i + 1].node.value.taints)
    ensures var Patching(node, agents, csis, decided) := worlds[i].attempt;
            && decided <= worlds[i].now
            && Justified(worlds[i].config, node, agents, csis, decided)
            && (worlds[i].config.policy == Keep ==> Gate(worlds[i].config, agents, csis))
            && exists n, a, c :: ReadAt(worlds, n, a, c, i, node, agents, csis)
  {
    ReachableAttempt(worlds, steps, i);
    AttemptWasRead(worlds, steps, i);
    PatchLandsIff(TaintsMember(worlds[i].node.value), worlds[i].attempt.node.taints);
    KeptHasNone(worlds[i].node.value.taints);
  }

  // ---------------------------------------------------------------- one reconcile

  datatype Result = Done | RequeueAfter(delay: int) | Failed

  const CONFLICT_DELAY := 1_000_000_000

  /** The patch a reconcile sends, given what the node has become in the meantime. */
  function Patched(read: Node, current: Node, fault: Fault): (Node, Result) {
    if fault == ErrorBefore then (current, Failed)
    else if TaintsMember(current) != Some(read.taints) then (current, RequeueAfter(CONFLICT_DELAY))
    else (current.(taints := Kept(read.taints)), if fault == ErrorAfter then Failed else Done)
  }

  function Reconciled(config: Config, read: Node, agents: seq<Pod>, csis: seq<Pod>, now: int, current: Node, fault: Fault)
    : (Node, Result)
  {
    match Decide(config, read, agents, csis, now)
    case Nothing => (current, Done)
    case Requeue(delay) => (current, RequeueAfter(delay))
    case Untaint => Patched(read, current, fault)
    case TimedOut => if config.policy == Keep then (current, Done) else Patched(read, current, fault)
  }

  /** With a known clock and an undisturbed node, policy remove has the taint off after the first
      reconcile or after the second one, which the first asks for at exactly the deadline; and no
      reconcile before the deadline takes it off unless the agent becomes ready. */
  lemma RemovedBySecondReconcile(config: Config, node: Node, agents: seq<Pod>, csis: seq<Pod>, now: int, deadline: int)
    requires ValidConfig(config) && config.policy == Remove && HasStartupTaint(node.taints)
    requires IsDeadline(config, node, agents, csis, deadline)
    ensures var (after, result) := Reconciled(config, node, agents, csis, now, node, NoFault);
            if Gate(config, agents, csis) || deadline <= now then after == node.(taints := Kept(node.taints)) && result == Done
            else
              && after == node && result == RequeueAfter(deadline - now) && deadline - now > 0
              && Reconciled(config, node, agents, csis, now + result.delay, node, NoFault) ==
                 (node.(taints := Kept(node.taints)), Done)
              && forall t :: now <= t < deadline ==> Reconciled(config, node, agents, csis, t, node, NoFault).0 == node
  {
    if !Gate(config, agents, csis) {
      DecideAtDeadline(config, node, agents, csis, now, deadline);
      DecideAtDeadline(config, node, agents, csis, deadline, deadline);
      forall t | now <= t < deadline ensures Reconciled(config, node, agents, csis, t, node, NoFault).0 == node {
        DecideAtDeadline(config, node, agents, csis, t, deadline);
      }
    }
  }

  /** While the clock is unknown the controller polls, and never patches. */
  lemma UnknownClockPolls(config: Config, node: Node, agents: seq<Pod>, csis: seq<Pod>, now: int)
    requires ValidConfig(config) && HasStartupTaint(node.taints) && !Gate(config, agents, csis)
    requires forall deadline :: !IsDeadline(config, node, agents, csis, deadline)
    ensures var decision := Decide(config, node, agents, csis, now);
            decision == Requeue(if Unscheduled(config, agents, csis) then config.schedulingTimeout else config.readinessTimeout)
  {
    DeadlineIs(config, node, agents, csis);
  }

  // ---------------------------------------------------------------- in place

  /** The scan for the latest start. */
  method LatestPodStartTime(pods: seq<Pod>) returns (latest: int, found: bool)
    ensures IsLatestStart(pods, if found then Some(latest) else None)
    ensures LatestStart(pods) == if found then Some(latest) else None
  {
    latest, found := 0, false;
    for i := 0 to |pods|
      invariant LatestStart(pods[..i]) == if found then Some(latest) else None
    {
      assert pods[..i + 1][..i] == pods[..i];
      if pods[i].started.Some? {
        if !found || pods[i].started.value > latest {
          latest, found := pods[i].started.value, true;
        }
      }
    }
    assert pods[..|pods|] == pods;
    LatestStartIs(pods);
  }

  /** The filter that computes the new list. */
  method FilterTaints(taints: seq<Taint>) returns (kept: seq<Taint>)
    ensures kept == Kept(taints)
  {
    kept := [];
    for i := 0 to |taints|
      invariant kept == Kept(taints[..i])
    {
      assert taints[..i + 1][..i] == taints[..i];
      if !IsStartupTaint(taints[i]) {
        kept := kept + [taints[i]];
      }
    }
    assert taints[..|taints|] == taints;
  }

  /** The API server's copy of the node. */
  class NodeStore {
    var node: Node

    constructor (node: Node)
      ensures this.node == node
    {
      this.node := node;
    }

    /** Other writers between the read and the patch. */
    method OtherWriter(written: Node)
      modifies this
      ensures node == written
    {
      node := written;
    }

    method RemoveTaint(read: Node, fault: Fault) returns (result: Result)
      requires HasStartupTaint(read.taints)
      modifies this
      ensures (node, result) == Patched(read, old(node), fault)
    {
      var kept := FilterTaints(read.taints);
      KeptHasNone(read.taints);
      if fault == ErrorBefore {
        return Failed;
      }
      PatchLandsIff(TaintsMember(node), read.taints);
      match ApplyPatch(TaintsMember(node), [Test(read.taints), Replace(kept)]) {
        case None => return RequeueAfter(CONFLICT_DELAY);
        case Some(taints) =>
          node := node.(taints := if taints.Some? then taints.value else []);
          return if fault == ErrorAfter then Failed else Done;
      }
    }

    /** A whole reconcile. Other writers may act after the node has been read. */
    method Reconcile(config: Config, agents: seq<Pod>, csis: seq<Pod>, now: int, written: Node, fault: Fault)
      returns (result: Result)
      modifies this
      ensures (node, result) == Reconciled(config, old(node), agents, csis, now, written, fault)
    {
      var read := node;
      OtherWriter(written);
      if !HasStartupTaint(read.taints) {
        return Done;
      }
      if Gate(config, agents, csis) {
        result := RemoveTaint(read, fault);
        return;
      }
      var timeout := EvaluateTimeouts(config, read, agents, csis, now);
      if timeout.Requeue? {
        return RequeueAfter(timeout.delay);
      }
      if config.policy == Keep {
        return Done;
      }
      result := RemoveTaint(read, fault);
    }
  }

  /** The timeouts, with the scans. */
  method EvaluateTimeouts(config: Config, node: Node, agents: seq<Pod>, csis: seq<Pod>, now: int) returns (decision: Decision)
    ensures decision == Timeouts(config, node, agents, csis, now) && (decision.Requeue? || decision.TimedOut?)
  {
    if agents == [] || (config.waitForCSI && csis == []) {
      return SchedulingTimeout(config, node, now);
    }
    var start, found := LatestPodStartTime(agents);
    if config.waitForCSI {
      var csiStart, csiFound := LatestPodStartTime(csis);
      found := found && csiFound;
      if csiStart > start { start := csiStart; }
    }
    if !found {
      return Requeue(config.readinessTimeout);
    }
    return ReadinessTimeout(config, now, start);
  }
}
