/** The create strategy: a profile's nodes are labelled in rounds, so that only so many of its
    pods are unavailable at a time. */
module StagedLabelling {
  import opened PendingSlot
  import opened Sorting
  import opened Profiles

  datatype Status = NoStatus | Completed | InProgress | Waiting

  /** The create-strategy part of a profile's status. */
  datatype CreateStrategy = CreateStrategy(
    status: Status,
    nodesLabeled: int,
    podsReady: int,
    maxUnavailable: int,
    lastTransition: Option<int>)

  /** The maxUnavailable setting: a number, a percentage, or something that cannot be read. */
  datatype MaxSetting = Number(n: int) | Percent(p: int) | Unreadable

  const DEFAULT_MAX := 1

  /** Percentages are of all nodes, rounded up. */
  function MaxNodesToLabel(setting: MaxSetting, nodes: nat): int {
    match setting
    case Number(n) => n
    case Percent(p) => (p * nodes + 99) / 100
    case Unreadable => DEFAULT_MAX
  }

  function Min(a: int, b: int): int {
    if a < b then a else b
  }

  function Max(a: int, b: int): int {
    if a < b then b else a
  }

  // ---------------------------------------------------------------- one round

  /** Nodes labelled whose pods are not ready; unknown, so zero, without a DaemonSet status. */
  function Unavailable(info: CreateInfo, ready: Option<int>): int {
    if ready.None? then 0 else info.labelled - ready.value
  }

  /** How many nodes a round labels. */
  function ToLabel(waiting: nat, max: int, unavailable: int): nat {
    if unavailable >= max then 0 else Min(max - unavailable, waiting)
  }

  function StatusOf(info: CreateInfo, labelledNow: int, max: int, unavailableAfter: int): Status {
    var total := info.labelled + |info.needing|;
    if total == 0 || info.labelled == total then Completed
    else if labelledNow > 0 || unavailableAfter < max then InProgress
    else Waiting
  }

  /** Waiting nodes in the order in which they are labelled. */
  function Queue(info: CreateInfo): seq<string> {
    Sort(info.needing, NameLeq)
  }

  function Members(names: seq<string>): set<string> {
    set n | n in names
  }

  function Without(byNode: map<string, ProfileKey>, names: seq<string>): map<string, ProfileKey> {
    byNode - Members(names)
  }

  lemma WithoutNext(byNode: map<string, ProfileKey>, names: seq<string>, lo: nat, hi: nat)
    requires lo <= hi < |names|
    ensures Without(byNode, names[lo..hi + 1]) == Without(byNode, names[lo..hi]) - {names[hi]}
  {
    assert names[lo..hi + 1] == names[lo..hi] + [names[hi]];
    assert Members(names[lo..hi + 1]) == Members(names[lo..hi]) + {names[hi]};
  }

  lemma QueueSorts(info: CreateInfo)
    ensures SortedBy(Queue(info), NameLeq) && multiset(Queue(info)) == multiset(info.needing)
    ensures |Queue(info)| == |info.needing|
  {
    NamesPreordered();
    SortSorts(info.needing, NameLeq);
    assert |multiset(Queue(info))| == |Queue(info)|;
  }

  /** A round labels the smallest-named waiting nodes: every node it labels comes, by name, before
      every node it leaves waiting. */
  lemma SmallestFirst(info: CreateInfo, max: int, unavailable: int)
    ensures var queue := Queue(info);
            var k := ToLabel(|info.needing|, max, unavailable);
            && k <= |queue|
            && multiset(queue[..k]) + multiset(queue[k..]) == multiset(info.needing)
            && forall a, b :: a in queue[..k] && b in queue[k..] ==> NameLeq(a, b)
  {
    QueueSorts(info);
    var queue := Queue(info);
    var k := ToLabel(|info.needing|, max, unavailable);
    assert queue == queue[..k] + queue[k..];
    forall a, b | a in queue[..k] && b in queue[k..] ensures NameLeq(a, b) {
      var i :| 0 <= i < k && queue[i] == a;
      var j :| k <= j < |queue| && queue[j] == b;
    }
  }

  /** A round never pushes the unavailable pods above the larger of what they were and the
      maximum, and labels as many nodes as that allows. */
  lemma RoundBound(waiting: nat, max: int, unavailable: int)
    ensures unavailable + ToLabel(waiting, max, unavailable) <= Max(unavailable, max)
    ensures ToLabel(waiting, max, unavailable) == waiting
            || unavailable + ToLabel(waiting, max, unavailable) == Max(unavailable, max)
  {
  }

  /** In progress exactly when the round labels a node, waiting exactly when nodes remain and none
      is labelled, completed exactly when none was waiting. */
  lemma StatusMeans(info: CreateInfo, max: int, unavailable: int)
    ensures var k := ToLabel(|info.needing|, max, unavailable);
            var status := StatusOf(info, k, max, unavailable + k);
            && (status == InProgress <==> k > 0)
            && (status == Waiting <==> info.needing != [] && k == 0)
            && (status == Completed <==> info.needing == [])
  {
  }

  /** The operator computes on 32-bit integers. When the inputs fit, and so do the capacity and the
      number of nodes, no intermediate result overflows. */
  lemma FitsInt32(info: CreateInfo, ready: int, max: int)
    requires 0 <= ready < 0x8000_0000 && 0 <= max < 0x8000_0000
    requires info.labelled + |info.needing| < 0x8000_0000 && max - (info.labelled - ready) < 0x8000_0000
    ensures var unavailable := Unavailable(info, Some(ready));
            var k := ToLabel(|info.needing|, max, unavailable);
            && -0x8000_0000 <= unavailable < 0x8000_0000
            && (unavailable < max ==> 0 < max - unavailable < 0x8000_0000)
            && -0x8000_0000 <= unavailable + k < 0x8000_0000 && info.labelled + k < 0x8000_0000
  {
  }

  // ---------------------------------------------------------------- rounds

  /** The nodes a round labels have the label in the next round. */
  function After(info: CreateInfo, max: int, ready: Option<int>): CreateInfo {
    var k := ToLabel(|info.needing|, max, Unavailable(info, ready));
    CreateInfo(Queue(info)[k..], info.labelled + k)
  }

  /** The state after each round has seen its ready count. */
  function Rounds(info: CreateInfo, max: int, readies: seq<int>): CreateInfo {
    if readies == [] then info
    else After(Rounds(info, max, readies[..|readies| - 1]), max, Some(readies[|readies| - 1]))
  }

  /** Pods that were ready stay so. */
  predicate ReadyGrows(readies: seq<int>) {
    forall i :: 0 < i < |readies| ==> readies[i - 1] <= readies[i]
  }

  /** Safety over whole rollouts: as long as ready pods stay ready, the unavailable pods never
      exceed the larger of the maximum and what they were at the start. */
  lemma {:induction false} RolloutBound(info: CreateInfo, max: int, readies: seq<int>)
    requires readies != [] && ReadyGrows(readies)
    ensures Unavailable(Rounds(info, max, readies), Some(readies[|readies| - 1]))
            <= Max(max, Unavailable(info, Some(readies[0])))
    decreases |readies|
  {
    var last := |readies| - 1;
    var before := Rounds(info, max, readies[..last]);
    RoundBound(|before.needing|, max, Unavailable(before, Some(readies[last])));
    if last == 0 {
      assert before == info;
    } else {
      RolloutBound(info, max, readies[..last]);
      assert Unavailable(before, Some(readies[last])) <= Unavailable(before, Some(readies[..last][last - 1]));
    }
  }

  /** Conservation: no node is lost or labelled twice on the way. */
  lemma {:induction false} RoundsConserve(info: CreateInfo, max: int, readies: seq<int>)
    ensures var after := Rounds(info, max, readies);
            after.labelled + |after.needing| == info.labelled + |info.needing|
            && multiset(after.needing) <= multiset(info.needing)
  {
    if readies != [] {
      var before := Rounds(info, max, readies[..|readies| - 1]);
      RoundsConserve(info, max, readies[..|readies| - 1]);
      SmallestFirst(before, max, Unavailable(before, Some(readies[|readies| - 1])));
      QueueSorts(before);
    }
  }

  /** Progress: when every labelled pod is ready and the maximum is positive, a round leaves fewer
      nodes waiting, unless none was. */
  lemma RoundProgress(info: CreateInfo, max: int)
    requires max > 0
    ensures info.needing != [] ==> |After(info, max, Some(info.labelled)).needing| < |info.needing|
    ensures |After(info, max, Some(info.labelled)).needing| == Max(0, |info.needing| - max)
  {
    QueueSorts(info);
  }

  /** Rounds in which every labelled pod has become ready. */
  function Steady(info: CreateInfo, max: int, rounds: nat): CreateInfo {
    if rounds == 0 then info
    else
      var before := Steady(info, max, rounds - 1);
      After(before, max, Some(before.labelled))
  }

  /** So the rollout completes, after as many rounds as the maximum goes into the waiting nodes,
      rounded up, and not before. */
  lemma {:induction false} RolloutCompletes(info: CreateInfo, max: int, rounds: nat)
    requires max > 0
    ensures |Steady(info, max, rounds).needing| == Max(0, |info.needing| - rounds * max)
    ensures var last := Steady(info, max, rounds);
            StatusOf(last, ToLabel(|last.needing|, max, 0), max, ToLabel(|last.needing|, max, 0)) == Completed
            <==> |info.needing| <= rounds * max
  {
    if rounds > 0 {
      RolloutCompletes(info, max, rounds - 1);
      RoundProgress(Steady(info, max, rounds - 1), max);
      assert rounds * max == (rounds - 1) * max + max;
    }
    StatusMeans(Steady(info, max, rounds), max, 0);
  }

  // ---------------------------------------------------------------- from round to round

  /** The nodes after the labels of a round have been written. */
  function Relabel(profile: Profile, nodes: seq<Node>, names: seq<string>): seq<Node> {
    seq(|nodes|, i requires 0 <= i < |nodes| => Relabelled(profile, nodes[i], names))
  }

  function Minus(s: seq<string>, names: seq<string>): seq<string> {
    if s == [] then [] else Minus(s[..|s| - 1], names) + if s[|s| - 1] in names then [] else [s[|s| - 1]]
  }

  /** The profile does not select nodes by the label it writes. */
  predicate IgnoresOwnLabel(profile: Profile) {
    forall i :: 0 <= i < |profile.requirements| ==> profile.requirements[i].on != PROFILE_LABEL
  }

  lemma WantedAnyway(profile: Profile, node: Node, value: string)
    requires IgnoresOwnLabel(profile)
    ensures Wants(profile, node.(labels := node.labels[PROFILE_LABEL := value])) == Wants(profile, node)
  {
    var relabelled := node.(labels := node.labels[PROFILE_LABEL := value]);
    forall i | 0 <= i < |profile.requirements|
      ensures Holds(profile.requirements[i], relabelled.labels) == Holds(profile.requirements[i], node.labels)
    {
    }
  }

  lemma MinusLast(s: seq<string>, x: string, names: seq<string>)
    ensures Minus(s + [x], names) == Minus(s, names) + if x in names then [] else [x]
  {
    assert (s + [x])[..|s|] == s;
  }

  lemma TallyNext(profile: Profile, front: seq<Node>, node: Node)
    ensures var before := Tally(profile, front);
            Tally(profile, front + [node]) ==
            if !Wants(profile, node) then before
            else if HasLabel(profile, node) then before.(labelled := before.labelled + 1)
            else before.(needing := before.needing + [node.name])
  {
    assert (front + [node])[..|front|] == front;
  }

  function Relabelled(profile: Profile, node: Node, names: seq<string>): Node {
    if node.name in names then node.(labels := node.labels[PROFILE_LABEL := profile.key.name]) else node
  }

  lemma RelabelNext(profile: Profile, front: seq<Node>, node: Node, names: seq<string>)
    ensures Relabel(profile, front + [node], names) == Relabel(profile, front, names) + [Relabelled(profile, node, names)]
  {
  }

  lemma {:induction false} RelabelledCount(profile: Profile, nodes: seq<Node>, names: seq<string>)
    requires IgnoresOwnLabel(profile)
    ensures var before := Tally(profile, nodes);
            var after := Tally(profile, Relabel(profile, nodes, names));
            && after.needing == Minus(before.needing, names)
            && after.labelled + |after.needing| == before.labelled + |before.needing|
  {
    if nodes == [] {
      assert Relabel(profile, nodes, names) == [];
    } else {
      var front, node := nodes[..|nodes| - 1], nodes[|nodes| - 1];
      assert nodes == front + [node];
      RelabelledCount(profile, front, names);
      RelabelNext(profile, front, node, names);
      TallyNext(profile, front, node);
      TallyNext(profile, Relabel(profile, front, names), Relabelled(profile, node, names));
      WantedAnyway(profile, node, profile.key.name);
      MinusLast(Tally(profile, front).needing, node.name, names);
    }
  }

  predicate Named(nodes: seq<Node>, name: string) {
    exists m :: 0 <= m < |nodes| && nodes[m].name == name
  }

  lemma {:induction false} NeedingNamed(profile: Profile, nodes: seq<Node>)
    requires DistinctNames(nodes)
    ensures var needing := Tally(profile, nodes).needing;
            && (forall i, j :: 0 <= i < j < |needing| ==> needing[i] != needing[j])
            && (forall i :: 0 <= i < |needing| ==> Named(nodes, needing[i]))
  {
    if nodes != [] {
      var front := nodes[..|nodes| - 1];
      var before := Tally(profile, front).needing;
      NeedingNamed(profile, front);
      assert !Named(front, nodes[|nodes| - 1].name);
      forall i | 0 <= i < |before| ensures Named(nodes, before[i]) {
        var m :| 0 <= m < |front| && front[m].name == before[i];
        assert nodes[m] == front[m];
      }
    }
  }

  lemma {:induction false} MinusCounts(s: seq<string>, names: seq<string>, x: string)
    ensures multiset(Minus(s, names))[x] == if x in names then 0 else multiset(s)[x]
  {
    if s != [] {
      var front, last := s[..|s| - 1], s[|s| - 1];
      assert s == front + [last];
      MinusCounts(front, names, x);
      MinusLast(front, last, names);
    }
  }

  /** What a round does to the counts is what the next reconcile finds on the relabelled nodes:
      for any number of nodes labelled, the rest of the queue, and as many more labelled nodes. */
  lemma NextRoundSees(profile: Profile, nodes: seq<Node>, info: CreateInfo, k: nat, next: CreateInfo)
    requires DistinctNames(nodes) && IgnoresOwnLabel(profile)
    requires info == Tally(profile, nodes) && k <= |info.needing|
    requires next == Tally(profile, Relabel(profile, nodes, Queue(info)[..k]))
    ensures Queue(next) == Queue(info)[k..] && next.labelled == info.labelled + k
  {
    assert next.needing == Minus(info.needing, Queue(info)[..k])
           && next.labelled + |next.needing| == info.labelled + |info.needing| by {
      RelabelledCount(profile, nodes, Queue(info)[..k]);
    }
    assert forall i, j :: 0 <= i < j < |info.needing| ==> info.needing[i] != info.needing[j] by {
      NeedingNamed(profile, nodes);
    }
    QueueContinues(info, next, k);
  }

  lemma QueueContinues(info: CreateInfo, next: CreateInfo, k: nat)
    requires k <= |Queue(info)| && next.needing == Minus(info.needing, Queue(info)[..k])
    requires forall i, j :: 0 <= i < j < |info.needing| ==> info.needing[i] != info.needing[j]
    requires next.labelled + |next.needing| == info.labelled + |info.needing|
    ensures Queue(next) == Queue(info)[k..] && next.labelled == info.labelled + k
  {
    QueueSorts(info);
    QueueSorts(next);
    RestOfQueue(info.needing, Queue(info), k);
    SameNames(Queue(next), Queue(info)[k..]);
  }

  lemma RestOfQueue(s: seq<string>, queue: seq<string>, k: nat)
    requires multiset(queue) == multiset(s) && k <= |queue|
    requires forall i, j :: 0 <= i < j < |s| ==> s[i] != s[j]
    ensures multiset(Minus(s, queue[..k])) == multiset(queue[k..])
  {
    forall x ensures multiset(Minus(s, queue[..k]))[x] == multiset(queue[k..])[x] {
      MinusCounts(s, queue[..k], x);
      DistinctCount(s, x);
      SplitCount(queue, k, x);
    }
  }

  lemma SplitCount(queue: seq<string>, k: nat, x: string)
    requires k <= |queue|
    ensures multiset(queue)[x] == multiset(queue[..k])[x] + multiset(queue[k..])[x]
    ensures x in queue[..k] <==> multiset(queue[..k])[x] > 0
  {
    assert queue == queue[..k] + queue[k..];
  }

  lemma SameNames(a: seq<string>, b: seq<string>)
    requires SortedBy(a, NameLeq) && SortedBy(b, NameLeq) && multiset(a) == multiset(b)
    ensures a == b
  {
    forall i, j | 0 <= i < |a| && 0 <= j < |a| && NameLeq(a[i], a[j]) && NameLeq(a[j], a[i]) ensures a[i] == a[j] {
      NameTotal(a[i], a[j]);
    }
    SortedUnique(a, b, NameLeq);
  }

  // ---------------------------------------------------------------- in place

  /** A profile's create strategy at work on the shared node map. */
  class Rollout {
    var byNode: map<string, ProfileKey>
    var needing: seq<string>
    var labelled: nat
    var strategy: Option<CreateStrategy>

    constructor (byNode: map<string, ProfileKey>, info: CreateInfo, strategy: Option<CreateStrategy>)
      ensures this.byNode == byNode && Info() == info && this.strategy == strategy
    {
      this.byNode := byNode;
      needing, labelled := info.needing, info.labelled;
      this.strategy := strategy;
    }

    function Info(): CreateInfo
      reads this
    {
      CreateInfo(needing, labelled)
    }

    /** Takes the waiting nodes from `count` on out of the node map. */
    method Drop(count: nat)
      requires count <= |needing|
      modifies `byNode
      ensures byNode == Without(old(byNode), needing[count..])
    {
      assert Without(byNode, needing[count..count]) == byNode;
      for i := count to |needing|
        invariant byNode == Without(old(byNode), needing[count..i])
      {
        WithoutNext(old(byNode), needing, count, i);
        byNode := byNode - {needing[i]};
      }
      assert needing[count..|needing|] == needing[count..];
    }

    /** Sorts the waiting nodes and takes those beyond capacity out of the node map. */
    method ApplyMax(max: int, unavailable: int) returns (count: nat)
      modifies `byNode, `needing
      ensures needing == Queue(old(Info()))
      ensures count == ToLabel(|old(needing)|, max, unavailable) && count <= |needing|
      ensures byNode == Without(old(byNode), needing[count..])
    {
      QueueSorts(Info());
      needing := Sort(needing, NameLeq);
      if unavailable >= max {
        count := 0;
      } else {
        count := Min(max - unavailable, |needing|);
      }
      Drop(count);
    }

    /** One round. `now` is the clock. */
    method Apply(setting: MaxSetting, nodes: nat, ready: Option<int>, now: int)
      modifies this
      ensures needing == Queue(old(Info())) && labelled == old(labelled)
      ensures var max := MaxNodesToLabel(setting, nodes);
              var unavailable := Unavailable(old(Info()), ready);
              var k := ToLabel(|old(needing)|, max, unavailable);
              && k <= |needing| && byNode == Without(old(byNode), needing[k..])
              && strategy.Some?
              && strategy.value.status == StatusOf(old(Info()), k, max, unavailable + k)
              && strategy.value.nodesLabeled == labelled + k && strategy.value.maxUnavailable == max
              && (ready.Some? ==> strategy.value.podsReady == ready.value)
              && (var was := if old(strategy).Some? then old(strategy).value.status else NoStatus;
                  strategy.value.lastTransition ==
                  if was != strategy.value.status then Some(now)
                  else if old(strategy).Some? then old(strategy).value.lastTransition else None)
    {
      QueueSorts(Info());
      var previous := if strategy.Some? then strategy.value else CreateStrategy(NoStatus, 0, 0, 0, None);
      var max := MaxNodesToLabel(setting, nodes);
      var unavailable := 0;
      if ready.Some? {
        unavailable := labelled - ready.value;
      }
      var count := ApplyMax(max, unavailable);
      var status := StatusOf(CreateInfo(needing, labelled), count, max, unavailable + count);
      strategy := Some(CreateStrategy(
                         status,
                         labelled + count,
                         if ready.Some? then ready.value else previous.podsReady,
                         max,
                         if previous.status != status then Some(now) else previous.lastTransition));
    }
  }

  /** What a round leaves in the node map: of the waiting nodes, those it labels; every other node
      as it was. */
  lemma RoundKeepsPrefix(byNode: map<string, ProfileKey>, info: CreateInfo, k: nat, name: string)
    requires k <= |Queue(info)|
    requires forall i, j :: 0 <= i < j < |info.needing| ==> info.needing[i] != info.needing[j]
    requires forall n :: n in info.needing ==> n in byNode
    ensures var after := Without(byNode, Queue(info)[k..]);
            && (name in info.needing ==> (name in after <==> name in Queue(info)[..k]))
            && (name !in info.needing ==> (name in after <==> name in byNode))
            && (name in after ==> after[name] == byNode[name])
  {
    QueueSorts(info);
    var queue := Queue(info);
    assert queue == queue[..k] + queue[k..];
    assert name in multiset(info.needing) <==> name in multiset(queue);
    DistinctCount(info.needing, name);
    assert multiset(queue)[name] <= 1;
    assert multiset(queue)[name] == multiset(queue[..k])[name] + multiset(queue[k..])[name];
  }

  lemma {:induction false} DistinctCount(s: seq<string>, x: string)
    requires forall i, j :: 0 <= i < j < |s| ==> s[i] != s[j]
    ensures multiset(s)[x] <= 1
  {
    if s != [] {
      DistinctCount(s[1..], x);
      assert s == [s[0]] + s[1..];
      if s[0] == x {
        assert forall i :: 0 <= i < |s[1..]| ==> s[1..][i] != x;
        assert x !in s[1..];
      }
    }
  }
}
