/** Assignment of nodes to DatadogAgentProfiles: profiles are taken oldest first, and one that
    wants a node another profile already holds is left out. */
module Profiles {
  import opened PendingSlot
  import opened Sorting

  datatype ProfileKey = ProfileKey(namespace: string, name: string)

  datatype Operator = In | NotIn | Exists | DoesNotExist | GreaterThan | LessThan

  datatype Requirement = Requirement(on: string, op: Operator, values: seq<string>)

  datatype Node = Node(name: string, labels: map<string, string>)

  /** `specValid`: the spec passes its own validation. */
  datatype Profile = Profile(key: ProfileKey, created: int, requirements: seq<Requirement>, specValid: bool)

  /** What the create strategy needs to know of a profile's nodes. */
  datatype CreateInfo = CreateInfo(needing: seq<string>, labelled: nat)

  const DEFAULT_PROFILE := ProfileKey("", "default")
  const PROFILE_LABEL := "agent.datadoghq.com/datadogagentprofile"
  const NAME_LIMIT := 63

  // ---------------------------------------------------------------- matching

  function ParseDigits(s: string): Option<int>
    requires s != ""
  {
    if !('0' <= s[|s| - 1] <= '9') then None
    else
      var digit := s[|s| - 1] as int - '0' as int;
      if |s| == 1 then Some(digit)
      else
        match ParseDigits(s[..|s| - 1])
        case None => None
        case Some(front) => Some(10 * front + digit)
  }

  function ParseInt(s: string): Option<int> {
    if s == "" then None
    else if s[0] == '-' || s[0] == '+' then
      if |s| == 1 then None
      else
        match ParseDigits(s[1..])
        case None => None
        case Some(n) => Some(if s[0] == '-' then -n else n)
    else ParseDigits(s)
  }

  predicate Holds(r: Requirement, labels: map<string, string>) {
    match r.op
    case In => r.on in labels && labels[r.on] in r.values
    case NotIn => r.on in labels ==> labels[r.on] !in r.values
    case Exists => r.on in labels
    case DoesNotExist => r.on !in labels
    case GreaterThan => Compares(r, labels) && ParseInt(labels[r.on]).value > ParseInt(r.values[0]).value
    case LessThan => Compares(r, labels) && ParseInt(labels[r.on]).value < ParseInt(r.values[0]).value
  }

  predicate Compares(r: Requirement, labels: map<string, string>) {
    r.on in labels && ParseInt(labels[r.on]).Some? && |r.values| == 1 && ParseInt(r.values[0]).Some?
  }

  /** A profile without requirements wants every node. */
  predicate Wants(profile: Profile, node: Node) {
    forall i :: 0 <= i < |profile.requirements| ==> Holds(profile.requirements[i], node.labels)
  }

  predicate IsDefault(key: ProfileKey) {
    key == DEFAULT_PROFILE
  }

  /** The profile that holds a node; a node without an entry counts as held by a nameless one. */
  function Holder(byNode: map<string, ProfileKey>, name: string): ProfileKey {
    if name in byNode then byNode[name] else ProfileKey("", "")
  }

  predicate Conflicts(profile: Profile, nodes: seq<Node>, byNode: map<string, ProfileKey>) {
    exists i :: 0 <= i < |nodes| && Wants(profile, nodes[i]) && !IsDefault(Holder(byNode, nodes[i].name))
  }

  predicate ValidProfile(profile: Profile) {
    0 < |profile.key.name| <= NAME_LIMIT && profile.specValid
  }

  // ---------------------------------------------------------------- assignment

  function Assigned(profile: Profile, nodes: seq<Node>, byNode: map<string, ProfileKey>): map<string, ProfileKey> {
    if nodes == [] then byNode
    else
      var front := Assigned(profile, nodes[..|nodes| - 1], byNode);
      var last := nodes[|nodes| - 1];
      if Wants(profile, last) then front[last.name := profile.key] else front
  }

  predicate HasLabel(profile: Profile, node: Node) {
    PROFILE_LABEL in node.labels && node.labels[PROFILE_LABEL] == profile.key.name
  }

  function Counted(profile: Profile, nodes: seq<Node>, info: CreateInfo): CreateInfo {
    if nodes == [] then info
    else
      CountedOne(profile, nodes[|nodes| - 1], Counted(profile, nodes[..|nodes| - 1], info))
  }

  function CountedOne(profile: Profile, node: Node, info: CreateInfo): CreateInfo {
    if !Wants(profile, node) then info
    else if HasLabel(profile, node) then info.(labelled := info.labelled + 1)
    else info.(needing := info.needing + [node.name])
  }

  function Tally(profile: Profile, nodes: seq<Node>): CreateInfo {
    Counted(profile, nodes, CreateInfo([], 0))
  }

  /** The nodes a profile wants, in order. */
  function Wanted(profile: Profile, nodes: seq<Node>): seq<Node> {
    if nodes == [] then []
    else
      Wanted(profile, nodes[..|nodes| - 1])
      + if Wants(profile, nodes[|nodes| - 1]) then [nodes[|nodes| - 1]] else []
  }

  predicate DistinctNames(nodes: seq<Node>) {
    forall i, j :: 0 <= i < j < |nodes| ==> nodes[i].name != nodes[j].name
  }

  predicate WantsNamed(profile: Profile, nodes: seq<Node>, name: string) {
    exists i :: 0 <= i < |nodes| && nodes[i].name == name && Wants(profile, nodes[i])
  }

  lemma {:induction false} AssignedAt(profile: Profile, nodes: seq<Node>, byNode: map<string, ProfileKey>, name: string)
    ensures Holder(Assigned(profile, nodes, byNode), name) ==
            if WantsNamed(profile, nodes, name) then profile.key else Holder(byNode, name)
  {
    if nodes != [] {
      var front := nodes[..|nodes| - 1];
      AssignedAt(profile, front, byNode, name);
      if WantsNamed(profile, front, name) {
        var i :| 0 <= i < |front| && front[i].name == name && Wants(profile, front[i]);
        assert nodes[i] == front[i];
      }
    }
  }

  /** Labelled plus waiting nodes are the nodes the profile wants, and the waiting ones are those
      without its label. */
  lemma {:induction false} CountsAddUp(profile: Profile, nodes: seq<Node>)
    ensures var info := Tally(profile, nodes);
            && info.labelled + |info.needing| == |Wanted(profile, nodes)|
            && forall name :: name in info.needing <==>
                 exists i :: 0 <= i < |nodes| && nodes[i].name == name && Wants(profile, nodes[i]) && !HasLabel(profile, nodes[i])
  {
    if nodes != [] {
      var front := nodes[..|nodes| - 1];
      CountsAddUp(profile, front);
      var before := Tally(profile, front);
      var info := Tally(profile, nodes);
      forall name
        ensures name in info.needing <==>
          exists i :: 0 <= i < |nodes| && nodes[i].name == name && Wants(profile, nodes[i]) && !HasLabel(profile, nodes[i])
      {
        if name in before.needing {
          var i :| 0 <= i < |front| && front[i].name == name && Wants(profile, front[i]) && !HasLabel(profile, front[i]);
          assert nodes[i] == front[i];
        }
        if i :| 0 <= i < |nodes| && nodes[i].name == name && Wants(profile, nodes[i]) && !HasLabel(profile, nodes[i]) {
          assert i < |front| ==> front[i] == nodes[i];
        }
      }
    }
  }

  // ---------------------------------------------------------------- a reconcile

  datatype Progress = Progress(byNode: map<string, ProfileKey>, info: map<ProfileKey, CreateInfo>, accepted: seq<Profile>)

  /** Whether a profile's shared settings fit with those of the profiles accepted before it. */
  type Overlay = (seq<Profile>, Profile) -> bool

  function AllDefault(nodes: seq<Node>): map<string, ProfileKey> {
    if nodes == [] then map[] else AllDefault(nodes[..|nodes| - 1])[nodes[|nodes| - 1].name := DEFAULT_PROFILE]
  }

  function InfoAt(info: map<ProfileKey, CreateInfo>, key: ProfileKey): CreateInfo {
    if key in info then info[key] else CreateInfo([], 0)
  }

  predicate Admits(progress: Progress, profile: Profile, nodes: seq<Node>, fits: Overlay) {
    ValidProfile(profile) && !Conflicts(profile, nodes, progress.byNode) && fits(progress.accepted, profile)
  }

  function Commit(progress: Progress, profile: Profile, nodes: seq<Node>, enabled: bool): Progress {
    Progress(Assigned(profile, nodes, progress.byNode),
             if enabled then progress.info[profile.key := Counted(profile, nodes, InfoAt(progress.info, profile.key))]
             else progress.info,
             progress.accepted + [profile])
  }

  /** Check, then assign, profile after profile, from an all-default map. */
  function Reconciled(profiles: seq<Profile>, nodes: seq<Node>, enabled: bool, fits: Overlay): Progress {
    if profiles == [] then Progress(AllDefault(nodes), map[], [])
    else
      var before := Reconciled(profiles[..|profiles| - 1], nodes, enabled, fits);
      var last := profiles[|profiles| - 1];
      if Admits(before, last, nodes, fits) then Commit(before, last, nodes, enabled) else before
  }

  /** Some node is wanted by both. */
  predicate Overlap(a: Profile, b: Profile, nodes: seq<Node>) {
    exists i :: 0 <= i < |nodes| && Wants(a, nodes[i]) && Wants(b, nodes[i])
  }

  /** Profiles live in a namespace, so none is the default. */
  predicate Namespaced(profiles: seq<Profile>) {
    forall i :: 0 <= i < |profiles| ==> profiles[i].key.namespace != ""
  }

  /** Accepted profiles share no node, each holds every node it wants, and the rest is default. */
  predicate WellAssigned(progress: Progress, nodes: seq<Node>) {
    && Namespaced(progress.accepted)
    && (forall a, b :: 0 <= a < b < |progress.accepted| ==> !Overlap(progress.accepted[a], progress.accepted[b], nodes))
    && (forall a, m :: 0 <= a < |progress.accepted| && 0 <= m < |nodes| && Wants(progress.accepted[a], nodes[m]) ==>
          Holder(progress.byNode, nodes[m].name) == progress.accepted[a].key)
    && (forall m :: 0 <= m < |nodes| && !IsDefault(Holder(progress.byNode, nodes[m].name)) ==>
          exists a :: 0 <= a < |progress.accepted| && Wants(progress.accepted[a], nodes[m]))
  }

  lemma {:induction false} AllDefaultAt(nodes: seq<Node>, m: nat)
    requires m < |nodes|
    ensures Holder(AllDefault(nodes), nodes[m].name) == DEFAULT_PROFILE
  {
    if m < |nodes| - 1 {
      var front := nodes[..|nodes| - 1];
      AllDefaultAt(front, m);
      assert front[m] == nodes[m];
    }
  }

  lemma ConflictIffOverlap(progress: Progress, profile: Profile, nodes: seq<Node>)
    requires WellAssigned(progress, nodes)
    ensures Conflicts(profile, nodes, progress.byNode)
       <==> exists a :: 0 <= a < |progress.accepted| && Overlap(progress.accepted[a], profile, nodes)
  {
    if Conflicts(profile, nodes, progress.byNode) {
      var m :| 0 <= m < |nodes| && Wants(profile, nodes[m]) && !IsDefault(Holder(progress.byNode, nodes[m].name));
      var a :| 0 <= a < |progress.accepted| && Wants(progress.accepted[a], nodes[m]);
      assert Overlap(progress.accepted[a], profile, nodes);
    }
    if a :| 0 <= a < |progress.accepted| && Overlap(progress.accepted[a], profile, nodes) {
      var m :| 0 <= m < |nodes| && Wants(progress.accepted[a], nodes[m]) && Wants(profile, nodes[m]);
      assert Holder(progress.byNode, nodes[m].name) == progress.accepted[a].key;
    }
  }

  /** Among nodes with distinct names, a name is wanted when its node is. */
  lemma WantsNamedAt(profile: Profile, nodes: seq<Node>, m: nat)
    requires DistinctNames(nodes) && m < |nodes|
    ensures WantsNamed(profile, nodes, nodes[m].name) <==> Wants(profile, nodes[m])
  {
  }

  lemma CommitWellAssigned(progress: Progress, profile: Profile, nodes: seq<Node>, enabled: bool)
    requires WellAssigned(progress, nodes) && DistinctNames(nodes) && profile.key.namespace != ""
    requires !Conflicts(profile, nodes, progress.byNode)
    ensures WellAssigned(Commit(progress, profile, nodes, enabled), nodes)
  {
    ConflictIffOverlap(progress, profile, nodes);
    var after := Commit(progress, profile, nodes, enabled);
    forall m | 0 <= m < |nodes|
      ensures Holder(after.byNode, nodes[m].name) ==
              if Wants(profile, nodes[m]) then profile.key else Holder(progress.byNode, nodes[m].name)
    {
      AssignedAt(profile, nodes, progress.byNode, nodes[m].name);
      WantsNamedAt(profile, nodes, m);
    }
    assert forall a, m :: 0 <= a < |progress.accepted| && 0 <= m < |nodes| ==>
             Wants(progress.accepted[a], nodes[m]) && Wants(profile, nodes[m]) ==> Overlap(progress.accepted[a], profile, nodes);
    forall m | 0 <= m < |nodes| && !IsDefault(Holder(after.byNode, nodes[m].name))
      ensures exists a :: 0 <= a < |after.accepted| && Wants(after.accepted[a], nodes[m])
    {
      if Wants(profile, nodes[m]) {
        assert after.accepted[|progress.accepted|] == profile;
      } else {
        var a :| 0 <= a < |progress.accepted| && Wants(progress.accepted[a], nodes[m]);
        assert after.accepted[a] == progress.accepted[a];
      }
    }
  }

  /** Every reconcile, over any profile list, ends well assigned. */
  lemma {:induction false} ReconcileWellAssigned(profiles: seq<Profile>, nodes: seq<Node>, enabled: bool, fits: Overlay)
    requires DistinctNames(nodes) && Namespaced(profiles)
    ensures WellAssigned(Reconciled(profiles, nodes, enabled, fits), nodes)
  {
    if profiles == [] {
      forall m | 0 <= m < |nodes| ensures IsDefault(Holder(AllDefault(nodes), nodes[m].name)) { AllDefaultAt(nodes, m); }
    } else {
      var front := profiles[..|profiles| - 1];
      ReconcileWellAssigned(front, nodes, enabled, fits);
      var before := Reconciled(front, nodes, enabled, fits);
      if Admits(before, profiles[|profiles| - 1], nodes, fits) {
        CommitWellAssigned(before, profiles[|profiles| - 1], nodes, enabled);
      }
    }
  }

  lemma {:induction false} AcceptedGrows(profiles: seq<Profile>, k: nat, nodes: seq<Node>, enabled: bool, fits: Overlay)
    requires k <= |profiles|
    ensures Reconciled(profiles[..k], nodes, enabled, fits).accepted <= Reconciled(profiles, nodes, enabled, fits).accepted
    decreases |profiles|
  {
    if k == |profiles| {
      assert profiles[..k] == profiles;
    } else {
      var front := profiles[..|profiles| - 1];
      AcceptedGrows(front, k, nodes, enabled, fits);
      assert front[..k] == profiles[..k];
    }
  }

  /** A profile is accepted in its turn exactly when it is valid, its shared settings fit, and it
      shares no node with a profile accepted before it; so a rejected one that is valid and fits
      overlaps an earlier one that stays accepted. */
  lemma AcceptedIff(profiles: seq<Profile>, k: nat, nodes: seq<Node>, enabled: bool, fits: Overlay)
    requires DistinctNames(nodes) && Namespaced(profiles) && k < |profiles|
    ensures var before := Reconciled(profiles[..k], nodes, enabled, fits).accepted;
            var after := Reconciled(profiles[..k + 1], nodes, enabled, fits).accepted;
            var final := Reconciled(profiles, nodes, enabled, fits).accepted;
            && before <= after <= final
            && after == (if && ValidProfile(profiles[k]) && fits(before, profiles[k])
                            && !(exists a :: 0 <= a < |before| && Overlap(before[a], profiles[k], nodes))
                         then before + [profiles[k]] else before)
  {
    assert profiles[..k + 1][..k] == profiles[..k];
    ReconcileWellAssigned(profiles[..k], nodes, enabled, fits);
    ConflictIffOverlap(Reconciled(profiles[..k], nodes, enabled, fits), profiles[k], nodes);
    AcceptedGrows(profiles, k + 1, nodes, enabled, fits);
  }

  predicate DistinctProfiles(profiles: seq<Profile>) {
    forall i, j :: 0 <= i < j < |profiles| ==> profiles[i].key != profiles[j].key
  }

  lemma {:induction false} AcceptedAmong(profiles: seq<Profile>, nodes: seq<Node>, enabled: bool, fits: Overlay, a: nat)
    requires a < |Reconciled(profiles, nodes, enabled, fits).accepted|
    ensures exists k :: 0 <= k < |profiles| && profiles[k] == Reconciled(profiles, nodes, enabled, fits).accepted[a]
  {
    var front := profiles[..|profiles| - 1];
    if a < |Reconciled(front, nodes, enabled, fits).accepted| {
      AcceptedAmong(front, nodes, enabled, fits, a);
      var k :| 0 <= k < |front| && front[k] == Reconciled(front, nodes, enabled, fits).accepted[a];
      assert profiles[k] == front[k];
    }
  }

  /** With the create strategy on, the labelled and waiting counts of every accepted profile add up
      to the nodes it wants. */
  lemma {:induction false} AcceptedCounts(profiles: seq<Profile>, nodes: seq<Node>, fits: Overlay, a: nat)
    requires DistinctProfiles(profiles)
    requires a < |Reconciled(profiles, nodes, true, fits).accepted|
    ensures var result := Reconciled(profiles, nodes, true, fits);
            var profile := result.accepted[a];
            && profile.key in result.info
            && result.info[profile.key] == Tally(profile, nodes)
            && result.info[profile.key].labelled + |result.info[profile.key].needing| == |Wanted(profile, nodes)|
  {
    InfoIsCounted(profiles, nodes, fits, a);
    CountsAddUp(Reconciled(profiles, nodes, true, fits).accepted[a], nodes);
  }

  lemma {:induction false} NoInfoYet(profiles: seq<Profile>, nodes: seq<Node>, fits: Overlay, key: ProfileKey)
    requires forall k :: 0 <= k < |profiles| ==> profiles[k].key != key
    ensures key !in Reconciled(profiles, nodes, true, fits).info
  {
    if profiles != [] {
      NoInfoYet(profiles[..|profiles| - 1], nodes, fits, key);
    }
  }

  lemma {:induction false} InfoIsCounted(profiles: seq<Profile>, nodes: seq<Node>, fits: Overlay, a: nat)
    requires DistinctProfiles(profiles)
    requires a < |Reconciled(profiles, nodes, true, fits).accepted|
    ensures var result := Reconciled(profiles, nodes, true, fits);
            var profile := result.accepted[a];
            profile.key in result.info && result.info[profile.key] == Tally(profile, nodes)
  {
    var front := profiles[..|profiles| - 1];
    var last := profiles[|profiles| - 1];
    var before := Reconciled(front, nodes, true, fits);
    if a < |before.accepted| {
      InfoIsCounted(front, nodes, fits, a);
      AcceptedAmong(front, nodes, true, fits, a);
      var k :| 0 <= k < |front| && front[k] == before.accepted[a];
      assert profiles[k] == front[k];
    } else {
      NoInfoYet(front, nodes, fits, last.key);
    }
  }

  // ---------------------------------------------------------------- the order of profiles

  /** Older first, then by name. */
  predicate ProfileLeq(a: Profile, b: Profile) {
    a.created < b.created || (a.created == b.created && NameLeq(a.key.name, b.key.name))
  }

  lemma ProfilesPreordered()
    ensures TotalPreorder(ProfileLeq)
  {
    forall a, b ensures ProfileLeq(a, b) || ProfileLeq(b, a) { NameTotal(a.key.name, b.key.name); }
    forall a, b, c | ProfileLeq(a, b) && ProfileLeq(b, c) ensures ProfileLeq(a, c) {
      if a.created == b.created == c.created { NameTransitive(a.key.name, b.key.name, c.key.name); }
    }
  }

  /** No two profiles have the same creation time and name. */
  predicate DistinctAges(profiles: seq<Profile>) {
    forall i, j :: 0 <= i < j < |profiles| ==>
      profiles[i].created != profiles[j].created || profiles[i].key.name != profiles[j].key.name
  }

  /** The outcome does not depend on the order in which the API server lists the profiles. */
  lemma OrderIndependent(a: seq<Profile>, b: seq<Profile>, nodes: seq<Node>, enabled: bool, fits: Overlay)
    requires multiset(a) == multiset(b) && DistinctAges(a)
    ensures Reconciled(Sort(a, ProfileLeq), nodes, enabled, fits) == Reconciled(Sort(b, ProfileLeq), nodes, enabled, fits)
  {
    ProfilesPreordered();
    forall i, j | 0 <= i < |a| && 0 <= j < |a| && ProfileLeq(a[i], a[j]) && ProfileLeq(a[j], a[i]) ensures a[i] == a[j] {
      NameTotal(a[i].key.name, a[j].key.name);
    }
    SortIgnoresOrder(a, b, ProfileLeq);
  }

  /** Without distinct ages it can: two profiles of the same age and name, in two namespaces, that
      want the same node; the one listed first gets it. */
  lemma ListingOrderDecides(age: int, name: string, node: Node)
    requires 0 < |name| <= NAME_LIMIT
    ensures var p := Profile(ProfileKey("a", name), age, [], true);
            var q := Profile(ProfileKey("b", name), age, [], true);
            var fits: Overlay := (accepted, profile) => true;
            && Reconciled(Sort([p, q], ProfileLeq), [node], false, fits).accepted == [p]
            && Reconciled(Sort([q, p], ProfileLeq), [node], false, fits).accepted == [q]
  {
    var p := Profile(ProfileKey("a", name), age, [], true);
    var q := Profile(ProfileKey("b", name), age, [], true);
    var fits: Overlay := (accepted, profile) => true;
    NameTotal(name, name);
    TwoProfiles(p, q, node, fits);
    TwoProfiles(q, p, node, fits);
  }

  lemma TwoProfiles(p: Profile, q: Profile, node: Node, fits: Overlay)
    requires ValidProfile(p) && p.key.namespace != "" && Wants(p, node) && Wants(q, node)
    requires ProfileLeq(p, q) && fits([], p)
    ensures Reconciled(Sort([p, q], ProfileLeq), [node], false, fits).accepted == [p]
  {
    assert [p, q][1..] == [q] && [q][1..] == [];
    assert Sort([q], ProfileLeq) == [q];
    assert Sort([p, q], ProfileLeq) == Insert(p, [q], ProfileLeq) == [p, q];
    assert [p, q][..1] == [p] && [p][..0] == [];
    AllDefaultAt([node], 0);
    var empty := Reconciled([], [node], false, fits);
    var first := Reconciled([p], [node], false, fits);
    assert first == Commit(empty, p, [node], false);
    AssignedAt(p, [node], empty.byNode, node.name);
    assert Wants(p, [node][0]);
    assert Holder(first.byNode, [node][0].name) == p.key;
    assert Conflicts(q, [node], first.byNode);
  }

  // ---------------------------------------------------------------- in place

  /** The two maps a reconcile fills in. */
  class NodeAssignment {
    var byNode: map<string, ProfileKey>
    var info: map<ProfileKey, CreateInfo>

    /** Pre-populated with the default profile. */
    constructor (nodes: seq<Node>)
      ensures byNode == AllDefault(nodes) && info == map[]
    {
      byNode, info := map[], map[];
      new;
      for i := 0 to |nodes|
        invariant byNode == AllDefault(nodes[..i]) && info == map[]
      {
        byNode := byNode[nodes[i].name := DEFAULT_PROFILE];
        assert nodes[..i + 1][..i] == nodes[..i];
      }
      assert nodes[..|nodes|] == nodes;
    }

    method CheckConflicts(profile: Profile, nodes: seq<Node>) returns (conflict: bool)
      ensures conflict <==> Conflicts(profile, nodes, byNode)
    {
      for i := 0 to |nodes|
        invariant forall m :: 0 <= m < i && Wants(profile, nodes[m]) ==> IsDefault(Holder(byNode, nodes[m].name))
      {
        if Wants(profile, nodes[i]) && !IsDefault(Holder(byNode, nodes[i].name)) {
          return true;
        }
      }
      return false;
    }

    method AssignNodes(profile: Profile, nodes: seq<Node>, enabled: bool)
      modifies this
      ensures byNode == Assigned(profile, nodes, old(byNode))
      ensures info == if enabled then old(info)[profile.key := Counted(profile, nodes, InfoAt(old(info), profile.key))]
                      else old(info)
    {
      if enabled && profile.key !in info {
        info := info[profile.key := CreateInfo([], 0)];
      }
      for i := 0 to |nodes|
        invariant byNode == Assigned(profile, nodes[..i], old(byNode))
        invariant info == if enabled then old(info)[profile.key := Counted(profile, nodes[..i], InfoAt(old(info), profile.key))]
                          else old(info)
      {
        assert nodes[..i + 1][..i] == nodes[..i];
        if Wants(profile, nodes[i]) {
          byNode := byNode[nodes[i].name := profile.key];
          if enabled {
            CountNode(profile, nodes[i]);
          }
        }
      }
      assert nodes[..|nodes|] == nodes;
    }

    /** A node the profile wants is labelled already, or waits. */
    method CountNode(profile: Profile, node: Node)
      requires profile.key in info && Wants(profile, node)
      modifies `info
      ensures info == old(info)[profile.key := CountedOne(profile, node, old(info)[profile.key])]
    {
      var current := info[profile.key];
      if HasLabel(profile, node) {
        info := info[profile.key := current.(labelled := current.labelled + 1)];
      } else {
        info := info[profile.key := current.(needing := current.needing + [node.name])];
      }
    }

    /** The loop over the sorted profiles. */
    method Reconcile(profiles: seq<Profile>, nodes: seq<Node>, enabled: bool, fits: Overlay) returns (accepted: seq<Profile>)
      requires byNode == AllDefault(nodes) && info == map[]
      modifies this
      ensures Progress(byNode, info, accepted) == Reconciled(Sort(profiles, ProfileLeq), nodes, enabled, fits)
    {
      var sorted := Sort(profiles, ProfileLeq);
      accepted := [];
      for i := 0 to |sorted|
        invariant Progress(byNode, info, accepted) == Reconciled(sorted[..i], nodes, enabled, fits)
      {
        assert sorted[..i + 1][..i] == sorted[..i];
        if ValidProfile(sorted[i]) {
          var conflict := CheckConflicts(sorted[i], nodes);
          if !conflict && fits(accepted, sorted[i]) {
            AssignNodes(sorted[i], nodes, enabled);
            accepted := accepted + [sorted[i]];
          }
        }
      }
      assert sorted[..|sorted|] == sorted;
    }
  }
}
