/** Merging the remote configurations of the DatadogAgent, in the order the backend lists them. */
module ConfigMerge {
  import opened PendingSlot

  datatype Feature = Feature(enabled: Option<bool>)

  datatype Sbom = Sbom(enabled: Option<bool>, host: Option<Feature>, image: Option<Feature>)

  datatype CoreAgent = CoreAgent(sbom: Option<Sbom>)

  datatype SystemProbe = SystemProbe(cws: Option<Feature>, usm: Option<Feature>)

  datatype SecurityAgent = SecurityAgent(cspm: Option<Feature>)

  datatype RemoteConfig = RemoteConfig(
    id: string,
    name: string,
    core: Option<CoreAgent>,
    probe: Option<SystemProbe>,
    security: Option<SecurityAgent>)

  const EMPTY := RemoteConfig("", "", None, None, None)

  // ---------------------------------------------------------------- merging

  function MergeId(dst: string, src: string): string {
    if src != "" && dst != "" then dst + "|" + src else if src != "" then src else dst
  }

  /** The last value that is set wins. */
  function MergeValue(dst: Option<bool>, src: Option<bool>): Option<bool> {
    if src.Some? then src else dst
  }

  function MergeFeature(dst: Option<Feature>, src: Option<Feature>): Option<Feature> {
    if src.None? then dst
    else Some(Feature(MergeValue(if dst.Some? then dst.value.enabled else None, src.value.enabled)))
  }

  function MergeSbom(dst: Option<Sbom>, src: Option<Sbom>): Option<Sbom> {
    if src.None? then dst
    else
      var into := if dst.Some? then dst.value else Sbom(None, None, None);
      Some(Sbom(MergeValue(into.enabled, src.value.enabled), MergeFeature(into.host, src.value.host),
                MergeFeature(into.image, src.value.image)))
  }

  function MergeCore(dst: Option<CoreAgent>, src: Option<CoreAgent>): Option<CoreAgent> {
    if src.None? then dst
    else Some(CoreAgent(MergeSbom(if dst.Some? then dst.value.sbom else None, src.value.sbom)))
  }

  function MergeProbe(dst: Option<SystemProbe>, src: Option<SystemProbe>): Option<SystemProbe> {
    if src.None? then dst
    else
      var into := if dst.Some? then dst.value else SystemProbe(None, None);
      Some(SystemProbe(MergeFeature(into.cws, src.value.cws), MergeFeature(into.usm, src.value.usm)))
  }

  function MergeSecurity(dst: Option<SecurityAgent>, src: Option<SecurityAgent>): Option<SecurityAgent> {
    if src.None? then dst
    else Some(SecurityAgent(MergeFeature(if dst.Some? then dst.value.cspm else None, src.value.cspm)))
  }

  /** The name is not merged: the destination keeps its own. */
  function Merge(dst: RemoteConfig, src: RemoteConfig): RemoteConfig {
    RemoteConfig(MergeId(dst.id, src.id), dst.name, MergeCore(dst.core, src.core), MergeProbe(dst.probe, src.probe),
                 MergeSecurity(dst.security, src.security))
  }

  type ConfigsByID = map<string, RemoteConfig>

  /** All listed configs that are there, merged in the listed order. */
  function MergeInOrder(order: seq<string>, configs: ConfigsByID): RemoteConfig {
    if order == [] then EMPTY
    else
      var front := MergeInOrder(order[..|order| - 1], configs);
      var id := order[|order| - 1];
      if id in configs then Merge(front, configs[id]) else front
  }

  // ---------------------------------------------------------------- leaves and sections

  /** The places of a config that hold a value. */
  datatype Leaf = SbomEnabled | HostEnabled | ImageEnabled | CwsEnabled | UsmEnabled | CspmEnabled

  function FeatureValue(f: Option<Feature>): Option<bool> {
    if f.Some? then f.value.enabled else None
  }

  function SbomOf(c: RemoteConfig): Option<Sbom> {
    if c.core.Some? then c.core.value.sbom else None
  }

  function ValueAt(c: RemoteConfig, leaf: Leaf): Option<bool> {
    match leaf
    case SbomEnabled => if SbomOf(c).Some? then SbomOf(c).value.enabled else None
    case HostEnabled => if SbomOf(c).Some? then FeatureValue(SbomOf(c).value.host) else None
    case ImageEnabled => if SbomOf(c).Some? then FeatureValue(SbomOf(c).value.image) else None
    case CwsEnabled => if c.probe.Some? then FeatureValue(c.probe.value.cws) else None
    case UsmEnabled => if c.probe.Some? then FeatureValue(c.probe.value.usm) else None
    case CspmEnabled => if c.security.Some? then FeatureValue(c.security.value.cspm) else None
  }

  /** The places of a config that may be absent as a whole. */
  datatype Section =
    | CoreSection | SbomSection | HostSection | ImageSection
    | ProbeSection | CwsSection | UsmSection
    | SecuritySection | CspmSection

  predicate Present(c: RemoteConfig, section: Section) {
    match section
    case CoreSection => c.core.Some?
    case SbomSection => SbomOf(c).Some?
    case HostSection => SbomOf(c).Some? && SbomOf(c).value.host.Some?
    case ImageSection => SbomOf(c).Some? && SbomOf(c).value.image.Some?
    case ProbeSection => c.probe.Some?
    case CwsSection => c.probe.Some? && c.probe.value.cws.Some?
    case UsmSection => c.probe.Some? && c.probe.value.usm.Some?
    case SecuritySection => c.security.Some?
    case CspmSection => c.security.Some? && c.security.value.cspm.Some?
  }

  lemma MergeAt(dst: RemoteConfig, src: RemoteConfig, leaf: Leaf)
    ensures ValueAt(Merge(dst, src), leaf) == MergeValue(ValueAt(dst, leaf), ValueAt(src, leaf))
  {
  }

  lemma MergePresence(dst: RemoteConfig, src: RemoteConfig, section: Section)
    ensures Present(Merge(dst, src), section) <==> Present(dst, section) || Present(src, section)
  {
  }

  /** Listed, there, and setting the leaf. */
  predicate SetsAt(order: seq<string>, configs: ConfigsByID, k: nat, leaf: Leaf)
    requires k < |order|
  {
    order[k] in configs && ValueAt(configs[order[k]], leaf).Some?
  }

  /** Each leaf has the value of the last listed config that sets it, for any order list, with
      unknown and repeated IDs. */
  lemma {:induction false} LastSetterWins(order: seq<string>, configs: ConfigsByID, leaf: Leaf)
    ensures var value := ValueAt(MergeInOrder(order, configs), leaf);
            if value.None? then forall k :: 0 <= k < |order| ==> !SetsAt(order, configs, k, leaf)
            else exists k :: 0 <= k < |order| && SetsAt(order, configs, k, leaf)
                             && value == ValueAt(configs[order[k]], leaf)
                             && forall j :: k < j < |order| ==> !SetsAt(order, configs, j, leaf)
  {
    if order != [] {
      var last := |order| - 1;
      var front := order[..last];
      LastSetterWins(front, configs, leaf);
      if order[last] in configs {
        MergeAt(MergeInOrder(front, configs), configs[order[last]], leaf);
      }
      if SetsAt(order, configs, last, leaf) {
      } else if ValueAt(MergeInOrder(front, configs), leaf).Some? {
        var k :| 0 <= k < |front| && SetsAt(front, configs, k, leaf)
                 && ValueAt(MergeInOrder(front, configs), leaf) == ValueAt(configs[front[k]], leaf)
                 && forall j :: k < j < |front| ==> !SetsAt(front, configs, j, leaf);
        assert SetsAt(order, configs, k, leaf);
        forall j | k < j < |order| ensures !SetsAt(order, configs, j, leaf) {
          assert j < |front| ==> SetsAt(front, configs, j, leaf) == SetsAt(order, configs, j, leaf);
        }
      } else {
        forall k | 0 <= k < |order| ensures !SetsAt(order, configs, k, leaf) {
          assert k < |front| ==> SetsAt(front, configs, k, leaf) == SetsAt(order, configs, k, leaf);
        }
      }
    }
  }

  /** A section is there exactly when a listed config has it. */
  lemma {:induction false} SectionsPresent(order: seq<string>, configs: ConfigsByID, section: Section)
    ensures Present(MergeInOrder(order, configs), section)
       <==> exists k :: 0 <= k < |order| && order[k] in configs && Present(configs[order[k]], section)
  {
    if order != [] {
      var last := |order| - 1;
      var front := order[..last];
      SectionsPresent(front, configs, section);
      if order[last] in configs {
        MergePresence(MergeInOrder(front, configs), configs[order[last]], section);
      }
      if k :| 0 <= k < |front| && front[k] in configs && Present(configs[front[k]], section) {
        assert order[k] == front[k];
      }
      if k :| 0 <= k < |order| && order[k] in configs && Present(configs[order[k]], section) {
        assert k < |front| ==> front[k] == order[k];
      }
    }
  }

  // ---------------------------------------------------------------- IDs

  /** The IDs of the listed configs that are there, in order; a blank ID leaves no trace. */
  function Found(order: seq<string>, configs: ConfigsByID): seq<string> {
    if order == [] then []
    else
      var front := Found(order[..|order| - 1], configs);
      var id := order[|order| - 1];
      if id in configs && id != "" then front + [id] else front
  }

  function Join(ids: seq<string>): string {
    if ids == [] then "" else if |ids| == 1 then ids[0] else Join(ids[..|ids| - 1]) + "|" + ids[|ids| - 1]
  }

  /** Each config is stored under its own ID. */
  predicate Keyed(configs: ConfigsByID) {
    forall id :: id in configs ==> configs[id].id == id
  }

  lemma {:induction false} JoinNext(ids: seq<string>, id: string)
    requires forall i :: 0 <= i < |ids| ==> ids[i] != ""
    requires id != ""
    ensures Join(ids + [id]) == MergeId(Join(ids), id)
  {
    assert (ids + [id])[..|ids|] == ids;
    assert ids != [] ==> Join(ids) != "";
  }

  lemma {:induction false} FoundNotBlank(order: seq<string>, configs: ConfigsByID)
    ensures forall i :: 0 <= i < |Found(order, configs)| ==> Found(order, configs)[i] != ""
  {
    if order != [] {
      FoundNotBlank(order[..|order| - 1], configs);
    }
  }

  /** The merged ID is the IDs found, joined in the listed order. */
  lemma {:induction false} IdsJoined(order: seq<string>, configs: ConfigsByID)
    requires Keyed(configs)
    ensures MergeInOrder(order, configs).id == Join(Found(order, configs))
  {
    if order != [] {
      var front := order[..|order| - 1];
      var id := order[|order| - 1];
      IdsJoined(front, configs);
      if id in configs && id != "" {
        FoundNotBlank(front, configs);
        JoinNext(Found(front, configs), id);
      }
    }
  }

  // ---------------------------------------------------------------- algebra

  lemma MergeIdAssociative(a: string, b: string, c: string)
    ensures MergeId(MergeId(a, b), c) == MergeId(a, MergeId(b, c))
  {
    assert (a + "|" + b) + "|" + c == a + "|" + (b + "|" + c);
  }

  lemma MergeFeatureAssociative(a: Option<Feature>, b: Option<Feature>, c: Option<Feature>)
    ensures MergeFeature(MergeFeature(a, b), c) == MergeFeature(a, MergeFeature(b, c))
  {
  }

  lemma MergeSbomAssociative(a: Option<Sbom>, b: Option<Sbom>, c: Option<Sbom>)
    ensures MergeSbom(MergeSbom(a, b), c) == MergeSbom(a, MergeSbom(b, c))
  {
    var none := Sbom(None, None, None);
    var x, y, z := if a.Some? then a.value else none, if b.Some? then b.value else none, if c.Some? then c.value else none;
    MergeFeatureAssociative(x.host, y.host, z.host);
    MergeFeatureAssociative(x.image, y.image, z.image);
  }

  lemma MergeProbeAssociative(a: Option<SystemProbe>, b: Option<SystemProbe>, c: Option<SystemProbe>)
    ensures MergeProbe(MergeProbe(a, b), c) == MergeProbe(a, MergeProbe(b, c))
  {
    var none := SystemProbe(None, None);
    var x, y, z := if a.Some? then a.value else none, if b.Some? then b.value else none, if c.Some? then c.value else none;
    MergeFeatureAssociative(x.cws, y.cws, z.cws);
    MergeFeatureAssociative(x.usm, y.usm, z.usm);
  }

  lemma MergeSecurityAssociative(a: Option<SecurityAgent>, b: Option<SecurityAgent>, c: Option<SecurityAgent>)
    ensures MergeSecurity(MergeSecurity(a, b), c) == MergeSecurity(a, MergeSecurity(b, c))
  {
  }

  lemma MergeCoreAssociative(a: Option<CoreAgent>, b: Option<CoreAgent>, c: Option<CoreAgent>)
    ensures MergeCore(MergeCore(a, b), c) == MergeCore(a, MergeCore(b, c))
  {
    MergeSbomAssociative(if a.Some? then a.value.sbom else None, if b.Some? then b.value.sbom else None,
                         if c.Some? then c.value.sbom else None);
  }

  lemma MergeAssociative(a: RemoteConfig, b: RemoteConfig, c: RemoteConfig)
    ensures Merge(Merge(a, b), c) == Merge(a, Merge(b, c))
  {
    MergeIdAssociative(a.id, b.id, c.id);
    MergeCoreAssociative(a.core, b.core, c.core);
    MergeProbeAssociative(a.probe, b.probe, c.probe);
    MergeSecurityAssociative(a.security, b.security, c.security);
  }

  /** The empty config is a right identity; on the left it is one exactly for configs without a
      name, which a merge drops. */
  lemma EmptyIsIdentity(c: RemoteConfig)
    ensures Merge(c, EMPTY) == c
    ensures Merge(EMPTY, c) == c.(name := "")
    ensures Merge(EMPTY, c) == c <==> c.name == ""
  {
    if c.core.Some? && c.core.value.sbom.Some? {
      FeatureIntoNothing(c.core.value.sbom.value.host);
      FeatureIntoNothing(c.core.value.sbom.value.image);
    }
    if c.probe.Some? {
      FeatureIntoNothing(c.probe.value.cws);
      FeatureIntoNothing(c.probe.value.usm);
    }
    if c.security.Some? {
      FeatureIntoNothing(c.security.value.cspm);
    }
  }

  lemma FeatureIntoNothing(f: Option<Feature>)
    ensures MergeFeature(None, f) == f
  {
  }

  /** A named config shows it. */
  lemma NameIsDropped(name: string)
    requires name != ""
    ensures Merge(EMPTY, EMPTY.(name := name)) != EMPTY.(name := name)
  {
  }

  /** Merging a list in two parts, and then the parts, is merging the list. */
  lemma {:induction false} MergeInParts(front: seq<string>, back: seq<string>, configs: ConfigsByID)
    ensures MergeInOrder(front + back, configs) == Merge(MergeInOrder(front, configs), MergeInOrder(back, configs))
    decreases |back|
  {
    if back == [] {
      assert front + back == front;
      EmptyIsIdentity(MergeInOrder(front, configs));
    } else {
      var rest := back[..|back| - 1];
      var id := back[|back| - 1];
      assert (front + back)[..|front + back| - 1] == front + rest;
      MergeInParts(front, rest, configs);
      if id in configs {
        MergeAssociative(MergeInOrder(front, configs), MergeInOrder(rest, configs), configs[id]);
      }
    }
  }

  // ---------------------------------------------------------------- in place

  /** The config that a merge fills in. */
  class MergedConfig {
    var id: string
    var name: string
    var core: Option<CoreAgent>
    var probe: Option<SystemProbe>
    var security: Option<SecurityAgent>

    constructor ()
      ensures Value() == EMPTY
    {
      id, name, core, probe, security := "", "", None, None, None;
    }

    function Value(): RemoteConfig
      reads this
    {
      RemoteConfig(id, name, core, probe, security)
    }

    method MergeFrom(src: RemoteConfig)
      modifies this
      ensures Value() == Merge(old(Value()), src)
    {
      if src.id != "" && id != "" {
        id := id + "|" + src.id;
      } else if src.id != "" {
        id := src.id;
      }
      if src.core.Some? { MergeCoreFrom(src.core.value); }
      if src.probe.Some? { MergeProbeFrom(src.probe.value); }
      if src.security.Some? { MergeSecurityFrom(src.security.value); }
    }

    method MergeCoreFrom(src: CoreAgent)
      modifies `core
      ensures core == MergeCore(old(core), Some(src))
    {
      if core.None? { core := Some(CoreAgent(None)); }
      if src.sbom.Some? { MergeSbomFrom(src.sbom.value); }
    }

    method MergeSbomFrom(src: Sbom)
      requires core.Some?
      modifies `core
      ensures core == Some(CoreAgent(MergeSbom(old(core).value.sbom, Some(src))))
    {
      var sbom := if core.value.sbom.Some? then core.value.sbom.value else Sbom(None, None, None);
      if src.enabled.Some? { sbom := sbom.(enabled := src.enabled); }
      if src.host.Some? {
        var host := MergeInto(sbom.host, src.host.value);
        sbom := sbom.(host := Some(host));
      }
      if src.image.Some? {
        var image := MergeInto(sbom.image, src.image.value);
        sbom := sbom.(image := Some(image));
      }
      core := Some(CoreAgent(Some(sbom)));
    }

    method MergeSecurityFrom(src: SecurityAgent)
      modifies `security
      ensures security == MergeSecurity(old(security), Some(src))
    {
      if security.None? { security := Some(SecurityAgent(None)); }
      if src.cspm.Some? {
        var cspm := MergeInto(security.value.cspm, src.cspm.value);
        security := Some(SecurityAgent(Some(cspm)));
      }
    }

    method MergeProbeFrom(src: SystemProbe)
      modifies `probe
      ensures probe == MergeProbe(old(probe), Some(src))
    {
      if probe.None? { probe := Some(SystemProbe(None, None)); }
      if src.usm.Some? {
        var usm := MergeInto(probe.value.usm, src.usm.value);
        probe := Some(probe.value.(usm := Some(usm)));
      }
      if src.cws.Some? {
        var cws := MergeInto(probe.value.cws, src.cws.value);
        probe := Some(probe.value.(cws := Some(cws)));
      }
    }

    static method MergeInto(dst: Option<Feature>, src: Feature) returns (merged: Feature)
      ensures Some(merged) == MergeFeature(dst, Some(src))
    {
      merged := if dst.Some? then dst.value else Feature(None);
      if src.enabled.Some? { merged := merged.(enabled := src.enabled); }
    }

    /** The loop over the order list. */
    method MergeAll(order: seq<string>, configs: ConfigsByID)
      requires Value() == EMPTY
      modifies this
      ensures Value() == MergeInOrder(order, configs)
    {
      for i := 0 to |order|
        invariant Value() == MergeInOrder(order[..i], configs)
      {
        assert order[..i + 1][..i] == order[..i];
        if order[i] in configs {
          MergeFrom(configs[order[i]]);
        }
      }
      assert order[..|order|] == order;
    }
  }
}
