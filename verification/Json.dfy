/** JSON documents and JSON merge patches (RFC 7396).

    The member names the fleet daemon knows by name are constructors of `Key`;
    every other name is `Name(s)`. The two sides of that choice are in bijection
    with strings, so no generality is lost, and two well-known keys are different
    because their constructors are. */
module Json {
  datatype Key =
    | Metadata | Annotations | Labels | Spec
    | Global | Credentials | ClusterAgentToken | ClusterAgentTokenSecret
    | PendingTaskID | PendingAction | PendingExperimentID | PendingPackage | PendingResultVersion
    | ExperimentSignal | ExperimentID
    | ConfigHash | CreateTaskID
    | ManagedBy | ConfigID | InstallState | Provider | InstallationID | TargetID
    | Name(name: string)

  datatype Json =
    | Null
    | Bool(b: bool)
    | Num(n: int)
    | Str(s: string)
    | Arr(items: seq<Json>)
    | Obj(fields: map<Key, Json>)

  /** The members of an object; anything that is not an object has none. */
  function Fields(j: Json): map<Key, Json> {
    if j.Obj? then j.fields else map[]
  }

  /** The member `k` of `j`, or `Null` when there is none. */
  function Member(j: Json, k: Key): Json {
    if j.Obj? && k in j.fields then j.fields[k] else Null
  }

  /** MergePatch(Target, Patch) of section 2 of RFC 7396. */
  function MergePatch(target: Json, patch: Json): Json
    decreases patch
  {
    if !patch.Obj? then
      patch
    else
      var base := Fields(target);
      var dropped := set k | k in patch.fields && patch.fields[k].Null?;
      Obj(map k | k in (base.Keys + patch.fields.Keys) - dropped ::
            if k in patch.fields then MergePatch(Member(target, k), patch.fields[k]) else base[k])
  }

  /** One level of a merge: a member the patch names is merged, any other is kept. */
  lemma MergePatchMember(target: Json, patch: Json, k: Key)
    requires patch.Obj?
    ensures var merged := MergePatch(target, patch);
            && merged.Obj?
            && (k in merged.fields <==> if k in patch.fields then !patch.fields[k].Null? else k in Fields(target))
            && Member(merged, k) ==
               (if k in patch.fields then MergePatch(Member(target, k), patch.fields[k]) else Member(target, k))
  {
  }
}
