/** The pending-operation slot that the fleet daemon keeps in five annotations of a
    DatadogAgent: how it is written by a merge patch, read back, guarded and cleared. */
module PendingSlot {
  import opened Json

  datatype Option<+T> = None | Some(value: T)

  datatype NsName = NsName(namespace: string, name: string)

  datatype Intent = Start | Stop | Promote

  datatype PendingOperation = PendingOperation(
    intent: Intent,
    taskID: string,
    packageName: string,
    nsn: NsName,
    experimentID: string,
    resultVersion: string)

  type AnnotationMap = map<Key, string>
  type LabelMap = map<Key, string>

  function Lookup(annotations: AnnotationMap, k: Key): string {
    if k in annotations then annotations[k] else ""
  }

  function IntentValue(intent: Intent): string {
    match intent
    case Start => "start"
    case Stop => "stop"
    case Promote => "promote"
  }

  function ParseIntent(action: string): Option<Intent> {
    if action == "start" then Some(Start)
    else if action == "stop" then Some(Stop)
    else if action == "promote" then Some(Promote)
    else None
  }

  /** An operation the slot can hold and give back: the reader treats a blank field as
      "no task". */
  predicate Complete(op: PendingOperation) {
    op.taskID != "" && op.experimentID != "" && op.packageName != ""
  }

  /** The pending task recorded in `annotations`, if there is a complete one. */
  function ParseSlot(nsn: NsName, annotations: AnnotationMap): Option<PendingOperation> {
    match ParseIntent(Lookup(annotations, PendingAction))
    case None => None
    case Some(intent) =>
      var op := PendingOperation(
                  intent,
                  Lookup(annotations, PendingTaskID),
                  Lookup(annotations, PendingPackage),
                  nsn,
                  Lookup(annotations, PendingExperimentID),
                  Lookup(annotations, PendingResultVersion));
      if Complete(op) then Some(op) else None
  }

  predicate IsPendingKey(k: Key) {
    k in {PendingTaskID, PendingAction, PendingExperimentID, PendingPackage, PendingResultVersion}
  }

  predicate SamePendingKeys(a: AnnotationMap, b: AnnotationMap) {
    && (PendingTaskID in a <==> PendingTaskID in b)
    && (PendingAction in a <==> PendingAction in b)
    && (PendingExperimentID in a <==> PendingExperimentID in b)
    && (PendingPackage in a <==> PendingPackage in b)
    && (PendingResultVersion in a <==> PendingResultVersion in b)
    && Lookup(a, PendingTaskID) == Lookup(b, PendingTaskID)
    && Lookup(a, PendingAction) == Lookup(b, PendingAction)
    && Lookup(a, PendingExperimentID) == Lookup(b, PendingExperimentID)
    && Lookup(a, PendingPackage) == Lookup(b, PendingPackage)
    && Lookup(a, PendingResultVersion) == Lookup(b, PendingResultVersion)
  }

  /** May `next` use the slot? The slot may be free, may already hold `next`, or may hold
      a start that a stop cancels. */
  predicate GuardSlot(annotations: AnnotationMap, nsn: NsName, next: PendingOperation) {
    match ParseSlot(nsn, annotations)
    case None => true
    case Some(current) => current == next || (current.intent.Start? && next.intent.Stop?)
  }

  // ---------------------------------------------------------------- building the patch

  /** The merge patch carrying an experiment signal. A config is copied over it member by
      member at the top level, as the operator does; a config that is not an object is an
      error, and JSON null counts as no config. */
  function SignalPatch(signal: string, id: string, config: Option<Json>): Option<Json> {
    var base := map[Metadata := Obj(map[Annotations :=
                  Obj(map[ExperimentSignal := Str(signal), ExperimentID := Str(id)])])];
    match config
    case None => Some(Obj(base))
    case Some(Null) => Some(Obj(base))
    case Some(Obj(fields)) => Some(Obj(base + fields))
    case Some(_) => None
  }

  function PendingFields(op: PendingOperation): map<Key, Json> {
    map[PendingTaskID := Str(op.taskID),
        PendingAction := Str(IntentValue(op.intent)),
        PendingExperimentID := Str(op.experimentID),
        PendingPackage := Str(op.packageName),
        PendingResultVersion := if op.resultVersion != "" then Str(op.resultVersion) else Null]
  }

  /** The patch that records `op` together with the signal already in `base`. */
  function OperationPatch(base: Option<Json>, op: PendingOperation): Json {
    var patch := if base.Some? then Fields(base.value) else map[];
    var metadata := if Metadata in patch then Fields(patch[Metadata]) else map[];
    var annotations := if Annotations in metadata then Fields(metadata[Annotations]) else map[];
    Obj(patch[Metadata := Obj(metadata[Annotations := Obj(annotations + PendingFields(op))])])
  }

  /** The patch that clears the slot. */
  function ClearPatch(): Json {
    Obj(map[Metadata := Obj(map[Annotations := Obj(
      map[PendingTaskID := Null, PendingAction := Null, PendingExperimentID := Null,
          PendingPackage := Null, PendingResultVersion := Null])])])
  }

  // ---------------------------------------------------------------- reading a document

  function AnnotationsMember(doc: Json): Json {
    Member(Member(doc, Metadata), Annotations)
  }

  /** The string-valued annotations of a document. */
  function ReadAnnotations(doc: Json): AnnotationMap {
    var fields := Fields(AnnotationsMember(doc));
    map k | k in fields && fields[k].Str? :: fields[k].s
  }

  /** The document an API server holds for an object with these annotations. */
  function Document(annotations: AnnotationMap): Json {
    Obj(map[Metadata := Obj(map[Annotations := Obj(map k | k in annotations :: Str(annotations[k]))])])
  }

  /** The API server refuses an object with an annotation that is not a string. */
  predicate Admissible(doc: Json) {
    var annotations := AnnotationsMember(doc);
    (annotations.Null? || annotations.Obj?)
    && forall k :: k in Fields(annotations) ==> annotations.fields[k].Str?
  }

  /** Applying a merge patch to an object: the new annotations, or None when it is refused. */
  function PatchAnnotations(annotations: AnnotationMap, patch: Json): Option<AnnotationMap> {
    var doc := MergePatch(Document(annotations), patch);
    if Admissible(doc) then Some(ReadAnnotations(doc)) else None
  }

  lemma ReadDocument(annotations: AnnotationMap)
    ensures ReadAnnotations(Document(annotations)) == annotations
  {
    assert Fields(AnnotationsMember(Document(annotations))) == map k | k in annotations :: Str(annotations[k]);
  }

  // ---------------------------------------------------------------- what a patch does

  /** The annotations part of a patch: JSON null when the patch does not reach it. */
  predicate ReachesAnnotations(patch: Json) {
    patch.Obj? && Member(patch, Metadata).Obj? && AnnotationsMember(patch).Obj?
  }

  /** A patch that reaches the annotations changes exactly the ones it names: null removes,
      a string sets, and any other value leaves no string behind. */
  lemma PatchedAnnotation(doc: Json, patch: Json, k: Key)
    requires ReachesAnnotations(patch)
    ensures var named := AnnotationsMember(patch).fields;
            var before := ReadAnnotations(doc);
            var after := ReadAnnotations(MergePatch(doc, patch));
            && (k !in named ==> (k in after <==> k in before) && Lookup(after, k) == Lookup(before, k))
            && (k in named && named[k].Str? ==> k in after && after[k] == named[k].s)
            && (k in named && !named[k].Str? ==> k !in after)
    ensures var named := AnnotationsMember(patch).fields;
            var merged := AnnotationsMember(MergePatch(doc, patch));
            && merged.Obj?
            && (k in merged.fields <==> if k in named then !named[k].Null? else k in Fields(AnnotationsMember(doc)))
            && (k in merged.fields ==>
                  (merged.fields[k] ==
                   if k in named then MergePatch(Member(AnnotationsMember(doc), k), named[k])
                   else AnnotationsMember(doc).fields[k]))
  {
    MergePatchMember(doc, patch, Metadata);
    var metadataPatch := patch.fields[Metadata];
    MergePatchMember(Member(doc, Metadata), metadataPatch, Annotations);
    var annotationPatch := metadataPatch.fields[Annotations];
    MergePatchMember(AnnotationsMember(doc), annotationPatch, k);
  }

  lemma OperationPatchReaches(base: Option<Json>, op: PendingOperation)
    ensures ReachesAnnotations(OperationPatch(base, op))
    ensures forall k :: k in PendingFields(op) ==>
              k in AnnotationsMember(OperationPatch(base, op)).fields
              && AnnotationsMember(OperationPatch(base, op)).fields[k] == PendingFields(op)[k]
    ensures forall k :: !IsPendingKey(k) ==>
              Member(AnnotationsMember(OperationPatch(base, op)), k)
              == (if base.Some? then Member(AnnotationsMember(base.value), k) else Null)
    ensures forall k :: !IsPendingKey(k) ==>
              (k in AnnotationsMember(OperationPatch(base, op)).fields
               <==> base.Some? && k in Fields(AnnotationsMember(base.value)))
  {
    var patch := if base.Some? then Fields(base.value) else map[];
    var metadata := if Metadata in patch then Fields(patch[Metadata]) else map[];
    var annotations := if Annotations in metadata then Fields(metadata[Annotations]) else map[];
    assert AnnotationsMember(OperationPatch(base, op)) == Obj(annotations + PendingFields(op));
    assert annotations == if base.Some? then Fields(AnnotationsMember(base.value)) else map[];
  }

  /** Whatever the base patch and whatever the document, the five pending annotations end
      up as the operation says; a promote result left by an earlier task is removed. */
  lemma WrittenSlot(doc: Json, base: Option<Json>, op: PendingOperation)
    ensures var after := ReadAnnotations(MergePatch(doc, OperationPatch(base, op)));
            && PendingTaskID in after && after[PendingTaskID] == op.taskID
            && PendingAction in after && after[PendingAction] == IntentValue(op.intent)
            && PendingExperimentID in after && after[PendingExperimentID] == op.experimentID
            && PendingPackage in after && after[PendingPackage] == op.packageName
            && (PendingResultVersion in after <==> op.resultVersion != "")
            && Lookup(after, PendingResultVersion) == op.resultVersion
  {
    var patch := OperationPatch(base, op);
    OperationPatchReaches(base, op);
    PatchedAnnotation(doc, patch, PendingTaskID);
    PatchedAnnotation(doc, patch, PendingAction);
    PatchedAnnotation(doc, patch, PendingExperimentID);
    PatchedAnnotation(doc, patch, PendingPackage);
    PatchedAnnotation(doc, patch, PendingResultVersion);
  }

  /** Patch and parse undo each other: a complete operation written over any document comes
      back exactly; an incomplete one reads as a free slot. */
  lemma PatchThenParse(doc: Json, base: Option<Json>, op: PendingOperation)
    ensures ParseSlot(op.nsn, ReadAnnotations(MergePatch(doc, OperationPatch(base, op))))
            == if Complete(op) then Some(op) else None
  {
    WrittenSlot(doc, base, op);
  }

  /** An annotation outside the slot that the base patch does not name is untouched. */
  lemma UnrelatedAnnotationsKept(doc: Json, base: Option<Json>, op: PendingOperation, k: Key)
    requires !IsPendingKey(k)
    requires base.None? || k !in Fields(AnnotationsMember(base.value))
    ensures var before := ReadAnnotations(doc);
            var after := ReadAnnotations(MergePatch(doc, OperationPatch(base, op)));
            && (k in after <==> k in before)
            && Lookup(after, k) == Lookup(before, k)
  {
    OperationPatchReaches(base, op);
    PatchedAnnotation(doc, OperationPatch(base, op), k);
  }

  predicate HasMetadata(config: Option<Json>) {
    config.Some? && config.value.Obj? && Metadata in config.value.fields
  }

  /** The annotation `k` ends up as `v` although the config brought its own metadata:
      either that metadata says so itself, or it is silent and the object already had it. */
  predicate Supplied(doc: Json, config: Json, k: Key, v: string) {
    if k in Fields(AnnotationsMember(config)) then Member(AnnotationsMember(config), k) == Str(v)
    else k in ReadAnnotations(doc) && ReadAnnotations(doc)[k] == v
  }

  /** One signal key after the whole patch. */
  lemma SignalKey(doc: Json, signal: string, id: string, config: Option<Json>, op: PendingOperation, k: Key)
    requires SignalPatch(signal, id, config).Some?
    requires k == ExperimentSignal || k == ExperimentID
    ensures var v := if k == ExperimentSignal then signal else id;
            var after := ReadAnnotations(MergePatch(doc, OperationPatch(SignalPatch(signal, id, config), op)));
            (k in after && after[k] == v) <==> (!HasMetadata(config) || Supplied(doc, config.value, k, v))
  {
    var v := if k == ExperimentSignal then signal else id;
    var base := SignalPatch(signal, id, config);
    SignalAnnotations(signal, id, config);
    PatchedBy(doc, base.value, op, k, v);
  }

  /** An annotation outside the slot after the whole patch: as the base says, or as it was. */
  lemma PatchedBy(doc: Json, base: Json, op: PendingOperation, k: Key, v: string)
    requires !IsPendingKey(k)
    ensures var after := ReadAnnotations(MergePatch(doc, OperationPatch(Some(base), op)));
            (k in after && after[k] == v) <==> Supplied(doc, base, k, v)
  {
    OperationPatchReaches(Some(base), op);
    PatchedAnnotation(doc, OperationPatch(Some(base), op), k);
  }

  /** The annotations of a signal: those of the config's metadata, if it has any. */
  lemma SignalAnnotations(signal: string, id: string, config: Option<Json>)
    requires SignalPatch(signal, id, config).Some?
    ensures AnnotationsMember(SignalPatch(signal, id, config).value) ==
            if HasMetadata(config) then AnnotationsMember(config.value)
            else Obj(map[ExperimentSignal := Str(signal), ExperimentID := Str(id)])
  {
  }

  /** Exactly when the experiment signal survives in the combined patch: the config must not
      bring a top-level metadata member, or that metadata must say the same thing. */
  lemma SignalSurvivesIff(doc: Json, signal: string, id: string, config: Option<Json>, op: PendingOperation)
    requires SignalPatch(signal, id, config).Some?
    ensures var after := ReadAnnotations(MergePatch(doc, OperationPatch(SignalPatch(signal, id, config), op)));
            (&& ExperimentSignal in after && after[ExperimentSignal] == signal
             && ExperimentID in after && after[ExperimentID] == id)
            <==>
            (|| !HasMetadata(config)
             || (&& Supplied(doc, config.value, ExperimentSignal, signal)
                 && Supplied(doc, config.value, ExperimentID, id)))
  {
    SignalKey(doc, signal, id, config, op, ExperimentSignal);
    SignalKey(doc, signal, id, config, op, ExperimentID);
  }

  /** The failing family is not empty: an empty metadata member in a config drops the signal
      of a fresh start while the pending task is still recorded. */
  lemma MetadataDropsSignal(op: PendingOperation)
    requires Complete(op)
    ensures var config := Some(Obj(map[Metadata := Obj(map[])]));
            var after := ReadAnnotations(
              MergePatch(Document(map[]), OperationPatch(SignalPatch("start", op.experimentID, config), op)));
            ExperimentSignal !in after && ParseSlot(op.nsn, after) == Some(op)
  {
    var config := Some(Obj(map[Metadata := Obj(map[])]));
    var base := SignalPatch("start", op.experimentID, config);
    PatchThenParse(Document(map[]), base, op);
    OperationPatchReaches(base, op);
    assert AnnotationsMember(base.value) == Null;
    ReadDocument(map[]);
    UnrelatedAnnotationsKept(Document(map[]), base, op, ExperimentSignal);
  }

  // ---------------------------------------------------------------- on an object's annotations

  /** Writing an operation on an object: the slot holds it, if it is complete. */
  lemma PatchedSlot(annotations: AnnotationMap, base: Option<Json>, op: PendingOperation)
    requires PatchAnnotations(annotations, OperationPatch(base, op)).Some?
    ensures var after := PatchAnnotations(annotations, OperationPatch(base, op)).value;
            && ParseSlot(op.nsn, after) == (if Complete(op) then Some(op) else None)
            && PendingAction in after
  {
    PatchThenParse(Document(annotations), base, op);
    WrittenSlot(Document(annotations), base, op);
  }

  /** Clearing is always admitted, frees the slot and keeps every other annotation. */
  lemma ClearedSlot(annotations: AnnotationMap, nsn: NsName)
    ensures PatchAnnotations(annotations, ClearPatch()).Some?
    ensures var after := PatchAnnotations(annotations, ClearPatch()).value;
            && ParseSlot(nsn, after) == None
            && PendingAction !in after
            && forall k :: !IsPendingKey(k) ==>
                 (k in after <==> k in annotations) && Lookup(after, k) == Lookup(annotations, k)
  {
    var doc := Document(annotations);
    var merged := AnnotationsMember(MergePatch(doc, ClearPatch()));
    forall k
      ensures merged.Obj?
      ensures IsPendingKey(k) ==> k !in merged.fields
      ensures !IsPendingKey(k) ==>
                (k in merged.fields <==> k in annotations)
                && (k in annotations ==> merged.fields[k] == Str(annotations[k]))
    {
      PatchedAnnotation(doc, ClearPatch(), k);
    }
  }

  lemma NamedIsString(base: Option<Json>, op: PendingOperation, k: Key)
    requires base.Some? && k in Fields(AnnotationsMember(base.value)) ==>
               var v := Fields(AnnotationsMember(base.value))[k]; v.Str? || v.Null?
    ensures var named := AnnotationsMember(OperationPatch(base, op));
            named.Obj? && (k in named.fields ==> named.fields[k].Str? || named.fields[k].Null?)
  {
    OperationPatchReaches(base, op);
    var named := AnnotationsMember(OperationPatch(base, op)).fields;
    if k in named {
      if IsPendingKey(k) {
        assert named[k] == PendingFields(op)[k];
      } else {
        assert named[k] == Member(AnnotationsMember(base.value), k);
      }
    }
  }

  lemma PatchedIsString(annotations: AnnotationMap, patch: Json, k: Key)
    requires ReachesAnnotations(patch)
    requires var named := AnnotationsMember(patch).fields; k in named ==> named[k].Str? || named[k].Null?
    ensures var merged := AnnotationsMember(MergePatch(Document(annotations), patch));
            merged.Obj? && (k in merged.fields ==> merged.fields[k].Str?)
  {
    PatchedAnnotation(Document(annotations), patch, k);
  }

  /** A patch is admitted when every annotation it names becomes a string or goes away. */
  lemma PatchAdmitted(annotations: AnnotationMap, base: Option<Json>, op: PendingOperation)
    requires base.Some? ==>
               forall k :: k in Fields(AnnotationsMember(base.value)) ==>
                 var v := Fields(AnnotationsMember(base.value))[k]; v.Str? || v.Null?
    ensures PatchAnnotations(annotations, OperationPatch(base, op)).Some?
  {
    var patch := OperationPatch(base, op);
    OperationPatchReaches(base, op);
    forall k ensures var merged := AnnotationsMember(MergePatch(Document(annotations), patch));
                     merged.Obj? && (k in merged.fields ==> merged.fields[k].Str?)
    {
      NamedIsString(base, op, k);
      PatchedIsString(annotations, patch, k);
    }
    PatchedAnnotation(Document(annotations), patch, PendingAction);
    assert Admissible(MergePatch(Document(annotations), patch));
  }

  /** The signal alone is admitted. */
  lemma SignalAdmitted(annotations: AnnotationMap, signal: string, id: string, op: PendingOperation)
    ensures PatchAnnotations(annotations, OperationPatch(SignalPatch(signal, id, None), op)).Some?
  {
    var base := SignalPatch(signal, id, None);
    assert AnnotationsMember(base.value) == Obj(map[ExperimentSignal := Str(signal), ExperimentID := Str(id)]);
    PatchAdmitted(annotations, base, op);
  }

  // ---------------------------------------------------------------- labels

  function LabelsMember(doc: Json): Json {
    Member(Member(doc, Metadata), Labels)
  }

  function LabelDocument(labels: LabelMap): Json {
    Obj(map[Metadata := Obj(map[Labels := Obj(map k | k in labels :: Str(labels[k]))])])
  }

  /** Applying a merge patch to an object's labels; None when the API server refuses it because
      a label would not be a string. */
  function PatchLabels(labels: LabelMap, patch: Json): Option<LabelMap> {
    var member := LabelsMember(MergePatch(LabelDocument(labels), patch));
    if (member.Null? || member.Obj?) && forall k :: k in Fields(member) ==> Fields(member)[k].Str?
    then Some(map k | k in Fields(member) :: Fields(member)[k].s)
    else None
  }

  /** The labels a patch brings along, if it brings any. */
  function PatchedLabels(base: Option<Json>): Json {
    if base.Some? then LabelsMember(base.value) else Null
  }

  predicate NamesLabels(base: Option<Json>) {
    base.Some? && Labels in Fields(Member(base.value, Metadata))
  }

  lemma OperationPatchLabels(base: Option<Json>, op: PendingOperation)
    ensures var metadata := Member(OperationPatch(base, op), Metadata);
            && metadata.Obj?
            && (Labels in metadata.fields <==> NamesLabels(base))
            && Member(metadata, Labels) == PatchedLabels(base)
  {
  }

  /** A patch without labels of its own keeps the object's. */
  lemma LabelsUntouched(labels: LabelMap, base: Option<Json>, op: PendingOperation)
    requires !NamesLabels(base)
    ensures PatchLabels(labels, OperationPatch(base, op)) == Some(labels)
  {
    var patch := OperationPatch(base, op);
    var doc := LabelDocument(labels);
    OperationPatchLabels(base, op);
    MergePatchMember(doc, patch, Metadata);
    MergePatchMember(Member(doc, Metadata), Member(patch, Metadata), Labels);
    var fields := map k | k in labels :: Str(labels[k]);
    assert LabelsMember(MergePatch(doc, patch)) == Obj(fields);
    assert (map k | k in fields :: fields[k].s) == labels;
  }

  /** One label after a patch that names labels and is admitted. */
  lemma PatchedLabel(labels: LabelMap, base: Option<Json>, op: PendingOperation, k: Key)
    requires NamesLabels(base) && PatchedLabels(base).Obj?
    requires PatchLabels(labels, OperationPatch(base, op)).Some?
    ensures var after := PatchLabels(labels, OperationPatch(base, op)).value;
            var named := PatchedLabels(base).fields;
            && (k !in named ==> (k in after <==> k in labels) && (k in labels ==> after[k] == labels[k]))
            && (k in named && named[k].Str? ==> k in after && after[k] == named[k].s)
            && (k in named && named[k].Null? ==> k !in after)
            && (k in named ==> named[k].Str? || named[k].Null?)
  {
    var patch := OperationPatch(base, op);
    var doc := LabelDocument(labels);
    OperationPatchLabels(base, op);
    MergePatchMember(doc, patch, Metadata);
    MergePatchMember(Member(doc, Metadata), Member(patch, Metadata), Labels);
    MergePatchMember(LabelsMember(doc), PatchedLabels(base), k);
  }
}
