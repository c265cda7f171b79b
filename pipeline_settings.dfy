/**
 * Persisted pipeline settings as values. The explicit members are the
 * ones the manager reads; every other field (crosshair offsets, draw flags,
 * thresholds, ...) lives in `fields`, keyed by its Java field name.
 */
module PipelineSettings {
  import opened Wrappers
  import opened PipelineKinds

  type FieldName = string
  type FieldValue = int

  const IndexField: FieldName := "pipelineIndex"
  const TypeField: FieldName := "pipelineType"
  const NicknameField: FieldName := "pipelineNickname"

  /** Java's Integer.MAX_VALUE. */
  const IntMax: int := 0x7fff_ffff

  datatype Settings = Settings(
    pipelineIndex: int,
    nickname: string,
    kind: PipelineKind,
    fields: map<FieldName, FieldValue>)

  /**
   * What the settings classes declare: the names of the base-class fields
   * (AdvancedPipelineSettings and its superclasses), the names carrying the
   * copy-suppression annotation, and each kind's default field values.
   */
  datatype SettingsSchema = SettingsSchema(
    baseFields: set<FieldName>,
    suppressed: set<FieldName>,
    defaults: PipelineKind -> map<FieldName, FieldValue>)
  {
    /**
     * The kind is a suppressed base field, so a type change never copies it,
     * and every user kind's settings class declares all the base fields
     * (they are inherited) beyond the three held as explicit members.
     */
    predicate Valid() {
      && TypeField in baseFields && TypeField in suppressed
      && forall k :: IsUserKind(k) ==> baseFields - {IndexField, TypeField, NicknameField} <= defaults(k).Keys
    }

    /** The base fields a type change copies from the old settings. */
    function Copied(): set<FieldName> {
      baseFields - suppressed
    }
  }

  /** Fresh settings of a kind, or None for the two built-in kinds. */
  function CreateSettingsForType(schema: SettingsSchema, kind: PipelineKind, nickname: string): (r: Option<Settings>)
    ensures r.None? <==> !IsUserKind(kind)
    ensures r.Some? ==> r.value.kind == kind && r.value.nickname == nickname
                        && r.value.pipelineIndex == 0 && r.value.fields == schema.defaults(kind)
  {
    match kind
    case Calib3d => None
    case DriverMode => None
    case _ => Some(Settings(0, nickname, kind, schema.defaults(kind)))
  }

  /**
   * The settings a type change stores: `created` (the new kind's defaults)
   * with every copied base field taken from `prev`.
   */
  function CopyBaseFields(schema: SettingsSchema, prev: Settings, created: Settings): (r: Settings)
    requires schema.Valid()
    ensures r.kind == created.kind
    ensures r.pipelineIndex == if IndexField in schema.Copied() then prev.pipelineIndex else created.pipelineIndex
    ensures r.nickname == if NicknameField in schema.Copied() then prev.nickname else created.nickname
    ensures r.fields.Keys == created.fields.Keys
    ensures forall f :: f in created.fields && f in prev.fields && f in schema.Copied() ==> r.fields[f] == prev.fields[f]
    ensures forall f :: f in created.fields && (f !in prev.fields || f !in schema.Copied()) ==> r.fields[f] == created.fields[f]
  {
    var copied := schema.Copied();
    Settings(
      if IndexField in copied then prev.pipelineIndex else created.pipelineIndex,
      if NicknameField in copied then prev.nickname else created.nickname,
      created.kind,
      map f | f in created.fields :: if f in copied && f in prev.fields then prev.fields[f] else created.fields[f])
  }

  /** The user pipelines' nicknames, in list order. */
  function Nicknames(s: seq<Settings>): (r: seq<string>)
    ensures |r| == |s|
    ensures forall i :: 0 <= i < |s| ==> r[i] == s[i].nickname
  {
    if s == [] then [] else Nicknames(s[..|s| - 1]) + [s[|s| - 1].nickname]
  }

  /** The first settings whose pipelineIndex is `index` (the lookup loop of getPipelineSettings). */
  function FindByIndex(s: seq<Settings>, index: int): (r: Option<Settings>)
    ensures r.Some? ==> exists i :: 0 <= i < |s| && s[i] == r.value && r.value.pipelineIndex == index
                                    && forall j :: 0 <= j < i ==> s[j].pipelineIndex != index
    ensures r.None? <==> forall i :: 0 <= i < |s| ==> s[i].pipelineIndex != index
  {
    if s == [] then None
    else if s[0].pipelineIndex == index then
      Some(s[0])
    else
      var r := FindByIndex(s[1..], index);
      if r.Some? then
        var i :| 0 <= i < |s[1..]| && s[1..][i] == r.value && r.value.pipelineIndex == index
                 && forall j :: 0 <= j < i ==> s[1..][j].pipelineIndex != index;
        assert s[i + 1] == r.value && forall j :: 0 <= j < i + 1 ==> s[j].pipelineIndex != index;
        r
      else
        assert forall i :: 1 <= i < |s| ==> s[i].pipelineIndex == s[1..][i - 1].pipelineIndex;
        r
  }

  /** Every settings carries its own list position as pipelineIndex. */
  predicate Dense(s: seq<Settings>) {
    forall i :: 0 <= i < |s| ==> s[i].pipelineIndex == i
  }

  /** On a dense list, looking up index `i` gives slot `i`, and nothing outside the range is found. */
  lemma FindByIndexDense(s: seq<Settings>, index: int)
    requires Dense(s)
    ensures FindByIndex(s, index) == if 0 <= index < |s| then Some(s[index]) else None
  {
    if 0 <= index < |s| {
      assert s[index].pipelineIndex == index;
      var i :| 0 <= i < |s| && s[i] == FindByIndex(s, index).value && s[i].pipelineIndex == index;
      assert i == index;
    } else {
      assert forall i :: 0 <= i < |s| ==> s[i].pipelineIndex != index;
    }
  }
}
