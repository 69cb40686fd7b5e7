/** encoding/json for the resource types: encoders, decoders, and what a trip over the wire preserves. */
module Codec {
  import opened Wrappers
  import opened Json
  import opened Types

  // ---- Leaf encoders ----

  function EncString(s: string): Json { Str(s) }

  function EncInt32(n: Int32): Json { Int(n) }

  function EncInt64(n: Int64): Json { Int(n) }

  function EncStringMap(m: GoMap<string>): Json { EncodeMap(m, EncString) }

  function DecStringMap(j: Json): Decoded<GoMap<string>> { DecodeMap(j, DecodeString) }

  function EncPortMap(m: GoMap<Int32>): Json { EncodeMap(m, EncInt32) }

  function DecPortMap(j: Json): Decoded<GoMap<Int32>> { DecodeMap(j, DecodeInt32) }

  function EncStrings(s: Slice<string>): Json { EncodeSlice(s, EncString) }

  function DecStrings(j: Json): Decoded<Slice<string>> { DecodeSlice(j, DecodeString) }

  function OptString(j: Json): Decoded<Option<string>> { DecodePtr(j, DecodeString) }

  function OptInt32(j: Json): Decoded<Option<Int32>> { DecodePtr(j, DecodeInt32) }

  // ---- What an encoded object carries, and what a decoder accepts ----

  /** The member is there exactly when there is a value for it, with that value. */
  predicate Carries(m: map<string, Json>, key: string, value: Option<Json>) {
    (key in m <==> value.Some?) && (value.Some? ==> m[key] == value.value)
  }

  function Text(p: Option<string>): Option<Json> {
    match p case None => None case Some(s) => Some(Str(s))
  }

  function Number(p: Option<int>): Option<Json> {
    match p case None => None case Some(n) => Some(Int(n))
  }

  /** The shape of a document, as the Go type it is decoded into prescribes it. */
  datatype Schema =
    | TText
    | TInt(lo: int, hi: int)
    | TList(item: Schema)
    | TDict(value: Schema)
    | TRecord(members: map<string, Schema>)

  /** null fits everywhere, and members the record does not know may be anything. */
  predicate Conforms(j: Json, t: Schema)
    decreases j
  {
    j.Null? ||
    match t
    case TText => j.Str?
    case TInt(lo, hi) => j.Int? && lo <= j.n <= hi
    case TList(item) => j.Arr? && forall i :: 0 <= i < |j.items| ==> Conforms(j.items[i], item)
    case TDict(value) => j.Obj? && forall k :: k in j.fields ==> Conforms(j.fields[k], value)
    case TRecord(members) =>
      j.Obj? && forall k :: k in j.fields && k in members ==> Conforms(j.fields[k], members[k])
  }

  const T_INT32 := TInt(-0x8000_0000, 0x7FFF_FFFF)
  const T_INT64 := TInt(-0x8000_0000_0000_0000, 0x7FFF_FFFF_FFFF_FFFF)
  const T_PROBLEM :=
    TRecord(map["detail" := TText, "instance" := TText, "status" := T_INT32, "title" := TText, "type" := TText])
  const T_HEALTH :=
    TRecord(map["path" := TText, "status" := TText, "type" := TText, "uptime" := T_INT64, "version" := TText])
  const T_KUBERNETES_HINTS :=
    TRecord(map["cluster_ip" := TText, "node_ports" := TDict(T_INT32), "selector" := TDict(TText)])
  const T_KUBERNETES_STATE :=
    TRecord(map["cluster_ip" := TText, "external_ips" := TList(TText), "selector" := TDict(TText), "type" := TText])
  const T_HINTS := TRecord(map["kubernetes" := T_KUBERNETES_HINTS])
  const T_METADATA := TRecord(map["labels" := TDict(TText), "name" := TText, "namespace" := TText])
  const T_PORT :=
    TRecord(map["name" := TText, "node_port" := T_INT32, "port" := T_INT32, "protocol" := TText,
                "target_port" := T_INT32])
  const T_SPEC :=
    TRecord(map["metadata" := T_METADATA, "ports" := TList(T_PORT), "provider_hints" := T_HINTS,
                "routing_level" := TText, "service_type" := TText])
  const T_NETWORK :=
    TRecord(map["create_time" := TText, "id" := TText, "kubernetes" := T_KUBERNETES_STATE, "path" := TText,
                "spec" := T_SPEC, "status" := TText, "update_time" := TText])
  const T_LIST := TRecord(map["next_page_token" := TText, "results" := TList(T_NETWORK)])

  /** The member, if it is there, has the shape. */
  predicate Fits(m: map<string, Json>, key: string, t: Schema) {
    key in m ==> Conforms(m[key], t)
  }

  lemma RecordShape(m: map<string, Json>, members: map<string, Schema>)
    ensures Conforms(Obj(m), TRecord(members)) <==> forall k :: k in members ==> Fits(m, k, members[k])
  {
  }

  lemma FiveMembers(m: map<string, Json>, r: map<string, Schema>, a: string, b: string, c: string, d: string, e: string)
    requires r.Keys == {a, b, c, d, e}
    ensures Conforms(Obj(m), TRecord(r)) <==>
            Fits(m, a, r[a]) && Fits(m, b, r[b]) && Fits(m, c, r[c]) && Fits(m, d, r[d]) && Fits(m, e, r[e])
  {
    RecordShape(m, r);
  }

  lemma LeavesAccept(j: Json)
    ensures DecodeString(j).Ok? <==> Conforms(j, TText)
    ensures DecodeInt32(j).Ok? <==> Conforms(j, T_INT32)
    ensures DecodeInt64(j).Ok? <==> Conforms(j, T_INT64)
  {
  }

  /** null leaves a field of a fresh value at its zero value. */
  lemma NullIsZero()
    ensures DecodeString(Null) == Ok("") && DecodeInt32(Null) == Ok(0) && DecodeInt64(Null) == Ok(0)
    ensures OptString(Null) == Ok(None) && OptInt32(Null) == Ok(None)
    ensures DecStringMap(Null) == Ok(NilMap) && DecPortMap(Null) == Ok(NilMap) && DecStrings(Null) == Ok(NilSlice)
  {
  }

  lemma AllLeavesAccept(m: map<string, Json>)
    ensures forall k :: k in m ==> (DecodeString(m[k]).Ok? <==> Conforms(m[k], TText))
    ensures forall k :: k in m ==> (DecodeInt32(m[k]).Ok? <==> Conforms(m[k], T_INT32))
    ensures forall k :: k in m ==> (DecodeInt64(m[k]).Ok? <==> Conforms(m[k], T_INT64))
  {
    forall k | k in m
      ensures DecodeString(m[k]).Ok? <==> Conforms(m[k], TText)
      ensures DecodeInt32(m[k]).Ok? <==> Conforms(m[k], T_INT32)
      ensures DecodeInt64(m[k]).Ok? <==> Conforms(m[k], T_INT64)
    {
      LeavesAccept(m[k]);
    }
  }

  lemma StringMapAccepts(j: Json)
    ensures DecStringMap(j).Ok? <==> Conforms(j, TDict(TText))
  {
    if j.Obj? {
      forall k | k in j.fields ensures DecodeString(j.fields[k]).Ok? <==> Conforms(j.fields[k], TText) {
        LeavesAccept(j.fields[k]);
      }
    }
  }

  lemma PortMapAccepts(j: Json)
    ensures DecPortMap(j).Ok? <==> Conforms(j, TDict(T_INT32))
  {
    if j.Obj? {
      forall k | k in j.fields ensures DecodeInt32(j.fields[k]).Ok? <==> Conforms(j.fields[k], T_INT32) {
        LeavesAccept(j.fields[k]);
      }
    }
  }

  lemma ListAccepts<T>(j: Json, dec: Json -> Decoded<T>, item: Schema)
    requires j.Arr? ==> forall i :: 0 <= i < |j.items| ==> (dec(j.items[i]).Ok? <==> Conforms(j.items[i], item))
    ensures DecodeSlice(j, dec).Ok? <==> Conforms(j, TList(item))
  {
    if j.Arr? {
      DecodeItemsAt(j.items, dec);
    }
  }

  // ---- Error ----

  function EncodeProblem(e: Problem): Json {
    var m0 := Put(map[], "detail", EncodePtr(e.detail, EncString));
    var m1 := Put(m0, "instance", EncodePtr(e.instance, EncString));
    var m2 := Put(m1, "status", EncodePtr(e.status, EncInt32));
    Obj(m2["title" := Str(e.title)]["type" := Str(e.kind)])
  }

  const ZERO_PROBLEM := Problem(None, None, None, "", "")

  function DecodeProblem(j: Json): Decoded<Problem> {
    match j
    case Null => Ok(ZERO_PROBLEM)
    case Obj(m) =>
      var detail :- Field(m, "detail", None, OptString);
      var instance :- Field(m, "instance", None, OptString);
      var status :- Field(m, "status", None, OptInt32);
      var title :- Field(m, "title", "", DecodeString);
      var kind :- Field(m, "type", "", DecodeString);
      Ok(Problem(detail, instance, status, title, kind))
    case _ => Err(TypeMismatch)
  }

  lemma ProblemRoundTrip(e: Problem)
    ensures DecodeProblem(EncodeProblem(e)) == Ok(e)
  {
  }

  /** The members of section 3.1 of RFC 7807, by name; title and type are always there, the others only when set. */
  lemma ProblemMembers(e: Problem)
    ensures var m := EncodeProblem(e).fields;
            && {"type", "title"} <= m.Keys <= {"type", "title", "status", "detail", "instance"}
            && m["type"] == Str(e.kind) && m["title"] == Str(e.title)
            && ("status" in m <==> e.status.Some?) && (e.status.Some? ==> m["status"] == Int(e.status.value))
            && ("detail" in m <==> e.detail.Some?) && (e.detail.Some? ==> m["detail"] == Str(e.detail.value))
            && ("instance" in m <==> e.instance.Some?) && (e.instance.Some? ==> m["instance"] == Str(e.instance.value))
  {
  }

  /** Exactly the documents of the prescribed shape are accepted. */
  lemma ProblemAccepts(j: Json)
    ensures DecodeProblem(j).Ok? <==> Conforms(j, T_PROBLEM)
  {
    if j.Obj? {
      FiveMembers(j.fields, T_PROBLEM.members, "detail", "instance", "status", "title", "type");
      AllLeavesAccept(j.fields);
    }
  }

  // ---- Health ----

  function EncodeHealth(h: Health): Json {
    var m0 := Put(map[], "path", EncodePtr(h.path, EncString));
    var m1 := m0["status" := Str(h.status)];
    var m2 := Put(m1, "type", EncodePtr(h.kind, EncString));
    var m3 := Put(m2, "uptime", EncodePtr(h.uptime, EncInt64));
    Obj(Put(m3, "version", EncodePtr(h.version, EncString)))
  }

  const ZERO_HEALTH := Health(None, "", None, None, None)

  function DecodeHealth(j: Json): Decoded<Health> {
    match j
    case Null => Ok(ZERO_HEALTH)
    case Obj(m) =>
      var path :- Field(m, "path", None, OptString);
      var status :- Field(m, "status", "", DecodeString);
      var kind :- Field(m, "type", None, OptString);
      var uptime :- Field(m, "uptime", None, x => DecodePtr(x, DecodeInt64));
      var version :- Field(m, "version", None, OptString);
      Ok(Health(path, status, kind, uptime, version))
    case _ => Err(TypeMismatch)
  }

  lemma HealthRoundTrip(h: Health)
    ensures DecodeHealth(EncodeHealth(h)) == Ok(h)
  {
  }

  lemma HealthMembers(h: Health)
    ensures var m := EncodeHealth(h).fields;
            && {"status"} <= m.Keys <= {"path", "status", "type", "uptime", "version"}
            && m["status"] == Str(h.status)
            && Carries(m, "path", Text(h.path)) && Carries(m, "type", Text(h.kind))
            && Carries(m, "uptime", Number(h.uptime)) && Carries(m, "version", Text(h.version))
  {
  }

  lemma HealthAccepts(j: Json)
    ensures DecodeHealth(j).Ok? <==> Conforms(j, T_HEALTH)
  {
    if j.Obj? {
      FiveMembers(j.fields, T_HEALTH.members, "path", "status", "type", "uptime", "version");
      AllLeavesAccept(j.fields);
    }
  }

  // ---- KubernetesProviderHints ----

  function EncodeKubernetesHints(h: KubernetesHints): Json {
    var m0 := Put(map[], "cluster_ip", EncodePtr(h.clusterIp, EncString));
    var m1 := Put(m0, "node_ports", EncodePtr(h.nodePorts, EncPortMap));
    Obj(Put(m1, "selector", EncodePtr(h.selector, EncStringMap)))
  }

  const ZERO_KUBERNETES_HINTS := KubernetesHints(None, None, None)

  function DecodeKubernetesHints(j: Json): Decoded<KubernetesHints> {
    match j
    case Null => Ok(ZERO_KUBERNETES_HINTS)
    case Obj(m) =>
      var clusterIp :- Field(m, "cluster_ip", None, OptString);
      var nodePorts :- Field(m, "node_ports", None, x => DecodePtr(x, DecPortMap));
      var selector :- Field(m, "selector", None, x => DecodePtr(x, DecStringMap));
      Ok(KubernetesHints(clusterIp, nodePorts, selector))
    case _ => Err(TypeMismatch)
  }

  function NormKubernetesHints(h: KubernetesHints): KubernetesHints {
    h.(nodePorts := NormMapPtr(h.nodePorts), selector := NormMapPtr(h.selector))
  }

  lemma KubernetesHintsRoundTrip(h: KubernetesHints)
    ensures DecodeKubernetesHints(EncodeKubernetesHints(h)) == Ok(NormKubernetesHints(h))
  {
    MapRoundTrip(h.nodePorts, EncInt32, DecodeInt32);
    MapRoundTrip(h.selector, EncString, DecodeString);
  }

  lemma KubernetesHintsMembers(h: KubernetesHints)
    ensures var m := EncodeKubernetesHints(h).fields;
            && m.Keys <= {"cluster_ip", "node_ports", "selector"}
            && Carries(m, "cluster_ip", Text(h.clusterIp))
            && Carries(m, "node_ports", if h.nodePorts.Some? then Some(EncPortMap(h.nodePorts.value)) else None)
            && Carries(m, "selector", if h.selector.Some? then Some(EncStringMap(h.selector.value)) else None)
  {
  }

  lemma KubernetesHintsShape(m: map<string, Json>)
    ensures Conforms(Obj(m), T_KUBERNETES_HINTS) <==>
            Fits(m, "cluster_ip", TText) && Fits(m, "node_ports", TDict(T_INT32)) && Fits(m, "selector", TDict(TText))
  {
  }

  lemma KubernetesHintsAccepts(j: Json)
    ensures DecodeKubernetesHints(j).Ok? <==> Conforms(j, T_KUBERNETES_HINTS)
  {
    if j.Obj? {
      var m := j.fields;
      KubernetesHintsShape(m);
      AllLeavesAccept(m);
      if "node_ports" in m {
        PortMapAccepts(m["node_ports"]);
      }
      if "selector" in m {
        StringMapAccepts(m["selector"]);
      }
    }
  }

  // ---- KubernetesState ----

  function EncodeKubernetesState(k: KubernetesState): Json {
    var m0 := Put(map[], "cluster_ip", EncodePtr(k.clusterIp, EncString));
    var m1 := Put(m0, "external_ips", EncodePtr(k.externalIps, EncStrings));
    var m2 := Put(m1, "selector", EncodePtr(k.selector, EncStringMap));
    Obj(Put(m2, "type", EncodePtr(k.kind, EncString)))
  }

  const ZERO_KUBERNETES_STATE := KubernetesState(None, None, None, None)

  function DecodeKubernetesState(j: Json): Decoded<KubernetesState> {
    match j
    case Null => Ok(ZERO_KUBERNETES_STATE)
    case Obj(m) =>
      var clusterIp :- Field(m, "cluster_ip", None, OptString);
      var externalIps :- Field(m, "external_ips", None, x => DecodePtr(x, DecStrings));
      var selector :- Field(m, "selector", None, x => DecodePtr(x, DecStringMap));
      var kind :- Field(m, "type", None, OptString);
      Ok(KubernetesState(clusterIp, externalIps, selector, kind))
    case _ => Err(TypeMismatch)
  }

  function NormSlicePtr<T>(p: Option<Slice<T>>): Option<Slice<T>> {
    if p == Some(NilSlice) then None else p
  }

  function NormKubernetesState(k: KubernetesState): KubernetesState {
    k.(externalIps := NormSlicePtr(k.externalIps), selector := NormMapPtr(k.selector))
  }

  lemma ExternalIpsRoundTrip(p: Option<Slice<string>>)
    ensures p.Some? ==> DecodePtr(EncStrings(p.value), DecStrings) == Ok(NormSlicePtr(p))
  {
    if p.Some? {
      var same := (s: string) => s;
      SliceRoundTrip(p.value, EncString, DecodeString, same);
      assert NormSlice(p.value, same) == p.value;
    }
  }

  lemma KubernetesStateMembers(k: KubernetesState)
    ensures var m := EncodeKubernetesState(k).fields;
            && m.Keys <= {"cluster_ip", "external_ips", "selector", "type"}
            && Carries(m, "cluster_ip", Text(k.clusterIp)) && Carries(m, "type", Text(k.kind))
            && Carries(m, "external_ips", if k.externalIps.Some? then Some(EncStrings(k.externalIps.value)) else None)
            && Carries(m, "selector", if k.selector.Some? then Some(EncStringMap(k.selector.value)) else None)
  {
  }

  lemma StringsAccept(j: Json)
    ensures DecStrings(j).Ok? <==> Conforms(j, TList(TText))
  {
    if j.Arr? {
      forall i | 0 <= i < |j.items| ensures DecodeString(j.items[i]).Ok? <==> Conforms(j.items[i], TText) {
        LeavesAccept(j.items[i]);
      }
    }
    ListAccepts(j, DecodeString, TText);
  }

  lemma KubernetesStateShape(m: map<string, Json>)
    ensures Conforms(Obj(m), T_KUBERNETES_STATE) <==>
            && Fits(m, "cluster_ip", TText) && Fits(m, "external_ips", TList(TText))
            && Fits(m, "selector", TDict(TText)) && Fits(m, "type", TText)
  {
  }

  lemma KubernetesStateOk(m: map<string, Json>)
    ensures DecodeKubernetesState(Obj(m)).Ok? <==>
            && ("cluster_ip" in m ==> DecodeString(m["cluster_ip"]).Ok?)
            && ("external_ips" in m ==> DecStrings(m["external_ips"]).Ok?)
            && ("selector" in m ==> DecStringMap(m["selector"]).Ok?)
            && ("type" in m ==> DecodeString(m["type"]).Ok?)
  {
  }

  lemma KubernetesStateAccepts(j: Json)
    ensures DecodeKubernetesState(j).Ok? <==> Conforms(j, T_KUBERNETES_STATE)
  {
    if j.Obj? {
      var m := j.fields;
      KubernetesStateShape(m);
      KubernetesStateOk(m);
      AllLeavesAccept(m);
      if "external_ips" in m {
        StringsAccept(m["external_ips"]);
      }
      if "selector" in m {
        StringMapAccepts(m["selector"]);
      }
    }
  }

  lemma KubernetesStateRoundTrip(k: KubernetesState)
    ensures DecodeKubernetesState(EncodeKubernetesState(k)) == Ok(NormKubernetesState(k))
  {
    KubernetesStateMembers(k);
    MapRoundTrip(k.selector, EncString, DecodeString);
    ExternalIpsRoundTrip(k.externalIps);
  }

  // ---- ProviderHints: MarshalJSON and UnmarshalJSON as functions ----

  const KUBERNETES := "kubernetes"

  /** The kubernetes member first, then every additional property, which overrides it if it has the same key. */
  function EncodeHints(h: ProviderHints): Json {
    var m := Put(map[], KUBERNETES, EncodePtr(h.kubernetes, EncodeKubernetesHints));
    match h.additional
    case NilMap => Obj(m)
    case GoMap(entries) => Obj(m + map k | k in entries :: EncodeAny(entries[k]))
  }

  /** The catch-all map: everything but the kubernetes member; nil when there is nothing. */
  function DecodeAdditional(m: map<string, Json>): GoMap<Any> {
    var rest := m - {KUBERNETES};
    if rest == map[] then NilMap else GoMap(map k | k in rest :: DecodeAny(rest[k]))
  }

  /** Decoding into a fresh value. */
  function DecodeHints(j: Json): Decoded<ProviderHints> {
    match j
    case Null => Ok(ProviderHints(None, NilMap))
    case Obj(m) =>
      var kubernetes :- Field(m, KUBERNETES, None, x => DecodePtr(x, DecodeKubernetesHints));
      Ok(ProviderHints(kubernetes, DecodeAdditional(m)))
    case _ => Err(TypeMismatch)
  }

  /** No additional property shadows the kubernetes member. */
  predicate Unshadowed(h: ProviderHints) {
    h.additional.NilMap? || KUBERNETES !in h.additional.entries
  }

  function NormAdditional(a: GoMap<Any>): GoMap<Any> {
    if a.NilMap? || a.entries == map[] then NilMap
    else GoMap(map k | k in a.entries :: NormAny(a.entries[k]))
  }

  function NormHints(h: ProviderHints): ProviderHints {
    ProviderHints(
      if h.kubernetes.Some? then Some(NormKubernetesHints(h.kubernetes.value)) else None,
      NormAdditional(h.additional))
  }

  lemma AdditionalRoundTrip(h: ProviderHints)
    requires Unshadowed(h)
    ensures DecodeAdditional(EncodeHints(h).fields) == NormAdditional(h.additional)
  {
    var m := EncodeHints(h).fields;
    var rest := m - {KUBERNETES};
    if h.additional.NilMap? || h.additional.entries == map[] {
      assert rest == map[];
    } else {
      var entries := h.additional.entries;
      var k0 :| k0 in entries;
      assert k0 in rest;
      assert rest.Keys == entries.Keys;
      forall k | k in entries ensures DecodeAny(rest[k]) == NormAny(entries[k]) {
        AnyRoundTrip(entries[k]);
      }
      assert (map k | k in rest :: DecodeAny(rest[k])) == map k | k in entries :: NormAny(entries[k]);
    }
  }

  /**
   The codec is faithful, up to nil, on exactly the values whose additional properties leave the
   kubernetes key alone.
   */
  lemma HintsRoundTripIff(h: ProviderHints)
    ensures DecodeHints(EncodeHints(h)) == Ok(NormHints(h)) <==> Unshadowed(h)
  {
    if Unshadowed(h) {
      AdditionalRoundTrip(h);
      if h.kubernetes.Some? {
        KubernetesHintsRoundTrip(h.kubernetes.value);
      }
    } else {
      assert KUBERNETES in NormHints(h).additional.entries;
    }
  }

  /** Whatever is decoded leaves the kubernetes key alone and is in normal form. */
  lemma DecodedHints(j: Json)
    requires DecodeHints(j).Ok?
    ensures Unshadowed(DecodeHints(j).value) && NormHints(DecodeHints(j).value) == DecodeHints(j).value
  {
    if j.Obj? {
      var h := DecodeHints(j).value;
      if h.kubernetes.Some? {
        DecodedKubernetesHints(j.fields[KUBERNETES]);
      }
      DecodedAdditional(j.fields);
    }
  }

  lemma DecodedAdditional(m: map<string, Json>)
    ensures var a := DecodeAdditional(m);
            NormAdditional(a) == a && (a.GoMap? ==> KUBERNETES !in a.entries)
  {
    var rest := m - {KUBERNETES};
    var a := DecodeAdditional(m);
    if a.GoMap? {
      var k0 :| k0 in rest;
      assert k0 in a.entries;
      forall k | k in rest ensures NormAny(DecodeAny(rest[k])) == DecodeAny(rest[k]) {
        DecodedIsNormal(rest[k]);
      }
    }
  }

  lemma DecodedKubernetesHints(j: Json)
    requires DecodeKubernetesHints(j).Ok?
    ensures NormKubernetesHints(DecodeKubernetesHints(j).value) == DecodeKubernetesHints(j).value
  {
  }

  /** Re-encoding what was decoded is an idempotent normaliser of the accepted documents, and keeps their meaning. */
  lemma HintsNormaliser(j: Json)
    requires DecodeHints(j).Ok?
    ensures var n := EncodeHints(DecodeHints(j).value);
            DecodeHints(n) == DecodeHints(j) && EncodeHints(DecodeHints(n).value) == n
  {
    DecodedHints(j);
    HintsRoundTripIff(DecodeHints(j).value);
  }

  /** The typed member if there is one and nothing shadows it, and every additional property under its own key. */
  lemma HintsMembers(h: ProviderHints)
    ensures var m := EncodeHints(h).fields;
            var entries := if h.additional.GoMap? then h.additional.entries else map[];
            && m.Keys == entries.Keys + (if h.kubernetes.Some? then {KUBERNETES} else {})
            && (forall k :: k in entries ==> m[k] == EncodeAny(entries[k]))
            && (h.kubernetes.Some? && KUBERNETES !in entries ==>
                  m[KUBERNETES] == EncodeKubernetesHints(h.kubernetes.value))
  {
  }

  lemma HintsAccepts(j: Json)
    ensures DecodeHints(j).Ok? <==> Conforms(j, T_HINTS)
    ensures j == Null || j == Obj(map[]) ==> DecodeHints(j) == Ok(ProviderHints(None, NilMap))
  {
    if j.Obj? && KUBERNETES in j.fields {
      KubernetesHintsAccepts(j.fields[KUBERNETES]);
    }
  }

  /**
   What is decoded from an accepted document: its kubernetes member, and every other member as an
   additional property.
   */
  lemma HintsDecoded(m: map<string, Json>)
    requires DecodeHints(Obj(m)).Ok?
    ensures var h := DecodeHints(Obj(m)).value;
            && (h.kubernetes.Some? <==> KUBERNETES in m && m[KUBERNETES] != Null)
            && (h.kubernetes.Some? ==> DecodeKubernetesHints(m[KUBERNETES]) == Ok(h.kubernetes.value))
            && (h.additional.NilMap? <==> m.Keys <= {KUBERNETES})
            && (h.additional.GoMap? ==>
                  && h.additional.entries.Keys == m.Keys - {KUBERNETES}
                  && forall k :: k in h.additional.entries ==> h.additional.entries[k] == DecodeAny(m[k]))
  {
    var rest := m - {KUBERNETES};
    if rest == map[] {
      forall k | k in m ensures k == KUBERNETES {
        assert k != KUBERNETES ==> k in rest;
      }
    } else {
      var k :| k in rest;
      assert k in m.Keys && k != KUBERNETES;
    }
  }

  // ---- NetworkMetadata, PortSpec, NetworkSpec ----

  function EncodeMetadata(d: NetworkMetadata): Json {
    var m0 := Put(map[], "labels", EncodePtr(d.labels, EncStringMap));
    Obj(Put(m0["name" := Str(d.name)], "namespace", EncodePtr(d.namespace_, EncString)))
  }

  const ZERO_METADATA := NetworkMetadata(None, "", None)

  function DecodeMetadata(j: Json): Decoded<NetworkMetadata> {
    match j
    case Null => Ok(ZERO_METADATA)
    case Obj(m) =>
      var labels :- Field(m, "labels", None, x => DecodePtr(x, DecStringMap));
      var name :- Field(m, "name", "", DecodeString);
      var namespace_ :- Field(m, "namespace", None, OptString);
      Ok(NetworkMetadata(labels, name, namespace_))
    case _ => Err(TypeMismatch)
  }

  lemma MetadataRoundTrip(d: NetworkMetadata)
    ensures DecodeMetadata(EncodeMetadata(d)) == Ok(d.(labels := NormMapPtr(d.labels)))
  {
    MapRoundTrip(d.labels, EncString, DecodeString);
  }

  lemma MetadataMembers(d: NetworkMetadata)
    ensures var m := EncodeMetadata(d).fields;
            && {"name"} <= m.Keys <= {"labels", "name", "namespace"} && m["name"] == Str(d.name)
            && Carries(m, "namespace", Text(d.namespace_))
            && Carries(m, "labels", if d.labels.Some? then Some(EncStringMap(d.labels.value)) else None)
  {
  }

  lemma MetadataAccepts(j: Json)
    ensures DecodeMetadata(j).Ok? <==> Conforms(j, T_METADATA)
  {
    if j.Obj? {
      AllLeavesAccept(j.fields);
      if "labels" in j.fields {
        StringMapAccepts(j.fields["labels"]);
      }
    }
  }

  function EncodePort(p: PortSpec): Json {
    var m0 := Put(map[], "name", EncodePtr(p.name, EncString));
    var m1 := Put(m0, "node_port", EncodePtr(p.nodePort, EncInt32));
    var m2 := Put(m1["port" := Int(p.port)], "protocol", EncodePtr(p.protocol, EncString));
    Obj(Put(m2, "target_port", EncodePtr(p.targetPort, EncInt32)))
  }

  const ZERO_PORT := PortSpec(None, None, 0, None, None)

  function DecodePort(j: Json): Decoded<PortSpec> {
    match j
    case Null => Ok(ZERO_PORT)
    case Obj(m) =>
      var name :- Field(m, "name", None, OptString);
      var nodePort :- Field(m, "node_port", None, OptInt32);
      var port :- Field(m, "port", 0, DecodeInt32);
      var protocol :- Field(m, "protocol", None, OptString);
      var targetPort :- Field(m, "target_port", None, OptInt32);
      Ok(PortSpec(name, nodePort, port, protocol, targetPort))
    case _ => Err(TypeMismatch)
  }

  lemma PortRoundTrip(p: PortSpec)
    ensures DecodePort(EncodePort(p)) == Ok(p)
  {
  }

  /** port is always written, the other members exactly when they are set. */
  lemma PortMembers(p: PortSpec)
    ensures var m := EncodePort(p).fields;
            && {"port"} <= m.Keys <= {"name", "node_port", "port", "protocol", "target_port"}
            && m["port"] == Int(p.port)
            && Carries(m, "name", Text(p.name)) && Carries(m, "protocol", Text(p.protocol))
            && Carries(m, "node_port", Number(p.nodePort)) && Carries(m, "target_port", Number(p.targetPort))
  {
  }

  lemma PortAccepts(j: Json)
    ensures DecodePort(j).Ok? <==> Conforms(j, T_PORT)
  {
    if j.Obj? {
      FiveMembers(j.fields, T_PORT.members, "name", "node_port", "port", "protocol", "target_port");
      AllLeavesAccept(j.fields);
    }
  }

  /** metadata, ports and service_type are always written; a nil ports slice is written as null. */
  function EncodeSpec(s: NetworkSpec): Json {
    var m0 := map["metadata" := EncodeMetadata(s.metadata), "ports" := EncodeSlice(s.ports, EncodePort)];
    var m1 := Put(m0, "provider_hints", EncodePtr(s.providerHints, EncodeHints));
    var m2 := Put(m1, "routing_level", EncodePtr(s.routingLevel, EncString));
    Obj(m2["service_type" := Str(s.serviceType)])
  }

  const ZERO_SPEC := NetworkSpec(ZERO_METADATA, NilSlice, None, None, "")

  function DecodeSpec(j: Json): Decoded<NetworkSpec> {
    match j
    case Null => Ok(ZERO_SPEC)
    case Obj(m) =>
      var metadata :- Field(m, "metadata", ZERO_METADATA, DecodeMetadata);
      var ports :- Field(m, "ports", NilSlice, x => DecodeSlice(x, DecodePort));
      var providerHints :- Field(m, "provider_hints", None, x => DecodePtr(x, DecodeHints));
      var routingLevel :- Field(m, "routing_level", None, OptString);
      var serviceType :- Field(m, "service_type", "", DecodeString);
      Ok(NetworkSpec(metadata, ports, providerHints, routingLevel, serviceType))
    case _ => Err(TypeMismatch)
  }

  function NormSpec(s: NetworkSpec): NetworkSpec {
    s.(metadata := s.metadata.(labels := NormMapPtr(s.metadata.labels)),
       providerHints := if s.providerHints.Some? then Some(NormHints(s.providerHints.value)) else None)
  }

  predicate FaithfulSpec(s: NetworkSpec) {
    s.providerHints.Some? ==> Unshadowed(s.providerHints.value)
  }

  lemma PortsRoundTrip(ports: Slice<PortSpec>)
    ensures DecodeSlice(EncodeSlice(ports, EncodePort), DecodePort) == Ok(ports)
  {
    var same := (p: PortSpec) => p;
    if ports.Slice? {
      forall i | 0 <= i < |ports.items| ensures DecodePort(EncodePort(ports.items[i])) == Ok(same(ports.items[i])) {
        PortRoundTrip(ports.items[i]);
      }
    }
    SliceRoundTrip(ports, EncodePort, DecodePort, same);
    assert NormSlice(ports, same) == ports;
  }

  lemma SpecMembers(s: NetworkSpec)
    ensures var m := EncodeSpec(s).fields;
            && {"metadata", "ports", "service_type"} <= m.Keys
            && m.Keys <= {"metadata", "ports", "provider_hints", "routing_level", "service_type"}
            && m["metadata"] == EncodeMetadata(s.metadata) && m["ports"] == EncodeSlice(s.ports, EncodePort)
            && m["service_type"] == Str(s.serviceType)
            && Carries(m, "provider_hints",
                       if s.providerHints.Some? then Some(EncodeHints(s.providerHints.value)) else None)
            && Carries(m, "routing_level", Text(s.routingLevel))
  {
  }

  lemma PortsAccept(j: Json)
    ensures DecodeSlice(j, DecodePort).Ok? <==> Conforms(j, TList(T_PORT))
  {
    if j.Arr? {
      forall i | 0 <= i < |j.items| ensures DecodePort(j.items[i]).Ok? <==> Conforms(j.items[i], T_PORT) {
        PortAccepts(j.items[i]);
      }
    }
    ListAccepts(j, DecodePort, T_PORT);
  }

  lemma SpecShape(m: map<string, Json>)
    ensures Conforms(Obj(m), T_SPEC) <==>
            && Fits(m, "metadata", T_METADATA) && Fits(m, "ports", TList(T_PORT)) && Fits(m, "provider_hints", T_HINTS)
            && Fits(m, "routing_level", TText) && Fits(m, "service_type", TText)
  {
  }

  lemma SpecOk(m: map<string, Json>)
    ensures DecodeSpec(Obj(m)).Ok? <==>
            && ("metadata" in m ==> DecodeMetadata(m["metadata"]).Ok?)
            && ("ports" in m ==> DecodeSlice(m["ports"], DecodePort).Ok?)
            && ("provider_hints" in m ==> DecodeHints(m["provider_hints"]).Ok?)
            && ("routing_level" in m ==> DecodeString(m["routing_level"]).Ok?)
            && ("service_type" in m ==> DecodeString(m["service_type"]).Ok?)
  {
    assert "ports" in m ==>
        Field(m, "ports", NilSlice, x => DecodeSlice(x, DecodePort)) == DecodeSlice(m["ports"], DecodePort);
  }

  lemma SpecAccepts(j: Json)
    ensures DecodeSpec(j).Ok? <==> Conforms(j, T_SPEC)
  {
    if j.Obj? {
      var m := j.fields;
      SpecShape(m);
      SpecOk(m);
      AllLeavesAccept(m);
      if "metadata" in m {
        MetadataAccepts(m["metadata"]);
      }
      if "ports" in m {
        PortsAccept(m["ports"]);
      }
      if "provider_hints" in m {
        HintsAccepts(m["provider_hints"]);
      }
    }
  }

  lemma SpecRoundTripIff(s: NetworkSpec)
    ensures DecodeSpec(EncodeSpec(s)) == Ok(NormSpec(s)) <==> FaithfulSpec(s)
  {
    SpecMembers(s);
    MetadataRoundTrip(s.metadata);
    PortsRoundTrip(s.ports);
    if s.providerHints.Some? {
      HintsRoundTripIff(s.providerHints.value);
    }
  }

  // ---- Network, NetworkList ----

  function EncodeNetwork(n: Network): Json {
    var m0 := Put(map[], "create_time", EncodePtr(n.createTime, EncString));
    var m1 := Put(m0, "id", EncodePtr(n.id, EncString));
    var m2 := Put(m1, "kubernetes", EncodePtr(n.kubernetes, EncodeKubernetesState));
    var m3 := Put(m2, "path", EncodePtr(n.path, EncString));
    var m4 := Put(m3["spec" := EncodeSpec(n.spec)], "status", EncodePtr(n.status, EncString));
    Obj(Put(m4, "update_time", EncodePtr(n.updateTime, EncString)))
  }

  const ZERO_NETWORK := Network(None, None, None, None, ZERO_SPEC, None, None)

  function DecodeNetwork(j: Json): Decoded<Network> {
    match j
    case Null => Ok(ZERO_NETWORK)
    case Obj(m) =>
      var createTime :- Field(m, "create_time", None, OptString);
      var id :- Field(m, "id", None, OptString);
      var kubernetes :- Field(m, "kubernetes", None, x => DecodePtr(x, DecodeKubernetesState));
      var path :- Field(m, "path", None, OptString);
      var spec :- Field(m, "spec", ZERO_SPEC, DecodeSpec);
      var status :- Field(m, "status", None, OptString);
      var updateTime :- Field(m, "update_time", None, OptString);
      Ok(Network(createTime, id, kubernetes, path, spec, status, updateTime))
    case _ => Err(TypeMismatch)
  }

  function NormNetwork(n: Network): Network {
    n.(kubernetes := if n.kubernetes.Some? then Some(NormKubernetesState(n.kubernetes.value)) else None,
       spec := NormSpec(n.spec))
  }

  lemma NetworkKeys(n: Network)
    ensures {"spec"} <= EncodeNetwork(n).fields.Keys
    ensures EncodeNetwork(n).fields.Keys <=
            {"create_time", "id", "kubernetes", "path", "spec", "status", "update_time"}
  {
  }

  lemma NetworkEarly(n: Network)
    ensures var m := EncodeNetwork(n).fields;
            Carries(m, "create_time", Text(n.createTime)) && Carries(m, "id", Text(n.id))
  {
  }

  lemma NetworkPath(n: Network)
    ensures Carries(EncodeNetwork(n).fields, "path", Text(n.path))
  {
  }

  lemma NetworkLate(n: Network)
    ensures var m := EncodeNetwork(n).fields;
            Carries(m, "status", Text(n.status)) && Carries(m, "update_time", Text(n.updateTime))
  {
  }

  lemma NetworkObjects(n: Network)
    ensures var m := EncodeNetwork(n).fields;
            && "spec" in m && m["spec"] == EncodeSpec(n.spec)
            && Carries(m, "kubernetes",
                       if n.kubernetes.Some? then Some(EncodeKubernetesState(n.kubernetes.value)) else None)
  {
  }

  /** spec is always written, the other members exactly when they are set. */
  lemma NetworkMembers(n: Network)
    ensures var m := EncodeNetwork(n).fields;
            && {"spec"} <= m.Keys <= {"create_time", "id", "kubernetes", "path", "spec", "status", "update_time"}
            && m["spec"] == EncodeSpec(n.spec)
            && Carries(m, "kubernetes",
                       if n.kubernetes.Some? then Some(EncodeKubernetesState(n.kubernetes.value)) else None)
            && Carries(m, "create_time", Text(n.createTime)) && Carries(m, "id", Text(n.id))
            && Carries(m, "path", Text(n.path))
            && Carries(m, "status", Text(n.status)) && Carries(m, "update_time", Text(n.updateTime))
  {
    NetworkKeys(n);
    NetworkEarly(n);
    NetworkPath(n);
    NetworkLate(n);
    NetworkObjects(n);
  }

  lemma CarriedBack(m: map<string, Json>, key: string, p: Option<string>)
    requires Carries(m, key, Text(p))
    ensures Field(m, key, None, OptString) == Ok(p)
  {
  }

  lemma NetworkScalarsBack(n: Network)
    ensures var m := EncodeNetwork(n).fields;
            && Field(m, "create_time", None, OptString) == Ok(n.createTime)
            && Field(m, "id", None, OptString) == Ok(n.id)
            && Field(m, "path", None, OptString) == Ok(n.path)
            && Field(m, "status", None, OptString) == Ok(n.status)
            && Field(m, "update_time", None, OptString) == Ok(n.updateTime)
  {
    var m := EncodeNetwork(n).fields;
    NetworkMembers(n);
    CarriedBack(m, "create_time", n.createTime);
    CarriedBack(m, "id", n.id);
    CarriedBack(m, "path", n.path);
    CarriedBack(m, "status", n.status);
    CarriedBack(m, "update_time", n.updateTime);
  }

  /**
   The body the client builds is, in normal form, the body the strict handler decodes, exactly when
   no additional hint is called "kubernetes".
   */
  lemma NetworkRoundTripIff(n: Network)
    ensures DecodeNetwork(EncodeNetwork(n)) == Ok(NormNetwork(n)) <==> FaithfulSpec(n.spec)
  {
    NetworkScalarsBack(n);
    NetworkObjects(n);
    SpecRoundTripIff(n.spec);
    if n.kubernetes.Some? {
      KubernetesStateRoundTrip(n.kubernetes.value);
    }
  }

  lemma NetworkRecord()
    ensures var r := T_NETWORK.members;
            && r.Keys == {"create_time", "id", "kubernetes", "path", "spec", "status", "update_time"}
            && r["create_time"] == r["id"] == r["path"] == r["status"] == r["update_time"] == TText
            && r["kubernetes"] == T_KUBERNETES_STATE && r["spec"] == T_SPEC
  {
  }

  lemma SevenMembers(m: map<string, Json>, r: map<string, Schema>, a: string, b: string, c: string, d: string,
                     e: string, f: string, g: string)
    requires r.Keys == {a, b, c, d, e, f, g}
    ensures Conforms(Obj(m), TRecord(r)) <==>
            && Fits(m, a, r[a]) && Fits(m, b, r[b]) && Fits(m, c, r[c]) && Fits(m, d, r[d])
            && Fits(m, e, r[e]) && Fits(m, f, r[f]) && Fits(m, g, r[g])
  {
    RecordShape(m, r);
  }

  lemma NetworkShape(m: map<string, Json>)
    ensures Conforms(Obj(m), T_NETWORK) <==>
            && Fits(m, "create_time", TText) && Fits(m, "id", TText) && Fits(m, "kubernetes", T_KUBERNETES_STATE)
            && Fits(m, "path", TText) && Fits(m, "spec", T_SPEC)
            && Fits(m, "status", TText) && Fits(m, "update_time", TText)
  {
    NetworkRecord();
    SevenMembers(m, T_NETWORK.members, "create_time", "id", "kubernetes", "path", "spec", "status", "update_time");
  }

  lemma NetworkOk(m: map<string, Json>)
    ensures DecodeNetwork(Obj(m)).Ok? <==>
            && ("create_time" in m ==> DecodeString(m["create_time"]).Ok?)
            && ("id" in m ==> DecodeString(m["id"]).Ok?)
            && ("kubernetes" in m ==> DecodeKubernetesState(m["kubernetes"]).Ok?)
            && ("path" in m ==> DecodeString(m["path"]).Ok?)
            && ("spec" in m ==> DecodeSpec(m["spec"]).Ok?)
            && ("status" in m ==> DecodeString(m["status"]).Ok?)
            && ("update_time" in m ==> DecodeString(m["update_time"]).Ok?)
  {
  }

  /** Exactly the documents of the prescribed shape, at every level, are accepted as a network. */
  lemma NetworkAccepts(j: Json)
    ensures DecodeNetwork(j).Ok? <==> Conforms(j, T_NETWORK)
  {
    if j.Obj? {
      var m := j.fields;
      NetworkShape(m);
      NetworkOk(m);
      AllLeavesAccept(m);
      if "kubernetes" in m {
        KubernetesStateAccepts(m["kubernetes"]);
      }
      if "spec" in m {
        SpecAccepts(m["spec"]);
      }
    }
  }

  lemma DecodedSpec(j: Json)
    requires DecodeSpec(j).Ok?
    ensures NormSpec(DecodeSpec(j).value) == DecodeSpec(j).value && FaithfulSpec(DecodeSpec(j).value)
  {
    if j.Obj? && "provider_hints" in j.fields && !j.fields["provider_hints"].Null? {
      DecodedHints(j.fields["provider_hints"]);
    }
  }

  lemma DecodedNetwork(j: Json)
    requires DecodeNetwork(j).Ok?
    ensures NormNetwork(DecodeNetwork(j).value) == DecodeNetwork(j).value && FaithfulSpec(DecodeNetwork(j).value.spec)
  {
    if j.Obj? && "spec" in j.fields {
      DecodedSpec(j.fields["spec"]);
    }
  }

  /** Whatever is decoded is in normal form and faithful, so decoding what was re-encoded changes nothing. */
  lemma NetworkNormaliser(j: Json)
    requires DecodeNetwork(j).Ok?
    ensures var n := DecodeNetwork(j).value;
            NormNetwork(n) == n && DecodeNetwork(EncodeNetwork(n)) == Ok(n)
  {
    DecodedNetwork(j);
    NetworkRoundTripIff(DecodeNetwork(j).value);
  }

  function EncNetworks(s: Slice<Network>): Json { EncodeSlice(s, EncodeNetwork) }

  function DecNetworks(j: Json): Decoded<Slice<Network>> { DecodeSlice(j, DecodeNetwork) }

  function EncodeList(l: NetworkList): Json {
    var m0 := Put(map[], "next_page_token", EncodePtr(l.nextPageToken, EncString));
    Obj(Put(m0, "results", EncodePtr(l.results, EncNetworks)))
  }

  const ZERO_LIST := NetworkList(None, None)

  function DecodeList(j: Json): Decoded<NetworkList> {
    match j
    case Null => Ok(ZERO_LIST)
    case Obj(m) =>
      var nextPageToken :- Field(m, "next_page_token", None, OptString);
      var results :- Field(m, "results", None, x => DecodePtr(x, DecNetworks));
      Ok(NetworkList(nextPageToken, results))
    case _ => Err(TypeMismatch)
  }

  lemma ListMembers(l: NetworkList)
    ensures var m := EncodeList(l).fields;
            && m.Keys <= {"next_page_token", "results"}
            && Carries(m, "next_page_token", Text(l.nextPageToken))
            && Carries(m, "results", if l.results.Some? then Some(EncNetworks(l.results.value)) else None)
  {
  }

  lemma NetworksAccept(j: Json)
    ensures DecNetworks(j).Ok? <==> Conforms(j, TList(T_NETWORK))
  {
    if j.Arr? {
      forall i | 0 <= i < |j.items| ensures DecodeNetwork(j.items[i]).Ok? <==> Conforms(j.items[i], T_NETWORK) {
        NetworkAccepts(j.items[i]);
      }
    }
    ListAccepts(j, DecodeNetwork, T_NETWORK);
  }

  lemma ListOk(m: map<string, Json>)
    ensures DecodeList(Obj(m)).Ok? <==>
            && ("next_page_token" in m ==> DecodeString(m["next_page_token"]).Ok?)
            && ("results" in m ==> DecNetworks(m["results"]).Ok?)
  {
  }

  lemma ListShape(m: map<string, Json>)
    ensures Conforms(Obj(m), T_LIST) <==> Fits(m, "next_page_token", TText) && Fits(m, "results", TList(T_NETWORK))
  {
  }

  lemma NetworkListAccepts(j: Json)
    ensures DecodeList(j).Ok? <==> Conforms(j, T_LIST)
  {
    if j.Obj? {
      ListOk(j.fields);
      ListShape(j.fields);
      AllLeavesAccept(j.fields);
      if "results" in j.fields {
        NetworksAccept(j.fields["results"]);
      }
    }
  }

  function NormNetworks(p: Option<Slice<Network>>): Option<Slice<Network>> {
    if p.Some? && p.value.Slice? then Some(NormSlice(p.value, NormNetwork)) else None
  }

  predicate FaithfulList(l: NetworkList) {
    l.results.Some? && l.results.value.Slice? ==>
      forall i :: 0 <= i < |l.results.value.items| ==> FaithfulSpec(l.results.value.items[i].spec)
  }

  /** null and the empty object leave every member at its zero value, at every level. */
  lemma ZeroDocuments(j: Json)
    requires j == Null || j == Obj(map[])
    ensures DecodeProblem(j) == Ok(Problem(None, None, None, "", ""))
    ensures DecodeHealth(j) == Ok(Health(None, "", None, None, None))
    ensures DecodeKubernetesHints(j) == Ok(KubernetesHints(None, None, None))
    ensures DecodeKubernetesState(j) == Ok(KubernetesState(None, None, None, None))
    ensures DecodePort(j) == Ok(PortSpec(None, None, 0, None, None))
    ensures var metadata := NetworkMetadata(None, "", None);
            var spec := NetworkSpec(metadata, NilSlice, None, None, "");
            && DecodeMetadata(j) == Ok(metadata) && DecodeSpec(j) == Ok(spec)
            && DecodeNetwork(j) == Ok(Network(None, None, None, None, spec, None, None))
    ensures DecodeList(j) == Ok(NetworkList(None, None))
  {
  }

  lemma ListRoundTripIff(l: NetworkList)
    ensures DecodeList(EncodeList(l)) == Ok(l.(results := NormNetworks(l.results))) <==> FaithfulList(l)
  {
    if l.results.Some? && l.results.value.Slice? {
      ItemsRoundTripIff(l.results.value);
    }
  }

  lemma ItemsRoundTripIff(s: Slice<Network>)
    requires s.Slice?
    ensures DecodeSlice(EncodeSlice(s, EncodeNetwork), DecodeNetwork) == Ok(NormSlice(s, NormNetwork)) <==>
            forall i :: 0 <= i < |s.items| ==> FaithfulSpec(s.items[i].spec)
  {
    forall i | 0 <= i < |s.items|
      ensures DecodeNetwork(EncodeNetwork(s.items[i])) == Ok(NormNetwork(s.items[i])) <==> FaithfulSpec(s.items[i].spec)
    {
      NetworkRoundTripIff(s.items[i]);
    }
    SliceRoundTrip(s, EncodeNetwork, DecodeNetwork, NormNetwork);
  }
}
