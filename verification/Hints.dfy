/** ProviderHints as the object the generated code mutates: UnmarshalJSON, MarshalJSON, Get and Set. */
module Hints {
  import opened Wrappers
  import opened Json
  import opened Types
  import opened Codec

  // ---- json.Unmarshal into a receiver that may already hold something ----

  /**
   The receiver after decoding, and whether the decoder was satisfied; a mismatch leaves a partly
   filled receiver behind.
   */
  datatype Into<+T> = Into(value: T, ok: bool)

  /** A string pointer: a missing member leaves it, null clears it, a mismatch leaves it allocated. */
  function IntoString(was: Option<string>, m: map<string, Json>, key: string): Into<Option<string>> {
    if key !in m then Into(was, true)
    else
      match m[key]
      case Null => Into(None, true)
      case Str(s) => Into(Some(s), true)
      case _ => Into(Some(if was.Some? then was.value else ""), false)
  }

  /** A map pointer: the members are added to the map that is there, a member that does not decode as its zero value. */
  function IntoMap<V>(was: Option<GoMap<V>>, m: map<string, Json>, key: string, dec: Json -> Decoded<V>, zero: V)
    : Into<Option<GoMap<V>>>
  {
    if key !in m then Into(was, true)
    else
      match m[key]
      case Null => Into(None, true)
      case Obj(fields) =>
        var kept := if was.Some? && was.value.GoMap? then was.value.entries else map[];
        Into(Some(GoMap(kept + map k | k in fields :: OrZero(dec(fields[k]), zero))),
             forall k :: k in fields ==> dec(fields[k]).Ok?)
      case _ => Into(Some(if was.Some? then was.value else NilMap), false)
  }

  function OrZero<V>(d: Decoded<V>, zero: V): V {
    if d.Ok? then d.value else zero
  }

  function IntoKubernetes(was: Option<KubernetesHints>, j: Json): Into<Option<KubernetesHints>> {
    var start := if was.Some? then was.value else ZERO_KUBERNETES_HINTS;
    match j
    case Null => Into(None, true)
    case Obj(m) =>
      var clusterIp := IntoString(start.clusterIp, m, "cluster_ip");
      var nodePorts := IntoMap(start.nodePorts, m, "node_ports", DecodeInt32, 0);
      var selector := IntoMap(start.selector, m, "selector", DecodeString, "");
      Into(Some(KubernetesHints(clusterIp.value, nodePorts.value, selector.value)),
           clusterIp.ok && nodePorts.ok && selector.ok)
    case _ => Into(Some(start), false)
  }

  /** UnmarshalJSON as a function of the receiver: a bad kubernetes member stops it before the additional properties. */
  function IntoHints(was: ProviderHints, b: Json): Into<ProviderHints> {
    match b
    case Null => Into(was, true)
    case Obj(m) =>
      var k := if KUBERNETES in m then IntoKubernetes(was.kubernetes, m[KUBERNETES]) else Into(was.kubernetes, true);
      var rest := DecodeAdditional(m);
      Into(ProviderHints(k.value, if k.ok && rest.GoMap? then rest else was.additional), k.ok)
    case _ => Into(was, false)
  }

  const FRESH_HINTS := ProviderHints(None, NilMap)

  lemma IntoFreshMap<V>(m: map<string, Json>, key: string, dec: Json -> Decoded<V>, zero: V)
    ensures var codec := Field(m, key, None, x => DecodePtr(x, j => DecodeMap(j, dec)));
            var into := IntoMap(None, m, key, dec, zero);
            (into.ok <==> codec.Ok?) && (into.ok ==> into.value == codec.value)
  {
    if key in m && m[key].Obj? {
      var fields := m[key].fields;
      var none: map<string, V> := map[];
      assert none + (map k | k in fields :: OrZero(dec(fields[k]), zero)) ==
             map k | k in fields :: OrZero(dec(fields[k]), zero);
      if forall k :: k in fields ==> dec(fields[k]).Ok? {
        assert (map k | k in fields :: OrZero(dec(fields[k]), zero)) == map k | k in fields :: dec(fields[k]).value;
      }
    }
  }

  lemma IntoFreshKubernetes(j: Json)
    ensures var codec := DecodePtr(j, DecodeKubernetesHints);
            var into := IntoKubernetes(None, j);
            (into.ok <==> codec.Ok?) && (into.ok ==> into.value == codec.value)
  {
    if j.Obj? {
      IntoFreshMap(j.fields, "node_ports", DecodeInt32, 0);
      IntoFreshMap(j.fields, "selector", DecodeString, "");
      assert Field(j.fields, "node_ports", None, x => DecodePtr(x, DecPortMap)) ==
             Field(j.fields, "node_ports", None, x => DecodePtr(x, (y: Json) => DecodeMap(y, DecodeInt32)));
      assert Field(j.fields, "selector", None, x => DecodePtr(x, DecStringMap)) ==
             Field(j.fields, "selector", None, x => DecodePtr(x, (y: Json) => DecodeMap(y, DecodeString)));
    }
  }

  /** Into a fresh receiver, UnmarshalJSON accepts and yields exactly what the value-level codec does. */
  lemma IntoFresh(j: Json)
    ensures IntoHints(FRESH_HINTS, j).ok <==> DecodeHints(j).Ok?
    ensures DecodeHints(j).Ok? ==> IntoHints(FRESH_HINTS, j).value == DecodeHints(j).value
  {
    if j.Obj? && KUBERNETES in j.fields {
      IntoFreshKubernetes(j.fields[KUBERNETES]);
    }
  }

  function EntriesOf<V>(p: Option<GoMap<V>>): map<string, V> {
    if p.Some? && p.value.GoMap? then p.value.entries else map[]
  }

  /** The old entries with the document's over them; one that does not decode is there with its zero value. */
  predicate Merged<V(==)>(was: Option<GoMap<V>>, fields: map<string, Json>, dec: Json -> Decoded<V>, zero: V,
                          now: Option<GoMap<V>>)
  {
    && now.Some? && now.value.GoMap?
    && now.value.entries.Keys == EntriesOf(was).Keys + fields.Keys
    && (forall k :: k in fields ==>
          now.value.entries[k] == if dec(fields[k]).Ok? then dec(fields[k]).value else zero)
    && (forall k :: k in EntriesOf(was) && k !in fields ==> now.value.entries[k] == EntriesOf(was)[k])
  }

  /** What becomes of a map pointer, by what the document holds under its key. */
  predicate MapMember<V(==)>(was: Option<GoMap<V>>, m: map<string, Json>, key: string, dec: Json -> Decoded<V>, zero: V,
                             now: Option<GoMap<V>>)
  {
    && (key !in m ==> now == was)
    && (key in m && m[key].Null? ==> now == None)
    && (key in m && m[key].Obj? ==> Merged(was, m[key].fields, dec, zero, now))
    && (key in m && !m[key].Null? && !m[key].Obj? ==> now == Some(if was.Some? then was.value else NilMap))
  }

  /**
   Decoding a kubernetes member into a receiver that has one: members the document does not mention
   stay, null clears, maps are merged, and a mismatch in one member does not stop the others.
   */
  lemma UsedReceiver(was: KubernetesHints, m: map<string, Json>)
    ensures var r := IntoKubernetes(Some(was), Obj(m));
            && r.value.Some?
            && MapMember(was.nodePorts, m, "node_ports", DecodeInt32, 0, r.value.value.nodePorts)
            && MapMember(was.selector, m, "selector", DecodeString, "", r.value.value.selector)
            && var ip := r.value.value.clusterIp;
               if "cluster_ip" !in m then ip == was.clusterIp
               else if m["cluster_ip"].Str? then ip == Some(m["cluster_ip"].s)
               else if m["cluster_ip"].Null? then ip == None
               else ip == Some(if was.clusterIp.Some? then was.clusterIp.value else "")
  {
  }

  /**
   What UnmarshalJSON leaves of a receiver: nothing changes for null or a refused document, and
   additional properties are replaced whole or not at all.
   */
  lemma ReceiverAfter(was: ProviderHints, b: Json)
    ensures var r := IntoHints(was, b);
            && (!b.Obj? ==> r.value == was && (r.ok <==> b.Null?))
            && (b.Obj? && KUBERNETES !in b.fields ==> r.ok && r.value.kubernetes == was.kubernetes)
            && (b.Obj? && !r.ok ==> r.value.additional == was.additional && r.value.kubernetes.Some?)
            && (b.Obj? && r.ok && b.fields.Keys <= {KUBERNETES} ==> r.value.additional == was.additional)
            && (b.Obj? && r.ok && !(b.fields.Keys <= {KUBERNETES}) ==>
                  && r.value.additional.GoMap?
                  && r.value.additional.entries.Keys == b.fields.Keys - {KUBERNETES}
                  && forall k :: k in r.value.additional.entries ==>
                       r.value.additional.entries[k] == DecodeAny(b.fields[k]))
  {
    if b.Obj? && IntoHints(was, b).ok {
      IntoFresh(b);
      AcceptanceIsOfTheDocument(was, b);
      HintsDecoded(b.fields);
    }
  }

  class HintsObject {
    var kubernetes: Option<KubernetesHints>
    var additional: GoMap<Any>

    ghost function Value(): ProviderHints
      reads this
    {
      ProviderHints(kubernetes, additional)
    }

    constructor ()
      ensures Value() == FRESH_HINTS
    {
      kubernetes, additional := None, NilMap;
    }

    /**
     The receiver's kubernetes member is decoded into; the additional properties are replaced, but only
     if there are any.
     */
    method UnmarshalJSON(b: Json) returns (failed: bool)
      modifies this
      ensures Value() == IntoHints(old(Value()), b).value
      ensures failed == !IntoHints(old(Value()), b).ok
    {
      var members: map<string, Json>;
      match b {
        case Null => members := map[];
        case Obj(fields) => members := fields;
        case _ => return true;
      }
      if KUBERNETES in members {
        var decoded := IntoKubernetes(kubernetes, members[KUBERNETES]);
        kubernetes := decoded.value;
        if !decoded.ok {
          return true;
        }
        members := members - {KUBERNETES};
      }
      assert b.Obj? ==> members == b.fields - {KUBERNETES};
      assert |members| != 0 <==> members != map[];
      if |members| != 0 {
        var entries := DecodeAll(members);
        additional := GoMap(entries);
      }
      failed := false;
    }

    /** Decodes every raw member, in whatever order the map is ranged over. */
    static method DecodeAll(members: map<string, Json>) returns (entries: map<string, Any>)
      ensures entries == map k | k in members :: DecodeAny(members[k])
    {
      entries := map[];
      var todo := members.Keys;
      while todo != {}
        invariant todo <= members.Keys && entries.Keys == members.Keys - todo
        invariant forall k :: k in entries ==> entries[k] == DecodeAny(members[k])
        decreases |todo|
      {
        var k :| k in todo;
        entries := entries[k := DecodeAny(members[k])];
        todo := todo - {k};
      }
    }

    /** Writes every entry over `start`, in whatever order the map is ranged over. */
    static method EncodeOver(start: map<string, Json>, entries: map<string, Any>) returns (members: map<string, Json>)
      ensures members == start + map k | k in entries :: EncodeAny(entries[k])
    {
      members := start;
      var todo := entries.Keys;
      while todo != {}
        invariant todo <= entries.Keys
        invariant members.Keys == start.Keys + (entries.Keys - todo)
        invariant forall k :: k in entries.Keys - todo ==> members[k] == EncodeAny(entries[k])
        invariant forall k :: k in start && (k !in entries || k in todo) ==> members[k] == start[k]
        decreases |todo|
      {
        var k :| k in todo;
        members := members[k := EncodeAny(entries[k])];
        todo := todo - {k};
      }
    }

    /** The kubernetes member is written first and every additional property over it. */
    method MarshalJSON() returns (j: Json)
      ensures j == EncodeHints(Value())
    {
      var members: map<string, Json> := map[];
      if kubernetes.Some? {
        members := members[KUBERNETES := EncodeKubernetesHints(kubernetes.value)];
      }
      if additional.GoMap? {
        members := EncodeOver(members, additional.entries);
      }
      j := Obj(members);
    }

    method Get(fieldName: string) returns (value: Any, found: bool)
      ensures found <==> additional.GoMap? && fieldName in additional.entries
      ensures value == if found then additional.entries[fieldName] else Nil
    {
      value, found := Nil, false;
      if additional.GoMap? && fieldName in additional.entries {
        value, found := additional.entries[fieldName], true;
      }
    }

    method Set(fieldName: string, value: Any)
      modifies this`additional
      ensures Value() == AfterSet(old(Value()), fieldName, value)
    {
      if additional.NilMap? {
        additional := GoMap(map[]);
      }
      additional := GoMap(additional.entries[fieldName := value]);
    }
  }

  function AfterSet(h: ProviderHints, fieldName: string, value: Any): ProviderHints {
    var entries := if h.additional.NilMap? then map[] else h.additional.entries;
    h.(additional := GoMap(entries[fieldName := value]))
  }

  /** What a program can do to a ProviderHints value through its methods. */
  datatype Edit = SetField(fieldName: string, value: Any) | Unmarshal(doc: Json)

  function AfterEdit(h: ProviderHints, e: Edit): ProviderHints {
    match e
    case SetField(fieldName, value) => AfterSet(h, fieldName, value)
    case Unmarshal(doc) => IntoHints(h, doc).value
  }

  function AfterEdits(h: ProviderHints, edits: seq<Edit>): ProviderHints {
    if edits == [] then h
    else AfterEdit(AfterEdits(h, edits[..|edits| - 1]), edits[|edits| - 1])
  }

  predicate Shadows(e: Edit) {
    e.SetField? && e.fieldName == KUBERNETES
  }

  /** An accepted document with at least one additional property: it replaces the whole catch-all map. */
  predicate Replaces(e: Edit) {
    e.Unmarshal? && e.doc.Obj? && DecodeHints(e.doc).Ok? && DecodeAdditional(e.doc.fields).GoMap?
  }

  ghost predicate ReplacedFrom(edits: seq<Edit>, from: nat) {
    exists j :: from <= j < |edits| && Replaces(edits[j])
  }

  /** Every Set of the kubernetes key is followed by a document that replaces the catch-all map. */
  ghost predicate NoShadowLeft(edits: seq<Edit>) {
    forall i :: 0 <= i < |edits| && Shadows(edits[i]) ==> ReplacedFrom(edits, i)
  }

  /** Whether a document is accepted does not depend on the receiver. */
  lemma AcceptanceIsOfTheDocument(was: ProviderHints, j: Json)
    ensures IntoHints(was, j).ok <==> DecodeHints(j).Ok?
  {
    IntoFresh(j);
  }

  lemma EditShadows(h: ProviderHints, e: Edit)
    ensures Unshadowed(AfterEdit(h, e)) <==> Replaces(e) || (Unshadowed(h) && !Shadows(e))
  {
    if e.Unmarshal? {
      AcceptanceIsOfTheDocument(h, e.doc);
    }
  }

  /**
   Over any sequence of Set and UnmarshalJSON calls, failed ones included: the kubernetes member is
   shadowed exactly when it was, or some Set used its key, and no later document replaced the
   catch-all map. No document can shadow it.
   */
  lemma {:induction false} OnlySetShadows(h: ProviderHints, edits: seq<Edit>)
    ensures Unshadowed(AfterEdits(h, edits)) <==> (Unshadowed(h) || ReplacedFrom(edits, 0)) && NoShadowLeft(edits)
  {
    if edits != [] {
      var n := |edits| - 1;
      OnlySetShadows(h, edits[..n]);
      EditShadows(AfterEdits(h, edits[..n]), edits[n]);
      LastEdit(edits);
    }
  }

  lemma LastEdit(edits: seq<Edit>)
    requires edits != []
    ensures var n := |edits| - 1;
            && (ReplacedFrom(edits, 0) <==> Replaces(edits[n]) || ReplacedFrom(edits[..n], 0))
            && (NoShadowLeft(edits) <==> Replaces(edits[n]) || (NoShadowLeft(edits[..n]) && !Shadows(edits[n])))
  {
    var n := |edits| - 1;
    forall i | 0 <= i <= n ensures ReplacedFrom(edits, i) <==> Replaces(edits[n]) || ReplacedFrom(edits[..n], i) {
      if ReplacedFrom(edits[..n], i) {
        var j :| i <= j < n && Replaces(edits[..n][j]);
        assert Replaces(edits[j]);
      }
      if ReplacedFrom(edits, i) {
        var j :| i <= j < |edits| && Replaces(edits[j]);
        assert j < n ==> Replaces(edits[..n][j]);
      }
    }
    if NoShadowLeft(edits) && !Replaces(edits[n]) {
      forall i | 0 <= i < n && Shadows(edits[..n][i]) ensures ReplacedFrom(edits[..n], i) {
        assert Shadows(edits[i]);
      }
    }
    if NoShadowLeft(edits[..n]) && !Shadows(edits[n]) {
      forall i | 0 <= i <= n && Shadows(edits[i]) ensures ReplacedFrom(edits, i) {
        assert Shadows(edits[..n][i]);
      }
    }
  }

  /**
   A fresh value put through any such sequence goes over the wire intact exactly when no Set left the
   kubernetes member shadowed.
   */
  lemma EditedValueRoundTrip(edits: seq<Edit>)
    ensures var edited := AfterEdits(FRESH_HINTS, edits);
            DecodeHints(EncodeHints(edited)) == Ok(NormHints(edited)) <==> NoShadowLeft(edits)
  {
    OnlySetShadows(FRESH_HINTS, edits);
    HintsRoundTripIff(AfterEdits(FRESH_HINTS, edits));
  }

  /** The last Set of a key is what Get and the wire show; other keys are untouched. */
  lemma SetIsVisible(h: ProviderHints, fieldName: string, value: Any, other: string)
    ensures var t := AfterSet(h, fieldName, value);
            && EncodeHints(t).fields[fieldName] == EncodeAny(value)
            && (other != fieldName ==>
                  (other in EncodeHints(t).fields <==> other in EncodeHints(h).fields)
                  && (other in EncodeHints(h).fields ==> EncodeHints(t).fields[other] == EncodeHints(h).fields[other]))
  {
  }
}
