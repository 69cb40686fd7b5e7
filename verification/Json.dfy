/**
 JSON at the level of values (sections 3 to 5 of RFC 8259), and the Go values that flow through
 an `interface{}`. A number literal is an integer literal or one with a fraction or an exponent,
 because only the former decodes into an integer field.
 */
module Json {
  import opened Wrappers

  datatype Json =
    | Null
    | Bool(b: bool)
    | Int(n: int)
    | Frac(x: real)
    | Str(s: string)
    | Arr(items: seq<Json>)
    | Obj(fields: map<string, Json>)

  /** A JSON-shaped Go value held in an `interface{}`; nil slices and nil maps are not nil interfaces. */
  datatype Any =
    | Nil
    | Truth(b: bool)
    | Num(x: real)
    | Text(s: string)
    | NilList
    | List(items: seq<Any>)
    | NilDict
    | Dict(entries: map<string, Any>)

  datatype DecodeError = TypeMismatch

  type Decoded<T> = Result<T, DecodeError>

  function EncodeAny(a: Any): Json {
    match a
    case Nil => Null
    case Truth(b) => Bool(b)
    case Num(x) => if x.Floor as real == x then Int(x.Floor) else Frac(x)
    case Text(s) => Str(s)
    case NilList => Null
    case List(items) => Arr(seq(|items|, i requires 0 <= i < |items| => EncodeAny(items[i])))
    case NilDict => Null
    case Dict(entries) => Obj(map k | k in entries :: EncodeAny(entries[k]))
  }

  function DecodeAny(j: Json): Any {
    match j
    case Null => Nil
    case Bool(b) => Truth(b)
    case Int(n) => Num(n as real)
    case Frac(x) => Num(x)
    case Str(s) => Text(s)
    case Arr(items) => List(seq(|items|, i requires 0 <= i < |items| => DecodeAny(items[i])))
    case Obj(fields) => Dict(map k | k in fields :: DecodeAny(fields[k]))
  }

  /** What survives a trip over the wire: nil slices and nil maps, at any depth, come back as nil. */
  function NormAny(a: Any): Any {
    match a
    case NilList => Nil
    case NilDict => Nil
    case List(items) => List(seq(|items|, i requires 0 <= i < |items| => NormAny(items[i])))
    case Dict(entries) => Dict(map k | k in entries :: NormAny(entries[k]))
    case _ => a
  }

  lemma {:induction false} AnyRoundTrip(a: Any)
    ensures DecodeAny(EncodeAny(a)) == NormAny(a)
  {
    match a
    case List(items) =>
      forall i | 0 <= i < |items| ensures DecodeAny(EncodeAny(items[i])) == NormAny(items[i]) {
        AnyRoundTrip(items[i]);
      }
    case Dict(entries) =>
      forall k | k in entries ensures DecodeAny(EncodeAny(entries[k])) == NormAny(entries[k]) {
        AnyRoundTrip(entries[k]);
      }
    case _ =>
  }

  /** Decoding never produces a nil slice or a nil map inside an interface. */
  lemma {:induction false} DecodedIsNormal(j: Json)
    ensures NormAny(DecodeAny(j)) == DecodeAny(j)
  {
    match j
    case Arr(items) =>
      forall i | 0 <= i < |items| ensures NormAny(DecodeAny(items[i])) == DecodeAny(items[i]) {
        DecodedIsNormal(items[i]);
      }
    case Obj(fields) =>
      forall k | k in fields ensures NormAny(DecodeAny(fields[k])) == DecodeAny(fields[k]) {
        DecodedIsNormal(fields[k]);
      }
    case _ =>
  }

  /** Every number that is whole is written as an integer literal. */
  predicate Canonical(j: Json) {
    match j
    case Frac(x) => x.Floor as real != x
    case Arr(items) => forall i :: 0 <= i < |items| ==> Canonical(items[i])
    case Obj(fields) => forall k :: k in fields ==> Canonical(fields[k])
    case _ => true
  }

  /** What comes out of an interface is the document that went in, kind by kind and at any depth. */
  lemma {:induction false} DocumentRoundTrip(j: Json)
    requires Canonical(j)
    ensures EncodeAny(DecodeAny(j)) == j
  {
    match j
    case Arr(items) =>
      forall i | 0 <= i < |items| ensures EncodeAny(DecodeAny(items[i])) == items[i] {
        DocumentRoundTrip(items[i]);
      }
    case Obj(fields) =>
      forall k | k in fields ensures EncodeAny(DecodeAny(fields[k])) == fields[k] {
        DocumentRoundTrip(fields[k]);
      }
    case _ =>
  }

  /** And encoding always writes whole numbers that way. */
  lemma {:induction false} EncodedIsCanonical(a: Any)
    ensures Canonical(EncodeAny(a))
  {
    match a
    case List(items) =>
      forall i | 0 <= i < |items| ensures Canonical(EncodeAny(items[i])) {
        EncodedIsCanonical(items[i]);
      }
    case Dict(entries) =>
      forall k | k in entries ensures Canonical(EncodeAny(entries[k])) {
        EncodedIsCanonical(entries[k]);
      }
    case _ =>
  }

  // ---- Building and reading objects ----

  /** Adds a member unless it is omitted. */
  function Put(m: map<string, Json>, key: string, value: Option<Json>): map<string, Json> {
    if value.Some? then m[key := value.value] else m
  }

  /** Reads a member into a field holding `zero`; a missing member leaves it. */
  function Field<T>(m: map<string, Json>, key: string, zero: T, dec: Json -> Decoded<T>): Decoded<T> {
    if key in m then dec(m[key]) else Ok(zero)
  }

  function EncodePtr<T>(p: Option<T>, enc: T -> Json): Option<Json> {
    if p.Some? then Some(enc(p.value)) else None
  }

  /** null into a pointer is nil; anything else is decoded into a fresh value. */
  function DecodePtr<T>(j: Json, dec: Json -> Decoded<T>): Decoded<Option<T>> {
    if j.Null? then Ok(None) else var v :- dec(j); Ok(Some(v))
  }

  function DecodeString(j: Json): Decoded<string> {
    match j case Null => Ok("") case Str(s) => Ok(s) case _ => Err(TypeMismatch)
  }

  type Int32 = n: int | -0x8000_0000 <= n <= 0x7FFF_FFFF
  type Int64 = n: int | -0x8000_0000_0000_0000 <= n <= 0x7FFF_FFFF_FFFF_FFFF

  function DecodeInt32(j: Json): Decoded<Int32> {
    match j
    case Null => Ok(0)
    case Int(n) => if -0x8000_0000 <= n <= 0x7FFF_FFFF then Ok(n) else Err(TypeMismatch)
    case _ => Err(TypeMismatch)
  }

  function DecodeInt64(j: Json): Decoded<Int64> {
    match j
    case Null => Ok(0)
    case Int(n) => if -0x8000_0000_0000_0000 <= n <= 0x7FFF_FFFF_FFFF_FFFF then Ok(n) else Err(TypeMismatch)
    case _ => Err(TypeMismatch)
  }

  // ---- Slices and string-keyed maps ----

  datatype Slice<T> = NilSlice | Slice(items: seq<T>)

  datatype GoMap<V> = NilMap | GoMap(entries: map<string, V>)

  function EncodeSlice<T>(s: Slice<T>, enc: T -> Json): Json {
    match s
    case NilSlice => Null
    case Slice(items) => Arr(seq(|items|, i requires 0 <= i < |items| => enc(items[i])))
  }

  function DecodeItems<T>(items: seq<Json>, dec: Json -> Decoded<T>): Decoded<seq<T>> {
    if items == [] then Ok([])
    else
      var head :- dec(items[0]);
      var tail :- DecodeItems(items[1..], dec);
      Ok([head] + tail)
  }

  function DecodeSlice<T>(j: Json, dec: Json -> Decoded<T>): Decoded<Slice<T>> {
    match j
    case Null => Ok(NilSlice)
    case Arr(items) => var decoded :- DecodeItems(items, dec); Ok(Slice(decoded))
    case _ => Err(TypeMismatch)
  }

  function EncodeMap<V>(m: GoMap<V>, enc: V -> Json): Json {
    match m
    case NilMap => Null
    case GoMap(entries) => Obj(map k | k in entries :: enc(entries[k]))
  }

  function DecodeMap<V>(j: Json, dec: Json -> Decoded<V>): Decoded<GoMap<V>> {
    match j
    case Null => Ok(NilMap)
    case Obj(fields) =>
      if exists k :: k in fields && dec(fields[k]).Err? then Err(TypeMismatch)
      else Ok(GoMap(map k | k in fields :: dec(fields[k]).value))
    case _ => Err(TypeMismatch)
  }

  /** The elements of a decoded array are the decoded elements, in order; one bad element fails the array. */
  lemma {:induction false} DecodeItemsAt<T>(items: seq<Json>, dec: Json -> Decoded<T>)
    ensures DecodeItems(items, dec).Ok? <==> forall i :: 0 <= i < |items| ==> dec(items[i]).Ok?
    ensures var r := DecodeItems(items, dec);
            r.Ok? ==> |r.value| == |items| && forall i :: 0 <= i < |items| ==> dec(items[i]) == Ok(r.value[i])
  {
    if items != [] {
      DecodeItemsAt(items[1..], dec);
    }
  }

  /** A pointer to a nil map or slice encodes as null and so comes back as nil. */
  function NormMapPtr<V>(p: Option<GoMap<V>>): Option<GoMap<V>> {
    if p == Some(NilMap) then None else p
  }

  /** nil stays nil and empty stays empty. */
  function NormSlice<T>(s: Slice<T>, norm: T -> T): Slice<T> {
    match s
    case NilSlice => NilSlice
    case Slice(items) => Slice(seq(|items|, i requires 0 <= i < |items| => norm(items[i])))
  }

  lemma MapRoundTrip<V>(p: Option<GoMap<V>>, enc: V -> Json, dec: Json -> Decoded<V>)
    requires p.Some? && p.value.GoMap? ==>
               forall k :: k in p.value.entries ==> dec(enc(p.value.entries[k])) == Ok(p.value.entries[k])
    ensures p.Some? ==> DecodePtr(EncodeMap(p.value, enc), j => DecodeMap(j, dec)) == Ok(NormMapPtr(p))
  {
    if p.Some? && p.value.GoMap? {
      var fields := map k | k in p.value.entries :: enc(p.value.entries[k]);
      assert forall k :: k in fields ==> dec(fields[k]).Ok?;
      assert p.value.entries == map k | k in fields :: dec(fields[k]).value;
    }
  }

  /** A slice makes the round trip exactly when each of its elements does. */
  lemma SliceRoundTrip<T>(s: Slice<T>, enc: T -> Json, dec: Json -> Decoded<T>, norm: T -> T)
    ensures DecodeSlice(EncodeSlice(s, enc), dec) == Ok(NormSlice(s, norm)) <==>
            (s.Slice? ==> forall i :: 0 <= i < |s.items| ==> dec(enc(s.items[i])) == Ok(norm(s.items[i])))
  {
    if s.Slice? {
      var items := EncodeSlice(s, enc).items;
      var want := NormSlice(s, norm).items;
      DecodeItemsAt(items, dec);
      if forall i :: 0 <= i < |s.items| ==> dec(enc(s.items[i])) == Ok(norm(s.items[i])) {
        assert DecodeItems(items, dec).value == want;
      } else {
        var i :| 0 <= i < |s.items| && dec(enc(s.items[i])) != Ok(norm(s.items[i]));
        assert items[i] == enc(s.items[i]) && want[i] == norm(s.items[i]);
      }
    }
  }
}
