/**
 The JSON <-> `google.protobuf.Value` conversion of ra2a/src/grpc/convert.rs: two recursive trees,
 one of which can hold nodes (unset, non-finite) that the other cannot.
 */
module JsonTree {
  import opened Arithmetic
  import opened Wrappers

  // ---- Numbers -----------------------------------------------------------------------------

  /** An IEEE double. Values are kept as reals; the two zeros and the non-finite values are apart. */
  datatype Float64 = Finite(value: real) | NegativeZero | Infinity(negative: bool) | NaN {
    predicate IsFinite() { Finite? || NegativeZero? }
  }

  type FiniteFloat = f: Float64 | f.IsFinite() witness NegativeZero
  type U64 = n: int | 0 <= n < 0x1_0000_0000_0000_0000
  type NegI64 = n: int | -0x8000_0000_0000_0000 <= n < 0 witness -1

  /** serde_json's three number representations; a JSON float is always finite. */
  datatype JsonNumber = PosInt(n: U64) | NegInt(m: NegI64) | Float(f: FiniteFloat)

  const TWO_POW_53: int := 0x20_0000_0000_0000

  /** Distance between neighbouring doubles around the integer n. */
  function Ulp(n: nat): (u: nat)
    ensures IsPowerOfTwo(u)
    ensures n < TWO_POW_53 ==> u == 1
    ensures n < TWO_POW_53 * u
    ensures u > 1 ==> TWO_POW_53 * u <= 2 * n
  {
    if n < TWO_POW_53 then 1
    else
      var half := Ulp(n / 2);
      DoubleIsPowerOfTwo(half);
      2 * half
  }

  /** Integer to double: round to nearest, ties to even. */
  function RoundToDouble(n: nat): nat {
    var u := Ulp(n);
    var below := n % u;
    if 2 * below < u || (2 * below == u && (n / u) % 2 == 0) then n - below else n - below + u
  }

  lemma RoundingError(n: nat)
    ensures n <= TWO_POW_53 ==> RoundToDouble(n) == n
    ensures 2 * (if RoundToDouble(n) < n then n - RoundToDouble(n) else RoundToDouble(n) - n) <= Ulp(n)
    ensures exists mantissa: nat :: mantissa <= TWO_POW_53 && RoundToDouble(n) == mantissa * Ulp(n)
  {
    var u := Ulp(n);
    var q := n / u;
    Euclid(n, u);
    Distribute(q, u);
    MantissaFits(n, u);
    assert RoundToDouble(n) == q * u || RoundToDouble(n) == (q + 1) * u;
    if n == TWO_POW_53 { assert u == 2; }
  }

  lemma MantissaFits(n: nat, u: nat)
    requires u >= 1 && n < TWO_POW_53 * u
    ensures n / u < TWO_POW_53
  {
    Euclid(n, u);
    if n / u >= TWO_POW_53 { MulMonotone(TWO_POW_53, n / u, u); }
  }

  /** A natural number that some double is: at most 53 bits, times a power of two. */
  ghost predicate IsDouble(y: nat) {
    exists q: nat, v: nat :: Scaled(y, q, v)
  }

  predicate Scaled(y: nat, q: nat, v: nat) {
    q <= TWO_POW_53 && IsPowerOfTwo(v) && y == q * v
  }

  function Distance(a: int, b: int): nat {
    if a < b then b - a else a - b
  }

  /** Of two powers of two the larger is a multiple of the smaller. */
  lemma {:induction false} PowersDivide(u: nat, v: nat) returns (k: nat)
    requires IsPowerOfTwo(u) && IsPowerOfTwo(v) && u <= v
    ensures v == k * u && k > 0
    decreases v
  {
    if u == 1 {
      k := v;
    } else {
      k := PowersDivide(u / 2, v / 2);
      assert k * u == 2 * (k * (u / 2));
    }
  }

  /** Rounding in parts: the multiple of the spacing below n, or the one above, whichever is nearer. */
  lemma RoundingParts(n: nat) returns (u: nat, a: nat, low: nat)
    ensures u == Ulp(n) && a == n / u && low == a * u && low <= n < low + u && a < TWO_POW_53
    ensures RoundToDouble(n) == low || RoundToDouble(n) == low + u
    ensures Distance(RoundToDouble(n), n) <= n - low && Distance(RoundToDouble(n), n) <= low + u - n
    ensures 2 * Distance(RoundToDouble(n), n) == u ==> (RoundToDouble(n) == low <==> a % 2 == 0)
  {
    u := Ulp(n);
    a := n / u;
    low := a * u;
    Euclid(n, u);
    MantissaFits(n, u);
  }

  lemma MultipleBeside(j: nat, a: nat, u: nat)
    ensures j <= a ==> j * u <= a * u
    ensures j > a ==> a * u + u <= j * u
  {
    Distribute(a, u);
    if j <= a { MulMonotone(j, a, u); } else { MulMonotone(a + 1, j, u); }
  }

  lemma Regroup(q: nat, k: nat, u: nat)
    ensures q * (k * u) == (q * k) * u
  {}

  lemma CoarserIsMultiple(u: nat, q: nat, v: nat) returns (j: nat)
    requires IsPowerOfTwo(u) && IsPowerOfTwo(v) && u <= v
    ensures q * v == j * u
  {
    var k := PowersDivide(u, v);
    j := q * k;
    Regroup(q, k, u);
  }

  /** A coarser double is no nearer: it is a multiple of the spacing. */
  lemma CoarserIsNoNearer(n: nat, q: nat, v: nat, y: nat)
    requires IsPowerOfTwo(v) && Ulp(n) <= v && y == q * v
    ensures Distance(RoundToDouble(n), n) <= Distance(y, n)
  {
    var u, a, low := RoundingParts(n);
    var j := CoarserIsMultiple(u, q, v);
    MultipleBeside(j, a, u);
  }

  lemma HalfAsLarge(q: nat, half: nat, v: nat, u: nat)
    requires q <= 2 * half && 2 * v <= u
    ensures q * v <= half * u
  {
    MulMonotone(q, 2 * half, v);
    MulMonotone(2 * v, u, half);
    assert (2 * half) * v == (2 * v) * half;
    assert u * half == half * u;
  }

  lemma TwiceFits(v: nat, u: nat)
    requires IsPowerOfTwo(v) && IsPowerOfTwo(u) && v < u
    ensures 2 * v <= u
  {
    var k := PowersDivide(v, u);
    MultipleBeside(2, k, v);
  }

  /** The range in which the spacing is u begins at half * u. */
  lemma RangeBegins(n: nat, u: nat, half: nat)
    requires TWO_POW_53 == 2 * half && TWO_POW_53 * u <= 2 * n
    ensures half * u <= n
  {
    Regroup(2, half, u);
  }

  /** A finer double is no nearer: it lies below the range in which n is. */
  lemma FinerIsNoNearer(n: nat, q: nat, v: nat, y: nat)
    requires q <= TWO_POW_53 && IsPowerOfTwo(v) && v < Ulp(n) && y == q * v
    ensures Distance(RoundToDouble(n), n) <= Distance(y, n)
  {
    var u, a, low := RoundingParts(n);
    var half: nat := 0x10_0000_0000_0000;
    TwiceFits(v, u);
    HalfAsLarge(q, half, v, u);
    RangeBegins(n, u, half);
    MultipleBeside(half, a, u);
  }

  /** No double is nearer. */
  lemma RoundsToNearest(n: nat, y: nat)
    requires IsDouble(y)
    ensures Distance(RoundToDouble(n), n) <= Distance(y, n)
  {
    var q: nat, v: nat :| Scaled(y, q, v);
    if Ulp(n) <= v { CoarserIsNoNearer(n, q, v, y); } else { FinerIsNoNearer(n, q, v, y); }
  }

  /** The result is a double; half way between two it is the one with the even mantissa. */
  lemma TiesToEven(n: nat) returns (m: nat)
    ensures Scaled(RoundToDouble(n), m, Ulp(n)) && (2 * Distance(RoundToDouble(n), n) == Ulp(n) ==> m % 2 == 0)
  {
    var u, a, low := RoundingParts(n);
    Distribute(a, u);
    m := if RoundToDouble(n) == low then a else a + 1;
  }

  function AsF64(n: JsonNumber): FiniteFloat {
    match n
    case PosInt(k) => Finite(RoundToDouble(k) as real)
    case NegInt(k) => var negative: int := k; Finite(-(RoundToDouble(-negative) as real))
    case Float(f) => f
  }

  // ---- The two trees -----------------------------------------------------------------------

  datatype Json =
    | Null
    | Bool(b: bool)
    | Number(n: JsonNumber)
    | String(s: string)
    | Array(items: seq<Json>)
    | Object(members: map<string, Json>)

  /** prost's `Value`: `kind` may be absent, and the null tag is an arbitrary enum number. */
  datatype ProstValue =
    | Unset
    | NullValue(tag: int)
    | BoolValue(b: bool)
    | NumberValue(f: Float64)
    | StringValue(s: string)
    | ListValue(values: seq<ProstValue>)
    | StructValue(fields: map<string, ProstValue>)

  type Metadata = map<string, Json>
  type Struct = map<string, ProstValue>

  function ToProst(v: Json): ProstValue {
    match v
    case Null => NullValue(0)
    case Bool(b) => BoolValue(b)
    case Number(n) => NumberValue(AsF64(n))
    case String(s) => StringValue(s)
    case Array(items) => ListValue(ToProstList(items))
    case Object(m) => StructValue(map k | k in m :: ToProst(m[k]))
  }

  function ToProstList(vs: seq<Json>): seq<ProstValue> {
    if vs == [] then [] else [ToProst(vs[0])] + ToProstList(vs[1..])
  }

  function FromProst(w: ProstValue): Option<Json> {
    match w
    case Unset => None
    case NullValue(_) => Some(Null)
    case BoolValue(b) => Some(Bool(b))
    case NumberValue(f) => if f.IsFinite() then Some(Number(Float(f))) else None
    case StringValue(s) => Some(String(s))
    case ListValue(ws) => Some(Array(FromProstList(ws)))
    case StructValue(m) => Some(Object(map k | k in m && FromProst(m[k]).Some? :: FromProst(m[k]).value))
  }

  function FromProstList(ws: seq<ProstValue>): seq<Json> {
    if ws == [] then []
    else (match FromProst(ws[0]) case Some(v) => [v] case None => []) + FromProstList(ws[1..])
  }

  function MetadataToStruct(m: Metadata): Struct {
    map k | k in m :: ToProst(m[k])
  }

  function StructToMetadata(s: Struct): Metadata {
    map k | k in s && FromProst(s[k]).Some? :: FromProst(s[k]).value
  }

  // ---- JSON to prost and back --------------------------------------------------------------

  /** The same tree with every number turned into its double; nothing else differs. */
  function Norm(v: Json): Json {
    match v
    case Number(n) => Number(Float(AsF64(n)))
    case Array(items) => Array(NormList(items))
    case Object(m) => Object(map k | k in m :: Norm(m[k]))
    case _ => v
  }

  function NormList(vs: seq<Json>): seq<Json> {
    if vs == [] then [] else [Norm(vs[0])] + NormList(vs[1..])
  }

  function NormMetadata(m: Metadata): Metadata {
    map k | k in m :: Norm(m[k])
  }

  /** No integer representation anywhere in the tree. */
  predicate IntegerFree(v: Json) {
    match v
    case Number(n) => n.Float?
    case Array(items) => forall i | 0 <= i < |items| :: IntegerFree(items[i])
    case Object(m) => forall k | k in m :: IntegerFree(m[k])
    case _ => true
  }

  lemma {:induction false} JsonRoundTrip(v: Json)
    ensures FromProst(ToProst(v)) == Some(Norm(v))
  {
    match v
    case Array(items) => JsonListRoundTrip(items);
    case Object(m) =>
      forall k | k in m ensures FromProst(ToProst(m[k])) == Some(Norm(m[k])) {
        JsonRoundTrip(m[k]);
      }
      assert FromProst(ToProst(v)).value.members == Norm(v).members;
    case _ =>
  }

  lemma {:induction false} JsonListRoundTrip(vs: seq<Json>)
    ensures FromProstList(ToProstList(vs)) == NormList(vs)
  {
    if vs != [] {
      JsonRoundTrip(vs[0]);
      JsonListRoundTrip(vs[1..]);
      assert ToProstList(vs)[1..] == ToProstList(vs[1..]);
    }
  }

  lemma MetadataRoundTrip(m: Metadata)
    ensures StructToMetadata(MetadataToStruct(m)) == NormMetadata(m)
  {
    forall k | k in m ensures FromProst(ToProst(m[k])) == Some(Norm(m[k])) {
      JsonRoundTrip(m[k]);
    }
  }

  lemma {:induction false} NormIdempotent(v: Json)
    ensures Norm(Norm(v)) == Norm(v)
  {
    match v
    case Array(items) => NormListIdempotent(items);
    case Object(m) =>
      forall k | k in m ensures Norm(Norm(m[k])) == Norm(m[k]) {
        NormIdempotent(m[k]);
      }
    case _ =>
  }

  lemma {:induction false} NormListIdempotent(vs: seq<Json>)
    ensures NormList(NormList(vs)) == NormList(vs)
  {
    if vs != [] {
      NormIdempotent(vs[0]);
      NormListIdempotent(vs[1..]);
    }
  }

  lemma {:induction false} NormListAt(vs: seq<Json>, i: nat)
    requires i < |vs|
    ensures |NormList(vs)| == |vs| && NormList(vs)[i] == Norm(vs[i])
  {
    if |vs| > 1 { NormListAt(vs[1..], if i == 0 then 0 else i - 1); }
  }

  /** The trip is lossless exactly on trees that carry no integer: `5` comes back as `5.0`. */
  lemma {:induction false} RoundTripLosslessIff(v: Json)
    ensures FromProst(ToProst(v)) == Some(v) <==> IntegerFree(v)
  {
    JsonRoundTrip(v);
    match v
    case Array(items) =>
      forall i | 0 <= i < |items| ensures |NormList(items)| == |items|
                                  && (NormList(items)[i] == items[i] <==> IntegerFree(items[i])) {
        NormListAt(items, i);
        JsonRoundTrip(items[i]);
        RoundTripLosslessIff(items[i]);
      }
      assert NormList(items) == items <==> forall i | 0 <= i < |items| :: IntegerFree(items[i]);
    case Object(m) =>
      var n := map k | k in m :: Norm(m[k]);
      forall k | k in m ensures n[k] == m[k] <==> IntegerFree(m[k]) {
        JsonRoundTrip(m[k]);
        RoundTripLosslessIff(m[k]);
      }
      assert n == m <==> forall k | k in m :: IntegerFree(m[k]);
    case _ =>
  }

  // ---- What becomes of an integer ----------------------------------------------------------

  function IntegerOf(n: JsonNumber): int
    requires !n.Float?
  {
    match n case PosInt(k) => k case NegInt(m) => m
  }

  function Abs(n: int): nat {
    if n < 0 then -n else n
  }

  /** x is n rounded: of the same sign, exact up to 2^53, no double nearer, and even if two are as near. */
  ghost predicate Rounded(n: int, x: int) {
    && (Abs(n) <= TWO_POW_53 ==> x == n)
    && (n > 0 ==> x > 0) && (n < 0 ==> x < 0)
    && 2 * Distance(x, n) <= Ulp(Abs(n))
    && (forall y: int :: IsDouble(Abs(y)) ==> Distance(x, n) <= Distance(y, n))
    && exists m: nat :: Scaled(Abs(x), m, Ulp(Abs(n))) && (2 * Distance(x, n) == Ulp(Abs(n)) ==> m % 2 == 0)
  }

  lemma RoundsUpFromOne(n: nat)
    requires n > 0
    ensures RoundToDouble(n) > 0
  {
    RoundingError(n);
  }

  lemma SignedRounding(n: int, x: int)
    requires x == if n < 0 then 0 - RoundToDouble(Abs(n)) else RoundToDouble(Abs(n))
    ensures Rounded(n, x)
  {
    RoundingError(Abs(n));
    var m := TiesToEven(Abs(n));
    if n != 0 { RoundsUpFromOne(Abs(n)); }
    assert Abs(x) == RoundToDouble(Abs(n)) && Distance(x, n) == Distance(Abs(x), Abs(n));
    forall y: int | IsDouble(Abs(y)) ensures Distance(x, n) <= Distance(y, n) {
      RoundsToNearest(Abs(n), Abs(y));
    }
  }

  /** An integer comes back as a float: the nearest double to that very integer, its sign included. */
  lemma IntegerRoundTrip(n: JsonNumber)
    requires !n.Float?
    ensures exists x :: Rounded(IntegerOf(n), x)
                        && FromProst(ToProst(Number(n))) == Some(Number(Float(Finite(x as real))))
  {
    var i := IntegerOf(n);
    var x: int := if i < 0 then 0 - RoundToDouble(Abs(i)) else RoundToDouble(Abs(i));
    SignedRounding(i, x);
    assert AsF64(n) == Finite(x as real);
  }

  // ---- Prost to JSON and back --------------------------------------------------------------

  predicate Convertible(w: ProstValue) {
    !w.Unset? && (w.NumberValue? ==> w.f.IsFinite())
  }

  /** The tree without unset and non-finite nodes below the root, null tags reset to 0. */
  function Prune(w: ProstValue): ProstValue {
    match w
    case NullValue(_) => NullValue(0)
    case ListValue(ws) => ListValue(PruneList(ws))
    case StructValue(m) => StructValue(map k | k in m && Convertible(m[k]) :: Prune(m[k]))
    case _ => w
  }

  function PruneList(ws: seq<ProstValue>): seq<ProstValue> {
    if ws == [] then []
    else (if Convertible(ws[0]) then [Prune(ws[0])] else []) + PruneList(ws[1..])
  }

  lemma {:induction false} ProstRoundTrip(w: ProstValue)
    ensures FromProst(w).None? <==> !Convertible(w)
    ensures Convertible(w) ==> ToProst(FromProst(w).value) == Prune(w)
  {
    match w
    case ListValue(ws) => ProstListRoundTrip(ws);
    case StructValue(m) =>
      forall k | k in m ensures (FromProst(m[k]).None? <==> !Convertible(m[k]))
                             && (Convertible(m[k]) ==> ToProst(FromProst(m[k]).value) == Prune(m[k])) {
        ProstRoundTrip(m[k]);
      }
    case _ =>
  }

  lemma {:induction false} ProstListRoundTrip(ws: seq<ProstValue>)
    ensures ToProstList(FromProstList(ws)) == PruneList(ws)
  {
    if ws != [] {
      ProstRoundTrip(ws[0]);
      ProstListRoundTrip(ws[1..]);
      if Convertible(ws[0]) {
        assert FromProstList(ws)[1..] == FromProstList(ws[1..]);
      } else {
        assert FromProstList(ws) == FromProstList(ws[1..]);
      }
    }
  }

  lemma {:induction false} PruneIdempotent(w: ProstValue)
    ensures Prune(Prune(w)) == Prune(w)
    ensures Convertible(Prune(w)) <==> Convertible(w)
  {
    match w
    case ListValue(ws) => PruneListIdempotent(ws);
    case StructValue(m) =>
      forall k | k in m ensures Prune(Prune(m[k])) == Prune(m[k])
                             && (Convertible(Prune(m[k])) <==> Convertible(m[k])) {
        PruneIdempotent(m[k]);
      }
    case _ =>
  }

  lemma {:induction false} PruneListIdempotent(ws: seq<ProstValue>)
    ensures PruneList(PruneList(ws)) == PruneList(ws)
  {
    if ws != [] {
      PruneIdempotent(ws[0]);
      PruneListIdempotent(ws[1..]);
      if Convertible(ws[0]) {
        assert PruneList(ws)[1..] == PruneList(ws[1..]);
      } else {
        assert PruneList(ws) == PruneList(ws[1..]);
      }
    }
  }

  // ---- The two trees side by side ----------------------------------------------------------

  ghost predicate IsFloatOf(n: JsonNumber, f: Float64) {
    match n
    case Float(g) => f == g
    case _ => exists x :: Rounded(IntegerOf(n), x) && f == Finite(x as real)
  }

  /** The two trees say the same, node by node. */
  ghost predicate Mirrors(v: Json, w: ProstValue)
    decreases v
  {
    match v
    case Null => w == NullValue(0)
    case Bool(b) => w == BoolValue(b)
    case Number(n) => w.NumberValue? && IsFloatOf(n, w.f)
    case String(s) => w == StringValue(s)
    case Array(items) =>
      w.ListValue? && |w.values| == |items| && forall i | 0 <= i < |items| :: Mirrors(items[i], w.values[i])
    case Object(m) =>
      w.StructValue? && w.fields.Keys == m.Keys && forall k | k in m :: Mirrors(m[k], w.fields[k])
  }

  ghost predicate MetadataMirrors(m: Metadata, s: Struct) {
    s.Keys == m.Keys && forall k | k in m :: Mirrors(m[k], s[k])
  }

  lemma {:induction false} ToProstListAt(vs: seq<Json>, i: nat)
    requires i < |vs|
    ensures |ToProstList(vs)| == |vs| && ToProstList(vs)[i] == ToProst(vs[i])
  {
    if |vs| > 1 { ToProstListAt(vs[1..], if i == 0 then 0 else i - 1); }
  }

  lemma {:induction false} ToProstMirrors(v: Json)
    ensures Mirrors(v, ToProst(v))
  {
    match v
    case Number(n) => if !n.Float? { IntegerRoundTrip(n); }
    case Array(items) =>
      forall i | 0 <= i < |items|
        ensures |ToProstList(items)| == |items| && Mirrors(items[i], ToProstList(items)[i])
      {
        ToProstListAt(items, i);
        ToProstMirrors(items[i]);
      }
    case Object(m) =>
      forall k | k in m ensures Mirrors(m[k], ToProst(m[k])) { ToProstMirrors(m[k]); }
    case _ =>
  }

  lemma MetadataToStructMirrors(m: Metadata)
    ensures MetadataMirrors(m, MetadataToStruct(m))
  {
    forall k | k in m ensures Mirrors(m[k], ToProst(m[k])) { ToProstMirrors(m[k]); }
  }

  /** What is read from a protobuf tree mirrors what of it can be converted. */
  lemma FromProstMirrors(w: ProstValue)
    requires Convertible(w)
    ensures FromProst(w).Some? && Mirrors(FromProst(w).value, Prune(w))
  {
    ProstRoundTrip(w);
    ToProstMirrors(FromProst(w).value);
  }

  function PruneStruct(s: Struct): Struct {
    map k | k in s && Convertible(s[k]) :: Prune(s[k])
  }

  lemma StructRoundTrip(s: Struct)
    ensures MetadataToStruct(StructToMetadata(s)) == PruneStruct(s)
  {
    forall k | k in s ensures (FromProst(s[k]).None? <==> !Convertible(s[k]))
                           && (Convertible(s[k]) ==> ToProst(FromProst(s[k]).value) == Prune(s[k])) {
      ProstRoundTrip(s[k]);
    }
  }
}
