/** Java `Map<String, Object>` values as the adapters and the telemetry builder see
    them. A map is the sequence of its entries in iteration order; `get` of an absent
    key gives null, `put` replaces the value of a present key where it stands and
    appends an absent one. */
module JavaMaps {
  import opened JavaLang

  /** A value stored in a map: null, a String, a boxed number, a Boolean, a List or a
      nested Map. */
  datatype Value =
    | Null
    | Str(s: string)
    | Num(n: int, boxed: NumBox)
    | Bool(b: bool)
    | List(items: seq<Value>)
    | Obj(entries: seq<Entry>)

  datatype Entry = Entry(key: string, value: Value)

  /** The class of a boxed number: a `(Long)` cast accepts only a `java.lang.Long`. */
  datatype NumBox = IntegerBox | LongBox | OtherNumberBox

  type JMap = seq<Entry>

  function Keys(m: JMap): (r: seq<string>)
    ensures |r| == |m| && forall i :: 0 <= i < |m| ==> r[i] == m[i].key
  {
    if m == [] then [] else [m[0].key] + Keys(m[1..])
  }

  /** `containsKey`. */
  predicate HasKey(m: JMap, k: string) {
    exists i :: 0 <= i < |m| && m[i].key == k
  }

  predicate DistinctKeys(m: JMap) {
    forall i, j :: 0 <= i < j < |m| ==> m[i].key != m[j].key
  }

  /** `get`: the value of the first entry with key `k`, or null. */
  function Get(m: JMap, k: string): (v: Value)
    ensures !HasKey(m, k) ==> v == Null
  {
    if m == [] then Null else if m[0].key == k then m[0].value else Get(m[1..], k)
  }

  /** `put`: a present key keeps its place and every entry keeps its key; an absent
      key is appended. */
  function Put(m: JMap, k: string, v: Value): (r: JMap)
    ensures HasKey(m, k) ==> |r| == |m| && forall i :: 0 <= i < |m| ==> r[i].key == m[i].key
    ensures !HasKey(m, k) ==> r == m + [Entry(k, v)]
  {
    if m == [] then [Entry(k, v)]
    else if m[0].key == k then [Entry(k, v)] + m[1..]
    else
      HasKeyTail(m, k);
      [m[0]] + Put(m[1..], k, v)
  }

  lemma HasKeyTail(m: JMap, k: string)
    requires m != [] && m[0].key != k
    ensures HasKey(m, k) <==> HasKey(m[1..], k)
  {
    if HasKey(m, k) {
      var i :| 0 <= i < |m| && m[i].key == k;
      assert m[1..][i - 1].key == k;
    }
    if HasKey(m[1..], k) {
      var i :| 0 <= i < |m[1..]| && m[1..][i].key == k;
      assert m[i + 1].key == k;
    }
  }

  /** `isEmpty` of a possibly-null map, as `MapUtils.isEmpty` decides it. */
  predicate IsEmptyMap(m: Option<JMap>) {
    m.None? || m.value == []
  }

  lemma {:induction false} PutGet(m: JMap, k: string, v: Value, j: string)
    ensures Get(Put(m, k, v), j) == if j == k then v else Get(m, j)
  {
    if m != [] && m[0].key != k {
      PutGet(m[1..], k, v, j);
    }
  }

  /** Putting keeps every other entry, and the map stays free of duplicate keys. */
  lemma PutKeepsOthers(m: JMap, k: string, v: Value)
    requires DistinctKeys(m)
    ensures DistinctKeys(Put(m, k, v))
    ensures forall e :: e in m && e.key != k ==> e in Put(m, k, v)
    ensures Entry(k, v) in Put(m, k, v)
  {
    var r := Put(m, k, v);
    if HasKey(m, k) {
      forall i, j | 0 <= i < j < |r| ensures r[i].key != r[j].key {
        assert r[i].key == m[i].key && r[j].key == m[j].key;
      }
    } else {
      forall i, j | 0 <= i < j < |r| ensures r[i].key != r[j].key {
        if j == |m| {
          assert r[j].key == k && r[i] == m[i];
        } else {
          assert r[i] == m[i] && r[j] == m[j];
        }
      }
    }
    PutEntries(m, k, v);
  }

  lemma {:induction false} PutEntries(m: JMap, k: string, v: Value)
    ensures forall e :: e in m && e.key != k ==> e in Put(m, k, v)
    ensures Entry(k, v) in Put(m, k, v)
  {
    if m != [] {
      var r := Put(m, k, v);
      if m[0].key == k {
        assert r == [Entry(k, v)] + m[1..];
        forall e | e in m && e.key != k ensures e in r {
          assert e in m[1..];
        }
      } else {
        var t := Put(m[1..], k, v);
        PutEntries(m[1..], k, v);
        assert r == [m[0]] + t;
        forall e | e in m && e.key != k ensures e in r {
          if e != m[0] {
            assert e in m[1..];
          }
        }
      }
    }
  }

  /** Putting the value a key already holds in front of it changes nothing more. */
  lemma {:induction false} PutTwice(m: JMap, k: string, v: Value)
    ensures Put(Put(m, k, v), k, v) == Put(m, k, v)
  {
    if m != [] && m[0].key != k {
      PutTwice(m[1..], k, v);
    }
  }

  /** `(String) v`: null casts to null, anything but a String raises ClassCastException. */
  function CastString(v: Value): Result<Option<string>, Exception> {
    match v
    case Null => Ok(None)
    case Str(s) => Ok(Some(s))
    case _ => Err(ClassCast)
  }

  /** `(Map) v`. */
  function CastMap(v: Value): Result<Option<JMap>, Exception> {
    match v
    case Null => Ok(None)
    case Obj(m) => Ok(Some(m))
    case _ => Err(ClassCast)
  }

  /** `(List) v`. */
  function CastList(v: Value): Result<Option<seq<Value>>, Exception> {
    match v
    case Null => Ok(None)
    case List(items) => Ok(Some(items))
    case _ => Err(ClassCast)
  }

  /** `(Long) v`: an `Integer` or any other boxed number is not a `Long`. */
  function CastLong(v: Value): Result<Option<int>, Exception> {
    match v
    case Null => Ok(None)
    case Num(n, LongBox) => Ok(Some(n))
    case _ => Err(ClassCast)
  }

  /** The value a cast-checked String, Map, List or Long stands for again, null for none. */
  function StrOrNull(s: Option<string>): Value {
    if s.None? then Null else Str(s.value)
  }

  function MapOrNull(m: Option<JMap>): Value {
    if m.None? then Null else Obj(m.value)
  }

  function ListOrNull(l: Option<seq<Value>>): Value {
    if l.None? then Null else List(l.value)
  }

  function LongOrNull(n: Option<int>): Value {
    if n.None? then Null else Num(n.value, LongBox)
  }

  /** A cast that succeeds hands back the value it was given. */
  lemma CastRoundTrip(v: Value)
    ensures CastString(v).Ok? ==> StrOrNull(CastString(v).value) == v
    ensures CastMap(v).Ok? ==> MapOrNull(CastMap(v).value) == v
    ensures CastList(v).Ok? ==> ListOrNull(CastList(v).value) == v
    ensures CastLong(v).Ok? ==> LongOrNull(CastLong(v).value) == v
  {
  }

  /** In a map with distinct keys, `get` of an entry's key is that entry's value. */
  lemma {:induction false} GetAt(m: JMap, i: nat)
    requires DistinctKeys(m) && i < |m|
    ensures Get(m, m[i].key) == m[i].value
  {
    if i > 0 {
      assert DistinctKeys(m[1..]) by {
        forall a, b | 0 <= a < b < |m[1..]| ensures m[1..][a].key != m[1..][b].key {
          assert m[1..][a] == m[a + 1] && m[1..][b] == m[b + 1];
        }
      }
      assert m[0].key != m[i].key;
      GetAt(m[1..], i - 1);
    }
  }
}
