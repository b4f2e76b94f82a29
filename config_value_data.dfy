/** The `config_value` variant: nine alternatives in a fixed index order,
    the type names and type IDs indexed by that order, the key-sorted
    dictionary and the foreign printers and parsers the conversions use. */
module ConfigValues {
  import opened Common

  /** `config_value::real` (a `double`), kept as its IEEE 754 bit pattern. */
  datatype Double = Double(bits: nat)

  /** `caf::timespan`, a count of nanoseconds. */
  datatype Duration = Duration(nanos: Int64)

  /** `caf::uri`, kept opaque. */
  datatype UriData = UriData(text: string)

  /** The variant `config_value::data_`. `Null` is the `none_t` alternative. */
  datatype ConfigValue =
    | Null
    | Integer(i: Int64)
    | Boolean(b: bool)
    | Real(r: Double)
    | Timespan(t: Duration)
    | Uri(u: UriData)
    | String(s: string)
    | List(elements: seq<ConfigValue>)
    | Dictionary(entries: seq<Entry>)

  /** One key-value pair of a `config_value::dictionary`. */
  datatype Entry = Entry(key: string, value: ConfigValue)

  /** `data_.index()`: the position of the alternative in the variant. */
  function Index(v: ConfigValue): (r: nat)
    ensures r < |TypeNames|
  {
    match v
    case Null => 0
    case Integer(_) => 1
    case Boolean(_) => 2
    case Real(_) => 3
    case Timespan(_) => 4
    case Uri(_) => 5
    case String(_) => 6
    case List(_) => 7
    case Dictionary(_) => 8
  }

  /** The table `type_names`, indexed by `Index`. */
  const TypeNames: seq<string> :=
    ["none", "integer", "boolean", "real", "timespan", "uri", "string", "list", "dictionary"]

  /** `config_value::type_name()`. */
  function TypeName(v: ConfigValue): string
  {
    TypeNames[Index(v)]
  }

  /** The type IDs of the runtime's type registry that this model refers to. */
  datatype TypeId =
    | NoneT | BoolT | FloatT | DoubleT | LongDoubleT
    | Int8T | Int16T | Int32T | Int64T | UInt8T | UInt16T | UInt32T | UInt64T
    | StringT | TimespanT | UriT | ListT | DictionaryT
    | Custom(id: nat)

  /** The table `allowed_types`: the type ID of each alternative, by index. */
  const AllowedTypes: seq<TypeId> :=
    [NoneT, Int64T, BoolT, DoubleT, TimespanT, UriT, StringT, ListT, DictionaryT]

  /** `config_value::type_id()`. */
  function TypeIdOf(v: ConfigValue): TypeId
  {
    AllowedTypes[Index(v)]
  }

  /** Two values report the same type name exactly when they hold the same
      alternative, and the same holds for their type IDs: both tables are
      free of repetitions. */
  lemma TypeNameAndIdIdentifyAlternative(v: ConfigValue, w: ConfigValue)
    ensures TypeName(v) == TypeName(w) <==> Index(v) == Index(w)
    ensures TypeIdOf(v) == TypeIdOf(w) <==> Index(v) == Index(w)
  {
  }

  // -- dictionaries -----------------------------------------------------------

  /** The ordering of `std::string`: lexicographic on characters. */
  predicate Less(a: string, b: string)
  {
    |b| > 0 && (|a| == 0 || a[0] < b[0] || (a[0] == b[0] && Less(a[1..], b[1..])))
  }

  lemma {:induction false} LessIrreflexive(a: string)
    ensures !Less(a, a)
  {
    if |a| > 0 {
      LessIrreflexive(a[1..]);
    }
  }

  lemma {:induction false} LessTransitive(a: string, b: string, c: string)
    requires Less(a, b) && Less(b, c)
    ensures Less(a, c)
  {
    if |a| > 0 && a[0] == b[0] && b[0] == c[0] {
      LessTransitive(a[1..], b[1..], c[1..]);
    }
  }

  lemma {:induction false} LessTotal(a: string, b: string)
    requires a != b
    ensures Less(a, b) || Less(b, a)
  {
    if |a| > 0 && |b| > 0 && a[0] == b[0] {
      assert a == [a[0]] + a[1..] && b == [b[0]] + b[1..];
      LessTotal(a[1..], b[1..]);
    }
  }

  /** A `caf::dictionary` keeps its keys unique and in ascending order. */
  predicate Sorted(d: seq<Entry>)
  {
    forall i, j :: 0 <= i < j < |d| ==> Less(d[i].key, d[j].key)
  }

  function KeySet(d: seq<Entry>): set<string>
  {
    set e | e in d :: e.key
  }

  /** The value stored under `k`, if any. */
  function Find(d: seq<Entry>, k: string): (r: Option<ConfigValue>)
    ensures r.Some? <==> k in KeySet(d)
    ensures r.Some? ==> Entry(k, r.value) in d
  {
    if |d| == 0 then None
    else if d[0].key == k then Some(d[0].value)
    else
      assert KeySet(d) == {d[0].key} + KeySet(d[1..]) by {
        assert d == [d[0]] + d[1..];
      }
      Find(d[1..], k)
  }

  /** `dictionary::emplace(k, v)`: `None` when the key is already present
      (the `.second` of the result is false), otherwise the dictionary with
      the new entry at its sorted position. */
  function Emplace(d: seq<Entry>, k: string, v: ConfigValue): (r: Option<seq<Entry>>)
    ensures r.None? ==> Find(d, k).Some?
    ensures r.Some? ==> |r.value| == |d| + 1 && Find(r.value, k) == Some(v)
  {
    if |d| == 0 then Some([Entry(k, v)])
    else if d[0].key == k then None
    else if Less(k, d[0].key) then Some([Entry(k, v)] + d)
    else
      match Emplace(d[1..], k, v)
      case None => None
      case Some(t) => Some([d[0]] + t)
  }

  /** `Emplace` changes the lookup of the emplaced key only. */
  lemma {:induction false} EmplaceFind(d: seq<Entry>, k: string, v: ConfigValue, k': string)
    requires Emplace(d, k, v).Some?
    ensures Find(Emplace(d, k, v).value, k') == if k' == k then Some(v) else Find(d, k')
  {
    if |d| > 0 && d[0].key != k && !Less(k, d[0].key) {
      EmplaceFind(d[1..], k, v, k');
    }
  }

  /** In a sorted dictionary, `Emplace` fails exactly on a present key. */
  lemma {:induction false} EmplaceFails(d: seq<Entry>, k: string, v: ConfigValue)
    requires Sorted(d)
    ensures Emplace(d, k, v).None? <==> k in KeySet(d)
  {
    if |d| == 0 {
      return;
    }
    assert KeySet(d) == {d[0].key} + KeySet(d[1..]) by { assert d == [d[0]] + d[1..]; }
    if d[0].key == k {
      return;
    }
    if Less(k, d[0].key) {
      if k in KeySet(d) {
        var i :| 0 <= i < |d| && d[i].key == k;
        LessTransitive(d[i].key, d[0].key, d[i].key);
        LessIrreflexive(k);
      }
    } else {
      EmplaceFails(d[1..], k, v);
    }
  }

  /** A successful `Emplace` keeps the keys sorted and adds one entry. */
  lemma {:induction false} EmplaceSorted(d: seq<Entry>, k: string, v: ConfigValue)
    requires Sorted(d) && Emplace(d, k, v).Some?
    ensures Sorted(Emplace(d, k, v).value) && |Emplace(d, k, v).value| == |d| + 1
  {
    if |d| == 0 {
      return;
    }
    if Less(k, d[0].key) {
      var r := [Entry(k, v)] + d;
      forall i, j | 0 <= i < j < |r| ensures Less(r[i].key, r[j].key) {
        if i == 0 && j > 1 {
          LessTransitive(k, d[0].key, d[j - 1].key);
        }
      }
      return;
    }
    var tail := d[1..];
    EmplaceSorted(tail, k, v);
    LessTotal(k, d[0].key);
    EmplaceAbove(tail, k, v, d[0].key);
    var t := Emplace(tail, k, v).value;
    var r := [d[0]] + t;
    forall i, j | 0 <= i < j < |r| ensures Less(r[i].key, r[j].key) {
      if i > 0 {
        assert r[i] == t[i - 1] && r[j] == t[j - 1];
      }
    }
  }

  /** A bound below every key and below the new key stays below every key
      after `Emplace`. */
  lemma {:induction false} EmplaceAbove(d: seq<Entry>, k: string, v: ConfigValue, lo: string)
    requires Emplace(d, k, v).Some? && Less(lo, k)
    requires forall i :: 0 <= i < |d| ==> Less(lo, d[i].key)
    ensures forall i :: 0 <= i < |Emplace(d, k, v).value| ==> Less(lo, Emplace(d, k, v).value[i].key)
  {
    if |d| > 0 && !Less(k, d[0].key) {
      EmplaceAbove(d[1..], k, v, lo);
      var t := Emplace(d[1..], k, v).value;
      assert Emplace(d, k, v).value == [d[0]] + t;
    }
  }

  /** The contract of `dictionary::emplace` on a sorted dictionary: it fails
      exactly on a present key; on success it stores `v` under `k`, keeps the
      other keys' values, the sort order and adds exactly one entry. */
  lemma EmplaceSpec(d: seq<Entry>, k: string, v: ConfigValue)
    requires Sorted(d)
    ensures Emplace(d, k, v).None? <==> k in KeySet(d)
    ensures Emplace(d, k, v).Some? ==>
      var r := Emplace(d, k, v).value;
      && Sorted(r)
      && |r| == |d| + 1
      && KeySet(r) == KeySet(d) + {k}
      && Find(r, k) == Some(v)
      && (forall k' :: k' != k ==> Find(r, k') == Find(d, k'))
  {
    EmplaceFails(d, k, v);
    if Emplace(d, k, v).Some? {
      var r := Emplace(d, k, v).value;
      EmplaceSorted(d, k, v);
      forall k' ensures Find(r, k') == if k' == k then Some(v) else Find(d, k') {
        EmplaceFind(d, k, v, k');
      }
      forall k' ensures k' in KeySet(r) <==> k' in KeySet(d) + {k} {
        assert Find(r, k').Some? <==> k' in KeySet(r);
        assert Find(d, k').Some? <==> k' in KeySet(d);
      }
    }
  }

  // -- foreign printers and parsers -------------------------------------------

  /** The printers and parsers that `config_value` calls but that are not part
      of this model: `detail::print_escaped`, `detail::print` for reals and
      timespans, `uri::str`, and the `detail::parse` overloads (the ones
      named `...Opening` are called with `require_opening_char`). */
  datatype Codecs = Codecs(
    printEscaped: string -> string,
    printReal: Double -> string,
    printTimespan: Duration -> string,
    uriStr: UriData -> string,
    parseInteger: string -> Option<Int64>,
    parseReal: string -> Option<Double>,
    parseTimespan: string -> Option<Duration>,
    realToInteger: Double -> Option<Int64>,
    parseList: string -> Option<seq<ConfigValue>>,
    parseListOpening: string -> Option<seq<ConfigValue>>,
    parseDictionary: string -> Option<seq<Entry>>,
    parseDictionaryOpening: string -> Option<seq<Entry>>)
}
