/** The total conversions of `config_value`: each returns the converted value
    or an error with code `conversion_failed`. */
module ConfigValueConvert {
  import opened Common
  import opened ConfigValues
  import opened ConfigValuePrint

  /** `caf::error`: a code and a human-readable message. */
  datatype Error = Error(code: Sec, message: string)

  /** `caf::expected<T>`. */
  datatype Expected<T> = Ok(value: T) | Err(error: Error)

  /** `no_conversion<To, From>`: the error for an alternative that the
      conversion does not accept, naming both types by their type names. */
  function NoConversion<T>(from: ConfigValue, to: string): Expected<T>
  {
    Err(Error(ConversionFailed, "cannot convert " + TypeName(from) + " to " + to))
  }

  /** The error for a string that does not parse as the target type. */
  function CannotConvertString<T>(c: Codecs, s: string, what: string): Expected<T>
  {
    Err(Error(ConversionFailed, "cannot convert " + c.printEscaped(s) + " to " + what))
  }

  // -- to_boolean -------------------------------------------------------------

  /** `config_value::to_boolean()`: a boolean as itself, the two strings
      "true" and "false" as their values, everything else fails. */
  function ToBoolean(c: Codecs, v: ConfigValue): (r: Expected<bool>)
    ensures r.Ok? <==> v.Boolean? || v == String("true") || v == String("false")
    ensures r.Ok? ==> (r.value <==> v == Boolean(true) || v == String("true"))
    ensures r.Err? ==> r.error.code == ConversionFailed
    ensures r.Err? && !v.String? ==> r.error.message == "cannot convert " + TypeName(v) + " to boolean"
  {
    match v
    case Boolean(b) => Ok(b)
    case String(s) =>
      if s == "true" then Ok(true)
      else if s == "false" then Ok(false)
      else CannotConvertString(c, s, "a boolean")
    case _ => NoConversion(v, TypeNames[2])
  }

  // -- to_integer -------------------------------------------------------------

  /** The `real` branch of `to_integer`: the floating-point checks themselves
      are the foreign `realToInteger`. */
  function RealToInteger(c: Codecs, x: Double): Expected<Int64>
  {
    match c.realToInteger(x)
    case Some(i) => Ok(i)
    case None => Err(Error(ConversionFailed, "cannot convert decimal or out-of-bounds real number to an integer"))
  }

  /** `config_value::to_integer()`. A string is read as an integer first and,
      failing that, as a real that must then convert. */
  function ToInteger(c: Codecs, v: ConfigValue): (r: Expected<Int64>)
    ensures v.Integer? ==> r == Ok(v.i)
    ensures v.Real? ==> (r.Ok? <==> c.realToInteger(v.r).Some?)
    ensures v.String? && c.parseInteger(v.s).Some? ==> r == Ok(c.parseInteger(v.s).value)
    ensures v.String? ==>
      (r.Ok? <==> c.parseInteger(v.s).Some? ||
                  (c.parseReal(v.s).Some? && c.realToInteger(c.parseReal(v.s).value).Some?))
    ensures !(v.Integer? || v.Real? || v.String?) ==> r.Err?
    ensures r.Err? ==> r.error.code == ConversionFailed
  {
    match v
    case Integer(i) => Ok(i)
    case Real(x) => RealToInteger(c, x)
    case String(s) =>
      (match c.parseInteger(s)
      case Some(i) => Ok(i)
      case None =>
        (match c.parseReal(s)
         case Some(x) =>
           (match RealToInteger(c, x)
            case Ok(i) => Ok(i)
            case Err(_) => CannotConvertString(c, s, "an integer"))
         case None => CannotConvertString(c, s, "an integer")))
    case _ => NoConversion(v, TypeNames[1])
  }

  // -- to_timespan ------------------------------------------------------------

  /** `config_value::to_timespan()`: a timespan as itself, a string through
      the timespan parser, everything else fails. */
  function ToTimespan(c: Codecs, v: ConfigValue): (r: Expected<Duration>)
    ensures r.Ok? <==> v.Timespan? || (v.String? && c.parseTimespan(v.s).Some?)
    ensures v.Timespan? ==> r == Ok(v.t)
    ensures v.String? && r.Ok? ==> r.value == c.parseTimespan(v.s).value
    ensures r.Err? ==> r.error.code == ConversionFailed
    ensures r.Err? && !v.String? ==> r.error.message == "cannot convert " + TypeName(v) + " to timespan"
  {
    match v
    case Timespan(t) => Ok(t)
    case String(s) =>
      (match c.parseTimespan(s)
       case Some(t) => Ok(t)
       case None => CannotConvertString(c, s, "a timespan"))
    case _ => NoConversion(v, TypeNames[4])
  }

  // -- to_list ----------------------------------------------------------------

  /** A dictionary as a list of two-element `[key, value]` lists, in
      dictionary order: the body of the `for` loop over `dict`. */
  function KeyValueList(d: seq<Entry>): (r: seq<ConfigValue>)
    ensures |r| == |d|
    ensures forall i :: 0 <= i < |d| ==> r[i] == List([String(d[i].key), d[i].value])
  {
    if |d| == 0 then [] else [List([String(d[0].key), d[0].value])] + KeyValueList(d[1..])
  }

  /** `config_value::to_list()`. A string is read as a list and, failing
      that, as a dictionary; both parsers require the opening bracket. */
  function ToList(c: Codecs, v: ConfigValue): (r: Expected<seq<ConfigValue>>)
    ensures v.List? ==> r == Ok(v.elements)
    ensures v.Dictionary? ==> r == Ok(KeyValueList(v.entries))
    ensures v.String? ==>
      (r.Ok? <==> c.parseListOpening(v.s).Some? || c.parseDictionaryOpening(v.s).Some?)
    ensures v.String? && c.parseListOpening(v.s).Some? ==> r == Ok(c.parseListOpening(v.s).value)
    ensures v.String? && c.parseListOpening(v.s).None? && c.parseDictionaryOpening(v.s).Some? ==>
      r == Ok(KeyValueList(c.parseDictionaryOpening(v.s).value))
    ensures !(v.List? || v.Dictionary? || v.String?) ==> r.Err?
    ensures r.Err? ==> r.error.code == ConversionFailed
  {
    match v
    case String(s) =>
      (match c.parseListOpening(s)
       case Some(xs) => Ok(xs)
       case None =>
         match c.parseDictionaryOpening(s)
         case Some(d) => Ok(KeyValueList(d))
         case None => CannotConvertString(c, s, "a list"))
    case List(xs) => Ok(xs)
    case Dictionary(d) => Ok(KeyValueList(d))
    case _ => NoConversion(v, TypeNames[7])
  }

  // -- to_dictionary ----------------------------------------------------------

  /** The `lift` lambda's view of one list element: it must convert to a
      two-element list, whose first component printed by `to_string` is the
      key and whose second is the value. */
  function Lift(c: Codecs, x: ConfigValue): Option<Entry>
  {
    match ToList(c, x)
    case Ok(ls) => if |ls| == 2 then Some(Entry(ToString(c, ls[0]), ls[1])) else None
    case Err(_) => None
  }

  /** `std::all_of(x.begin(), x.end(), lift)` starting from the dictionary
      `acc`: each element is lifted and emplaced; the first element that does
      not lift or whose key is taken stops it. */
  function LiftInto(c: Codecs, acc: seq<Entry>, xs: seq<ConfigValue>): Option<seq<Entry>>
    decreases |xs|
  {
    if |xs| == 0 then Some(acc)
    else
      match Lift(c, xs[0])
      case None => None
      case Some(e) =>
        match Emplace(acc, e.key, e.value)
        case None => None
        case Some(acc') => LiftInto(c, acc', xs[1..])
  }

  const NotKeyValuePairs: string :=
    "cannot convert list to dictionary unless each element in the list is a key-value pair"

  /** The `list` branch of `to_dictionary`: it succeeds exactly when every
      element lifts and the lifted keys are pairwise distinct. */
  function DictionaryOfList(c: Codecs, xs: seq<ConfigValue>): (r: Expected<seq<Entry>>)
    ensures r.Ok? <==> AllLift(c, xs) && DistinctKeys(c, xs)
    ensures r.Err? ==> r.error == Error(ConversionFailed, NotKeyValuePairs)
  {
    LiftIntoSucceeds(c, [], xs);
    match LiftInto(c, [], xs)
    case Some(d) => Ok(d)
    case None => Err(Error(ConversionFailed, NotKeyValuePairs))
  }

  /** `config_value::to_dictionary()`. A string is read as a dictionary and,
      failing that, as a list that must then lift. */
  function ToDictionary(c: Codecs, v: ConfigValue): (r: Expected<seq<Entry>>)
    ensures v.Dictionary? ==> r == Ok(v.entries)
    ensures v.List? ==> (r.Ok? <==> AllLift(c, v.elements) && DistinctKeys(c, v.elements))
    ensures v.List? && r.Err? ==> r.error == Error(ConversionFailed, NotKeyValuePairs)
    ensures v.String? && c.parseDictionary(v.s).Some? ==> r == Ok(c.parseDictionary(v.s).value)
    ensures v.String? && c.parseDictionary(v.s).None? ==>
      (r.Ok? <==> c.parseList(v.s).Some? && AllLift(c, c.parseList(v.s).value)
                  && DistinctKeys(c, c.parseList(v.s).value))
    ensures v.String? && c.parseDictionary(v.s).None? && r.Ok? ==>
      r == DictionaryOfList(c, c.parseList(v.s).value)
    ensures !(v.List? || v.Dictionary? || v.String?) ==> r.Err?
    ensures r.Err? ==> r.error.code == ConversionFailed
  {
    match v
    case List(xs) => DictionaryOfList(c, xs)
    case String(s) =>
      (match c.parseDictionary(s)
       case Some(d) => Ok(d)
       case None =>
         match c.parseList(s)
         case Some(xs) =>
           if DictionaryOfList(c, xs).Ok? then DictionaryOfList(c, xs)
           else CannotConvertString(c, s, "a dictionary")
         case None => CannotConvertString(c, s, "a dictionary"))
    case Dictionary(d) => Ok(d)
    case _ => NoConversion(v, TypeNames[8])
  }

  /** Every element of the list lifts to a key-value pair. */
  predicate AllLift(c: Codecs, xs: seq<ConfigValue>)
  {
    forall i :: 0 <= i < |xs| ==> Lift(c, xs[i]).Some?
  }

  /** The lifted keys of the list are pairwise distinct. */
  predicate DistinctKeys(c: Codecs, xs: seq<ConfigValue>)
    requires AllLift(c, xs)
  {
    forall i, j :: 0 <= i < j < |xs| ==> Lift(c, xs[i]).value.key != Lift(c, xs[j]).value.key
  }

  /** `LiftInto` succeeds exactly when every element lifts, the lifted keys
      are pairwise distinct and none is already in `acc`. */
  lemma {:induction false} LiftIntoSucceeds(c: Codecs, acc: seq<Entry>, xs: seq<ConfigValue>)
    requires Sorted(acc)
    ensures LiftInto(c, acc, xs).Some? <==>
      && AllLift(c, xs)
      && DistinctKeys(c, xs)
      && (forall i :: 0 <= i < |xs| ==> Lift(c, xs[i]).value.key !in KeySet(acc))
    decreases |xs|
  {
    if |xs| == 0 {
      return;
    }
    var tail := xs[1..];
    assert forall i :: 0 <= i < |tail| ==> tail[i] == xs[i + 1];
    match Lift(c, xs[0])
    case None =>
    case Some(e) =>
      EmplaceSpec(acc, e.key, e.value);
      match Emplace(acc, e.key, e.value)
      case None =>
      case Some(acc') =>
        LiftIntoSucceeds(c, acc', tail);
        assert KeySet(acc') == KeySet(acc) + {e.key};
        if AllLift(c, xs) && DistinctKeys(c, xs) && (forall i :: 0 <= i < |xs| ==> Lift(c, xs[i]).value.key !in KeySet(acc)) {
          assert AllLift(c, tail);
          forall j | 0 <= j < |tail| ensures Lift(c, tail[j]).value.key !in KeySet(acc') {
            assert Lift(c, xs[j + 1]).value.key != Lift(c, xs[0]).value.key;
          }
        }
        if AllLift(c, tail) && DistinctKeys(c, tail) && (forall j :: 0 <= j < |tail| ==> Lift(c, tail[j]).value.key !in KeySet(acc')) {
          assert AllLift(c, xs);
          forall i, j | 0 <= i < j < |xs| ensures Lift(c, xs[i]).value.key != Lift(c, xs[j]).value.key {
            if i == 0 {
              assert Lift(c, tail[j - 1]).value.key !in KeySet(acc');
            } else {
              assert xs[i] == tail[i - 1] && xs[j] == tail[j - 1];
            }
          }
          forall i | 0 <= i < |xs| ensures Lift(c, xs[i]).value.key !in KeySet(acc) {
            if i > 0 {
              assert Lift(c, tail[i - 1]).value.key !in KeySet(acc');
            }
          }
        }
  }

  /** A successful `LiftInto` is sorted, has one entry per element and maps
      each lifted key to its lifted value, leaving the other keys of `acc`
      as they were. */
  lemma {:induction false} LiftIntoResult(c: Codecs, acc: seq<Entry>, xs: seq<ConfigValue>)
    requires Sorted(acc) && LiftInto(c, acc, xs).Some?
    requires AllLift(c, xs)
    ensures var r := LiftInto(c, acc, xs).value;
      && Sorted(r)
      && |r| == |acc| + |xs|
      && (forall i :: 0 <= i < |xs| ==> Find(r, Lift(c, xs[i]).value.key) == Some(Lift(c, xs[i]).value.value))
      && (forall k :: (forall i :: 0 <= i < |xs| ==> Lift(c, xs[i]).value.key != k) ==> Find(r, k) == Find(acc, k))
    decreases |xs|
  {
    if |xs| == 0 {
      return;
    }
    var tail := xs[1..];
    assert forall i :: 0 <= i < |tail| ==> tail[i] == xs[i + 1];
    var e := Lift(c, xs[0]).value;
    EmplaceSpec(acc, e.key, e.value);
    var acc' := Emplace(acc, e.key, e.value).value;
    assert AllLift(c, tail);
    LiftIntoResult(c, acc', tail);
    LiftIntoSucceeds(c, acc', tail);
    var r := LiftInto(c, acc', tail).value;
    assert LiftInto(c, acc, xs) == Some(r);
    forall i | 0 <= i < |xs|
      ensures Find(r, Lift(c, xs[i]).value.key) == Some(Lift(c, xs[i]).value.value)
    {
      if i == 0 {
        assert forall j :: 0 <= j < |tail| ==> Lift(c, tail[j]).value.key != e.key;
      }
    }
  }

  /** Both halves: when `LiftInto` succeeds and what it then yields. */
  lemma LiftIntoSpec(c: Codecs, acc: seq<Entry>, xs: seq<ConfigValue>)
    requires Sorted(acc)
    ensures LiftInto(c, acc, xs).Some? <==>
      && AllLift(c, xs)
      && DistinctKeys(c, xs)
      && (forall i :: 0 <= i < |xs| ==> Lift(c, xs[i]).value.key !in KeySet(acc))
    ensures LiftInto(c, acc, xs).Some? ==>
      var r := LiftInto(c, acc, xs).value;
      && Sorted(r)
      && |r| == |acc| + |xs|
      && (forall i :: 0 <= i < |xs| ==> Find(r, Lift(c, xs[i]).value.key) == Some(Lift(c, xs[i]).value.value))
      && (forall k :: (forall i :: 0 <= i < |xs| ==> Lift(c, xs[i]).value.key != k) ==> Find(r, k) == Find(acc, k))
  {
    LiftIntoSucceeds(c, acc, xs);
    if LiftInto(c, acc, xs).Some? {
      LiftIntoResult(c, acc, xs);
    }
  }

  /** The contract of `to_dictionary` on a list, as the `list` test promises:
      it succeeds exactly when every element is a key-value pair and the
      keys (the `to_string` of each first component) are pairwise distinct;
      the dictionary then has one entry per element, each key bound to its
      pair's second component, and nothing else. */
  lemma ToDictionaryOfListSpec(c: Codecs, xs: seq<ConfigValue>)
    ensures ToDictionary(c, List(xs)).Ok? <==> AllLift(c, xs) && DistinctKeys(c, xs)
    ensures ToDictionary(c, List(xs)).Err? ==> ToDictionary(c, List(xs)).error == Error(ConversionFailed, NotKeyValuePairs)
    ensures ToDictionary(c, List(xs)).Ok? ==>
      var d := ToDictionary(c, List(xs)).value;
      && Sorted(d)
      && |d| == |xs|
      && (forall i :: 0 <= i < |xs| ==> Find(d, Lift(c, xs[i]).value.key) == Some(Lift(c, xs[i]).value.value))
      && (forall k :: k in KeySet(d) ==> exists i :: 0 <= i < |xs| && Lift(c, xs[i]).value.key == k)
  {
    LiftIntoSpec(c, [], xs);
    if ToDictionary(c, List(xs)).Ok? {
      var d := ToDictionary(c, List(xs)).value;
      forall k | k in KeySet(d)
        ensures exists i :: 0 <= i < |xs| && Lift(c, xs[i]).value.key == k
      {
        assert Find(d, k).Some? && Find([], k).None?;
      }
    }
  }

  /** `std::all_of` with the `lift` lambda, filling `tmp` in place and
      stopping at the first element that does not lift. */
  method ToDictionaryOfList(c: Codecs, xs: seq<ConfigValue>) returns (r: Expected<seq<Entry>>)
    ensures r == ToDictionary(c, List(xs))
  {
    var tmp: seq<Entry> := [];
    var i := 0;
    var ok := true;
    while i < |xs| && ok
      invariant 0 <= i <= |xs|
      invariant ok ==> LiftInto(c, [], xs) == LiftInto(c, tmp, xs[i..])
      invariant !ok ==> LiftInto(c, [], xs).None?
    {
      assert xs[i..][1..] == xs[i + 1..];
      ok := false;
      match Lift(c, xs[i]) {
        case Some(e) =>
          match Emplace(tmp, e.key, e.value) {
            case Some(t) =>
              tmp := t;
              ok := true;
            case None =>
          }
        case None =>
      }
      i := i + 1;
    }
    if ok {
      r := Ok(tmp);
    } else {
      r := Err(Error(ConversionFailed, NotKeyValuePairs));
    }
  }

  /** Emplacing a key above every present key appends it. */
  lemma {:induction false} EmplaceAtEnd(d: seq<Entry>, k: string, v: ConfigValue)
    requires forall i :: 0 <= i < |d| ==> Less(d[i].key, k)
    ensures Emplace(d, k, v) == Some(d + [Entry(k, v)])
  {
    if |d| > 0 {
      LessIrreflexive(k);
      assert d[0].key != k;
      assert !Less(k, d[0].key) by {
        if Less(k, d[0].key) {
          LessTransitive(k, d[0].key, k);
        }
      }
      var tail := d[1..];
      assert forall i :: 0 <= i < |tail| ==> tail[i] == d[i + 1];
      EmplaceAtEnd(tail, k, v);
      assert Emplace(d, k, v) == Some([d[0]] + (tail + [Entry(k, v)]));
      assert [d[0]] + (tail + [Entry(k, v)]) == d + [Entry(k, v)];
    } else {
      assert d + [Entry(k, v)] == [Entry(k, v)];
    }
  }

  /** Lifting the key-value list of the sorted suffix `rest` into the
      dictionary `done` appends `rest`. */
  lemma {:induction false} LiftKeyValueList(c: Codecs, done: seq<Entry>, rest: seq<Entry>)
    requires Sorted(done + rest)
    ensures LiftInto(c, done, KeyValueList(rest)) == Some(done + rest)
    decreases |rest|
  {
    if |rest| == 0 {
      assert done + rest == done;
      return;
    }
    var xs := KeyValueList(rest);
    var e := rest[0];
    var all := done + rest;
    var done' := done + [e];
    var rest' := rest[1..];
    assert done' + rest' == all;
    forall i | 0 <= i < |done| ensures Less(done[i].key, e.key) {
      assert all[i] == done[i];
      assert all[|done|] == e;
    }
    EmplaceAtEnd(done, e.key, e.value);
    LiftPair(c, e);
    assert xs[1..] == KeyValueList(rest');
    assert LiftInto(c, done, xs) == LiftInto(c, done', xs[1..]);
    LiftKeyValueList(c, done', rest');
  }

  /** A two-element list headed by a string lifts to that key and value. */
  lemma LiftPair(c: Codecs, e: Entry)
    ensures Lift(c, List([String(e.key), e.value])) == Some(e)
  {
  }

  /** Round trip: a dictionary converted by `to_list` into key-value pairs
      converts back by `to_dictionary` into the same dictionary. */
  lemma {:induction false} ToListToDictionaryRoundTrip(c: Codecs, d: seq<Entry>)
    requires Sorted(d)
    ensures ToList(c, Dictionary(d)) == Ok(KeyValueList(d))
    ensures ToDictionary(c, List(KeyValueList(d))) == Ok(d)
  {
    LiftKeyValueList(c, [], d);
    assert [] + d == d;
  }

  /** A duplicate key makes the lifting fail, whatever the values. */
  lemma DuplicateKeyFails(c: Codecs, k: string, v: ConfigValue, w: ConfigValue)
    ensures ToDictionary(c, List([List([String(k), v]), List([String(k), w])])).Err?
  {
    var xs := [List([String(k), v]), List([String(k), w])];
    ToDictionaryOfListSpec(c, xs);
    assert Lift(c, xs[0]).value.key == k == Lift(c, xs[1]).value.key;
  }

  /** The `as_dictionary` test: the list [["one", 1], [2, "two"]] lifts to the
      dictionary {2 = "two", one = 1}; the integer key prints as "2". */
  lemma LiftExample(c: Codecs)
    ensures ToDictionary(c, List([List([String("one"), Integer(1)]), List([Integer(2), String("two")])]))
      == Ok([Entry("2", String("two")), Entry("one", Integer(1))])
  {
    var xs := [List([String("one"), Integer(1)]), List([Integer(2), String("two")])];
    assert ToString(c, Integer(2)) == "2";
    assert Lift(c, xs[0]) == Some(Entry("one", Integer(1)));
    assert Lift(c, xs[1]) == Some(Entry("2", String("two")));
    assert Less("2", "one");
    assert "one" != "2";
    assert [Entry("2", String("two"))] + [Entry("one", Integer(1))]
      == [Entry("2", String("two")), Entry("one", Integer(1))];
    assert Emplace([Entry("one", Integer(1))], "2", String("two"))
      == Some([Entry("2", String("two")), Entry("one", Integer(1))]);
    assert xs[1..][1..] == [];
  }

  // -- can_convert_to_dictionary ----------------------------------------------

  /** `config_value::can_convert_to_dictionary()`: true for a dictionary, for
      a string only when `to_dictionary` succeeds on it, false for every
      other alternative, lists included. */
  function CanConvertToDictionary(c: Codecs, v: ConfigValue): (r: bool)
    ensures r <==> v.Dictionary? || (v.String? && ToDictionary(c, v).Ok?)
    ensures r ==> ToDictionary(c, v).Ok?
  {
    match v
    case String(_) => ToDictionary(c, v).Ok?
    case Dictionary(_) => true
    case _ => false
  }

  /** A list of key-value pairs converts with `to_dictionary` (and so
      `as_dictionary` lifts it), yet `can_convert_to_dictionary` reports
      false for it. */
  lemma ListLiftsButIsNotReported(c: Codecs)
    ensures ToDictionary(c, List([List([String("a"), Integer(1)])])) == Ok([Entry("a", Integer(1))])
    ensures !CanConvertToDictionary(c, List([List([String("a"), Integer(1)])]))
  {
    var xs := [List([String("a"), Integer(1)])];
    assert Lift(c, xs[0]) == Some(Entry("a", Integer(1)));
  }
}
