/** A `config_value` object whose member `data_` is reshaped in place, the
    top-level `parse` and `default_construct` for the built-in type IDs. */
module ConfigValueCells {
  import opened Common
  import opened ConfigValues
  import opened ConfigValuePrint
  import opened ConfigValueConvert

  // -- specification of the reshaping operations ------------------------------

  /** The list that `convert_to_list` leaves in `data_`. */
  function ListOf(v: ConfigValue): seq<ConfigValue>
  {
    if v.List? then v.elements else if v.Null? then [] else [v]
  }

  /** The dictionary that `as_dictionary` leaves in `data_`. */
  function DictionaryOf(c: Codecs, v: ConfigValue): seq<Entry>
  {
    if v.Dictionary? then v.entries
    else
      match ToDictionary(c, v)
      case Ok(d) => d
      case Err(_) => []
  }

  /** `convert_to_list` is idempotent and keeps every element of a list;
      a scalar becomes the only element. */
  lemma ConvertToListProperties(v: ConfigValue)
    ensures ListOf(List(ListOf(v))) == ListOf(v)
    ensures v.List? ==> List(ListOf(v)) == v
    ensures !v.List? && !v.Null? ==> ListOf(v) == [v] && ListOf(v)[0] == v
    ensures |ListOf(v)| == (if v.List? then |v.elements| else if v.Null? then 0 else 1)
  {
  }

  /** `as_dictionary` never fails: it keeps a dictionary, takes what
      `to_dictionary` lifts, and otherwise leaves an empty dictionary. Applied
      to its own result it changes nothing. */
  lemma AsDictionaryProperties(c: Codecs, v: ConfigValue)
    ensures v.Dictionary? ==> DictionaryOf(c, v) == v.entries
    ensures !v.Dictionary? && ToDictionary(c, v).Ok? ==> DictionaryOf(c, v) == ToDictionary(c, v).value
    ensures ToDictionary(c, v).Err? ==> DictionaryOf(c, v) == []
    ensures DictionaryOf(c, Dictionary(DictionaryOf(c, v))) == DictionaryOf(c, v)
  {
  }

  /** `as_dictionary` on a list keeps exactly the key-value pairs when every
      element lifts under a distinct key, and gives an empty dictionary
      otherwise. */
  lemma AsDictionaryOfList(c: Codecs, xs: seq<ConfigValue>)
    ensures AllLift(c, xs) && DistinctKeys(c, xs) ==>
      && |DictionaryOf(c, List(xs))| == |xs|
      && forall i :: 0 <= i < |xs| ==>
           Find(DictionaryOf(c, List(xs)), Lift(c, xs[i]).value.key) == Some(Lift(c, xs[i]).value.value)
    ensures !(AllLift(c, xs) && DistinctKeys(c, xs)) ==> DictionaryOf(c, List(xs)) == []
  {
    ToDictionaryOfListSpec(c, xs);
  }

  // -- default_construct ------------------------------------------------------

  /** What `default_construct` stores for a built-in type ID, `None` for the
      IDs that go to the meta-object table. */
  function DefaultValue(id: TypeId): Option<ConfigValue>
  {
    match id
    case BoolT => Some(Boolean(false))
    case DoubleT => Some(Real(Double(0)))
    case FloatT => Some(Real(Double(0)))
    case LongDoubleT => Some(Real(Double(0)))
    case Int16T => Some(Integer(0))
    case Int32T => Some(Integer(0))
    case Int64T => Some(Integer(0))
    case Int8T => Some(Integer(0))
    case UInt16T => Some(Integer(0))
    case UInt32T => Some(Integer(0))
    case UInt64T => Some(Integer(0))
    case UInt8T => Some(Integer(0))
    case StringT => Some(String(""))
    case TimespanT => Some(Timespan(Duration(0)))
    case UriT => Some(Uri(UriData("")))
    case _ => None
  }

  /** The `config_value` alternative that holds values of a built-in type:
      all integer types are stored as `integer`, all floating-point types as
      `real`. */
  function StorageType(id: TypeId): Option<TypeId>
  {
    if id in {BoolT, StringT, TimespanT, UriT} then Some(id)
    else if id in {FloatT, DoubleT, LongDoubleT} then Some(DoubleT)
    else if id in {Int8T, Int16T, Int32T, Int64T, UInt8T, UInt16T, UInt32T, UInt64T} then Some(Int64T)
    else None
  }

  /** `default_construct` handles exactly the built-in types itself, stores a
      value of the alternative that holds that type, and the value is the
      zero of that alternative. */
  lemma DefaultValueProperties(c: Codecs, id: TypeId)
    ensures DefaultValue(id).Some? <==> StorageType(id).Some?
    ensures DefaultValue(id).Some? ==> TypeIdOf(DefaultValue(id).value) == StorageType(id).value
    ensures StorageType(id) == Some(Int64T) ==> ToInteger(c, DefaultValue(id).value) == Ok(0)
    ensures id == BoolT ==> ToBoolean(c, DefaultValue(id).value) == Ok(false)
    ensures id == StringT ==> ToString(c, DefaultValue(id).value) == ""
  {
  }

  // -- the object -------------------------------------------------------------

  /** A `config_value` object. */
  class ConfigValueCell {
    var data: ConfigValue

    constructor(v: ConfigValue)
      ensures data == v
    {
      data := v;
    }

    /** `convert_to_list()`: a list stays, none becomes the empty list and
        any other value becomes the only element of a new list. */
    method ConvertToList()
      modifies this
      ensures data == List(ListOf(old(data)))
      ensures old(data).List? ==> data == old(data)
      ensures old(data).Null? ==> data == List([])
      ensures !old(data).List? && !old(data).Null? ==> data == List([old(data)])
    {
      if data.List? {
      } else if data.Null? {
        data := List([]);
      } else {
        var tmp := data;
        data := Null;
        data := List([tmp]);
      }
    }

    /** `as_list()`: converts to a list and returns it. */
    method AsList() returns (r: seq<ConfigValue>)
      modifies this
      ensures r == ListOf(old(data))
      ensures data == List(r)
    {
      ConvertToList();
      r := data.elements;
    }

    /** `append(x)`: converts to a list and adds `x` at its end. */
    method Append(x: ConfigValue)
      modifies this
      ensures data == List(ListOf(old(data)) + [x])
      ensures |data.elements| > 0 && data.elements[|data.elements| - 1] == x
      ensures data.elements[..|data.elements| - 1] == ListOf(old(data))
    {
      ConvertToList();
      data := List(data.elements + [x]);
      assert data.elements[..|data.elements| - 1] == ListOf(old(data));
    }

    /** `as_dictionary()`: keeps a dictionary, else stores what
        `to_dictionary` lifts, else stores an empty dictionary. */
    method AsDictionary(c: Codecs) returns (r: seq<Entry>)
      modifies this
      ensures r == DictionaryOf(c, old(data))
      ensures data == Dictionary(r)
    {
      if data.Dictionary? {
        r := data.entries;
      } else {
        var lifted := ToDictionary(c, data);
        if lifted.Ok? {
          data := Dictionary(lifted.value);
        } else {
          data := Dictionary([]);
        }
        r := data.entries;
      }
    }

    /** `default_construct(id)`. Built-in IDs store their zero value and
        report no error. For any other ID, `meta` stands for the meta-object
        table: `None` for an unknown ID (nothing is stored and
        `unknown_type` is reported), otherwise the value the meta object's
        `save` writes and the error code it ends with. */
    method DefaultConstruct(id: TypeId, meta: TypeId -> Option<(Sec, ConfigValue)>) returns (err: Sec)
      modifies this
      ensures DefaultValue(id).Some? ==> err == NoError && data == DefaultValue(id).value
      ensures DefaultValue(id).None? && meta(id).None? ==> err == UnknownType && data == old(data)
      ensures DefaultValue(id).None? && meta(id).Some? ==>
        err == meta(id).value.0 && data == meta(id).value.1
    {
      match id {
        case BoolT =>
          data := Boolean(false);
          err := NoError;
        case DoubleT =>
          data := Real(Double(0));
          err := NoError;
        case FloatT =>
          data := Real(Double(0));
          err := NoError;
        case LongDoubleT =>
          data := Real(Double(0));
          err := NoError;
        case Int16T =>
          data := Integer(0);
          err := NoError;
        case Int32T =>
          data := Integer(0);
          err := NoError;
        case Int64T =>
          data := Integer(0);
          err := NoError;
        case Int8T =>
          data := Integer(0);
          err := NoError;
        case UInt16T =>
          data := Integer(0);
          err := NoError;
        case UInt32T =>
          data := Integer(0);
          err := NoError;
        case UInt64T =>
          data := Integer(0);
          err := NoError;
        case UInt8T =>
          data := Integer(0);
          err := NoError;
        case StringT =>
          data := String("");
          err := NoError;
        case TimespanT =>
          data := Timespan(Duration(0));
          err := NoError;
        case UriT =>
          data := Uri(UriData(""));
          err := NoError;
        case _ =>
          match meta(id) {
            case None =>
              err := UnknownType;
            case Some(m) =>
              data := m.1;
              err := m.0;
          }
      }
    }
  }

  /** The `convert_to_list` and `append` tests: 42 prints as "42", converted
      once or twice as "[42]"; appending 2 to 1 gives "[1, 2]". */
  method ConvertAndAppendExamples(c: Codecs) returns (s0: string, s1: string, s2: string, s3: string)
    ensures s0 == "42" && s1 == "[42]" && s2 == "[42]"
    ensures s3 == "[1, 2]"
  {
    AppendExamples(c);
    var x := new ConfigValueCell(Integer(42));
    s0 := PrintToString(c, x.data);
    x.ConvertToList();
    s1 := PrintToString(c, x.data);
    x.ConvertToList();
    s2 := PrintToString(c, x.data);
    var y := new ConfigValueCell(Integer(1));
    y.Append(Integer(2));
    assert y.data == List([Integer(1), Integer(2)]);
    s3 := PrintToString(c, y.data);
  }

  // -- parse ------------------------------------------------------------------

  /** The subset of `caf::pec` this model names. */
  datatype Pec = Success | UnexpectedEof | TrailingCharacter | UnexpectedCharacter | OtherPec(code: nat)

  /** What `parser::read_config_value` leaves behind: the state's code and
      the value the consumer received. */
  datatype ReadResult = ReadResult(code: Pec, value: ConfigValue)

  /** The result of `config_value::parse`. */
  datatype ParseResult = Parsed(value: ConfigValue) | ParseError(code: Pec)

  /** `isspace` in the "C" locale. */
  predicate IsSpace(ch: char)
  {
    ch == ' ' || ch == '\t' || ch == '\n' || ch as int == 11 || ch as int == 12 || ch == '\r'
  }

  /** `isdigit`. */
  predicate IsDigit(ch: char)
  {
    '0' <= ch <= '9'
  }

  /** The position of the first character that is not white space, `|s|` if
      there is none. */
  function FirstNonSpace(s: string): (r: nat)
    ensures r <= |s|
    ensures forall j :: 0 <= j < r ==> IsSpace(s[j])
    ensures r < |s| ==> !IsSpace(s[r])
  {
    if |s| == 0 then 0
    else if IsSpace(s[0]) then 1 + FirstNonSpace(s[1..])
    else 0
  }

  /** A failed read is reported as an error, rather than the input taken as
      a string, when the first character opens a list, a dictionary or a
      quoted string, or is a digit. */
  predicate LooksTyped(ch: char)
  {
    ch == '[' || ch == '{' || ch == '"' || ch == '\'' || IsDigit(ch)
  }

  /** `config_value::parse(first, last)` as a function of the input and of
      the inner reader. */
  function ParseSpec(input: string, read: string -> ReadResult): ParseResult
  {
    var i := FirstNonSpace(input);
    if i == |input| then ParseError(UnexpectedEof)
    else
      var res := read(input[i..]);
      if res.code == Success then Parsed(res.value)
      else if LooksTyped(input[i]) then ParseError(res.code)
      else Parsed(String(input))
  }

  /** `config_value::parse`: skips white space, runs the reader from the first
      other character and falls back to the whole input as a string. */
  method Parse(input: string, read: string -> ReadResult) returns (r: ParseResult)
    ensures r == ParseSpec(input, read)
  {
    if |input| == 0 {
      return ParseError(UnexpectedEof);
    }
    var i := 0;
    while IsSpace(input[i])
      invariant 0 <= i < |input|
      invariant forall j :: 0 <= j < i ==> IsSpace(input[j])
      decreases |input| - i
    {
      i := i + 1;
      if i == |input| {
        return ParseError(UnexpectedEof);
      }
    }
    var res := read(input[i..]);
    if res.code == Success {
      return Parsed(res.value);
    }
    if input[i] == '[' || input[i] == '{' || input[i] == '"' || input[i] == '\'' {
      return ParseError(res.code);
    }
    if IsDigit(input[i]) {
      return ParseError(res.code);
    }
    return Parsed(String(input));
  }

  /** Empty and all-blank input fails with `unexpected_eof` whatever the
      reader does. */
  lemma ParseBlank(input: string, read: string -> ReadResult)
    requires forall j :: 0 <= j < |input| ==> IsSpace(input[j])
    ensures ParseSpec(input, read) == ParseError(UnexpectedEof)
  {
  }

  /** A failed read falls back to the whole input as a string, leading white
      space included, exactly when the first other character does not look
      like the start of a typed value; otherwise the reader's code is the
      error. A successful read is returned as is. */
  lemma ParseFallback(input: string, read: string -> ReadResult)
    requires FirstNonSpace(input) < |input|
    ensures read(input[FirstNonSpace(input)..]).code == Success ==>
      ParseSpec(input, read) == Parsed(read(input[FirstNonSpace(input)..]).value)
    ensures read(input[FirstNonSpace(input)..]).code != Success ==>
      (ParseSpec(input, read) == Parsed(String(input)) <==> !LooksTyped(input[FirstNonSpace(input)]))
    ensures read(input[FirstNonSpace(input)..]).code != Success && LooksTyped(input[FirstNonSpace(input)]) ==>
      ParseSpec(input, read) == ParseError(read(input[FirstNonSpace(input)..]).code)
  {
  }

  /** The reader sees the input from its first non-blank character: "  abc"
      that the reader rejects comes back as the string "  abc". */
  lemma ParseKeepsLeadingBlanks(read: string -> ReadResult)
    requires read("abc").code != Success
    ensures ParseSpec("  abc", read) == Parsed(String("  abc"))
    ensures read("[1,").code == UnexpectedEof ==> ParseSpec("[1,", read) == ParseError(UnexpectedEof)
  {
    assert FirstNonSpace("  abc") == 2 by {
      assert "  abc"[1..] == " abc";
      assert " abc"[1..] == "abc";
    }
    assert "  abc"[2..] == "abc";
    assert "[1,"[0..] == "[1,";
  }
}
