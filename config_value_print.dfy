/** `to_string` for `config_value`: the recursive `to_string_visitor` as
    specification functions, and the visitor's buffer-appending loops as a
    method proved against them. */
module ConfigValuePrint {
  import opened Common
  import opened ConfigValues

  function DigitChar(n: nat): char
    requires n < 10
  {
    "0123456789"[n]
  }

  function Digits(n: nat): (r: string)
    ensures |r| > 0
    decreases n
  {
    if n < 10 then [DigitChar(n)] else Digits(n / 10) + [DigitChar(n % 10)]
  }

  /** `detail::print` for an integer: its decimal notation. */
  function IntToString(i: int): string
  {
    if i < 0 then "-" + Digits(-i) else Digits(i)
  }

  /** `::isalnum` in the "C" locale. */
  predicate IsAlnum(ch: char)
  {
    ('0' <= ch <= '9') || ('a' <= ch <= 'z') || ('A' <= ch <= 'Z')
  }

  /** `append_key`: a key made of letters and digits only is printed as is,
      any other key is escaped like a string. */
  function RenderKey(c: Codecs, key: string): string
  {
    if forall i :: 0 <= i < |key| ==> IsAlnum(key[i]) then key else c.printEscaped(key)
  }

  /** `to_string_impl`: what `to_string_visitor` appends for `v`. */
  function Render(c: Codecs, v: ConfigValue): string
    decreases v, 1
  {
    match v
    case Null => "null"
    case Integer(i) => IntToString(i)
    case Boolean(b) => if b then "true" else "false"
    case Real(r) => c.printReal(r)
    case Timespan(t) => c.printTimespan(t)
    case Uri(u) => c.uriStr(u)
    case String(s) => c.printEscaped(s)
    case List(xs) => "[" + RenderItems(c, xs) + "]"
    case Dictionary(d) => "{" + RenderEntries(c, d) + "}"
  }

  /** The elements of a list, separated by ", ". */
  function RenderItems(c: Codecs, xs: seq<ConfigValue>): string
    decreases xs, 0
  {
    if |xs| == 0 then ""
    else if |xs| == 1 then Render(c, xs[0])
    else Render(c, xs[0]) + ", " + RenderItems(c, xs[1..])
  }

  function RenderEntry(c: Codecs, e: Entry): string
    decreases e, 0
  {
    RenderKey(c, e.key) + " = " + Render(c, e.value)
  }

  /** The entries of a dictionary as "key = value", separated by ", ". */
  function RenderEntries(c: Codecs, d: seq<Entry>): string
    decreases d, 0
  {
    if |d| == 0 then ""
    else if |d| == 1 then RenderEntry(c, d[0])
    else RenderEntry(c, d[0]) + ", " + RenderEntries(c, d[1..])
  }

  /** `to_string(const config_value&)`: a string at the top level is
      returned as is; everything else is printed by the visitor. */
  function ToString(c: Codecs, v: ConfigValue): string
  {
    if v.String? then v.s else Render(c, v)
  }

  // -- the visitor's loops ----------------------------------------------------

  /** Adding one more element to a printed list adds a separator and the
      element: the step of the visitor's `for` loop. */
  lemma {:induction false} RenderItemsSnoc(c: Codecs, xs: seq<ConfigValue>, x: ConfigValue)
    requires |xs| > 0
    ensures RenderItems(c, xs + [x]) == RenderItems(c, xs) + ", " + Render(c, x)
  {
    if |xs| > 1 {
      assert (xs + [x])[1..] == xs[1..] + [x];
      RenderItemsSnoc(c, xs[1..], x);
    } else {
      assert (xs + [x])[1..] == [x];
    }
  }

  lemma {:induction false} RenderEntriesSnoc(c: Codecs, d: seq<Entry>, e: Entry)
    requires |d| > 0
    ensures RenderEntries(c, d + [e]) == RenderEntries(c, d) + ", " + RenderEntry(c, e)
  {
    if |d| > 1 {
      assert (d + [e])[1..] == d[1..] + [e];
      RenderEntriesSnoc(c, d[1..], e);
    } else {
      assert (d + [e])[1..] == [e];
    }
  }

  lemma ItemsStep(c: Codecs, xs: seq<ConfigValue>, i: nat)
    requires 1 <= i < |xs|
    ensures RenderItems(c, xs[..i + 1]) == RenderItems(c, xs[..i]) + ", " + Render(c, xs[i])
  {
    assert xs[..i + 1] == xs[..i] + [xs[i]];
    RenderItemsSnoc(c, xs[..i], xs[i]);
  }

  lemma EntriesStep(c: Codecs, d: seq<Entry>, i: nat)
    requires 1 <= i < |d|
    ensures RenderEntries(c, d[..i + 1]) == RenderEntries(c, d[..i]) + ", " + RenderEntry(c, d[i])
  {
    assert d[..i + 1] == d[..i] + [d[i]];
    RenderEntriesSnoc(c, d[..i], d[i]);
  }

  /** `to_string_impl(str, v)`: appends the printed form of `v` to `str`,
      element by element for lists and entry by entry for dictionaries. */
  method AppendRendered(c: Codecs, str: string, v: ConfigValue) returns (out: string)
    ensures out == str + Render(c, v)
    decreases v, 1
  {
    match v {
      case List(xs) =>
        out := AppendList(c, str, xs);
      case Dictionary(d) =>
        out := AppendDictionary(c, str, d);
      case _ =>
        out := str + Render(c, v);
    }
  }

  /** The visitor's list case: `[`, the elements, then `]`. */
  method AppendList(c: Codecs, str: string, xs: seq<ConfigValue>) returns (out: string)
    ensures out == str + Render(c, List(xs))
    decreases xs, 1
  {
    out := str + "[";
    if |xs| > 0 {
      out := AppendItems(c, out, xs);
    }
    out := out + "]";
  }

  /** The first element, then ", " and each further element. */
  method AppendItems(c: Codecs, str: string, xs: seq<ConfigValue>) returns (out: string)
    requires |xs| > 0
    ensures out == str + RenderItems(c, xs)
    decreases xs, 0
  {
    out := AppendRendered(c, str, xs[0]);
    assert xs[..1] == [xs[0]];
    var i := 1;
    while i < |xs|
      invariant 1 <= i <= |xs|
      invariant out == str + RenderItems(c, xs[..i])
    {
      ItemsStep(c, xs, i);
      out := out + ", ";
      out := AppendRendered(c, out, xs[i]);
      i := i + 1;
    }
    assert xs[..i] == xs;
  }

  /** The visitor's dictionary case: `{`, the entries, then `}`. */
  method AppendDictionary(c: Codecs, str: string, d: seq<Entry>) returns (out: string)
    ensures out == str + Render(c, Dictionary(d))
    decreases d, 1
  {
    out := str + "{";
    if |d| > 0 {
      out := AppendEntries(c, out, d);
    }
    out := out + "}";
  }

  /** The first entry, then ", " and each further entry. */
  method AppendEntries(c: Codecs, str: string, d: seq<Entry>) returns (out: string)
    requires |d| > 0
    ensures out == str + RenderEntries(c, d)
    decreases d, 0
  {
    out := AppendEntry(c, str, d[0]);
    assert d[..1] == [d[0]];
    var i := 1;
    while i < |d|
      invariant 1 <= i <= |d|
      invariant out == str + RenderEntries(c, d[..i])
    {
      EntriesStep(c, d, i);
      out := out + ", ";
      out := AppendEntry(c, out, d[i]);
      i := i + 1;
    }
    assert d[..i] == d;
  }

  /** One "key = value" of the dictionary loop. */
  method AppendEntry(c: Codecs, str: string, e: Entry) returns (out: string)
    ensures out == str + RenderEntry(c, e)
    decreases e
  {
    out := str + RenderKey(c, e.key) + " = ";
    out := AppendRendered(c, out, e.value);
  }

  /** `to_string(x)`: the top-level string is returned raw, anything else is
      printed into a fresh buffer by the visitor. */
  method PrintToString(c: Codecs, v: ConfigValue) returns (r: string)
    ensures r == ToString(c, v)
  {
    if v.String? {
      r := v.s;
    } else {
      r := AppendRendered(c, "", v);
    }
  }

  // -- properties of the format -----------------------------------------------

  /** A string is returned raw at the top level but escaped inside a list. */
  lemma StringRawOnlyAtTopLevel(c: Codecs, s: string)
    ensures ToString(c, String(s)) == s
    ensures ToString(c, List([String(s)])) == "[" + c.printEscaped(s) + "]"
  {
    assert RenderItems(c, [String(s)]) == Render(c, String(s));
  }

  /** `none` prints as "null", booleans as "true" and "false". */
  lemma ScalarFormats(c: Codecs)
    ensures ToString(c, Null) == "null"
    ensures ToString(c, Boolean(true)) == "true" && ToString(c, Boolean(false)) == "false"
    ensures ToString(c, List([])) == "[]" && ToString(c, Dictionary([])) == "{}"
  {
  }

  /** A dictionary key is left unquoted exactly when every character is a
      letter or a digit. */
  lemma {:induction false} KeyQuotedUnlessAlnum(c: Codecs, key: string, v: ConfigValue)
    requires forall s :: c.printEscaped(s) != s
    ensures ToString(c, Dictionary([Entry(key, v)])) == "{" + RenderKey(c, key) + " = " + Render(c, v) + "}"
    ensures RenderKey(c, key) == key <==> forall i :: 0 <= i < |key| ==> IsAlnum(key[i])
  {
    assert RenderEntries(c, [Entry(key, v)]) == RenderEntry(c, Entry(key, v));
  }

  /** The printed list is its elements' printed forms joined by ", " between
      brackets, whatever the number of elements. */
  lemma {:induction false} ListFormat(c: Codecs, xs: seq<ConfigValue>, x: ConfigValue)
    ensures ToString(c, List([x])) == "[" + Render(c, x) + "]"
    ensures ToString(c, List(xs + [x])) ==
      if |xs| == 0 then "[" + Render(c, x) + "]" else "[" + RenderItems(c, xs) + ", " + Render(c, x) + "]"
  {
    assert RenderItems(c, [x]) == Render(c, x);
    if |xs| > 0 {
      RenderItemsSnoc(c, xs, x);
    } else {
      assert xs + [x] == [x];
    }
  }

  /** The examples of the `convert_to_list` and `append` tests:
      42 prints as "42" and, wrapped, as "[42]"; [1, 2, "foo"] prints with the
      strings escaped. */
  lemma AppendExamples(c: Codecs)
    ensures ToString(c, Integer(42)) == "42"
    ensures ToString(c, List([Integer(42)])) == "[42]"
    ensures ToString(c, List([Integer(1), Integer(2)])) == "[1, 2]"
    ensures ToString(c, List([Integer(1), Integer(2), String("foo")])) == "[1, 2, " + c.printEscaped("foo") + "]"
  {
    assert Digits(42) == "42";
  }
}
