/** `inspect` for `tracing_data_ptr`: the optional-payload envelope written
    to a serializer and read back from a deserializer. A sink is a token
    sequence that may refuse a step; a source is a token sequence and a
    read position. The payload's own `serialize` and the tracing context's
    `deserialize` are parameters. */
module TracingData {
  import opened Common

  /** `invalid_type_id`, the largest 16-bit type ID. */
  const InvalidTypeId: nat := 0xFFFF

  /** One step of the inspector protocol. `Value` carries a token written by
      the payload itself. */
  datatype Token<P> =
    | BeginObject(typeId: nat, objectName: string)
    | BeginField(fieldName: string, present: bool)
    | EndField
    | EndObject
    | Value(payload: P)

  // -- serializing ------------------------------------------------------------

  /** The sink after a sequence of steps: whether every step succeeded and
      what it holds. */
  datatype Written<P> = Written(ok: bool, out: seq<Token<P>>)

  /** One sink call: the sink takes `t` when `accepts` lets it, and fails
      otherwise, writing nothing. */
  function Put<P>(accepts: (seq<Token<P>>, Token<P>) -> bool, out: seq<Token<P>>, t: Token<P>): Written<P>
  {
    if accepts(out, t) then Written(true, out + [t]) else Written(false, out)
  }

  /** `a && b`: the second step runs only when the first succeeded. */
  function AndThen<P>(w: Written<P>, accepts: (seq<Token<P>>, Token<P>) -> bool, t: Token<P>): Written<P>
  {
    if w.ok then Put(accepts, w.out, t) else w
  }

  /** A run of sink calls, stopping at the first failure. */
  function PutAll<P>(accepts: (seq<Token<P>>, Token<P>) -> bool, out: seq<Token<P>>, ts: seq<Token<P>>): (r: Written<P>)
    ensures r.ok ==> r.out == out + ts
    decreases |ts|
  {
    if |ts| == 0 then Written(true, out)
    else
      var w := Put(accepts, out, ts[0]);
      if w.ok then PutAll(accepts, w.out, ts[1..]) else w
  }

  /** `x->serialize(sink)`: the payload writes its tokens through the same
      sink. */
  function SerializePayload<T, P>(accepts: (seq<Token<P>>, Token<P>) -> bool, encode: T -> seq<Token<P>>,
                                  w: Written<P>, t: T): Written<P>
  {
    if w.ok then PutAll(accepts, w.out, encode(t)) else w
  }

  /** `serialize_impl(sink, x)`. */
  function Serialize<T, P>(accepts: (seq<Token<P>>, Token<P>) -> bool, encode: T -> seq<Token<P>>,
                           out: seq<Token<P>>, x: Option<T>): (r: Written<P>)
    ensures r.ok ==> r.out == out + Frame(encode, x)
  {
    match x
    case None =>
      var w := Put(accepts, out, BeginObject(InvalidTypeId, "tracing_data"));
      var w := AndThen(w, accepts, BeginField("value", false));
      var w := AndThen(w, accepts, EndField);
      AndThen(w, accepts, EndObject)
    case Some(t) =>
      var w := Put(accepts, out, BeginObject(InvalidTypeId, "tracing_data"));
      var w := AndThen(w, accepts, BeginField("value", true));
      var w := SerializePayload(accepts, encode, w, t);
      var w := AndThen(w, accepts, EndField);
      AndThen(w, accepts, EndObject)
  }

  /** The envelope: the object, the `value` field with its presence flag,
      the payload's tokens when present, then the two closing steps. */
  function Frame<T, P>(encode: T -> seq<Token<P>>, x: Option<T>): seq<Token<P>>
  {
    var payload := if x.Some? then encode(x.value) else [];
    [BeginObject(InvalidTypeId, "tracing_data"), BeginField("value", x.Some?)] + payload + [EndField, EndObject]
  }

  /** A run of calls followed by more calls is the concatenated run. */
  lemma {:induction false} PutAllAppend<P>(accepts: (seq<Token<P>>, Token<P>) -> bool, out: seq<Token<P>>,
                                           a: seq<Token<P>>, b: seq<Token<P>>)
    ensures PutAll(accepts, out, a + b) ==
      (var w := PutAll(accepts, out, a); if w.ok then PutAll(accepts, w.out, b) else w)
    decreases |a|
  {
    if |a| == 0 {
      assert a + b == b;
    } else {
      assert (a + b)[0] == a[0];
      assert (a + b)[1..] == a[1..] + b;
      var w := Put(accepts, out, a[0]);
      if w.ok {
        PutAllAppend(accepts, w.out, a[1..], b);
      }
    }
  }

  /** What a run of sink calls leaves: on success every token appended in
      order; on failure the tokens before the first refused one, and the
      refused one is the next token in line. */
  lemma {:induction false} PutAllSpec<P>(accepts: (seq<Token<P>>, Token<P>) -> bool, out: seq<Token<P>>, ts: seq<Token<P>>)
    ensures var w := PutAll(accepts, out, ts);
      && |out| <= |w.out| <= |out| + |ts|
      && w.out == out + ts[..|w.out| - |out|]
      && (w.ok <==> |w.out| == |out| + |ts|)
      && (!w.ok ==> !accepts(w.out, ts[|w.out| - |out|]))
    decreases |ts|
  {
    if |ts| > 0 {
      var w := Put(accepts, out, ts[0]);
      if w.ok {
        PutAllSpec(accepts, w.out, ts[1..]);
        var r := PutAll(accepts, w.out, ts[1..]);
        var n := |r.out| - |w.out|;
        assert ts[..n + 1] == [ts[0]] + ts[1..][..n];
        assert n < |ts| - 1 ==> ts[1..][n] == ts[n + 1];
      } else {
        assert ts[..0] == [];
      }
    } else {
      assert ts[..0] == [];
    }
  }

  /** The `&&` chain of `serialize_impl` is the envelope written token by
      token, stopping at the first step the sink refuses: no later step
      runs. */
  lemma SerializeIsFrame<T, P>(accepts: (seq<Token<P>>, Token<P>) -> bool, encode: T -> seq<Token<P>>,
                               out: seq<Token<P>>, x: Option<T>)
    ensures Serialize(accepts, encode, out, x) == PutAll(accepts, out, Frame(encode, x))
  {
    var head: seq<Token<P>> := [BeginObject(InvalidTypeId, "tracing_data"), BeginField("value", x.Some?)];
    var tail: seq<Token<P>> := [EndField, EndObject];
    var payload := if x.Some? then encode(x.value) else [];
    assert Frame(encode, x) == head + (payload + tail);
    PutAllAppend(accepts, out, head, payload + tail);
    PutAllPair(accepts, out, head[0], head[1]);
    var w := PutAll(accepts, out, head);
    if w.ok {
      PutAllAppend(accepts, w.out, payload, tail);
      var w2 := PutAll(accepts, w.out, payload);
      if w2.ok {
        PutAllPair(accepts, w2.out, EndField, EndObject);
      }
    }
  }

  /** Two sink calls joined by `&&`. */
  lemma PutAllPair<P>(accepts: (seq<Token<P>>, Token<P>) -> bool, out: seq<Token<P>>, a: Token<P>, b: Token<P>)
    ensures PutAll(accepts, out, [a, b]) == AndThen(Put(accepts, out, a), accepts, b)
  {
    assert [a, b][0] == a && [a, b][1..] == [b];
    var w := Put(accepts, out, a);
    if w.ok {
      assert [b][0] == b && [b][1..] == [];
      var w2 := Put(accepts, w.out, b);
      assert PutAll(accepts, w.out, [b]) == (if w2.ok then PutAll(accepts, w2.out, []) else w2);
    }
  }

  /** The complete envelope of a null pointer and of a payload. */
  lemma SerializeOutput<T, P>(accepts: (seq<Token<P>>, Token<P>) -> bool, encode: T -> seq<Token<P>>,
                              out: seq<Token<P>>, x: Option<T>)
    ensures var w := Serialize(accepts, encode, out, x);
      && (w.ok <==> w.out == out + Frame(encode, x))
      && (x.None? && w.ok ==>
            w.out == out + [BeginObject(InvalidTypeId, "tracing_data"), BeginField("value", false), EndField, EndObject])
      && (x.Some? && w.ok ==>
            w.out == out + [BeginObject(InvalidTypeId, "tracing_data"), BeginField("value", true)]
                         + encode(x.value) + [EndField, EndObject])
  {
    var w := Serialize(accepts, encode, out, x);
    if w.out == out + Frame(encode, x) {
      SerializeIsFrame(accepts, encode, out, x);
      PutAllSpec(accepts, out, Frame(encode, x));
      assert |w.out| == |out| + |Frame(encode, x)|;
    }
  }

  // -- deserializing ----------------------------------------------------------

  /** What the tracing context's `deserialize` leaves: success, the new read
      position and the pointer it produced. */
  datatype PayloadRead<T> = PayloadRead(ok: bool, pos: nat, x: Option<T>)

  /** `ctx->system().tracing_context()`, null or a payload reader. */
  datatype Context<T, !P> = Context(tracingContext: Option<(seq<Token<P>>, nat) -> PayloadRead<T>>)

  /** The source after `deserialize_impl`: success, the read position, the
      pointer `x`, and the error the function itself emplaced, if any. */
  datatype Decoded<T> = Decoded(ok: bool, pos: nat, x: Option<T>, error: Option<SourceError>)

  /** What `emplace_error` stores in the source. */
  datatype SourceError = SourceError(code: Sec, message: string)

  const NoContextMessage: string := "cannot deserialize tracing data without context"

  /** One source call that expects `t` at `pos`. */
  predicate Expect<P(==)>(src: seq<Token<P>>, pos: nat, t: Token<P>)
  {
    pos < |src| && src[pos] == t
  }

  /** `begin_field("value", is_present)`: there is a `value` field here. */
  predicate IsValueField<P>(src: seq<Token<P>>, pos: nat)
  {
    pos < |src| && src[pos].BeginField? && src[pos].fieldName == "value"
  }

  /** `source.end_field() && source.end_object()` from `pos`. */
  function Close<T, P(==)>(src: seq<Token<P>>, pos: nat, x: Option<T>): Decoded<T>
  {
    if !Expect(src, pos, EndField) then Decoded(false, pos, x, None)
    else if !Expect(src, pos + 1, EndObject) then Decoded(false, pos + 1, x, None)
    else Decoded(true, pos + 2, x, None)
  }

  /** `deserialize_impl(source, x)` reading from `pos`, in the context
      `ctx` (`None` when the source has none). */
  function Deserialize<T, P(==)>(src: seq<Token<P>>, pos: nat, x: Option<T>, ctx: Option<Context<T, P>>): (r: Decoded<T>)
    ensures r.ok ==> Expect(src, pos, BeginObject(InvalidTypeId, "tracing_data")) && IsValueField(src, pos + 1)
    ensures r.ok ==> r.error.None? && r.pos >= 2 && Expect(src, r.pos - 2, EndField) && Expect(src, r.pos - 1, EndObject)
    ensures !(IsValueField(src, pos + 1) && src[pos + 1].present) ==> r.x == x
    ensures r.error.Some? ==> && !r.ok && r.x == x && r.pos == pos + 2
                              && r.error.value.message == NoContextMessage
                              && (r.error.value.code == NoContext <==> ctx.None?)
  {
    if !Expect(src, pos, BeginObject(InvalidTypeId, "tracing_data")) then Decoded(false, pos, x, None)
    else if !IsValueField(src, pos + 1) then Decoded(false, pos + 1, x, None)
    else if !src[pos + 1].present then Close(src, pos + 2, x)
    else
      match ctx
      case None => Decoded(false, pos + 2, x, Some(SourceError(NoContext, NoContextMessage)))
      case Some(c) =>
        match c.tracingContext
        case None => Decoded(false, pos + 2, x, Some(SourceError(NoTracingContext, NoContextMessage)))
        case Some(tc) =>
          var r := tc(src, pos + 2);
          if !r.ok then Decoded(false, r.pos, r.x, None) else Close(src, r.pos, r.x)
  }

  /** An absent field succeeds exactly when the envelope closes, leaves `x`
      as it was and does not consult the context at all. */
  lemma AbsentFieldIgnoresContext<T, P>(src: seq<Token<P>>, pos: nat, x: Option<T>,
                                            ctx1: Option<Context<T, P>>, ctx2: Option<Context<T, P>>)
    requires Expect(src, pos, BeginObject(InvalidTypeId, "tracing_data"))
    requires Expect(src, pos + 1, BeginField("value", false))
    ensures Deserialize(src, pos, x, ctx1) == Deserialize(src, pos, x, ctx2)
    ensures Deserialize(src, pos, x, ctx1).x == x && Deserialize(src, pos, x, ctx1).error.None?
    ensures Deserialize(src, pos, x, ctx1).ok <==> Expect(src, pos + 2, EndField) && Expect(src, pos + 3, EndObject)
  {
  }

  /** A present field needs a context and a tracing context; without them
      the read fails with `no_context` or `no_tracing_context`, leaving `x`
      as it was. */
  lemma PresentFieldErrors<T, P>(src: seq<Token<P>>, pos: nat, x: Option<T>)
    requires Expect(src, pos, BeginObject(InvalidTypeId, "tracing_data"))
    requires Expect(src, pos + 1, BeginField("value", true))
    ensures Deserialize(src, pos, x, None) == Decoded(false, pos + 2, x, Some(SourceError(NoContext, NoContextMessage)))
    ensures Deserialize(src, pos, x, Some(Context(None))) == Decoded(false, pos + 2, x, Some(SourceError(NoTracingContext, NoContextMessage)))
  {
  }

  /** The context's reader decodes any payload that `encode` wrote. */
  ghost predicate Inverts<T(!new), P(!new)>(encode: T -> seq<Token<P>>, tc: (seq<Token<P>>, nat) -> PayloadRead<T>)
  {
    forall t, s, p: nat :: p + |encode(t)| <= |s| && s[p..p + |encode(t)|] == encode(t) ==>
      tc(s, p) == PayloadRead(true, p + |encode(t)|, Some(t))
  }

  /** Round trip of a null pointer: whatever the sink held before, reading
      the envelope back succeeds in any context, consumes exactly the
      envelope and leaves `x` as it was, so a null `x` stays null. */
  lemma RoundTripNull<T, P>(encode: T -> seq<Token<P>>, out: seq<Token<P>>, x: Option<T>, ctx: Option<Context<T, P>>)
    ensures var src := Serialize((s, t) => true, encode, out, None).out;
      Deserialize(src, |out|, x, ctx) == Decoded(true, |out| + 4, x, None)
  {
    var accepts := (s: seq<Token<P>>, t: Token<P>) => true;
    var src := Serialize(accepts, encode, out, None).out;
    assert src == out + [BeginObject(InvalidTypeId, "tracing_data"), BeginField("value", false), EndField, EndObject];
  }

  /** Round trip of a payload: with a tracing context whose reader inverts
      the payload's writer, reading back what was written gives the payload
      and consumes exactly the envelope. */
  lemma RoundTripPresent<T(!new), P(!new)>(encode: T -> seq<Token<P>>, out: seq<Token<P>>, t: T, x: Option<T>,
                                              tc: (seq<Token<P>>, nat) -> PayloadRead<T>)
    requires Inverts(encode, tc)
    ensures var src := Serialize((s, u) => true, encode, out, Some(t)).out;
      Deserialize(src, |out|, x, Some(Context(Some(tc)))) == Decoded(true, |src|, Some(t), None)
  {
    var accepts := (s: seq<Token<P>>, u: Token<P>) => true;
    SerializeAcceptingAll(accepts, encode, out, Some(t));
    var src := out + Frame(encode, Some(t));
    var e := encode(t);
    FrameLayout(encode, out, t);
    assert tc(src, |out| + 2) == PayloadRead(true, |out| + 2 + |e|, Some(t));
    DeserializePresent(src, |out|, x, tc, |e|, t);
  }

  /** A sink that accepts every step holds the whole envelope. */
  lemma SerializeAcceptingAll<T, P>(accepts: (seq<Token<P>>, Token<P>) -> bool, encode: T -> seq<Token<P>>,
                                    out: seq<Token<P>>, x: Option<T>)
    requires forall s, t :: accepts(s, t)
    ensures Serialize(accepts, encode, out, x) == Written(true, out + Frame(encode, x))
  {
    SerializeIsFrame(accepts, encode, out, x);
    PutAllAccepted(accepts, out, Frame(encode, x));
  }

  /** Where each part of a present envelope sits after `out`. */
  lemma FrameLayout<T, P>(encode: T -> seq<Token<P>>, out: seq<Token<P>>, t: T)
    ensures var src := out + Frame(encode, Some(t)); var n := |encode(t)|;
      && |src| == |out| + n + 4
      && src[|out|] == BeginObject(InvalidTypeId, "tracing_data")
      && src[|out| + 1] == BeginField("value", true)
      && src[|out| + 2..|out| + 2 + n] == encode(t)
      && src[|out| + 2 + n] == EndField
      && src[|out| + 3 + n] == EndObject
  {
    var e := encode(t);
    var src := out + Frame(encode, Some(t));
    assert src == out + [BeginObject(InvalidTypeId, "tracing_data"), BeginField("value", true)] + e + [EndField, EndObject];
    assert src[|out| + 2..|out| + 2 + |e|] == e;
  }

  /** Reading a present envelope whose payload the tracing context decodes
      in `n` tokens. */
  lemma DeserializePresent<T, P>(src: seq<Token<P>>, pos: nat, x: Option<T>,
                                 tc: (seq<Token<P>>, nat) -> PayloadRead<T>, n: nat, t: T)
    requires pos + n + 4 == |src|
    requires src[pos] == BeginObject(InvalidTypeId, "tracing_data") && src[pos + 1] == BeginField("value", true)
    requires tc(src, pos + 2) == PayloadRead(true, pos + 2 + n, Some(t))
    requires src[pos + 2 + n] == EndField && src[pos + 3 + n] == EndObject
    ensures Deserialize(src, pos, x, Some(Context(Some(tc)))) == Decoded(true, |src|, Some(t), None)
  {
  }

  /** A sink that accepts everything takes the whole run. */
  lemma {:induction false} PutAllAccepted<P>(accepts: (seq<Token<P>>, Token<P>) -> bool, out: seq<Token<P>>, ts: seq<Token<P>>)
    requires forall s, t :: accepts(s, t)
    ensures PutAll(accepts, out, ts) == Written(true, out + ts)
    decreases |ts|
  {
    if |ts| > 0 {
      PutAllAccepted(accepts, out + [ts[0]], ts[1..]);
    }
  }
}
