/** The resolve function `buildMethod` gives a handler-backed field: it
    fills the handler's argument vector slot by slot from the request,
    calls the handler, and turns its two results into the field's value and
    error. The handler itself, the selection parser and the argument
    decoder are not part of this model: the call is a parameter, and the
    parser and decoder are recorded as uninterpreted values. */
module Resolving {
  import opened Wrappers
  import opened Reflect
  import Assembly
  import Int64Scalar

  /** What a request's `Source` holds: nothing, a JSON-like map (the root
      value, or a parent object decoded into a map) or any other value. */
  datatype Source = NilSource | MapSource(id: nat) | ObjectSource(id: nat)

  /** An argument value as the engine passes it in `Args`. */
  datatype ArgInput = ArgInput(id: nat)

  /** A request context: the caller's own, the background context, or one
      extended with the parsed selection under the key `"selection"`. */
  datatype Context =
    | Background
    | RequestContext(id: nat)
    | WithSelection(parent: Context, selection: Selection)

  /** `ParseSelections(p, argsMap)`, which the model does not define: the
      value it would compute from the request and the prototypes. */
  datatype Selection = ParseSelections(context: Context, source: Source, args: map<string, ArgInput>,
                                       argsMap: Assembly.ArgsMap)

  /** The parts of the engine's `ResolveParams` the resolver reads; a nil
      `Args` map is the empty map. */
  datatype Params = Params(context: Option<Context>, source: Source, args: map<string, ArgInput>)

  /** A `reflect.Value` in the argument vector or among the results.
      `NoValue` is the zero `Value` (an unset slot, or `ValueOf(nil)`);
      `NilValue` is a nil interface; `NilPointer` a typed nil pointer, which
      is a non-nil interface value. */
  datatype Value =
    | NoValue
    | NilValue
    | NilPointer(pointee: TypeDesc)
    | ContextValue(context: Context)
    | SourceValue(source: Source)
    | Decoded(argType: Option<TypeDesc>, args: map<string, ArgInput>)
    | ZeroValue(typ: TypeDesc)
    | ErrorValue(message: string)
    | Data(id: nat)

  /** What the resolve function returns: the field's value and its error. */
  datatype Response = Response(data: Value, err: Option<string>)

  /** Go's message for indexing a slice of length `n` at `i`. */
  function IndexPanic(i: int, n: nat): string {
    if i < 0 then "runtime error: index out of range [-" + Int64Scalar.DigitsOf(-i) + "]"
    else "runtime error: index out of range [" + Int64Scalar.DigitsOf(i) + "] with length " + Int64Scalar.DigitsOf(n)
  }

  /** `reflect.ValueOf(p.Source)`: a nil source gives the zero `Value`. */
  function SourceValueOf(s: Source): Value {
    if s.NilSource? then NoValue else SourceValue(s)
  }

  /** The context the handler receives: the request's, or the background
      context when there is none; when the source is a map, extended with
      the selection parsed from the request (with its context already
      defaulted) and the recorded prototypes. */
  function EffectiveContext(p: Params, argsMap: Assembly.ArgsMap): Context {
    var ctx := if p.context.Some? then p.context.value else Background;
    if p.source.MapSource? then WithSelection(ctx, ParseSelections(ctx, p.source, p.args, argsMap)) else ctx
  }

  /** Whether the argument slot is written: with arguments in the request
      they are decoded into the argument type, and without them the slot
      gets the argument type's zero value when there is an argument type. */
  predicate WritesArgument(h: Handler, p: Params) {
    |p.args| > 0 || h.argType.Some?
  }

  /** The value written into the argument slot. */
  function ArgumentValue(h: Handler, p: Params): Value
    requires WritesArgument(h, p)
  {
    if |p.args| > 0 then Decoded(h.argType, p.args) else ZeroValue(h.argType.value)
  }

  /** The argument vector the resolver builds, in the order it writes it:
      slot 0 the context, then the source at `argPos - 1` unless the source
      is a map, then the argument slot at `argPos`; each write out of range
      panics, and a slot never written keeps the zero `Value`. */
  function Slots(h: Handler, p: Params, argsMap: Assembly.ArgsMap): Result<seq<Value>> {
    var n := |h.ins|;
    if n == 0 then Panic(IndexPanic(0, 0))
    else
      var s0 := seq(n, _ => NoValue)[0 := ContextValue(EffectiveContext(p, argsMap))];
      if !p.source.MapSource? && !(0 <= h.argPos - 1 < n) then Panic(IndexPanic(h.argPos - 1, n))
      else
        var s1 := if p.source.MapSource? then s0 else s0[h.argPos - 1 := SourceValueOf(p.source)];
        if !WritesArgument(h, p) then Ok(s1)
        else if !(0 <= h.argPos < n) then Panic(IndexPanic(h.argPos, n))
        else Ok(s1[h.argPos := ArgumentValue(h, p)])
  }

  /** The vector is built exactly when the handler has a parameter and
      every slot the resolver writes exists. */
  lemma SlotsOkIff(h: Handler, p: Params, argsMap: Assembly.ArgsMap)
    ensures Slots(h, p, argsMap).Ok?
        <==> && |h.ins| > 0
             && (!p.source.MapSource? ==> 1 <= h.argPos <= |h.ins|)
             && (WritesArgument(h, p) ==> 0 <= h.argPos < |h.ins|)
  {
  }

  /** What each slot holds: one slot per parameter; the argument slot its
      decoded or zero value; the source slot the source (when not a map);
      slot 0 the effective context unless the source overwrote it; every
      other slot the zero `Value`. */
  lemma SlotsContent(h: Handler, p: Params, argsMap: Assembly.ArgsMap, i: int)
    requires Slots(h, p, argsMap).Ok? && 0 <= i < |h.ins|
    ensures |Slots(h, p, argsMap).value| == |h.ins|
    ensures Slots(h, p, argsMap).value[i]
         == if WritesArgument(h, p) && i == h.argPos then ArgumentValue(h, p)
            else if !p.source.MapSource? && i == h.argPos - 1 then SourceValueOf(p.source)
            else if i == 0 then ContextValue(EffectiveContext(p, argsMap))
            else NoValue
  {
  }

  /** Without a context in the request the handler gets the background
      context, extended with the selection exactly when the source is a map. */
  lemma BackgroundByDefault(p: Params, argsMap: Assembly.ArgsMap)
    requires p.context.None?
    ensures !p.source.MapSource? ==> EffectiveContext(p, argsMap) == Background
    ensures p.source.MapSource? ==>
              EffectiveContext(p, argsMap) == WithSelection(Background, ParseSelections(Background, p.source, p.args, argsMap))
  {
  }

  /** `fun.Call(in)` refuses a vector with a zero `Value` in it. */
  const ZeroArgumentPanic := "reflect: Call using zero Value argument"

  /** The resolver's return: the first result, or the zero value of the
      declared result type when it is a nil interface; the second result,
      when not nil, is the error (a non-error there fails the type
      assertion). `results` is whatever the handler returned. */
  function Respond(h: Handler, results: seq<Value>): Result<Response> {
    if |results| == 0 then Panic(IndexPanic(0, 0))
    else if results[0] == NilValue && |h.outs| == 0 then Panic(IndexPanic(0, 0))
    else
      var data := if results[0] != NilValue then results[0] else ZeroValue(h.outs[0]);
      if |results| < 2 then Panic(IndexPanic(1, |results|))
      else if results[1] == NilValue then Ok(Response(data, None))
      else if results[1].ErrorValue? then Ok(Response(data, Some(results[1].message)))
      else Panic("interface conversion: interface {} is not error: missing method Error")
  }

  /** A nil first result becomes the zero of the declared result type, any
      other first result (a typed nil pointer included) is returned as is,
      and a non-nil error is returned. */
  lemma RespondProperties(h: Handler, results: seq<Value>)
    requires |results| >= 2 && |h.outs| > 0
    requires results[1] == NilValue || results[1].ErrorValue?
    ensures Respond(h, results).Ok?
    ensures Respond(h, results).value.data == if results[0] == NilValue then ZeroValue(h.outs[0]) else results[0]
    ensures Respond(h, results).value.err.Some? <==> results[1] != NilValue
    ensures results[1].ErrorValue? ==> Respond(h, results).value.err == Some(results[1].message)
  {
  }

  /** The resolve function of a handler-backed field: build the argument
      vector, call the handler (`call`, what it returns for a vector), and
      interpret its results. */
  function Resolution(h: Handler, p: Params, argsMap: Assembly.ArgsMap, call: seq<Value> -> seq<Value>): Result<Response> {
    var s := Slots(h, p, argsMap);
    if s.Panic? then Panic(s.message)
    else if NoValue in s.value then Panic(ZeroArgumentPanic)
    else Respond(h, call(s.value))
  }

  /** The first half of the resolve function as the builder writes it:
      an array of one zero `Value` per parameter, written slot by slot. */
  method FillSlots(h: Handler, p: Params, argsMap: Assembly.ArgsMap) returns (r: Result<seq<Value>>)
    ensures r == Slots(h, p, argsMap)
  {
    var n := |h.ins|;
    if n == 0 {
      return Panic(IndexPanic(0, 0));
    }
    var ctx := if p.context.Some? then p.context.value else Background;
    if p.source.MapSource? {
      ctx := WithSelection(ctx, ParseSelections(ctx, p.source, p.args, argsMap));
    }
    var slots := new Value[n](_ => NoValue);
    slots[0] := ContextValue(ctx);
    ghost var s0 := seq(n, _ => NoValue)[0 := ContextValue(EffectiveContext(p, argsMap))];
    assert slots[..] == s0;
    var pos := h.argPos;
    if !p.source.MapSource? {
      if !(0 <= pos - 1 < n) {
        return Panic(IndexPanic(pos - 1, n));
      }
      slots[pos - 1] := SourceValueOf(p.source);
      assert slots[..] == s0[pos - 1 := SourceValueOf(p.source)];
    }
    ghost var s1 := slots[..];
    if |p.args| > 0 {
      if !(0 <= pos < n) {
        return Panic(IndexPanic(pos, n));
      }
      slots[pos] := Decoded(h.argType, p.args);
      assert slots[..] == s1[pos := ArgumentValue(h, p)];
    } else if h.argType.Some? {
      if !(0 <= pos < n) {
        return Panic(IndexPanic(pos, n));
      }
      slots[pos] := ZeroValue(h.argType.value);
      assert slots[..] == s1[pos := ArgumentValue(h, p)];
    }
    r := Ok(slots[..]);
  }

  /** The resolve function as the builder writes it. */
  method Resolve(h: Handler, p: Params, argsMap: Assembly.ArgsMap, call: seq<Value> -> seq<Value>)
    returns (r: Result<Response>)
    ensures r == Resolution(h, p, argsMap, call)
  {
    var slots := FillSlots(h, p, argsMap);
    if slots.Panic? {
      return Panic(slots.message);
    }
    if NoValue in slots.value {
      return Panic(ZeroArgumentPanic);
    }
    var results := call(slots.value);
    r := ReturnResults(h, results);
  }

  /** The second half of the resolve function as the builder writes it:
      the handler's results become the field's value and error. */
  method ReturnResults(h: Handler, results: seq<Value>) returns (r: Result<Response>)
    ensures r == Respond(h, results)
  {
    if |results| == 0 {
      return Panic(IndexPanic(0, 0));
    }
    var data := results[0];
    if data == NilValue {
      if |h.outs| == 0 {
        return Panic(IndexPanic(0, 0));
      }
      data := ZeroValue(h.outs[0]);
    }
    if |results| < 2 {
      return Panic(IndexPanic(1, |results|));
    }
    var err: Option<string> := None;
    if results[1] != NilValue {
      if !results[1].ErrorValue? {
        return Panic("interface conversion: interface {} is not error: missing method Error");
      }
      err := Some(results[1].message);
    }
    r := Ok(Response(data, err));
  }

  /** A root field whose handler takes a context and an argument struct
      (`argPos` 1) and is resolved on a map source, with no context and no
      arguments in the request: the handler gets the background context
      with the selection, and the zero value of its argument type. */
  lemma RootCallWithoutArguments(h: Handler, id: nat, argsMap: Assembly.ArgsMap)
    requires |h.ins| == 2 && h.argPos == 1 && h.argType.Some?
    ensures Slots(h, Params(None, MapSource(id), map[]), argsMap)
         == Ok([ContextValue(WithSelection(Background, ParseSelections(Background, MapSource(id), map[], argsMap))),
                ZeroValue(h.argType.value)])
  {
    var p := Params(None, MapSource(id), map[]);
    SlotsOkIff(h, p, argsMap);
    SlotsContent(h, p, argsMap, 0);
    SlotsContent(h, p, argsMap, 1);
    var v := Slots(h, p, argsMap).value;
    assert v == [v[0], v[1]];
  }

  /** The resolve function of a subscription field: the event the
      subscription delivers is the source, returned as it is (not wrapped by
      reflection, so a nil source stays a nil interface) with no error. */
  function ForwardResolution(p: Params): (r: Response)
    ensures r.err.None?
    ensures r.data == NilValue <==> p.source.NilSource?
    ensures r.data.SourceValue? <==> !p.source.NilSource?
    ensures r.data.SourceValue? ==> r.data.source == p.source
  {
    Response(if p.source.NilSource? then NilValue else SourceValue(p.source), None)
  }
}
