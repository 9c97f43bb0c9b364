/**
 Resolution of a variadic, loosely typed argument list: splitting off a trailing
 callback, and classifying the remaining arguments by the first of an ordered
 list of shape patterns that fits them.
 */
module ArgParser {
  import opened Wrappers
  import opened JsValues

  /** The result of splitting a trailing callback off an argument list. */
  datatype CallbackSplit = CallbackSplit(callback: Option<JsVal>, args: seq<JsVal>)

  /** Removes the last argument as the callback when its `typeof` is "function". */
  function SplitCallback(fullArgs: seq<JsVal>): (r: CallbackSplit)
    ensures r.callback.Some? <==> |fullArgs| > 0 && TypeOf(fullArgs[|fullArgs| - 1]) == "function"
    ensures r.callback.Some? ==> r.callback.value.Func? && r.args + [r.callback.value] == fullArgs
    ensures r.callback.None? ==> r.args == fullArgs
  {
    if |fullArgs| > 0 && TypeOf(fullArgs[|fullArgs| - 1]) == "function" then
      CallbackSplit(Some(fullArgs[|fullArgs| - 1]), fullArgs[..|fullArgs| - 1])
    else
      CallbackSplit(None, fullArgs)
  }

  /** The type constraint that every argument satisfies. */
  const AnyType := "any"

  /** One slot of a pattern's output template: a matched argument or a fixed value. */
  datatype OutSlot = MatchArg(index: nat) | Literal(value: JsVal)

  /** A shape pattern: one type name (or "any") per argument, and an output template. */
  datatype Pattern = Pattern(types: seq<string>, out: seq<OutSlot>)

  /** The arguments have the pattern's arity and each has the type its position asks for. */
  predicate Fits(p: Pattern, args: seq<JsVal>)
  {
    && |p.types| == |args|
    && forall i :: 0 <= i < |args| ==> p.types[i] == AnyType || TypeOf(args[i]) == p.types[i]
  }

  /** Fills the pattern's output template from the arguments. */
  function Build(p: Pattern, args: seq<JsVal>): (out: seq<JsVal>)
    ensures |out| == |p.out|
    ensures forall i :: 0 <= i < |p.out| && p.out[i].Literal? ==> out[i] == p.out[i].value
    ensures forall i :: 0 <= i < |p.out| && p.out[i].MatchArg? ==> out[i] == At(args, p.out[i].index)
  {
    seq(|p.out|, i requires 0 <= i < |p.out| =>
      match p.out[i]
      case MatchArg(n) => At(args, n)
      case Literal(v) => v)
  }

  /** The position of the first pattern that fits the arguments, if any. */
  function FirstFit(args: seq<JsVal>, patterns: seq<Pattern>): (r: Option<nat>)
    ensures r.Some? ==> r.value < |patterns| && Fits(patterns[r.value], args)
    ensures r.Some? ==> forall j :: 0 <= j < r.value ==> !Fits(patterns[j], args)
    ensures r.None? <==> forall j :: 0 <= j < |patterns| ==> !Fits(patterns[j], args)
  {
    if |patterns| == 0 then None
    else if Fits(patterns[0], args) then Some(0)
    else
      match FirstFit(args, patterns[1..])
      case None => None
      case Some(k) => Some(k + 1)
  }

  /** Resolves the arguments by the first fitting pattern; `None` is a shape mismatch. */
  function Match(args: seq<JsVal>, patterns: seq<Pattern>): (r: Option<seq<JsVal>>)
    ensures r.None? <==> forall j :: 0 <= j < |patterns| ==> !Fits(patterns[j], args)
    ensures r.Some? ==>
              exists k ::
                && 0 <= k < |patterns|
                && Fits(patterns[k], args)
                && (forall j :: 0 <= j < k ==> !Fits(patterns[j], args))
                && r.value == Build(patterns[k], args)
  {
    match FirstFit(args, patterns)
    case None => None
    case Some(k) => Some(Build(patterns[k], args))
  }
}
