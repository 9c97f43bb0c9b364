/**
 The JavaScript values that cross the runtime messaging API: call arguments,
 messages, listener replies and transport replies. Only the parts of the
 language the messaging code relies on are modelled: `typeof`, truthiness,
 reading an array position, and the own enumerable properties that
 `Object.assign` copies.
 */
module JsValues {

  /** A JavaScript value. Numbers are integers (the messaging code only compares
      and forwards them) and a function is an opaque handle. */
  datatype JsVal =
    | Undefined
    | Null
    | Bool(b: bool)
    | Num(n: int)
    | Str(s: string)
    | Arr(elems: seq<JsVal>)
    | Obj(props: map<string, JsVal>)
    | Func(handle: nat)

  /** The `typeof` operator. Note that `null` and arrays report "object". */
  function TypeOf(v: JsVal): string
  {
    match v
    case Undefined => "undefined"
    case Null => "object"
    case Bool(_) => "boolean"
    case Num(_) => "number"
    case Str(_) => "string"
    case Arr(_) => "object"
    case Obj(_) => "object"
    case Func(_) => "function"
  }

  /** JavaScript truthiness, as used by `if (x)` and `!x`. */
  predicate Truthy(v: JsVal)
  {
    match v
    case Undefined => false
    case Null => false
    case Bool(b) => b
    case Num(n) => n != 0
    case Str(s) => s != ""
    case _ => true
  }

  /** Reading position `i` of an array: a position past the end reads as `undefined`,
      which is also what array destructuring binds to a missing element. */
  function At(a: seq<JsVal>, i: nat): (v: JsVal)
    ensures i < |a| ==> v == a[i]
    ensures |a| <= i ==> v == Undefined
  {
    if i < |a| then a[i] else Undefined
  }

  /** The character of a decimal digit. */
  function DigitChar(d: nat): (c: char)
    requires d < 10
    ensures '0' <= c <= '9'
  {
    ('0' as int + d) as char
  }

  /** The canonical decimal spelling of an array index, which is the property key
      JavaScript uses for that index ("0", "1", ..., "10", ...). */
  function Decimal(n: nat): (s: string)
    ensures 1 <= |s|
    ensures n < 10 <==> |s| == 1
    ensures forall i :: 0 <= i < |s| ==> '0' <= s[i] <= '9'
  {
    if n < 10 then [DigitChar(n)] else Decimal(n / 10) + [DigitChar(n % 10)]
  }

  /** Distinct indices have distinct keys. */
  lemma {:induction false} DecimalInjective(i: nat, j: nat)
    requires Decimal(i) == Decimal(j)
    ensures i == j
    decreases i
  {
    if i < 10 || j < 10 {
      assert |Decimal(i)| == 1 && |Decimal(j)| == 1;
      assert Decimal(i)[0] == Decimal(j)[0];
    } else {
      var si, sj := Decimal(i), Decimal(j);
      assert si[|si| - 1] == sj[|sj| - 1];
      assert i % 10 == j % 10;
      assert si[..|si| - 1] == Decimal(i / 10);
      assert sj[..|sj| - 1] == Decimal(j / 10);
      DecimalInjective(i / 10, j / 10);
    }
  }

  /** The index keys of an array-like value: position `i` is stored under `Decimal(i)`. */
  function IndexProps(elems: seq<JsVal>): (m: map<string, JsVal>)
    ensures forall i :: 0 <= i < |elems| ==> Decimal(i) in m && m[Decimal(i)] == elems[i]
    ensures forall k :: k in m ==> exists i :: 0 <= i < |elems| && k == Decimal(i)
  {
    assert forall i: nat, j: nat :: Decimal(i) == Decimal(j) ==> i == j by {
      forall i: nat, j: nat | Decimal(i) == Decimal(j) ensures i == j {
        DecimalInjective(i, j);
      }
    }
    map i | 0 <= i < |elems| :: Decimal(i) := elems[i]
  }

  /** The characters of a string as one-character strings. */
  function Chars(s: string): (cs: seq<JsVal>)
    ensures |cs| == |s|
    ensures forall i :: 0 <= i < |s| ==> cs[i] == Str([s[i]])
  {
    seq(|s|, i requires 0 <= i < |s| => Str([s[i]]))
  }

  /** The own enumerable properties `Object.assign` copies from a source: an object's
      properties, an array's or a string's indexed elements, and nothing from
      `undefined`, `null`, booleans, numbers or function handles. */
  function OwnProps(v: JsVal): map<string, JsVal>
  {
    match v
    case Obj(props) => props
    case Arr(elems) => IndexProps(elems)
    case Str(s) => IndexProps(Chars(s))
    case _ => map[]
  }

  /** The key whose assignment runs the inherited prototype setter instead of
      creating an own property. */
  const ProtoKey := "__proto__"

  /** `Object.assign` creates or overwrites an own property `k` on `target`: any key
      but "__proto__", which becomes an own property only when the target already
      has it as one (otherwise the assignment goes to the inherited setter). */
  predicate Copies(target: map<string, JsVal>, k: string)
  {
    k != ProtoKey || k in target
  }

  /** The own properties of `v` that assigning into `target` creates or overwrites. */
  function CopiedProps(target: map<string, JsVal>, v: JsVal): map<string, JsVal>
  {
    if ProtoKey in target then OwnProps(v) else OwnProps(v) - {ProtoKey}
  }

  /** `r` is what `Object.assign(target, ...sources)` leaves in the target: it has the
      target's keys and every copied key of some source; a key no source has keeps the
      target's value; and a copied key takes the value of the last source that has it. */
  ghost predicate AssignedFrom(target: map<string, JsVal>, sources: seq<JsVal>, r: map<string, JsVal>)
  {
    && (forall k :: k in r <==>
          k in target || (Copies(target, k) && exists i :: 0 <= i < |sources| && k in OwnProps(sources[i])))
    && (forall k :: k in target && (forall i :: 0 <= i < |sources| ==> k !in OwnProps(sources[i])) ==> r[k] == target[k])
    && (forall i, k ::
          (0 <= i < |sources| && k in OwnProps(sources[i]) && Copies(target, k) && LastOwner(sources, i, k))
            ==> r[k] == OwnProps(sources[i])[k])
  }

  /** `Object.assign(target, ...sources)` on the own property maps: sources are copied
      left to right, so on a shared key the last source that has it wins. */
  function Assign(target: map<string, JsVal>, sources: seq<JsVal>): (r: map<string, JsVal>)
    ensures AssignedFrom(target, sources, r)
    decreases |sources|
  {
    if |sources| == 0 then target
    else
      var rest := Assign(target, sources[..|sources| - 1]);
      AssignStep(target, sources, rest);
      rest + CopiedProps(rest, sources[|sources| - 1])
  }

  /** Copying one more source onto the result for the sources before it. */
  lemma AssignStep(target: map<string, JsVal>, sources: seq<JsVal>, rest: map<string, JsVal>)
    requires |sources| > 0
    requires AssignedFrom(target, sources[..|sources| - 1], rest)
    ensures AssignedFrom(target, sources, rest + CopiedProps(rest, sources[|sources| - 1]))
  {
    assert ProtoKey in rest <==> ProtoKey in target;
    AssignStepKeys(target, sources, rest);
    AssignStepKept(target, sources, rest);
    AssignStepLast(target, sources, rest);
  }

  /** The keys after one more source: the earlier keys and the copied keys of the last one. */
  lemma AssignStepKeys(target: map<string, JsVal>, sources: seq<JsVal>, rest: map<string, JsVal>)
    requires |sources| > 0
    requires ProtoKey in rest <==> ProtoKey in target
    requires forall k :: k in rest <==>
               k in target || (Copies(target, k) && exists i :: 0 <= i < |sources| - 1 && k in OwnProps(sources[i]))
    ensures forall k :: k in rest + CopiedProps(rest, sources[|sources| - 1]) <==>
              k in target || (Copies(target, k) && exists i :: 0 <= i < |sources| && k in OwnProps(sources[i]))
  {
    var last := sources[|sources| - 1];
    forall k
      ensures k in rest + CopiedProps(rest, last) <==>
                k in target || (Copies(target, k) && exists i :: 0 <= i < |sources| && k in OwnProps(sources[i]))
    {
      assert k in CopiedProps(rest, last) <==> k in OwnProps(last) && Copies(target, k);
      if i :| 0 <= i < |sources| && k in OwnProps(sources[i]) {
        if i < |sources| - 1 {
          assert exists i' :: 0 <= i' < |sources| - 1 && k in OwnProps(sources[i']);
        }
      }
    }
  }

  /** A target key that no source has, the last one included, keeps its value. */
  lemma AssignStepKept(target: map<string, JsVal>, sources: seq<JsVal>, rest: map<string, JsVal>)
    requires |sources| > 0
    requires AssignedFrom(target, sources[..|sources| - 1], rest)
    ensures forall k :: k in target && (forall i :: 0 <= i < |sources| ==> k !in OwnProps(sources[i])) ==>
              (rest + CopiedProps(rest, sources[|sources| - 1]))[k] == target[k]
  {
    var prefix, last := sources[..|sources| - 1], sources[|sources| - 1];
    forall k | k in target && (forall i :: 0 <= i < |sources| ==> k !in OwnProps(sources[i]))
      ensures (rest + CopiedProps(rest, last))[k] == target[k]
    {
      assert k !in OwnProps(sources[|sources| - 1]);
      forall i | 0 <= i < |prefix|
        ensures k !in OwnProps(prefix[i])
      {
        assert prefix[i] == sources[i];
      }
    }
  }

  /** A copied key takes the value of the last source that has it. */
  lemma AssignStepLast(target: map<string, JsVal>, sources: seq<JsVal>, rest: map<string, JsVal>)
    requires |sources| > 0
    requires ProtoKey in rest <==> ProtoKey in target
    requires AssignedFrom(target, sources[..|sources| - 1], rest)
    ensures forall i, k ::
              (0 <= i < |sources| && k in OwnProps(sources[i]) && Copies(target, k) && LastOwner(sources, i, k))
                ==> (rest + CopiedProps(rest, sources[|sources| - 1]))[k] == OwnProps(sources[i])[k]
  {
    var prefix, last := sources[..|sources| - 1], sources[|sources| - 1];
    forall i, k | 0 <= i < |sources| && k in OwnProps(sources[i]) && Copies(target, k) && LastOwner(sources, i, k)
      ensures (rest + CopiedProps(rest, last))[k] == OwnProps(sources[i])[k]
    {
      if i < |prefix| {
        assert k !in OwnProps(sources[|sources| - 1]);
        forall j | i < j < |prefix|
          ensures k !in OwnProps(prefix[j])
        {
          assert prefix[j] == sources[j];
        }
        assert prefix[i] == sources[i];
        assert k in rest;
      } else {
        assert k in CopiedProps(rest, last);
      }
    }
  }

  /** No source after position `i` has key `k`. */
  predicate LastOwner(sources: seq<JsVal>, i: nat, k: string)
  {
    forall j :: i < j < |sources| ==> k !in OwnProps(sources[j])
  }

  /** A fresh object holding `source`'s own properties extended with `key := value`, the
      added key taking precedence: the shape `Object.assign({}, source, {key: value})`
      produces. A "__proto__" key never becomes an own property of the fresh object. */
  predicate ExtendsWith(result: JsVal, source: JsVal, key: string, value: JsVal)
  {
    && result.Obj?
    && result.props.Keys == (OwnProps(source).Keys + {key}) - {ProtoKey}
    && (key != ProtoKey ==> result.props[key] == value)
    && forall k :: k in OwnProps(source) && k != key && k != ProtoKey ==> result.props[k] == OwnProps(source)[k]
  }

  /** `Object.assign({}, source, {key: value})`. */
  function CopyWith(source: JsVal, key: string, value: JsVal): (r: JsVal)
    ensures ExtendsWith(r, source, key, value)
  {
    var extra := Obj(map[key := value]);
    var sources := [source, extra];
    var m := Assign(map[], sources);
    assert OwnProps(sources[1]) == map[key := value];
    assert forall k :: k in m <==> k != ProtoKey && (k in OwnProps(source) || k == key) by {
      forall k ensures k in m <==> k != ProtoKey && (k in OwnProps(source) || k == key) {
        if k in OwnProps(source) {
          assert k in OwnProps(sources[0]);
        }
        if k == key {
          assert k in OwnProps(sources[1]);
        }
      }
    }
    assert LastOwner(sources, 1, key);
    assert forall k :: k in OwnProps(source) && k != key ==> LastOwner(sources, 0, k);
    Obj(m)
  }

  /** A reply whose only own key is "__proto__" (as `JSON.parse` can produce) loses it:
      `Object.assign({}, reply, {key: value})` then has `key` as its only own property. */
  lemma ProtoKeyNotCopied(inner: JsVal, key: string, value: JsVal)
    requires key != ProtoKey
    ensures CopyWith(Obj(map[ProtoKey := inner]), key, value) == Obj(map[key := value])
  {
  }
}
