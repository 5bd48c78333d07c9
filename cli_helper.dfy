// The command-line builder used by the FTP and Samba helpers: a set of named parameters kept in
// insertion order, some of them masked, rendered as `--name` or `--name<separator><value>`.

module Cli {
  import opened Wrappers
  import opened Text

  /** The placeholder printed instead of a masked value: eight degree signs. */
  const MaskedPassword: string := "\U{00B0}\U{00B0}\U{00B0}\U{00B0}\U{00B0}\U{00B0}\U{00B0}\U{00B0}"

  /** The JavaScript values a caller can hand to `set` or `mask` (finite numbers are integers here). */
  datatype Value =
    | Undefined
    | Null
    | Bool(b: bool)
    | Number(n: int)
    | NaN
    | Infinite
    | Str(s: string)
    | Object

  /** `!!v` */
  predicate Truthy(v: Value) {
    match v
    case Undefined => false
    case Null => false
    case Bool(b) => b
    case Number(n) => n != 0
    case NaN => false
    case Infinite => true
    case Str(s) => s != ""
    case Object => true
  }

  /** What a parameter holds: the flag `true`, or the string form of a value. */
  datatype Setting = Flag | Valued(text: string)

  datatype Param = Param(name: string, setting: Setting)

  /** The parameter dictionary, in the order its keys were first added. */
  type Params = seq<Param>

  /** What `_set` stores for a value: `false` deletes, strings and finite numbers become text, anything else a flag. */
  function Stored(v: Value): (r: Option<Setting>)
    ensures r == None <==> v == Bool(false)
    ensures v.Str? ==> r == Some(Valued(v.s))
    ensures v.Number? ==> r == Some(Valued(IntToString(v.n)))
    ensures r.Some? && r.value.Valued? <==> v.Str? || v.Number?
  {
    match v
    case Bool(false) => None
    case Str(s) => Some(Valued(s))
    case Number(n) => Some(Valued(IntToString(n)))
    case _ => Some(Flag)
  }

  function Names(ps: Params): (ns: seq<string>)
    ensures |ns| == |ps| && forall i :: 0 <= i < |ps| ==> ns[i] == ps[i].name
  {
    if ps == [] then [] else [ps[0].name] + Names(ps[1..])
  }

  /** JavaScript object keys are unique. */
  predicate Distinct(ps: Params) {
    forall i, j :: 0 <= i < j < |ps| ==> ps[i].name != ps[j].name
  }

  /** `this._parameters[name]` */
  function Lookup(ps: Params, name: string): Option<Setting> {
    if ps == [] then None
    else if ps[0].name == name then Some(ps[0].setting)
    else Lookup(ps[1..], name)
  }

  /** Assigning a key keeps its position if it exists and appends it otherwise. */
  function Put(ps: Params, name: string, s: Setting): Params {
    if ps == [] then [Param(name, s)]
    else if ps[0].name == name then [Param(name, s)] + ps[1..]
    else [ps[0]] + Put(ps[1..], name, s)
  }

  /** `delete this._parameters[name]` */
  function Remove(ps: Params, name: string): Params {
    if ps == [] then []
    else if ps[0].name == name then Remove(ps[1..], name)
    else [ps[0]] + Remove(ps[1..], name)
  }

  /** One step of `_set`. */
  function Assign(ps: Params, name: string, v: Value): Params {
    match Stored(v)
    case None => Remove(ps, name)
    case Some(s) => Put(ps, name, s)
  }

  /** `_set(args)` for the keys of `args` in order. */
  function AssignAll(ps: Params, args: seq<(string, Value)>): Params
    decreases |args|
  {
    if args == [] then ps
    else
      var (name, v) := args[|args| - 1];
      Assign(AssignAll(ps, args[..|args| - 1]), name, v)
  }

  /** The value the last occurrence of `name` in `args` carries, if any. */
  function LastValue(args: seq<(string, Value)>, name: string): Option<Value>
    decreases |args|
  {
    if args == [] then None
    else if args[|args| - 1].0 == name then Some(args[|args| - 1].1)
    else LastValue(args[..|args| - 1], name)
  }

  /** One step of `_mask`. */
  function MarkAll(masks: map<string, bool>, marks: seq<(string, Value)>): map<string, bool>
    decreases |marks|
  {
    if marks == [] then masks
    else
      var (name, v) := marks[|marks| - 1];
      MarkAll(masks, marks[..|marks| - 1])[name := Truthy(v)]
  }

  predicate IsMasked(masks: map<string, bool>, name: string) {
    name in masks && masks[name]
  }

  /** One element of `toArray`; `quote` is `shell-quote`'s `quote` on an array of words. */
  function Word(p: Param, masked: bool, separator: string, quote: seq<string> -> string): string {
    match p.setting
    case Flag => "--" + p.name
    case Valued(text) => "--" + p.name + separator + (if masked then MaskedPassword else quote([text]))
  }

  /** `toArray`: one element per parameter, in key order. */
  function Words(ps: Params, masks: map<string, bool>, separator: string, quote: seq<string> -> string): (ws: seq<string>)
    ensures |ws| == |ps|
    ensures forall i :: 0 <= i < |ps| ==> ws[i] == Word(ps[i], IsMasked(masks, ps[i].name), separator, quote)
  {
    if ps == [] then []
    else [Word(ps[0], IsMasked(masks, ps[0].name), separator, quote)] + Words(ps[1..], masks, separator, quote)
  }

  /** `toString`: the elements of `toArray` joined by single spaces. */
  function CommandLine(ps: Params, masks: map<string, bool>, separator: string, quote: seq<string> -> string): string {
    Join(Words(ps, masks, separator, quote), " ")
  }

  // ---------------------------------------------------------------------------------------------
  // the dictionary operations

  lemma {:induction false} LookupPut(ps: Params, name: string, s: Setting, other: string)
    ensures Lookup(Put(ps, name, s), other) == if other == name then Some(s) else Lookup(ps, other)
  {
    if ps != [] && ps[0].name != name {
      LookupPut(ps[1..], name, s, other);
    }
  }

  lemma {:induction false} LookupRemove(ps: Params, name: string, other: string)
    ensures Lookup(Remove(ps, name), other) == if other == name then None else Lookup(ps, other)
  {
    if ps != [] {
      LookupRemove(ps[1..], name, other);
    }
  }

  /** `set(name, v)` changes what `name` maps to, into what `_set` stores for `v`, and nothing else. */
  lemma LookupAssign(ps: Params, name: string, v: Value, other: string)
    ensures Lookup(Assign(ps, name, v), other) == if other == name then Stored(v) else Lookup(ps, other)
  {
    match Stored(v)
    case None => LookupRemove(ps, name, other);
    case Some(s) => LookupPut(ps, name, s, other);
  }

  /** After `set(args)`, a key maps to what its last occurrence in `args` stores; keys absent from `args` are unchanged. */
  lemma {:induction false} LookupAssignAll(ps: Params, args: seq<(string, Value)>, name: string)
    ensures Lookup(AssignAll(ps, args), name)
         == match LastValue(args, name) case None => Lookup(ps, name) case Some(v) => Stored(v)
    decreases |args|
  {
    if args != [] {
      var (n, v) := args[|args| - 1];
      LookupAssign(AssignAll(ps, args[..|args| - 1]), n, v, name);
      LookupAssignAll(ps, args[..|args| - 1], name);
    }
  }

  /** An assignment keeps an existing key in place and appends a new one at the end. */
  lemma {:induction false} NamesPut(ps: Params, name: string, s: Setting)
    ensures Names(Put(ps, name, s)) == if name in Names(ps) then Names(ps) else Names(ps) + [name]
  {
    if ps != [] && ps[0].name != name {
      NamesPut(ps[1..], name, s);
      assert Names(ps) == [ps[0].name] + Names(ps[1..]);
    }
  }

  /** A key that is not present is appended at the end. */
  lemma {:induction false} PutAbsent(ps: Params, name: string, s: Setting)
    requires name !in Names(ps)
    ensures Put(ps, name, s) == ps + [Param(name, s)]
  {
    if ps != [] {
      assert ps[0].name == Names(ps)[0];
      assert Names(ps[1..]) == Names(ps)[1..];
      PutAbsent(ps[1..], name, s);
    }
  }

  /** `set(args)` applies the keys one after the other. */
  lemma AssignAllStep(ps: Params, args: seq<(string, Value)>, k: nat)
    requires k < |args|
    ensures AssignAll(ps, args[..k + 1]) == Assign(AssignAll(ps, args[..k]), args[k].0, args[k].1)
  {
    assert args[..k + 1][..k] == args[..k];
  }

  /** A deletion leaves the other keys in their order. */
  lemma {:induction false} RemoveAt(ps: Params, name: string, k: nat)
    requires Distinct(ps)
    requires k < |ps| && ps[k].name == name
    ensures Remove(ps, name) == ps[..k] + ps[k + 1..]
  {
    if k == 0 {
      RemoveAbsent(ps[1..], name);
    } else {
      RemoveAt(ps[1..], name, k - 1);
      assert ps[..k] == [ps[0]] + ps[1..][..k - 1];
    }
  }

  lemma {:induction false} RemoveAbsent(ps: Params, name: string)
    requires name !in Names(ps)
    ensures Remove(ps, name) == ps
  {
    if ps != [] {
      assert ps[0].name == Names(ps)[0];
      assert Names(ps[1..]) == Names(ps)[1..];
      RemoveAbsent(ps[1..], name);
    }
  }

  lemma {:induction false} PutDistinct(ps: Params, name: string, s: Setting)
    requires Distinct(ps)
    ensures Distinct(Put(ps, name, s))
  {
    NamesPut(ps, name, s);
    var r := Put(ps, name, s);
    assert Names(r) == Names(ps) || Names(r) == Names(ps) + [name];
    forall i, j | 0 <= i < j < |r|
      ensures r[i].name != r[j].name
    {
      assert r[i].name == Names(r)[i] && r[j].name == Names(r)[j];
      if j == |ps| {
        assert name !in Names(ps) && Names(r)[j] == name;
        assert Names(r)[i] == Names(ps)[i];
      } else {
        assert Names(r)[i] == Names(ps)[i] && Names(r)[j] == Names(ps)[j];
      }
    }
  }

  lemma {:induction false} RemoveDistinct(ps: Params, name: string)
    requires Distinct(ps)
    ensures Distinct(Remove(ps, name))
  {
    if exists k :: 0 <= k < |ps| && ps[k].name == name {
      var k :| 0 <= k < |ps| && ps[k].name == name;
      RemoveAt(ps, name, k);
    } else {
      assert name !in Names(ps);
      RemoveAbsent(ps, name);
    }
  }

  /** The keys stay unique under `_set`. */
  lemma AssignDistinct(ps: Params, name: string, v: Value)
    requires Distinct(ps)
    ensures Distinct(Assign(ps, name, v))
  {
    match Stored(v)
    case None => RemoveDistinct(ps, name);
    case Some(s) => PutDistinct(ps, name, s);
  }

  // ---------------------------------------------------------------------------------------------
  // rendering

  lemma {:induction false} LookupFound(ps: Params, name: string)
    requires Lookup(ps, name).Some?
    ensures exists i :: 0 <= i < |ps| && ps[i] == Param(name, Lookup(ps, name).value)
  {
    if ps[0].name != name {
      LookupFound(ps[1..], name);
      var i :| 0 <= i < |ps[1..]| && ps[1..][i] == Param(name, Lookup(ps, name).value);
      assert ps[i + 1] == ps[1..][i];
    }
  }

  /** Every flag is rendered as `--name`; an unmasked value is shown quoted, a masked one as the placeholder. */
  lemma RenderedParameter(ps: Params, masks: map<string, bool>, separator: string, quote: seq<string> -> string, name: string)
    requires Lookup(ps, name).Some?
    ensures var ws := Words(ps, masks, separator, quote);
      match Lookup(ps, name)
      case Some(Flag) => "--" + name in ws
      case Some(Valued(text)) =>
        if IsMasked(masks, name) then "--" + name + separator + MaskedPassword in ws
        else "--" + name + separator + quote([text]) in ws
  {
    LookupFound(ps, name);
    var i :| 0 <= i < |ps| && ps[i] == Param(name, Lookup(ps, name).value);
    assert Words(ps, masks, separator, quote)[i] == Word(ps[i], IsMasked(masks, name), separator, quote);
  }

  /** The rendering does not depend on the values of masked parameters. */
  lemma MaskedValuesHidden(ps: Params, qs: Params, masks: map<string, bool>, separator: string, quote: seq<string> -> string)
    requires |ps| == |qs|
    requires forall i :: 0 <= i < |ps| ==> ps[i].name == qs[i].name && ps[i].setting.Flag? == qs[i].setting.Flag?
    requires forall i :: 0 <= i < |ps| && !IsMasked(masks, ps[i].name) ==> ps[i] == qs[i]
    ensures Words(ps, masks, separator, quote) == Words(qs, masks, separator, quote)
  {
    var a, b := Words(ps, masks, separator, quote), Words(qs, masks, separator, quote);
    forall i | 0 <= i < |ps|
      ensures a[i] == b[i]
    {
      if IsMasked(masks, ps[i].name) && ps[i].setting.Valued? {
        assert a[i] == "--" + ps[i].name + separator + MaskedPassword;
      }
    }
  }

  /** When no element contains a space, the elements of `toArray` can be read back from `toString`. */
  lemma CommandLineWords(ps: Params, masks: map<string, bool>, separator: string, quote: seq<string> -> string)
    requires ps != []
    requires forall i :: 0 <= i < |ps| ==> ' ' !in Words(ps, masks, separator, quote)[i]
    ensures Split(CommandLine(ps, masks, separator, quote), ' ') == Words(ps, masks, separator, quote)
  {
    SplitJoin(Words(ps, masks, separator, quote), ' ');
  }

  // ---------------------------------------------------------------------------------------------
  // the helper object

  class CliHelper {
    const separator: string
    var parameters: Params
    var masked: map<string, bool>

    ghost predicate Valid()
      reads this
    {
      Distinct(parameters)
    }

    constructor (separator: Option<string>)
      ensures this.separator == separator.GetOr("=")
      ensures parameters == [] && masked == map[]
      ensures Valid()
    {
      this.separator := separator.GetOr("=");
      parameters := [];
      masked := map[];
    }

    /** `set(name, value)` */
    method Set(name: string, value: Value)
      requires Valid()
      modifies this
      ensures Valid()
      ensures parameters == Assign(old(parameters), name, value)
      ensures masked == old(masked)
    {
      AssignDistinct(parameters, name, value);
      parameters := Assign(parameters, name, value);
    }

    /** `set(args)`: the keys of `args` are applied in order. */
    method SetAll(args: seq<(string, Value)>)
      requires Valid()
      modifies this
      ensures Valid()
      ensures parameters == AssignAll(old(parameters), args)
      ensures masked == old(masked)
    {
      var i := 0;
      while i < |args|
        invariant 0 <= i <= |args|
        invariant Distinct(parameters)
        invariant parameters == AssignAll(old(parameters), args[..i])
        invariant masked == old(masked)
      {
        var (name, v) := args[i];
        assert args[..i + 1][..i] == args[..i];
        AssignDistinct(parameters, name, v);
        parameters := Assign(parameters, name, v);
        i := i + 1;
      }
      assert args[..|args|] == args;
    }

    /** `mask(marks)`: each key is masked or unmasked by the truthiness of its value. */
    method MaskAll(marks: seq<(string, Value)>)
      modifies this
      ensures masked == MarkAll(old(masked), marks)
      ensures parameters == old(parameters)
    {
      var i := 0;
      while i < |marks|
        invariant 0 <= i <= |marks|
        invariant masked == MarkAll(old(masked), marks[..i])
        invariant parameters == old(parameters)
      {
        var (name, v) := marks[i];
        assert marks[..i + 1][..i] == marks[..i];
        masked := masked[name := Truthy(v)];
        i := i + 1;
      }
      assert marks[..|marks|] == marks;
    }

    /** `mask(name)` */
    method Mask(name: string)
      modifies this
      ensures masked == old(masked)[name := true]
      ensures parameters == old(parameters)
    {
      MaskAll([(name, Bool(true))]);
    }

    /** `mask(name, value)` */
    method MaskWith(name: string, value: Value)
      modifies this
      ensures masked == old(masked)[name := Truthy(value)]
      ensures parameters == old(parameters)
    {
      MaskAll([(name, value)]);
    }

    /** `toArray()` */
    function ToArray(quote: seq<string> -> string): seq<string>
      reads this
    {
      Words(parameters, masked, separator, quote)
    }

    /** `toString()` */
    function ToString(quote: seq<string> -> string): string
      reads this
    {
      CommandLine(parameters, masked, separator, quote)
    }
  }
}
