/**
 * What the conversion engine works on: resolved input values, the run-wide
 * per-module state `customData` (src/services/conversion/conversion.ts:13),
 * and the environment that stands for the catalog and for the scripts that
 * module authors write. A script is an oracle: the model passes it exactly
 * what the source binds for it and takes whatever it answers.
 */
module Engine {
  import opened Wrappers
  import opened Js
  import opened Types
  import opened Defs
  import opened User
  import opened Errors
  import Catalog

  /** A resolved input value `{value, type[, size]}`; `RBlock` is the `{value, type: "block"}` of an action chain. */
  datatype Resolved =
    | RString(value: string)
    | RBool(value: string)
    | RNumber(value: string, kind: NumKind, size: JsValue)
    | RBlock(value: string)
  {
    function TypeName(): string
    {
      match this
      case RString(_) => "string"
      case RBool(_) => "bool"
      case RNumber(_, k, _) => k.Name()
      case RBlock(_) => "block"
    }
  }

  /** One entry of the resolved inputs: a value, or the map a `multiple` input collects. */
  datatype ResolvedInput = One(r: Resolved) | Many(entries: seq<(string, Resolved)>)

  type Inputs = seq<(string, ResolvedInput)>
  type Outputs = seq<(string, OutputResult)>

  /** `customData`: module name → that module's state object. */
  type States = map<string, JsValue>

  /** What a script passed to `addAtBlockLocation`: a string, or anything else. */
  datatype Append = Text(s: string) | NonText(v: JsValue)

  /** `"" + a`: the text a non-checking appender concatenates. */
  function Coerced(a: Append): string
  {
    match a
    case Text(s) => s
    case NonText(v) => ToStr(v)
  }

  /**
   * A run of a `code` section, with the bindings the source gives it:
   * a top-level action block (conversion.ts:93-101), an action block in a
   * chain (blockInputs.ts:144-154), a return block (blockInputs.ts:206-209).
   * `content` is the block's user content, which the `isThere…` helpers read.
   */
  datatype GenCall =
    | TopLevelCall(code: string, input: Inputs, state: JsValue, content: seq<Entry>)
    | ChainCall(code: string, input: Inputs, output: Outputs, state: JsValue, content: seq<Entry>)
    | ReturnCall(code: string, input: Inputs, output: Outputs, state: JsValue)

  /** What a generator script did: the arguments of its `addAtBlockLocation` calls, in order, and its module's state afterwards. */
  datatype GenOutcome = GenOutcome(appends: seq<Append>, state: JsValue)

  /**
   * A run of a type, size or suffix script: a return block's `type`/`size`
   * section (blockInputs.ts:252-255, 278-281), an event's `resultType` scripts
   * (eventOutputs.ts:249-255) and a handle suffix (conversion.ts:50-55).
   */
  datatype TypeCall =
    | ReturnTypeCall(script: string, input: Inputs, output: Outputs, state: JsValue, possible: seq<string>)
    | ResultTypeCall(script: string, state: JsValue, flags: Option<EventFlags>, moduleName: string)
    | SuffixCall(script: string, state: JsValue, flags: Option<EventFlags>)

  /**
   * The environment of one run: the block index (or the error building it
   * gives), the definition fetch, and the two script oracles. A script that
   * throws answers `Err` with its message.
   */
  datatype Env = Env(
    index: Result<Catalog.Index, Error>,
    fetch: (string, string) -> Result<BlockDef, Error>,
    gen: GenCall -> Result<GenOutcome, string>,
    ty: TypeCall -> Result<JsValue, string>)

  /** The environment a catalog tree, a definition parser and two oracles give. */
  function EnvFor(tree: Catalog.FsNode, parse: (string, string) -> Result<BlockDef, string>,
                  gen: GenCall -> Result<GenOutcome, string>, ty: TypeCall -> Result<JsValue, string>): (e: Env)
    ensures e.index == Catalog.BlockIndex(tree)
    ensures forall m, b :: e.fetch(m, b) == Catalog.GetBlockDef(tree, parse, m, b)
  {
    Env(Catalog.BlockIndex(tree), (m, b) => Catalog.GetBlockDef(tree, parse, m, b), gen, ty)
  }

  /** A result together with the module states after computing it. */
  datatype Out<T> = Out(value: T, states: States)

  /**
   * A loop that runs `step` on every item in order, threading the module
   * states through and collecting what each step gives; the first failure
   * stops it.
   */
  function Thread<A, B>(xs: seq<A>, step: (A, States) -> Result<Out<B>, Error>, i: nat, acc: seq<B>, st: States)
    : Result<Out<seq<B>>, Error>
    requires i <= |xs|
    decreases |xs| - i
  {
    if i == |xs| then Ok(Out(acc, st))
    else
      var o :- step(xs[i], st);
      Thread(xs, step, i + 1, acc + [o.value], o.states)
  }

  /** What `step` can give for `x`, from some module states. */
  ghost predicate Gives<A, B>(step: (A, States) -> Result<Out<B>, Error>, x: A, y: B)
  {
    exists s :: step(x, s).Ok? && step(x, s).value.value == y
  }

  /** The loop keeps what it collected and adds one result per remaining item, each given by its own item. */
  lemma {:induction false} ThreadResults<A, B>(xs: seq<A>, step: (A, States) -> Result<Out<B>, Error>, i: nat, acc: seq<B>, st: States)
    requires i <= |xs|
    ensures var r := Thread(xs, step, i, acc, st);
      r.Ok? ==> |r.value.value| == |acc| + |xs| - i && r.value.value[..|acc|] == acc &&
                forall j :: i <= j < |xs| ==> Gives(step, xs[j], r.value.value[|acc| + j - i])
    decreases |xs| - i
  {
    if i < |xs| {
      var o := step(xs[i], st);
      if o.Ok? {
        var acc2 := acc + [o.value.value];
        ThreadResults(xs, step, i + 1, acc2, o.value.states);
        var r := Thread(xs, step, i + 1, acc2, o.value.states);
        if r.Ok? {
          var ys := r.value.value;
          assert ys[..|acc|] == acc by {
            assert ys[..|acc|] == ys[..|acc2|][..|acc|];
          }
          assert ys[|acc|] == o.value.value by {
            assert ys[..|acc2|][|acc|] == acc2[|acc|];
          }
          assert Gives(step, xs[i], ys[|acc|]);
          forall j | i < j < |xs|
            ensures Gives(step, xs[j], ys[|acc| + j - i])
          {
            assert |acc| + j - i == |acc2| + j - (i + 1);
          }
        }
      }
    }
  }

  /** The whole loop: one result per item, in order, each given by its own item. */
  lemma ThreadFromStart<A, B>(xs: seq<A>, step: (A, States) -> Result<Out<B>, Error>, st: States)
    ensures var r := Thread(xs, step, 0, [], st);
      r.Ok? ==> |r.value.value| == |xs| && forall j :: 0 <= j < |xs| ==> Gives(step, xs[j], r.value.value[j])
  {
    ThreadResults(xs, step, 0, [], st);
    var r := Thread(xs, step, 0, [], st);
    if r.Ok? {
      forall j | 0 <= j < |xs| ensures Gives(step, xs[j], r.value.value[j]) {
        assert 0 + j - 0 == j;
      }
    }
  }

  /** A loop whose every step keeps the existing module states keeps them too. */
  lemma {:induction false} ThreadKeepsStates<A, B>(xs: seq<A>, step: (A, States) -> Result<Out<B>, Error>, i: nat, acc: seq<B>, st: States)
    requires i <= |xs|
    requires forall x, s :: step(x, s).Ok? ==> s.Keys <= step(x, s).value.states.Keys
    ensures var r := Thread(xs, step, i, acc, st); r.Ok? ==> st.Keys <= r.value.states.Keys
    decreases |xs| - i
  {
    if i < |xs| {
      var o := step(xs[i], st);
      if o.Ok? {
        ThreadKeepsStates(xs, step, i + 1, acc + [o.value.value], o.value.states);
      }
    }
  }

  /** One turn of the loop. */
  lemma ThreadStep<A, B>(xs: seq<A>, step: (A, States) -> Result<Out<B>, Error>, i: nat, acc: seq<B>, st: States)
    requires i < |xs|
    ensures Thread(xs, step, i, acc, st) ==
      match step(xs[i], st)
      case Err(e) => Err(e)
      case Ok(o) => Thread(xs, step, i + 1, acc + [o.value], o.states)
  {
  }

  /** `customData[m]`, undefined when the module has no state yet. */
  function StateOf(st: States, m: string): JsValue
  {
    if m in st then st[m] else Undefined
  }

  /** `customData[m] ??= {}`. */
  function EnsureState(st: States, m: string): (r: States)
    ensures m in r && r.Keys == st.Keys + {m}
    ensures m in st ==> r == st
    ensures m !in st ==> r == st[m := Obj([])]
  {
    if m in st then st else st[m := Obj([])]
  }

  /** Creating a state is idempotent: once created, a module's state is shared, never reset. */
  lemma EnsureStateIdempotent(st: States, m: string, v: JsValue)
    ensures EnsureState(EnsureState(st, m), m) == EnsureState(st, m)
    ensures EnsureState(st[m := v], m) == st[m := v]
  {
  }

  /** The `flags?.module` of a block's `#flags`. */
  function FlagModule(flags: Option<JsValue>): JsValue
  {
    if flags.Some? then flags.value else Undefined
  }

  /** The run-wide `customData` object, shared by every script of the run. */
  class ModuleStates {
    var states: States

    constructor ()
      ensures states == map[]
    {
      states := map[];
    }

    /** `customData[m] ??= {}`. */
    method Ensure(m: string)
      modifies this
      ensures states == EnsureState(old(states), m)
    {
      if m !in states {
        states := states[m := Obj([])];
      }
    }

    /** A script's changes to `customData[m]`, as the value it leaves there. */
    method Set(m: string, v: JsValue)
      modifies this
      ensures states == old(states)[m := v]
    {
      states := states[m := v];
    }
  }
}
