/**
 * The conversion loop of src/services/conversion/conversion.ts. Every event
 * occurrence of the user program pushes one generated entry, in program
 * order: its key (`module__event`, with `__suffix` when the handle gives
 * one), the event's computed outputs and its flags. Its top-level action
 * blocks then append their trimmed text to the entry's code, while the
 * run-wide module states (`customData`) are created lazily and threaded
 * from one script to the next.
 */
module Conversion {
  import opened Wrappers
  import opened Js
  import opened JsText
  import opened Types
  import opened Defs
  import opened User
  import opened Errors
  import opened Engine
  import Catalog
  import BlockDefParser
  import BlockInputs
  import EventOutputs

  // ---------------------------------------------------------------------
  // The entry of one event occurrence
  // ---------------------------------------------------------------------

  /** The `flags?.module` the module lookup of an event reads. */
  function EventFlagModule(flags: Option<EventFlags>): JsValue
  {
    if flags.Some? then Str(flags.value.moduleName) else Undefined
  }

  /**
   * `eventSuffix`: a falsy `handle.suffix` gives none; a suffix with a space
   * is a script, run with the event module's state and the event flags,
   * whose truthy answer is the suffix; any other suffix is used literally.
   * A suffix that is not a string has no `includes` and throws.
   */
  function EventSuffix(env: Env, d: BlockDef, m: string, flags: Option<EventFlags>, st: States): Result<Option<string>, Error>
  {
    var s := SuffixOf(d);
    if !Truthy(s) then Ok(None)
    else if !s.Str? then Err(SuffixNotAString(s))
    else if !ContainsChar(s.s, ' ') then Ok(Some(s.s))
    else
      match env.ty(SuffixCall(s.s, StateOf(st, m), flags))
      case Err(msg) => Err(ScriptThrew(msg))
      case Ok(v) => Ok(if Truthy(v) then Some(ToStr(v)) else None)
  }

  /** `realEventName`. */
  function EntryKey(m: string, eventName: string, suffix: Option<string>): string
  {
    if suffix.Some? then m + "__" + eventName + "__" + suffix.value else m + "__" + eventName
  }

  /** The entry an occurrence pushes before its body runs: key, empty code, outputs, flags. */
  function EventHead(env: Env, occ: EventOccurrence, st: States): Result<GeneratedEntry, Error>
  {
    var m :- Catalog.BlockFromModule(env.index, occ.name, EventFlagModule(occ.flags));
    var def :- env.fetch(m, occ.name);
    var outs :- EventOutputs.EventOutputs(EventOutputs.Ctx(env, m, occ.name, occ.flags, st), def);
    var suffix :- EventSuffix(env, def, m, occ.flags, st);
    Ok(GeneratedEntry(EntryKey(m, occ.name, suffix), "", outs, occ.flags))
  }

  // ---------------------------------------------------------------------
  // Top-level action blocks
  // ---------------------------------------------------------------------

  /** The trimmed texts a top-level block appends. */
  function Trimmed(appends: seq<Append>): (r: seq<string>)
    requires BlockInputs.AllText(appends)
    ensures |r| == |appends| && forall i :: 0 <= i < |r| ==> r[i] == Trim(appends[i].s)
  {
    seq(|appends|, i requires 0 <= i < |appends| => Trim(appends[i].s))
  }

  /**
   * One block attached to the event: resolve its module and definition,
   * insist on an action block, resolve its inputs, create its module state,
   * run its code; the block contributes the trimmed strings it appends.
   */
  function TopBlock(env: Env, b: UserBlock, outs: Outputs, st: States): Result<Out<string>, Error>
  {
    var m :- Catalog.BlockFromModule(env.index, b.name, FlagModule(b.flags));
    var def :- env.fetch(m, b.name);
    var kind := BlockDefParser.GetBlockType(DefKeys(def));
    if kind != ActionKind then Err(NotAnActionBlock(kind.Name()))
    else
      var ins :- BlockInputs.ResolveInputs(env, def, b.content, b.name, outs, st);
      TopBlockCode(env, b, m, def, ins, outs)
  }

  /** The code run of a top-level block, once its inputs are resolved. */
  function TopBlockCode(env: Env, b: UserBlock, m: string, def: BlockDef, ins: Out<Inputs>, outs: Outputs): Result<Out<string>, Error>
  {
    var st2 := EnsureState(ins.states, m);
    match env.gen(TopLevelCall(ToStr(CodeOf(def)), ins.value, st2[m], b.content))
    case Err(msg) => Err(ScriptThrew(msg))
    case Ok(g) =>
      if BlockInputs.AllText(g.appends) then Ok(Out(Concat(Trimmed(g.appends)), st2[m := g.state]))
      else Err(NonStringAppend)
  }

  /** The loop over an event's blocks, appending to the entry's code `acc`. */
  function BodyGo(env: Env, bs: seq<UserBlock>, outs: Outputs, k: nat, acc: string, st: States): Result<Out<string>, Error>
    requires k <= |bs|
    decreases |bs| - k
  {
    if k == |bs| then Ok(Out(acc, st))
    else
      var o :- TopBlock(env, bs[k], outs, st);
      BodyGo(env, bs, outs, k + 1, acc + o.value, o.states)
  }

  /** One occurrence: its entry, with the code its body appended. */
  function OccurrenceStep(env: Env, occ: EventOccurrence, st: States): Result<Out<GeneratedEntry>, Error>
  {
    var head :- EventHead(env, occ, st);
    if occ.body.None? then Ok(Out(head, st))
    else
      var code :- BodyGo(env, occ.body.value, head.outputs, 0, head.code, st);
      Ok(Out(head.(code := code.value), code.states))
  }

  /** One occurrence as a step of the conversion loop. */
  function OccStep(env: Env): (EventOccurrence, States) -> Result<Out<GeneratedEntry>, Error>
  {
    (occ, st) => OccurrenceStep(env, occ, st)
  }

  /** `conversion`: the loop over the occurrences, threading the module states. */
  function Convert(env: Env, prog: seq<EventOccurrence>, st: States): Result<Out<seq<GeneratedEntry>>, Error>
  {
    Thread(prog, OccStep(env), 0, [], st)
  }

  // ---------------------------------------------------------------------
  // The helpers a top-level block's code can call
  // ---------------------------------------------------------------------

  /** `isThereBlockInTheInput(input)`: the input's raw content holds a list. */
  function IsThereBlockInTheInput(content: seq<Entry>, input: JsValue): (r: Result<bool, Error>)
    ensures !input.Str? <==> r == Err(HelperNeedsString("isThereBlockInTheInput"))
    ensures input.Str? && BlockInputs.FindEntry(content, input.s).None? ==> r == Ok(false)
    ensures input.Str? ==> forall item, tag :: BlockInputs.FindEntry(content, input.s) == Some(Value(item, tag)) ==> r == Ok(item.Blocks?)
  {
    if !input.Str? then Err(HelperNeedsString("isThereBlockInTheInput"))
    else
      match BlockInputs.FindEntry(content, input.s)
      case None => Ok(false)
      case Some(Value(text, _)) => Ok(text.Blocks?)
      case Some(AttrValue(raw)) => Ok(raw.Obj? && Get(raw, "#text").List?)
  }

  /** A block element has an own key: its name, or `#flags` when it carries flags. */
  predicate HasOwnKey(b: UserBlock, key: string)
  {
    key == b.name || (key == "#flags" && b.flags.Some?)
  }

  /** The search loop of `isThereSpecificBlockInTheInput` over the input's list. */
  function AnyHasKey(bs: seq<UserBlock>, key: string): (r: bool)
    ensures r <==> exists i :: 0 <= i < |bs| && HasOwnKey(bs[i], key)
  {
    if bs == [] then false
    else HasOwnKey(bs[0], key) || AnyHasKey(bs[1..], key)
  }

  /** `isThereSpecificBlockInTheInput(input, block)`: the input's list has an element with that own key. */
  function IsThereSpecificBlockInTheInput(content: seq<Entry>, input: JsValue, block: JsValue): Result<bool, Error>
  {
    if !input.Str? then Err(HelperNeedsString("isThereSpecificBlockInTheInput"))
    else if !block.Str? then Err(HelperNeedsString("isThereSpecificBlockInTheInput"))
    else
      match BlockInputs.FindEntry(content, input.s)
      case Some(Value(Blocks(bs), _)) => Ok(AnyHasKey(bs, block.s))
      case _ => Ok(false)
  }

  // ---------------------------------------------------------------------
  // Properties
  // ---------------------------------------------------------------------

  /** The key is `module__event__suffix` for a literal suffix and `module__event` without one. */
  lemma EntryKeyShape(env: Env, d: BlockDef, m: string, e: string, flags: Option<EventFlags>, st: States)
    ensures !Truthy(SuffixOf(d)) ==>
      EventSuffix(env, d, m, flags, st) == Ok(None) && EntryKey(m, e, None) == m + "__" + e
    ensures SuffixOf(d).Str? && SuffixOf(d).s != "" && !ContainsChar(SuffixOf(d).s, ' ') ==>
      EventSuffix(env, d, m, flags, st) == Ok(Some(SuffixOf(d).s)) &&
      EntryKey(m, e, Some(SuffixOf(d).s)) == m + "__" + e + "__" + SuffixOf(d).s
  {
  }

  /** A suffix with a space is the answer of its script, which sees only the event module's state and the flags. */
  lemma ScriptedSuffix(env: Env, d: BlockDef, m: string, flags: Option<EventFlags>, st: States)
    requires SuffixOf(d).Str? && ContainsChar(SuffixOf(d).s, ' ')
    ensures var v := env.ty(SuffixCall(SuffixOf(d).s, StateOf(st, m), flags));
      var r := EventSuffix(env, d, m, flags, st);
      (v.Err? ==> r == Err(ScriptThrew(v.error))) &&
      (v.Ok? && Truthy(v.value) ==> r == Ok(Some(ToStr(v.value)))) &&
      (v.Ok? && !Truthy(v.value) ==> r == Ok(None))
  {
    assert SuffixOf(d).s != "";
  }

  /**
   * An occurrence's entry holds the key built from its module and suffix, the
   * event's outputs and its flags unchanged; without a body its code is empty
   * and no state is touched, with one its code is what the body appended.
   */
  lemma OccurrenceEntry(env: Env, occ: EventOccurrence, st: States)
    ensures var r := OccurrenceStep(env, occ, st);
      r.Ok? ==>
        var m := Catalog.BlockFromModule(env.index, occ.name, EventFlagModule(occ.flags));
        m.Ok? && env.fetch(m.value, occ.name).Ok? &&
        var def := env.fetch(m.value, occ.name).value;
        var outs := EventOutputs.EventOutputs(EventOutputs.Ctx(env, m.value, occ.name, occ.flags, st), def);
        var suffix := EventSuffix(env, def, m.value, occ.flags, st);
        outs.Ok? && suffix.Ok? &&
        r.value.value.key == EntryKey(m.value, occ.name, suffix.value) &&
        r.value.value.outputs == outs.value && r.value.value.flags == occ.flags &&
        (occ.body.None? ==> r.value.value.code == "" && r.value.states == st) &&
        (occ.body.Some? ==> var body := BodyGo(env, occ.body.value, outs.value, 0, "", st);
                            body.Ok? && r.value.value.code == body.value.value && r.value.states == body.value.states)
  {
  }

  /** Every entry an occurrence gives carries that occurrence's flags. */
  lemma GivenFlags(env: Env, occ: EventOccurrence, e: GeneratedEntry)
    requires Gives(OccStep(env), occ, e)
    ensures e.flags == occ.flags
  {
    var s :| OccStep(env)(occ, s).Ok? && OccStep(env)(occ, s).value.value == e;
    OccurrenceEntry(env, occ, s);
  }

  /**
   * The conversion pushes exactly one entry per occurrence, in program order:
   * entry `j` is what occurrence `j` gives and carries its flags.
   */
  lemma OneEntryPerOccurrence(env: Env, prog: seq<EventOccurrence>, st: States)
    ensures var r := Convert(env, prog, st);
      r.Ok? ==> |r.value.value| == |prog| &&
                forall j :: 0 <= j < |prog| ==> Gives(OccStep(env), prog[j], r.value.value[j]) && r.value.value[j].flags == prog[j].flags
  {
    ThreadFromStart(prog, OccStep(env), st);
    var r := Convert(env, prog, st);
    if r.Ok? {
      var ys := r.value.value;
      forall j | 0 <= j < |prog| ensures ys[j].flags == prog[j].flags {
        GivenFlags(env, prog[j], ys[j]);
      }
    }
  }

  /** A top-level block whose definition is not an action aborts the run before its inputs are resolved. */
  lemma NonActionAborts(env: Env, b: UserBlock, outs: Outputs, st: States, m: string, def: BlockDef)
    requires Catalog.BlockFromModule(env.index, b.name, FlagModule(b.flags)) == Ok(m)
    requires env.fetch(m, b.name) == Ok(def)
    requires !def.Action?
    ensures TopBlock(env, b, outs, st) == Err(NotAnActionBlock(if def.Return? then "return" else "event"))
  {
    BlockDefParser.GetBlockTypeOfParsed(def);
  }

  /**
   * Once a top-level block is resolved, its generator decides: it sees its
   * module's existing state, or a fresh `{}` on the first touch; a throw or
   * a non-string append aborts; otherwise the block contributes the trimmed
   * strings it appended, and its module's state becomes what it left.
   */
  lemma TopBlockByGenerator(env: Env, b: UserBlock, outs: Outputs, st: States, m: string, def: BlockDef, ins: Out<Inputs>)
    requires Catalog.BlockFromModule(env.index, b.name, FlagModule(b.flags)) == Ok(m)
    requires env.fetch(m, b.name) == Ok(def) && def.Action?
    requires BlockInputs.ResolveInputs(env, def, b.content, b.name, outs, st) == Ok(ins)
    ensures var state := if m in ins.states then ins.states[m] else Obj([]);
      var g := env.gen(TopLevelCall(ToStr(def.code), ins.value, state, b.content));
      var r := TopBlock(env, b, outs, st);
      (g.Err? ==> r == Err(ScriptThrew(g.error))) &&
      (g.Ok? && !BlockInputs.AllText(g.value.appends) ==> r == Err(NonStringAppend)) &&
      (g.Ok? && BlockInputs.AllText(g.value.appends) ==>
         r == Ok(Out(Concat(Trimmed(g.value.appends)), ins.states[m := g.value.state])))
  {
    TopBlockIsCode(env, b, outs, st, m, def, ins);
    TopBlockCodeByGenerator(env, b, m, def, ins, outs);
  }

  lemma TopBlockIsCode(env: Env, b: UserBlock, outs: Outputs, st: States, m: string, def: BlockDef, ins: Out<Inputs>)
    requires Catalog.BlockFromModule(env.index, b.name, FlagModule(b.flags)) == Ok(m)
    requires env.fetch(m, b.name) == Ok(def) && def.Action?
    requires BlockInputs.ResolveInputs(env, def, b.content, b.name, outs, st) == Ok(ins)
    ensures TopBlock(env, b, outs, st) == TopBlockCode(env, b, m, def, ins, outs)
  {
    BlockDefParser.GetBlockTypeOfParsed(def);
  }

  lemma TopBlockCodeByGenerator(env: Env, b: UserBlock, m: string, def: BlockDef, ins: Out<Inputs>, outs: Outputs)
    requires def.Action?
    ensures var state := if m in ins.states then ins.states[m] else Obj([]);
      var g := env.gen(TopLevelCall(ToStr(def.code), ins.value, state, b.content));
      var r := TopBlockCode(env, b, m, def, ins, outs);
      (g.Err? ==> r == Err(ScriptThrew(g.error))) &&
      (g.Ok? && !BlockInputs.AllText(g.value.appends) ==> r == Err(NonStringAppend)) &&
      (g.Ok? && BlockInputs.AllText(g.value.appends) ==>
         r == Ok(Out(Concat(Trimmed(g.value.appends)), ins.states[m := g.value.state])))
  {
    var st2 := EnsureState(ins.states, m);
    var state := if m in ins.states then ins.states[m] else Obj([]);
    assert st2[m] == state;
    var g := env.gen(TopLevelCall(ToStr(def.code), ins.value, state, b.content));
    if g.Ok? && m !in ins.states {
      assert st2[m := g.value.state] == ins.states[m := g.value.state];
    }
  }

  /** What a top-level block contributes has no whitespace at either end of any appended piece. */
  lemma TopLevelPiecesTrimmed(appends: seq<Append>)
    requires BlockInputs.AllText(appends)
    ensures forall i :: 0 <= i < |appends| ==> Trim(Trimmed(appends)[i]) == Trimmed(appends)[i]
  {
    forall i | 0 <= i < |appends|
      ensures Trim(Trimmed(appends)[i]) == Trimmed(appends)[i]
    {
      TrimIdempotent(appends[i].s);
    }
  }

  /** A list that holds a block with the wanted own key is a list: the specific test implies the general one. */
  lemma SpecificImpliesBlock(content: seq<Entry>, input: JsValue, block: JsValue)
    ensures IsThereSpecificBlockInTheInput(content, input, block) == Ok(true) ==> IsThereBlockInTheInput(content, input) == Ok(true)
    ensures input.Str? && block.Str? ==>
      (IsThereSpecificBlockInTheInput(content, input, block) == Ok(true) <==>
        exists bs, tag :: BlockInputs.FindEntry(content, input.s) == Some(Value(Blocks(bs), tag)) &&
                          exists i :: 0 <= i < |bs| && HasOwnKey(bs[i], block.s))
  {
  }

  // ---------------------------------------------------------------------
  // Module states are created, never removed
  // ---------------------------------------------------------------------

  lemma TopBlockKeepsStates(env: Env, b: UserBlock, outs: Outputs, st: States)
    ensures var r := TopBlock(env, b, outs, st); r.Ok? ==> st.Keys <= r.value.states.Keys
    ensures var r := TopBlock(env, b, outs, st);
      r.Ok? ==> Catalog.BlockFromModule(env.index, b.name, FlagModule(b.flags)).Ok? &&
                Catalog.BlockFromModule(env.index, b.name, FlagModule(b.flags)).value in r.value.states
  {
    var m := Catalog.BlockFromModule(env.index, b.name, FlagModule(b.flags));
    if m.Ok? {
      var def := env.fetch(m.value, b.name);
      if def.Ok? {
        BlockInputs.InputsKeepStates(env, InputsOf(def.value), b.content, b.name, outs, 0, [], st);
      }
    }
  }

  lemma {:induction false} BodyKeepsStates(env: Env, bs: seq<UserBlock>, outs: Outputs, k: nat, acc: string, st: States)
    requires k <= |bs|
    ensures var r := BodyGo(env, bs, outs, k, acc, st); r.Ok? ==> st.Keys <= r.value.states.Keys
    decreases |bs| - k
  {
    if k < |bs| {
      TopBlockKeepsStates(env, bs[k], outs, st);
      var o := TopBlock(env, bs[k], outs, st);
      if o.Ok? {
        BodyKeepsStates(env, bs, outs, k + 1, acc + o.value.value, o.value.states);
      }
    }
  }

  lemma OccurrenceKeepsStates(env: Env, occ: EventOccurrence, st: States)
    ensures var r := OccurrenceStep(env, occ, st); r.Ok? ==> st.Keys <= r.value.states.Keys
  {
    var head := EventHead(env, occ, st);
    if head.Ok? && occ.body.Some? {
      BodyKeepsStates(env, occ.body.value, head.value.outputs, 0, head.value.code, st);
    }
  }

  /** A conversion never removes a module's state: `customData` only gains keys. */
  lemma ConvertKeepsStates(env: Env, prog: seq<EventOccurrence>, st: States)
    ensures var r := Convert(env, prog, st); r.Ok? ==> st.Keys <= r.value.states.Keys
  {
    forall occ, s | OccStep(env)(occ, s).Ok?
      ensures s.Keys <= OccStep(env)(occ, s).value.states.Keys
    {
      OccurrenceKeepsStates(env, occ, s);
    }
    ThreadKeepsStates(prog, OccStep(env), 0, [], st);
  }

  // ---------------------------------------------------------------------
  // The loop as the source runs it, on the shared module states
  // ---------------------------------------------------------------------

  lemma BodyGoStep(env: Env, bs: seq<UserBlock>, outs: Outputs, k: nat, acc: string, st: States)
    requires k < |bs|
    ensures BodyGo(env, bs, outs, k, acc, st) ==
      match TopBlock(env, bs[k], outs, st)
      case Err(e) => Err(e)
      case Ok(o) => BodyGo(env, bs, outs, k + 1, acc + o.value, o.states)
  {
  }

  lemma OccurrenceStepOf(env: Env, occ: EventOccurrence, st: States, head: GeneratedEntry)
    requires EventHead(env, occ, st) == Ok(head)
    ensures OccurrenceStep(env, occ, st) ==
      if occ.body.None? then Ok(Out(head, st))
      else match BodyGo(env, occ.body.value, head.outputs, 0, head.code, st)
        case Err(e) => Err(e)
        case Ok(code) => Ok(Out(head.(code := code.value), code.states))
  {
  }

  /** `conversion`: the loop over the occurrences. */
  method RunConversion(env: Env, prog: seq<EventOccurrence>, cd: ModuleStates) returns (r: Result<seq<GeneratedEntry>, Error>)
    modifies cd
    ensures BlockInputs.Agrees(r, cd.states, Convert(env, prog, old(cd.states)))
  {
    var code: seq<GeneratedEntry> := [];
    var i := 0;
    while i < |prog|
      invariant i <= |prog|
      invariant Thread(prog, OccStep(env), i, code, cd.states) == Convert(env, prog, old(cd.states))
      decreases |prog| - i
    {
      ghost var before := cd.states;
      ThreadStep(prog, OccStep(env), i, code, before);
      var next := RunOccurrence(env, prog[i], code, cd);
      assert OccStep(env)(prog[i], before) == OccurrenceStep(env, prog[i], before);
      if next.Err? {
        return Err(next.error);
      }
      code := next.value;
      i := i + 1;
    }
    return Ok(code);
  }

  /** One occurrence: push its entry, then let its body's blocks append to the entry's code. */
  method RunOccurrence(env: Env, occ: EventOccurrence, code: seq<GeneratedEntry>, cd: ModuleStates)
    returns (r: Result<seq<GeneratedEntry>, Error>)
    modifies cd
    ensures match OccurrenceStep(env, occ, old(cd.states))
      case Ok(o) => r == Ok(code + [o.value]) && cd.states == o.states
      case Err(e) => r == Err(e)
  {
    var head := RunEventHead(env, occ, cd.states);
    if head.Err? {
      return Err(head.error);
    }
    OccurrenceStepOf(env, occ, cd.states, head.value);
    var entries := code + [head.value];
    if occ.body.Some? {
      var body := RunEventBody(env, occ.body.value, head.value.outputs, entries[|entries| - 1].code, cd);
      if body.Err? {
        return Err(body.error);
      }
      entries := entries[|entries| - 1 := entries[|entries| - 1].(code := body.value)];
      assert entries == code + [head.value.(code := body.value)];
    }
    return Ok(entries);
  }

  /** The entry of one occurrence, before its body runs. */
  method RunEventHead(env: Env, occ: EventOccurrence, st: States) returns (r: Result<GeneratedEntry, Error>)
    ensures r == EventHead(env, occ, st)
  {
    var m := Catalog.BlockFromModule(env.index, occ.name, EventFlagModule(occ.flags));
    if m.Err? {
      return Err(m.error);
    }
    var def := env.fetch(m.value, occ.name);
    if def.Err? {
      return Err(def.error);
    }
    var outs := EventOutputs.RunEventOutputs(EventOutputs.Ctx(env, m.value, occ.name, occ.flags, st), def.value);
    if outs.Err? {
      return Err(outs.error);
    }
    var suffix := EventSuffix(env, def.value, m.value, occ.flags, st);
    if suffix.Err? {
      return Err(suffix.error);
    }
    return Ok(GeneratedEntry(EntryKey(m.value, occ.name, suffix.value), "", outs.value, occ.flags));
  }

  /** The loop over an event's blocks; `code` is the entry's code so far. */
  method RunEventBody(env: Env, bs: seq<UserBlock>, outs: Outputs, code: string, cd: ModuleStates) returns (r: Result<string, Error>)
    modifies cd
    ensures BlockInputs.Agrees(r, cd.states, BodyGo(env, bs, outs, 0, code, old(cd.states)))
  {
    var acc := code;
    var k := 0;
    while k < |bs|
      invariant k <= |bs|
      invariant BodyGo(env, bs, outs, k, acc, cd.states) == BodyGo(env, bs, outs, 0, code, old(cd.states))
      decreases |bs| - k
    {
      ghost var before := cd.states;
      BodyGoStep(env, bs, outs, k, acc, before);
      var piece := RunTopBlock(env, bs[k], outs, cd);
      if piece.Err? {
        return Err(piece.error);
      }
      acc := acc + piece.value;
      k := k + 1;
    }
    return Ok(acc);
  }

  /** One top-level block. */
  method RunTopBlock(env: Env, b: UserBlock, outs: Outputs, cd: ModuleStates) returns (r: Result<string, Error>)
    modifies cd
    ensures BlockInputs.Agrees(r, cd.states, TopBlock(env, b, outs, old(cd.states)))
  {
    var m := Catalog.BlockFromModule(env.index, b.name, FlagModule(b.flags));
    if m.Err? {
      return Err(m.error);
    }
    var def := env.fetch(m.value, b.name);
    if def.Err? {
      return Err(def.error);
    }
    var kind := BlockDefParser.GetBlockType(DefKeys(def.value));
    if kind != ActionKind {
      return Err(NotAnActionBlock(kind.Name()));
    }
    var ins := BlockInputs.RunBlockInputs(env, def.value, b.content, b.name, outs, cd);
    if ins.Err? {
      return Err(ins.error);
    }
    ghost var resolved := Out(ins.value, cd.states);
    cd.Ensure(m.value);
    var g := env.gen(TopLevelCall(ToStr(CodeOf(def.value)), ins.value, cd.states[m.value], b.content));
    if g.Err? {
      return Err(ScriptThrew(g.error));
    }
    var piece := AppendTrimmed(g.value.appends);
    if piece.None? {
      return Err(NonStringAppend);
    }
    cd.Set(m.value, g.value.state);
    assert TopBlockCode(env, b, m.value, def.value, resolved, outs) == Ok(Out(piece.value, cd.states));
    return Ok(piece.value);
  }

  lemma TrimmedSnoc(appends: seq<Append>, t: nat)
    requires t < |appends| && BlockInputs.AllText(appends[..t]) && appends[t].Text?
    ensures BlockInputs.AllText(appends[..t + 1])
    ensures Trimmed(appends[..t + 1]) == Trimmed(appends[..t]) + [Trim(appends[t].s)]
  {
    var p, q := appends[..t], appends[..t + 1];
    assert forall i :: 0 <= i < |q| ==> q[i] == appends[i];
    assert BlockInputs.AllText(q);
    var l, r := Trimmed(q), Trimmed(p) + [Trim(appends[t].s)];
    assert |l| == |r|;
    forall i | 0 <= i < |l| ensures l[i] == r[i] {
      if i < t {
        assert q[i] == p[i];
      }
    }
  }

  /** The top-level `addAtBlockLocation`: appends each string trimmed and throws at the first non-string. */
  method AppendTrimmed(appends: seq<Append>) returns (r: Option<string>)
    ensures r.Some? <==> BlockInputs.AllText(appends)
    ensures r.Some? ==> r.value == Concat(Trimmed(appends))
  {
    var code := "";
    var t := 0;
    while t < |appends|
      invariant t <= |appends| && BlockInputs.AllText(appends[..t]) && code == Concat(Trimmed(appends[..t]))
    {
      if appends[t].NonText? {
        return None;
      }
      TrimmedSnoc(appends, t);
      ConcatAppend(Trimmed(appends[..t]), Trim(appends[t].s));
      code := code + Trim(appends[t].s);
      t := t + 1;
    }
    assert appends[..t] == appends;
    return Some(code);
  }
}
