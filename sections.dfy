/**
 * The target-scope section buffers of src/services/projectCreation/sections.ts:
 * seven named texts, all empty at first, which modules extend through
 * `addToSectionInTargetScope`. A wrong section name or non-string data
 * produces a console warning and changes nothing; the warning is returned.
 */
module Sections {
  import opened Wrappers
  import opened Js
  import opened Config

  const Usage := "Incorrect usage of function addToSectionInTargetScope. "

  function SectionWarning(section: string): string
  {
    Usage + "The provided section parameter is:\nsection: \"" + section + "\"."
  }

  /** The data warning as the source writes it, printing the section where the data belongs. */
  function DataWarningAsWritten(section: string, data: JsValue): string
  {
    Usage + "The provided data parameter is:\ndata: \"" + section + "\"."
  }

  /** The data warning with the data it reports. */
  function DataWarning(section: string, data: JsValue): string
  {
    Usage + "The provided data parameter is:\ndata: \"" + ToStr(data) + "\"."
  }

  /** Two texts built around equal-length parts are equal exactly when the middles are. */
  lemma MiddleDetermined(p: string, x: string, y: string, q: string)
    requires p + x + q == p + y + q
    ensures x == y
  {
    var s := p + x + q;
    assert |x| == |y|;
    assert x == s[|p|..|p| + |x|];
    assert y == (p + y + q)[|p|..|p| + |y|];
  }

  /** As written, the warning is the same whatever the data: two different pieces of data cannot be told apart. */
  lemma AsWrittenHidesData(section: string)
    ensures DataWarningAsWritten(section, Num("1")) == DataWarningAsWritten(section, Bool(true))
    ensures ToStr(Num("1")) != ToStr(Bool(true))
  {
  }

  /** The corrected warning names the data: equal warnings mean equal data text. */
  lemma DataWarningShowsData(section: string, d1: JsValue, d2: JsValue)
    requires DataWarning(section, d1) == DataWarning(section, d2)
    ensures ToStr(d1) == ToStr(d2)
  {
    MiddleDetermined(Usage + "The provided data parameter is:\ndata: \"", ToStr(d1), ToStr(d2), "\".");
  }

  /** All seven sections, empty. */
  function Initial(): (r: map<string, string>)
    ensures r.Keys == set k | k in SectionKeys
    ensures forall k :: k in r ==> r[k] == ""
  {
    map k | k in SectionKeys :: ""
  }

  /**
   * One call of `addToSectionInTargetScope` on the section texts: the new
   * texts and the warning, if any.
   */
  function AddToSection(text: map<string, string>, section: string, data: JsValue): (r: (map<string, string>, Option<string>))
    requires text.Keys == set k | k in SectionKeys
    ensures r.0.Keys == text.Keys
    ensures r.1.None? <==> section in SectionKeys && data.Str?
    ensures r.1.Some? ==> r.0 == text
    ensures section !in SectionKeys ==> r.1 == Some(SectionWarning(section))
    ensures section in SectionKeys && !data.Str? ==> r.1 == Some(DataWarning(section, data))
    ensures r.1.None? ==> r.0[section] == text[section] + "\n" + data.s + "\n"
    ensures forall k :: k in text && k != section ==> r.0[k] == text[k]
  {
    if section !in SectionKeys then (text, Some(SectionWarning(section)))
    else if !data.Str? then (text, Some(DataWarning(section, data)))
    else (text[section := text[section] + "\n" + data.s + "\n"], None)
  }

  /** Calls on two different sections commute. */
  lemma AddsCommute(text: map<string, string>, s1: string, d1: JsValue, s2: string, d2: JsValue)
    requires text.Keys == set k | k in SectionKeys
    requires s1 != s2
    ensures AddToSection(AddToSection(text, s1, d1).0, s2, d2).0 == AddToSection(AddToSection(text, s2, d2).0, s1, d1).0
  {
  }

  /** The wrapped pieces one section receives from a sequence of string data, in order. */
  function Wrapped(datas: seq<string>): (r: string)
  {
    if datas == [] then "" else Wrapped(datas[..|datas| - 1]) + "\n" + datas[|datas| - 1] + "\n"
  }

  /** Several valid calls on one section, in order. */
  function AddEach(text: map<string, string>, section: string, datas: seq<string>): (r: map<string, string>)
    requires text.Keys == set k | k in SectionKeys
    ensures r.Keys == text.Keys
  {
    if datas == [] then text else AddToSection(AddEach(text, section, datas[..|datas| - 1]), section, Str(datas[|datas| - 1])).0
  }

  /** A section holds its earlier text followed by each piece of data between newlines, in call order; the others do not change. */
  lemma {:induction false} AddEachAppends(text: map<string, string>, section: string, datas: seq<string>)
    requires text.Keys == set k | k in SectionKeys
    requires section in SectionKeys
    ensures AddEach(text, section, datas)[section] == text[section] + Wrapped(datas)
    ensures forall k :: k in text && k != section ==> AddEach(text, section, datas)[k] == text[k]
  {
    if datas != [] {
      AddEachAppends(text, section, datas[..|datas| - 1]);
    }
  }

  /** The module-level `sections` record. */
  class SectionStore {
    var text: map<string, string>

    ghost predicate Valid()
      reads this
    {
      text.Keys == set k | k in SectionKeys
    }

    /** The record as the module initialises it. */
    constructor ()
      ensures Valid()
      ensures text == Initial()
    {
      text := Initial();
    }

    /** `sections[section]`. */
    function Text(section: string): (r: string)
      reads this
      requires Valid() && section in SectionKeys
      ensures r == text[section]
    {
      text[section]
    }

    /** `addToSectionInTargetScope(section, data)`. */
    method Add(section: string, data: JsValue) returns (warning: Option<string>)
      requires Valid()
      modifies this
      ensures Valid()
      ensures text == AddToSection(old(text), section, data).0
      ensures warning == AddToSection(old(text), section, data).1
    {
      if section !in SectionKeys {
        return Some(SectionWarning(section));
      }
      if !data.Str? {
        return Some(DataWarning(section, data));
      }
      text := text[section := text[section] + "\n" + data.s + "\n"];
      warning := None;
    }
  }
}
