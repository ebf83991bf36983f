/**
 * The development logger of src/utils/utils.ts: every warning is kept, as
 * the space-joined text of its arguments, until the list is cleared. Writing
 * to the console in development mode is not part of this model.
 */
module Logging {
  import opened Js
  import opened JsText

  /** `args.map(String).join(" ")`. */
  function WarningText(args: seq<JsValue>): (r: string)
  {
    Join(seq(|args|, i requires 0 <= i < |args| => ToStr(args[i])), " ")
  }

  /** A warning with one argument is that argument's text. */
  lemma WarningTextOne(v: JsValue)
    ensures WarningText([v]) == ToStr(v)
  {
    assert seq(1, i requires 0 <= i < 1 => ToStr([v][i])) == [ToStr(v)];
  }

  class DevLogger {
    var warnings: seq<string>

    constructor ()
      ensures warnings == []
    {
      warnings := [];
    }

    /** `warn(...args)`: records exactly one message. */
    method Warn(args: seq<JsValue>)
      modifies this
      ensures warnings == old(warnings) + [WarningText(args)]
    {
      warnings := warnings + [WarningText(args)];
    }

    /** `warn(s)` with a single string: the message is `s` itself. */
    method WarnText(s: string)
      modifies this
      ensures warnings == old(warnings) + [s]
    {
      WarningTextOne(Str(s));
      Warn([Str(s)]);
    }

    /** The `warnings` getter. */
    function Warnings(): (r: seq<string>)
      reads this
      ensures r == warnings
    {
      warnings
    }

    /** `clear()`: drops every recorded message. */
    method Clear()
      modifies this
      ensures warnings == []
    {
      warnings := [];
    }
  }
}
