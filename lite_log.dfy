/** `LiteLog` of utils.py: a process-wide, append-only list of log items
    with a print threshold, read back through a level filter.  Its class
    attributes become the fields of one object.  Log items keep their type
    and text; the elapsed-time stamp is left out. */
module LiteLog {
  import opened Py

  /** `[time, logType, text]` without the time. */
  datatype LogItem = LogItem(logType: int, text: string)

  /** What `log2FormatStr` writes for an item, without the time:
      the prefix, the name of the type and the text. */
  datatype Rendered = Rendered(prefix: string, typeName: string, text: string)

  const LogTypeDisplay: seq<string> := ["debug", "info", "warn", "error", "critical"]

  /** `logTypeDisplay[t]` with Python indexing: -5..-1 count from the end,
      anything else is an IndexError. */
  function TypeName(t: int): Option<string>
  {
    if 0 <= t < 5 then Some(LogTypeDisplay[t])
    else if -5 <= t < 0 then Some(LogTypeDisplay[t + 5])
    else None
  }

  /** `formatLog`'s text: every argument through `str()`, each followed by a newline. */
  function FormatText(args: seq<Scalar>): (text: string)
    ensures |text| >= |args|
    ensures args != [] ==> text[|text| - 1] == '\n'
  {
    if args == [] then "" else Str(args[0]) + "\n" + FormatText(args[1..])
  }

  /** The items `getLog(level)` reads, in log order. */
  function Selected(items: seq<LogItem>, level: int): (r: seq<LogItem>)
    ensures |r| <= |items|
  {
    if items == [] then []
    else (if level <= items[0].logType then [items[0]] else []) + Selected(items[1..], level)
  }

  /** The reading keeps exactly the items whose type reaches the level. */
  lemma {:induction false} SelectedMeaning(items: seq<LogItem>, level: int)
    ensures forall x :: x in Selected(items, level) <==> x in items && level <= x.logType
  {
    if items != [] {
      SelectedMeaning(items[1..], level);
      assert items == [items[0]] + items[1..];
    }
  }

  /** Logging one more item extends what any level reads by that item alone,
      when its type reaches the level: earlier readings stay a prefix. */
  lemma {:induction false} SelectedAppend(items: seq<LogItem>, x: LogItem, level: int)
    ensures Selected(items + [x], level)
         == Selected(items, level) + (if level <= x.logType then [x] else [])
  {
    if items == [] {
      assert [] + [x] == [x];
    } else {
      assert (items + [x])[0] == items[0] && (items + [x])[1..] == items[1..] + [x];
      SelectedAppend(items[1..], x, level);
      var head := if level <= items[0].logType then [items[0]] else [];
      var tail := if level <= x.logType then [x] else [];
      assert Selected(items + [x], level) == head + (Selected(items[1..], level) + tail);
      assert Selected(items, level) == head + Selected(items[1..], level);
    }
  }

  /** `log2FormatStr` over the items in order; the first type without a
      display name raises IndexError. */
  function RenderAll(prefix: string, items: seq<LogItem>): (r: Result<seq<Rendered>>)
    ensures r.Err? ==> r.error == IndexError
    ensures r.Ok? ==> |r.value| == |items|
  {
    if items == [] then Ok([])
    else
      match TypeName(items[0].logType)
      case None => Err(IndexError)
      case Some(name) =>
        var rest :- RenderAll(prefix, items[1..]);
        Ok([Rendered(prefix, name, items[0].text)] + rest)
  }

  /** Rendering succeeds exactly when every type has a display name, and
      then renders each item in place; otherwise it raises IndexError. */
  lemma {:induction false} RenderAllMeaning(prefix: string, items: seq<LogItem>)
    ensures var r := RenderAll(prefix, items);
            && (r.Ok? <==> forall i :: 0 <= i < |items| ==> TypeName(items[i].logType).Some?)
            && (r.Err? ==> r.error == IndexError)
            && (r.Ok? ==>
                  && |r.value| == |items|
                  && forall i :: 0 <= i < |items| ==>
                       r.value[i] == Rendered(prefix, TypeName(items[i].logType).value, items[i].text))
  {
    if items != [] {
      RenderAllMeaning(prefix, items[1..]);
      assert forall i :: 1 <= i < |items| ==> items[i] == items[1..][i - 1];
    }
  }

  /** A rendering of the remaining items, put after what was already rendered. */
  function After(done: seq<Rendered>, rest: Result<seq<Rendered>>): Result<seq<Rendered>>
  {
    if rest.Ok? then Ok(done + rest.value) else rest
  }

  /** One step of the reading: the first item is rendered, or skipped, or
      raises, and the rest follows. */
  lemma ReadStep(prefix: string, items: seq<LogItem>, level: int)
    requires items != []
    ensures var x := items[0];
            var rest := RenderAll(prefix, Selected(items[1..], level));
            RenderAll(prefix, Selected(items, level))
              == if level > x.logType then rest
                 else if TypeName(x.logType).None? then Err(IndexError)
                 else After([Rendered(prefix, TypeName(x.logType).value, x.text)], rest)
  {
    var x := items[0];
    if level <= x.logType {
      assert Selected(items, level) == [x] + Selected(items[1..], level);
      assert ([x] + Selected(items[1..], level))[1..] == Selected(items[1..], level);
    } else {
      assert Selected(items, level) == Selected(items[1..], level);
    }
  }

  class LiteLog {
    var prefix: string
    var logList: seq<LogItem>
    var printLevel: int
    /** What `log` has printed, in order. */
    ghost var printed: seq<Rendered>

    constructor ()
      ensures prefix == "main" && logList == [] && printLevel == 0 && printed == []
    {
      prefix := "main";
      logList := [];
      printLevel := 0;
      printed := [];
    }

    /** `LiteLog.log(logType, *args)`: nothing without arguments; otherwise
        the item is appended, then printed when its type reaches the print
        level, and printing a type without a display name raises IndexError
        after the item was appended. */
    method Log(logType: int, args: seq<Scalar>) returns (o: Outcome)
      modifies this`logList, this`printed
      ensures args == [] ==> logList == old(logList) && printed == old(printed) && o == Done
      ensures args != [] ==> logList == old(logList) + [LogItem(logType, FormatText(args))]
      ensures args != [] ==>
                var shown := logType >= printLevel;
                var name := TypeName(logType);
                && o == (if shown && name.None? then Raised(IndexError) else Done)
                && printed == old(printed) +
                     (if shown && name.Some? then [Rendered(prefix, name.value, FormatText(args))] else [])
    {
      if args == [] {
        return Done;
      }
      var item := LogItem(logType, FormatText(args));
      logList := logList + [item];
      o := Done;
      if logType >= printLevel {
        var name := TypeName(logType);
        if name.None? {
          return Raised(IndexError);
        }
        printed := printed + [Rendered(prefix, name.value, item.text)];
      }
    }

    /** `LiteLog.getLog(level)`: every item whose type is at least `level`,
        rendered in log order, or IndexError at the first such item whose
        type has no display name. */
    method GetLog(level: int) returns (r: Result<seq<Rendered>>)
      ensures r == RenderAll(prefix, Selected(logList, level))
    {
      var acc: seq<Rendered> := [];
      assert logList[0..] == logList;
      assert RenderAll(prefix, Selected(logList, level)).Ok? ==>
               [] + RenderAll(prefix, Selected(logList, level)).value == RenderAll(prefix, Selected(logList, level)).value;
      for i := 0 to |logList|
        invariant RenderAll(prefix, Selected(logList, level))
               == After(acc, RenderAll(prefix, Selected(logList[i..], level)))
      {
        var item := logList[i];
        ReadStep(prefix, logList[i..], level);
        assert logList[i..][1..] == logList[i + 1..];
        if level <= item.logType {
          var name := TypeName(item.logType);
          if name.None? {
            return Err(IndexError);
          }
          ghost var rest := RenderAll(prefix, Selected(logList[i + 1..], level));
          assert rest.Ok? ==>
                   acc + ([Rendered(prefix, name.value, item.text)] + rest.value)
                   == (acc + [Rendered(prefix, name.value, item.text)]) + rest.value;
          acc := acc + [Rendered(prefix, name.value, item.text)];
        }
      }
      assert logList[|logList|..] == [];
      assert acc + [] == acc;
      r := Ok(acc);
    }
  }
}
