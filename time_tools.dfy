/** `TimeTools` of utils.py: the five-field time-window strings
    ("weekday month day hour minute", each field a comma list of numbers or
    ranges `a-b`) that gate when a task may run, and the helpers that
    normalise a configured value into a list of such strings.

    The check is modelled at the level of text, as the source does it: a
    regular expression admits the string, `re.sub` writes every range out as
    a comma list of decimals, and `int()` reads each entry back. */
module TimeTools {
  import opened Text
  import opened Py

  /** The fields of `time.localtime(nowTime)` the matcher reads;
      `tmWday` counts from Monday = 0. */
  datatype LocalTime = LocalTime(tmWday: int, tmMon: int, tmMday: int, tmHour: int, tmMin: int)

  /** The current time as "weekday month day hour minute", the weekday
      running from Monday = 1 to Sunday = 7. */
  function NowFields(t: LocalTime): (f: seq<int>)
    ensures |f| == 5 && f[0] == t.tmWday + 1
  {
    [t.tmWday + 1, t.tmMon, t.tmMday, t.tmHour, t.tmMin]
  }

  // ---------------------------------------------------------------------
  // The format check: ^(?:\d+-?\d*(?:,\d+-?\d*)* ){4}(?:\d+-?\d*(?:,\d+-?\d*)*)$
  // Fields are separated by single spaces and items by single commas; an
  // item is `\d+-?\d*`, so "5-" (a dash with no upper bound) passes.

  /** The item pattern `\d+-?\d*`: a digit run, optionally a dash and digits. */
  predicate ItemMatches(item: string)
  {
    var halves := Split(item, '-');
    IsDigitRun(halves[0]) && (|halves| == 1 || (|halves| == 2 && AllDigits(halves[1])))
  }

  predicate FieldMatches(field: string)
  {
    var items := Split(field, ',');
    forall k :: 0 <= k < |items| ==> ItemMatches(items[k])
  }

  predicate FullMatch(s: string)
  {
    var fields := Split(StripFinalNewline(s), ' ');
    |fields| == 5 && forall k :: 0 <= k < 5 ==> FieldMatches(fields[k])
  }

  // ---------------------------------------------------------------------
  // Expansion: re.sub(r"(\d*)-(\d*)", formating, timeRange), then
  // split(' '), split(',') and int().  Every match of the pattern in an
  // admitted string is exactly one item, so the substitution is applied
  // item by item.  The final newline the check admits ends up in the last
  // entry, where int() ignores it; it is dropped before expansion here.

  /** `int(t)` on an entry: a digit run, else ValueError (as for `int("")`). */
  function ParseInt(t: string): Result<int>
  {
    if IsDigitRun(t) then Ok(DigitsValue(t)) else Err(ValueError)
  }

  /** `int()` of every entry, stopping at the first that fails. */
  function ParseInts(texts: seq<string>): (r: Result<seq<int>>)
    ensures r.Ok? ==> |r.value| == |texts|
    ensures r.Err? ==> r.error == ValueError
  {
    if texts == [] then Ok([])
    else
      var x :- ParseInt(texts[0]);
      var rest :- ParseInts(texts[1..]);
      Ok([x] + rest)
  }

  /** `[str(i) for i in range(lo, hi)]` */
  function Decimals(lo: int, hi: int): seq<string>
    decreases hi - lo
  {
    if lo >= hi then [] else [IntToStr(lo)] + Decimals(lo + 1, hi)
  }

  /** `formating`: the text written in place of the range "a-b", bounds
      swapped when reversed. */
  function RangeText(a: int, b: int): string
  {
    var lo := if a > b then b else a;
    var hi := if a > b then a else b;
    Join(Decimals(lo, hi) + [IntToStr(hi)], ',')
  }

  /** The replacement of one item: a plain number stays as written. */
  function SubstItem(item: string): Result<string>
  {
    var halves := Split(item, '-');
    if |halves| == 1 then Ok(item)
    else
      var a :- ParseInt(halves[0]);
      var b :- ParseInt(halves[1]);
      Ok(RangeText(a, b))
  }

  function SubstItems(items: seq<string>): (r: Result<seq<string>>)
    ensures r.Ok? ==> |r.value| == |items|
    ensures r.Err? ==> r.error == ValueError
  {
    if items == [] then Ok([])
    else
      var x :- SubstItem(items[0]);
      var rest :- SubstItems(items[1..]);
      Ok([x] + rest)
  }

  /** One field: its items substituted, re-split at the commas, read as ints. */
  function FieldValues(field: string): (r: Result<seq<int>>)
    ensures r.Err? ==> r.error == ValueError
  {
    var texts :- SubstItems(Split(field, ','));
    ParseInts(Split(Join(texts, ','), ','))
  }

  /** Each field read on its own. */
  function FieldReads(fields: seq<string>): (rs: seq<Result<seq<int>>>)
    ensures |rs| == |fields| && forall k :: 0 <= k < |fields| ==> rs[k] == FieldValues(fields[k])
  {
    seq(|fields|, k requires 0 <= k < |fields| => FieldValues(fields[k]))
  }

  /** `[[int(j) for j in i.split(',')] for i in timeRange]` after the
      substitution: every field read, the first failure raised. */
  function FieldsValues(fields: seq<string>): (r: Result<seq<seq<int>>>)
    ensures r.Ok? ==> |r.value| == |fields|
    ensures r.Err? ==> r.error == ValueError
  {
    CollectErr(FieldReads(fields));
    Collect(FieldReads(fields))
  }

  /** `TimeTools.isInTime(timeRange, nowTime)`: TypeError for a non-string,
      a plain Exception for a string of the wrong shape, ValueError for a
      range without an upper bound, otherwise whether every component of
      the current time is listed in its field. */
  function IsInTime(timeRange: PyValue, now: LocalTime): (r: Result<bool>)
    ensures !IsStr(timeRange) ==> r == Err(TypeError)
    ensures IsStr(timeRange) && !FullMatch(timeRange.a.s) ==> r == Err(PlainException)
    ensures IsStr(timeRange) && FullMatch(timeRange.a.s) ==> r.Ok? || r == Err(ValueError)
  {
    if !IsStr(timeRange) then Err(TypeError)
    else if !FullMatch(timeRange.a.s) then Err(PlainException)
    else
      var lists :- FieldsValues(Split(StripFinalNewline(timeRange.a.s), ' '));
      var nowFields := NowFields(now);
      Ok(forall k :: 0 <= k < 5 ==> nowFields[k] in lists[k])
  }

  // ---------------------------------------------------------------------
  // What an admitted string means, stated without the text round trip.

  datatype Item =
    | Single(n: int)       // "n"
    | Span(a: int, b: int) // "a-b", in either order
    | OpenSpan(a: int)     // "a-", admitted by the check, rejected by int("")

  function ItemOf(item: string): Item
    requires ItemMatches(item)
  {
    var halves := Split(item, '-');
    if |halves| == 1 then Single(DigitsValue(halves[0]))
    else if halves[1] == "" then OpenSpan(DigitsValue(halves[0]))
    else Span(DigitsValue(halves[0]), DigitsValue(halves[1]))
  }

  function FieldItems(field: string): (its: seq<Item>)
    requires FieldMatches(field)
  {
    var items := Split(field, ',');
    seq(|items|, j requires 0 <= j < |items| => ItemOf(items[j]))
  }

  function Parsed(s: string): (fields: seq<seq<Item>>)
    requires FullMatch(s)
    ensures |fields| == 5
  {
    var parts := Split(StripFinalNewline(s), ' ');
    seq(5, k requires 0 <= k < 5 => FieldItems(parts[k]))
  }

  /** The integers an item stands for: a range covers every integer from
      its smaller to its larger bound. */
  predicate Denotes(it: Item, x: int)
  {
    match it
    case Single(n) => x == n
    case Span(a, b) => (if a <= b then a else b) <= x <= (if a <= b then b else a)
    case OpenSpan(_) => false
  }

  predicate Admits(field: seq<Item>, x: int)
  {
    exists j :: 0 <= j < |field| && Denotes(field[j], x)
  }

  predicate HasOpenSpan(fields: seq<seq<Item>>)
  {
    exists k, j :: 0 <= k < |fields| && 0 <= j < |fields[k]| && fields[k][j].OpenSpan?
  }

  /** `isInTime` on an admitted string: ValueError if some range lacks its
      upper bound, otherwise true exactly when each of weekday, month, day,
      hour and minute is admitted by its field; one mismatch gives false. */
  lemma IsInTimeMeaning(s: string, now: LocalTime)
    requires FullMatch(s)
    ensures IsInTime(Atom(SStr(s)), now)
         == if HasOpenSpan(Parsed(s)) then Err(ValueError)
            else Ok(forall k :: 0 <= k < 5 ==> Admits(Parsed(s)[k], NowFields(now)[k]))
  {
    var parts := Split(StripFinalNewline(s), ' ');
    var lists := FieldsValues(parts);
    var nowFields := NowFields(now);
    if lists.Ok? {
      assert IsInTime(Atom(SStr(s)), now) == Ok(forall k :: 0 <= k < 5 ==> nowFields[k] in lists.value[k]);
      NoOpenSpanWhenRead(s);
      AdmitsWhenRead(s, now);
    } else {
      assert IsInTime(Atom(SStr(s)), now) == Err(ValueError);
      OpenSpanWhenUnread(s);
    }
  }

  /** Fields that read as integers hold no open range. */
  lemma NoOpenSpanWhenRead(s: string)
    requires FullMatch(s)
    requires FieldsValues(Split(StripFinalNewline(s), ' ')).Ok?
    ensures !HasOpenSpan(Parsed(s))
  {
    var parts := Split(StripFinalNewline(s), ' ');
    var fields: seq<seq<Item>> := Parsed(s);
    forall k, j | 0 <= k < 5 && 0 <= j < |fields[k]| ensures !fields[k][j].OpenSpan? {
      CollectAt(FieldReads(parts), k);
      FieldValuesMeaning(parts[k]);
      assert fields[k] == FieldItems(parts[k]);
    }
  }

  /** Fields that fail to read hold an open range. */
  lemma OpenSpanWhenUnread(s: string)
    requires FullMatch(s)
    requires FieldsValues(Split(StripFinalNewline(s), ' ')).Err?
    ensures HasOpenSpan(Parsed(s))
  {
    var parts := Split(StripFinalNewline(s), ' ');
    var fields: seq<seq<Item>> := Parsed(s);
    CollectErr(FieldReads(parts));
    var k :| 0 <= k < |parts| && FieldValues(parts[k]).Err?;
    FieldValuesMeaning(parts[k]);
    var j :| 0 <= j < |FieldItems(parts[k])| && FieldItems(parts[k])[j].OpenSpan?;
    assert fields[k] == FieldItems(parts[k]);
  }

  /** The integers read from a field are those its items denote. */
  lemma AdmitsWhenRead(s: string, now: LocalTime)
    requires FullMatch(s)
    requires FieldsValues(Split(StripFinalNewline(s), ' ')).Ok?
    ensures var lists := FieldsValues(Split(StripFinalNewline(s), ' ')).value;
            forall k :: 0 <= k < 5 ==> (NowFields(now)[k] in lists[k] <==> Admits(Parsed(s)[k], NowFields(now)[k]))
  {
    var parts := Split(StripFinalNewline(s), ' ');
    var fields: seq<seq<Item>> := Parsed(s);
    forall k | 0 <= k < 5
      ensures NowFields(now)[k] in FieldsValues(parts).value[k] <==> Admits(fields[k], NowFields(now)[k])
    {
      CollectAt(FieldReads(parts), k);
      FieldValuesMeaning(parts[k]);
      assert fields[k] == FieldItems(parts[k]);
    }
  }

  /** One admitted field: ValueError exactly when it holds a range without
      an upper bound, otherwise the integers its items denote. */
  lemma FieldValuesMeaning(field: string)
    requires FieldMatches(field)
    ensures FieldValues(field).Err? <==> exists j :: 0 <= j < |FieldItems(field)| && FieldItems(field)[j].OpenSpan?
    ensures FieldValues(field).Ok? ==> forall x :: x in FieldValues(field).value <==> Admits(FieldItems(field), x)
  {
    var items := Split(field, ',');
    var its := FieldItems(field);
    ItemsValues(items);
    var texts := SubstItems(items);
    if texts.Ok? {
      SplitJoin(texts.value, ',');
      forall x ensures (exists k :: 0 <= k < |items| && Denotes(ItemOf(items[k]), x)) <==> Admits(its, x) {
        if exists k :: 0 <= k < |items| && Denotes(ItemOf(items[k]), x) {
          var k :| 0 <= k < |items| && Denotes(ItemOf(items[k]), x);
          assert Denotes(its[k], x);
        }
      }
    } else {
      var k :| 0 <= k < |items| && ItemOf(items[k]).OpenSpan?;
      assert its[k].OpenSpan?;
    }
  }

  lemma {:induction false} ItemsValues(items: seq<string>)
    requires forall k :: 0 <= k < |items| ==> ItemMatches(items[k]) && ',' !in items[k]
    ensures SubstItems(items).Err? <==> exists k :: 0 <= k < |items| && ItemOf(items[k]).OpenSpan?
    ensures SubstItems(items).Ok? ==>
              var vs := ParseInts(SplitEach(SubstItems(items).value, ','));
              vs.Ok? && forall x :: x in vs.value <==> exists k :: 0 <= k < |items| && Denotes(ItemOf(items[k]), x)
    decreases |items|, 1
  {
    if items != [] {
      ItemValue(items[0]);
      if SubstItems(items).Ok? {
        ItemsValuesCons(items);
      } else if SubstItem(items[0]).Ok? {
        ItemsValues(items[1..]);
        var k' :| 0 <= k' < |items[1..]| && ItemOf(items[1..][k']).OpenSpan?;
        assert ItemOf(items[k' + 1]).OpenSpan?;
      }
    }
  }

  /** The step of `ItemsValues` when every item is written out: the first
      item's integers, then the rest's. */
  lemma {:induction false} ItemsValuesCons(items: seq<string>)
    requires forall k :: 0 <= k < |items| ==> ItemMatches(items[k]) && ',' !in items[k]
    requires items != [] && SubstItems(items).Ok?
    ensures !exists k :: 0 <= k < |items| && ItemOf(items[k]).OpenSpan?
    ensures var vs := ParseInts(SplitEach(SubstItems(items).value, ','));
            vs.Ok? && forall x :: x in vs.value <==> exists k :: 0 <= k < |items| && Denotes(ItemOf(items[k]), x)
    decreases |items|, 0
  {
    ItemValue(items[0]);
    ItemsValues(items[1..]);
    forall k | 1 <= k < |items| ensures items[k] == items[1..][k - 1] { }
    var r := SubstItems(items);
    var head := SubstItem(items[0]).value;
    var tail := SubstItems(items[1..]).value;
    assert r.value == [head] + tail;
    assert ([head] + tail)[1..] == tail;
    ParseIntsAppend(Split(head, ','), SplitEach(tail, ','));
    var vs := ParseInts(SplitEach(r.value, ',')).value;
    forall x ensures x in vs <==> exists k :: 0 <= k < |items| && Denotes(ItemOf(items[k]), x) {
      if exists k :: 0 <= k < |items| && Denotes(ItemOf(items[k]), x) {
        var k :| 0 <= k < |items| && Denotes(ItemOf(items[k]), x);
        if k > 0 {
          assert Denotes(ItemOf(items[1..][k - 1]), x);
        }
      }
      if x in ParseInts(SplitEach(tail, ',')).value {
        var k' :| 0 <= k' < |items[1..]| && Denotes(ItemOf(items[1..][k']), x);
        assert Denotes(ItemOf(items[k' + 1]), x);
      }
    }
  }

  /** One admitted item, written without commas: its replacement reads back
      as exactly the integers it denotes. */
  lemma ItemValue(item: string)
    requires ItemMatches(item) && ',' !in item
    ensures SubstItem(item).Err? <==> ItemOf(item).OpenSpan?
    ensures SubstItem(item).Ok? ==>
              var vs := ParseInts(Split(SubstItem(item).value, ','));
              vs.Ok? && forall x :: x in vs.value <==> Denotes(ItemOf(item), x)
  {
    var halves := Split(item, '-');
    if |halves| == 1 {
      JoinSplit(item, '-');
      SplitNoSeparator(item, ',');
    } else if halves[1] != "" {
      var a := DigitsValue(halves[0]);
      var b := DigitsValue(halves[1]);
      RangeValues(a, b);
    }
  }

  /** "b-a" is written out as "a-b" is, and "a-a" as just a. */
  lemma RangeTextSymmetric(a: nat, b: nat)
    ensures RangeText(a, b) == RangeText(b, a)
    ensures a == b ==> RangeText(a, b) == Decimal(a)
  {
    if a == b {
      assert Decimals(a, b) + [IntToStr(b)] == [Decimal(a)];
    }
  }

  /** A range "a-b" is written out as every integer from min(a, b) to
      max(a, b). */
  lemma RangeValues(a: nat, b: nat)
    ensures var vs := ParseInts(Split(RangeText(a, b), ','));
            vs.Ok? && forall x :: x in vs.value <==> Denotes(Span(a, b), x)
  {
    var lo := if a > b then b else a;
    var hi := if a > b then a else b;
    var texts := Decimals(lo, hi) + [IntToStr(hi)];
    DecimalsHaveNoComma(lo, hi);
    SplitJoinInverse(texts, ',');
    assert Split(RangeText(a, b), ',') == texts;
    DecimalsValues(lo, hi);
    ReadDecimal(hi);
    ParseIntsAppend(Decimals(lo, hi), [IntToStr(hi)]);
    var vs := ParseInts(texts).value;
    assert vs == ParseInts(Decimals(lo, hi)).value + [hi];
  }

  /** `int(str(n))` as one entry. */
  lemma ReadDecimal(n: nat)
    ensures ParseInts([IntToStr(n)]) == Ok([n as int])
  {
    DecimalRoundTrip(n);
    var t := [IntToStr(n)];
    assert t[0] == Decimal(n);
    assert IsDigitRun(t[0]);
    assert ParseInt(t[0]) == Ok(n as int);
    assert t[1..] == [];
    assert ParseInts(t[1..]) == Ok([]);
    assert [n as int] + [] == [n as int];
    assert ParseInts(t) == Ok([n as int]);
  }

  lemma {:induction false} DecimalsHaveNoComma(lo: nat, hi: nat)
    ensures forall k :: 0 <= k < |Decimals(lo, hi)| ==> ',' !in Decimals(lo, hi)[k]
    decreases hi - lo
  {
    if lo < hi {
      DecimalsHaveNoComma(lo + 1, hi);
      forall k | 1 <= k < |Decimals(lo, hi)|
        ensures Decimals(lo, hi)[k] == Decimals(lo + 1, hi)[k - 1] { }
    }
  }

  lemma {:induction false} DecimalsValues(lo: nat, hi: nat)
    ensures var vs := ParseInts(Decimals(lo, hi));
            vs.Ok? && forall x :: x in vs.value <==> lo <= x < hi
    decreases hi - lo
  {
    if lo < hi {
      DecimalsValues(lo + 1, hi);
      DecimalRoundTrip(lo);
      assert Decimals(lo, hi)[1..] == Decimals(lo + 1, hi);
    }
  }

  lemma {:induction false} ParseIntsAppend(a: seq<string>, b: seq<string>)
    ensures ParseInts(a + b).Ok? <==> ParseInts(a).Ok? && ParseInts(b).Ok?
    ensures ParseInts(a + b).Ok? ==> ParseInts(a + b).value == ParseInts(a).value + ParseInts(b).value
  {
    if a == [] {
      assert a + b == b;
    } else {
      assert (a + b)[1..] == a[1..] + b;
      ParseIntsAppend(a[1..], b);
    }
  }

  // ---------------------------------------------------------------------
  // formatStrList and isInTimeList

  /** The values `formatStrList` accepts: a string, a list or tuple, or any
      falsy value. */
  predicate Normalisable(item: PyValue)
  {
    IsStr(item) || item.List? || item.Tuple? || !Truthy(item)
  }

  /** The strings `formatStrList` returns for an accepted value. */
  function Entries(item: PyValue): seq<string>
  {
    if IsStr(item) then [item.a.s]
    else if item.List? || item.Tuple? then seq(|item.items|, i requires 0 <= i < |item.items| => Str(item.items[i]))
    else []
  }

  /** The loop of `formatStrList`: every element is replaced by its `str()`. */
  method StrInPlace(a: array<Scalar>)
    modifies a
    ensures forall j :: 0 <= j < a.Length ==> a[j] == SStr(Str(old(a[j])))
  {
    for i := 0 to a.Length
      invariant forall j :: 0 <= j < i ==> a[j] == SStr(Str(old(a[j])))
      invariant forall j :: i <= j < a.Length ==> a[j] == old(a[j])
    {
      a[i] := SStr(Str(a[i]));
    }
  }

  /** `TimeTools.formatStrList`: a string becomes a one-element list, a list
      or tuple a list of the same length with every element passed through
      `str()` in place, any other falsy value the empty list; anything else
      raises TypeError. */
  method FormatStrList(item: PyValue) returns (r: Result<seq<string>>)
    ensures IsStr(item) ==> r == Ok([item.a.s])
    ensures item.List? || item.Tuple? ==>
              r.Ok? && |r.value| == |item.items| &&
              forall i :: 0 <= i < |item.items| ==> r.value[i] == Str(item.items[i])
    ensures !IsStr(item) && !item.List? && !item.Tuple? ==>
              r == if Truthy(item) then Err(TypeError) else Ok([])
  {
    var strList: array<Scalar>;
    if IsStr(item) {
      strList := new Scalar[1](_ => item.a);
    } else if item.List? || item.Tuple? {
      strList := new Scalar[|item.items|](i requires 0 <= i < |item.items| => item.items[i]);
    } else if !Truthy(item) {
      strList := new Scalar[0];
    } else {
      return Err(TypeError);
    }
    ghost var listed := strList[..];
    StrInPlace(strList);
    var done := strList[..];
    assert forall j :: 0 <= j < |done| ==> Str(done[j]) == Str(listed[j]);
    r := Ok(seq(|done|, j requires 0 <= j < |done| => Str(done[j])));
    if IsStr(item) {
      assert done == [SStr(item.a.s)];
      assert r.value == [item.a.s];
    } else if !item.List? && !item.Tuple? {
      assert |done| == 0;
      assert r.value == [];
    }
  }

  /** `isInTime` on one normalised entry. */
  function Verdict(entry: string, now: LocalTime): Result<bool>
  {
    IsInTime(Atom(SStr(entry)), now)
  }

  /** The verdicts of the entries, in order. */
  function Verdicts(entries: seq<string>, now: LocalTime): (vs: seq<Result<bool>>)
    ensures |vs| == |entries|
    ensures forall i :: 0 <= i < |entries| ==> vs[i] == Verdict(entries[i], now)
  {
    seq(|entries|, i requires 0 <= i < |entries| => Verdict(entries[i], now))
  }

  /** The answer of the search `isInTimeList` runs over the verdicts of its
      entries: the first that raises or matches decides, and false when none does. */
  function Search(vs: seq<Result<bool>>): (r: Result<bool>)
    ensures r == Ok(false) || r in vs
  {
    if vs == [] then Ok(false)
    else
      match vs[0]
      case Err(e) => Err(e)
      case Ok(true) => Ok(true)
      case Ok(false) => Search(vs[1..])
  }

  /** Every verdict before position `k` is a well-formed mismatch. */
  predicate MismatchesBefore(vs: seq<Result<bool>>, k: int)
    requires 0 <= k <= |vs|
  {
    forall j :: 0 <= j < k ==> vs[j] == Ok(false)
  }

  /** The search answers true exactly when some entry matches after only
      well-formed mismatches. */
  lemma {:induction false} SearchTrue(vs: seq<Result<bool>>)
    ensures Search(vs) == Ok(true) <==>
              exists k :: 0 <= k < |vs| && vs[k] == Ok(true) && MismatchesBefore(vs, k)
  {
    if vs != [] {
      SearchTrue(vs[1..]);
      if vs[0] == Ok(false) {
        if Search(vs) == Ok(true) {
          var k :| 0 <= k < |vs[1..]| && vs[1..][k] == Ok(true) && MismatchesBefore(vs[1..], k);
          assert vs[k + 1] == Ok(true);
          assert MismatchesBefore(vs, k + 1) by {
            forall j | 0 <= j < k + 1 ensures vs[j] == Ok(false) {
              if j > 0 { assert vs[j] == vs[1..][j - 1]; }
            }
          }
        }
        if exists k :: 0 <= k < |vs| && vs[k] == Ok(true) && MismatchesBefore(vs, k) {
          var k :| 0 <= k < |vs| && vs[k] == Ok(true) && MismatchesBefore(vs, k);
          assert vs[1..][k - 1] == Ok(true);
          assert MismatchesBefore(vs[1..], k - 1) by {
            forall j | 0 <= j < k - 1 ensures vs[1..][j] == Ok(false) {
              assert vs[1..][j] == vs[j + 1];
            }
          }
        }
      } else if vs[0] == Ok(true) {
        assert MismatchesBefore(vs, 0);
      }
    }
  }

  /** The search answers false exactly when every entry is a well-formed mismatch;
      in particular an empty list gives false. */
  lemma {:induction false} SearchFalse(vs: seq<Result<bool>>)
    ensures Search(vs) == Ok(false) <==> MismatchesBefore(vs, |vs|)
  {
    if vs != [] {
      SearchFalse(vs[1..]);
      if vs[0] == Ok(false) {
        assert MismatchesBefore(vs, |vs|) <==> MismatchesBefore(vs[1..], |vs| - 1) by {
          forall j | 0 <= j < |vs| - 1 ensures vs[1..][j] == vs[j + 1] { }
          if MismatchesBefore(vs[1..], |vs| - 1) {
            forall j | 0 <= j < |vs| ensures vs[j] == Ok(false) {
              if j > 0 { assert vs[j] == vs[1..][j - 1]; }
            }
          }
        }
      }
    }
  }

  /** When the search raises, it raises what the first raising entry
      raises, every entry before it being a well-formed mismatch. */
  lemma {:induction false} SearchErr(vs: seq<Result<bool>>)
    requires Search(vs).Err?
    ensures exists k :: 0 <= k < |vs| && vs[k] == Search(vs) && MismatchesBefore(vs, k)
  {
    if vs[0].Err? {
      assert MismatchesBefore(vs, 0);
    } else {
      SearchErr(vs[1..]);
      var k :| 0 <= k < |vs[1..]| && vs[1..][k] == Search(vs[1..]) && MismatchesBefore(vs[1..], k);
      assert vs[k + 1] == Search(vs);
      assert MismatchesBefore(vs, k + 1) by {
        forall j | 0 <= j < k + 1 ensures vs[j] == Ok(false) {
          if j > 0 { assert vs[j] == vs[1..][j - 1]; }
        }
      }
    }
  }

  /** `TimeTools.isInTimeList`: normalise with `formatStrList`, then try the
      entries in order until one matches or raises. */
  method IsInTimeList(timeRanges: PyValue, now: LocalTime) returns (r: Result<bool>)
    ensures !Normalisable(timeRanges) ==> r == Err(TypeError)
    ensures Normalisable(timeRanges) ==> r == Search(Verdicts(Entries(timeRanges), now))
  {
    var listed := FormatStrList(timeRanges);
    if listed.Err? {
      return Err(listed.error);
    }
    var entries := listed.value;
    assert entries == Entries(timeRanges);
    ghost var vs := Verdicts(entries, now);
    for i := 0 to |entries|
      invariant Search(vs[i..]) == Search(vs)
    {
      assert vs[i..][1..] == vs[i + 1..];
      var verdict := Verdict(entries[i], now);
      if verdict.Err? {
        return verdict;
      }
      if verdict.value {
        return Ok(true);
      }
    }
    return Ok(false);
  }
}
