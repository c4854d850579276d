// Command-line parsing of the spreadsheet viewer (xlsx_viewer/main.go).
// The parser walks the arguments with a cursor, records one operation and
// its parameters, stops with exit code 2 on any parameter error, and fills
// in per-operation defaults at the end.
module XlsxArgs {
  import opened Wrappers
  import opened Text

  const ExitSuccess: int := 0
  const ExitGeneralError: int := 1
  const ExitParamError: int := 2

  const MaxColsDefault: int := 50
  const MaxRowsDefault: int := 50
  const SearchModeDefault: string := "fuzzy"
  const SearchLimitDefault: int := 10
  const RowsStartDefault: int := 1
  const RowsEndDefault: int := 3
  const ColsStartDefault: int := 1
  const ColsEndDefault: int := 3

  const OneOperationMessage: string := "只能指定一个操作类型 (--size, --rows, --cols, --search-col, --search-row 之一)"

  /** A parameter value: the source stores ints and strings in one map. */
  datatype Param = PInt(n: int) | PText(s: string)

  datatype Args = Args(path: string, operation: string, params: map<string, Param>)

  /** How parsing ends: the parsed arguments, the help text (exit 0), or an error exit. */
  datatype ParseOutcome = Parsed(args: Args) | Help | Exit(code: int, message: string)

  /** One step of the cursor: continue at `next` with new arguments, or stop. */
  datatype Step = Next(next: nat, acc: Args) | Stop(outcome: ParseOutcome)

  const Empty: Args := Args("", "", map[])

  predicate IsOperationFlag(a: string)
  {
    a == "--size" || a == "--rows" || a == "--cols" || a == "--search-col" || a == "--search-row"
  }

  /** The positive number at position j, if it exists and is not another flag. */
  function PositiveAt(args: seq<string>, j: nat): (r: Option<int>)
    ensures r.Some? ==> j < |args| && r.value > 0 && Atoi(args[j]) == r
  {
    if j < |args| && !StartsWith(args[j], "--") && Atoi(args[j]).Some? && Atoi(args[j]).value > 0
    then Atoi(args[j]) else None
  }

  /** `--rows [x] [y]` and `--cols [x] [y]`: default range, then one or two numbers. */
  function RangeStep(args: seq<string>, i: nat, acc: Args, op: string, startKey: string, endKey: string,
                     defStart: int, defEnd: int): Step
  {
    var p := acc.params[startKey := PInt(defStart)][endKey := PInt(defEnd)];
    var n1 := PositiveAt(args, i + 1);
    if n1.None? then Next(i + 1, Args(acc.path, op, p))
    else
      var p1 := p[startKey := PInt(1)][endKey := PInt(n1.value)];
      var n2 := PositiveAt(args, i + 2);
      if n2.None? then Next(i + 2, Args(acc.path, op, p1))
      else Next(i + 3, Args(acc.path, op, p1[startKey := PInt(n1.value)][endKey := PInt(n2.value)]))
  }

  /** `--search-col <index> <keyword>` and `--search-row <index> <keyword>`. */
  function SearchStep(args: seq<string>, i: nat, acc: Args, op: string, indexKey: string,
                      missingIndex: string, badIndex: string, missingKeyword: string): Step
  {
    if i + 1 >= |args| then Stop(Exit(ExitParamError, missingIndex))
    else
      var n := Atoi(args[i + 1]);
      if n.None? || n.value < 1 then Stop(Exit(ExitParamError, badIndex))
      else if i + 2 >= |args| || StartsWith(args[i + 2], "--") then Stop(Exit(ExitParamError, missingKeyword))
      else Next(i + 3, Args(acc.path, op, acc.params[indexKey := PInt(n.value)]["keyword" := PText(args[i + 2])]))
  }

  /** `--max-cols`, `--max-rows`, `--limit`: one integer that must be at least 1. */
  function PositiveOptionStep(args: seq<string>, i: nat, acc: Args, key: string,
                              missing: string, bad: string): Step
  {
    if i + 1 >= |args| then Stop(Exit(ExitParamError, missing))
    else
      var n := Atoi(args[i + 1]);
      if n.None? || n.value < 1 then Stop(Exit(ExitParamError, bad))
      else Next(i + 2, acc.(params := acc.params[key := PInt(n.value)]))
  }

  /** What the loop body of parseArgs does with the argument at position i. */
  function StepAt(args: seq<string>, i: nat, acc: Args): (r: Step)
    requires i < |args|
    ensures r.Next? ==> i < r.next <= |args|
  {
    var arg := args[i];
    if arg == "--help" || arg == "-h" then Stop(Help)
    else if arg == "--path" then
      if i + 1 >= |args| then Stop(Exit(ExitParamError, "--path 需要指定文件路径"))
      else Next(i + 2, acc.(path := args[i + 1]))
    else if IsOperationFlag(arg) && acc.operation != "" then Stop(Exit(ExitParamError, OneOperationMessage))
    else if arg == "--size" then Next(i + 1, acc.(operation := "size"))
    else if arg == "--rows" then
      RangeStep(args, i, acc, "rows", "rowStart", "rowEnd", RowsStartDefault, RowsEndDefault)
    else if arg == "--cols" then
      RangeStep(args, i, acc, "cols", "colStart", "colEnd", ColsStartDefault, ColsEndDefault)
    else if arg == "--search-col" then
      SearchStep(args, i, acc, "search-col", "colIndex", "--search-col 需要指定列索引",
                 "--search-col 需要指定有效的列索引(大于0的整数)", "--search-col 需要指定关键词")
    else if arg == "--search-row" then
      SearchStep(args, i, acc, "search-row", "rowIndex", "--search-row 需要指定行索引",
                 "--search-row 需要指定有效的行索引(大于0的整数)", "--search-row 需要指定关键词")
    else if arg == "--max-cols" then
      PositiveOptionStep(args, i, acc, "maxCols", "--max-cols 需要指定数值", "--max-cols 需要指定大于0的整数")
    else if arg == "--max-rows" then
      PositiveOptionStep(args, i, acc, "maxRows", "--max-rows 需要指定数值", "--max-rows 需要指定大于0的整数")
    else if arg == "--mode" then
      if i + 1 >= |args| then Stop(Exit(ExitParamError, "--mode 需要指定模式(fuzzy/exact/regex)"))
      else if args[i + 1] != "fuzzy" && args[i + 1] != "exact" && args[i + 1] != "regex" then
        Stop(Exit(ExitParamError, "--mode 只能是 fuzzy、exact 或 regex 之一"))
      else Next(i + 2, acc.(params := acc.params["mode" := PText(args[i + 1])]))
    else if arg == "--limit" then
      PositiveOptionStep(args, i, acc, "limit", "--limit 需要指定数量", "--limit 需要指定大于0的整数")
    else Stop(Exit(ExitParamError, "未知参数: " + arg))
  }

  /** The defaults filled in after the loop, per operation. */
  function WithDefaults(a: Args): (r: Args)
    ensures r.path == a.path && r.operation == a.operation
    ensures a.params.Keys <= r.params.Keys
    ensures forall k :: k in a.params ==> r.params[k] == a.params[k]
    ensures a.operation == "rows" ==> "maxCols" in r.params
    ensures a.operation == "cols" ==> "maxRows" in r.params
    ensures a.operation in {"search-col", "search-row"} ==> "mode" in r.params && "limit" in r.params
  {
    var p0 := a.params;
    var p1 := if a.operation == "rows" && "maxCols" !in p0 then p0["maxCols" := PInt(MaxColsDefault)] else p0;
    var p2 := if a.operation == "cols" && "maxRows" !in p1 then p1["maxRows" := PInt(MaxRowsDefault)] else p1;
    var search := a.operation == "search-col" || a.operation == "search-row";
    var p3 := if search && "mode" !in p2 then p2["mode" := PText(SearchModeDefault)] else p2;
    var p4 := if search && "limit" !in p3 then p3["limit" := PInt(SearchLimitDefault)] else p3;
    Args(a.path, a.operation, p4)
  }

  /** Parsing from cursor i with the arguments gathered so far. */
  function ParseFrom(args: seq<string>, i: nat, acc: Args): ParseOutcome
    decreases |args| - i
  {
    if i >= |args| then Parsed(WithDefaults(acc))
    else match StepAt(args, i, acc)
      case Stop(o) => o
      case Next(j, a) => ParseFrom(args, j, a)
  }

  function ParseSpec(args: seq<string>): ParseOutcome
  {
    ParseFrom(args, 0, Empty)
  }

  /** The `--rows`/`--cols` branch of the loop body. */
  method ParseRange(args: seq<string>, i: nat, acc: Args, op: string, startKey: string, endKey: string,
                    defStart: int, defEnd: int) returns (s: Step)
    ensures s == RangeStep(args, i, acc, op, startKey, endKey, defStart, defEnd)
  {
    var params := acc.params[startKey := PInt(defStart)][endKey := PInt(defEnd)];
    var j := i;
    if j + 1 < |args| && !StartsWith(args[j + 1], "--") {
      var num1 := Atoi(args[j + 1]);
      if num1.Some? && num1.value > 0 {
        params := params[startKey := PInt(1)][endKey := PInt(num1.value)];
        j := j + 1;
        if j + 1 < |args| && !StartsWith(args[j + 1], "--") {
          var num2 := Atoi(args[j + 1]);
          if num2.Some? && num2.value > 0 {
            params := params[startKey := PInt(num1.value)][endKey := PInt(num2.value)];
            j := j + 1;
          }
        }
      }
    }
    s := Next(j + 1, Args(acc.path, op, params));
  }

  /** The `--search-col`/`--search-row` branch of the loop body. */
  method ParseSearch(args: seq<string>, i: nat, acc: Args, op: string, indexKey: string,
                     missingIndex: string, badIndex: string, missingKeyword: string) returns (s: Step)
    ensures s == SearchStep(args, i, acc, op, indexKey, missingIndex, badIndex, missingKeyword)
  {
    if i + 1 >= |args| {
      return Stop(Exit(ExitParamError, missingIndex));
    }
    var index := Atoi(args[i + 1]);
    if index.None? || index.value < 1 {
      return Stop(Exit(ExitParamError, badIndex));
    }
    var params := acc.params[indexKey := PInt(index.value)];
    var j := i + 1;
    if j + 1 >= |args| || StartsWith(args[j + 1], "--") {
      return Stop(Exit(ExitParamError, missingKeyword));
    }
    params := params["keyword" := PText(args[j + 1])];
    s := Next(j + 2, Args(acc.path, op, params));
  }

  /** The `--max-cols`/`--max-rows`/`--limit` branches of the loop body. */
  method ParsePositive(args: seq<string>, i: nat, acc: Args, key: string, missing: string, bad: string)
    returns (s: Step)
    ensures s == PositiveOptionStep(args, i, acc, key, missing, bad)
  {
    if i + 1 >= |args| {
      return Stop(Exit(ExitParamError, missing));
    }
    var n := Atoi(args[i + 1]);
    if n.None? || n.value < 1 {
      return Stop(Exit(ExitParamError, bad));
    }
    s := Next(i + 2, acc.(params := acc.params[key := PInt(n.value)]));
  }

  /** One pass of the loop body of parseArgs. */
  method ParseOne(args: seq<string>, i: nat, acc: Args) returns (s: Step)
    requires i < |args|
    ensures s == StepAt(args, i, acc)
  {
    var arg := args[i];
    if arg == "--help" || arg == "-h" {
      s := Stop(Help);
    } else if arg == "--path" {
      if i + 1 >= |args| {
        s := Stop(Exit(ExitParamError, "--path 需要指定文件路径"));
      } else {
        s := Next(i + 2, acc.(path := args[i + 1]));
      }
    } else if IsOperationFlag(arg) && acc.operation != "" {
      s := Stop(Exit(ExitParamError, OneOperationMessage));
    } else if arg == "--size" {
      s := Next(i + 1, acc.(operation := "size"));
    } else if arg == "--rows" {
      s := ParseRange(args, i, acc, "rows", "rowStart", "rowEnd", RowsStartDefault, RowsEndDefault);
    } else if arg == "--cols" {
      s := ParseRange(args, i, acc, "cols", "colStart", "colEnd", ColsStartDefault, ColsEndDefault);
    } else if arg == "--search-col" {
      s := ParseSearch(args, i, acc, "search-col", "colIndex", "--search-col 需要指定列索引",
                       "--search-col 需要指定有效的列索引(大于0的整数)", "--search-col 需要指定关键词");
    } else if arg == "--search-row" {
      s := ParseSearch(args, i, acc, "search-row", "rowIndex", "--search-row 需要指定行索引",
                       "--search-row 需要指定有效的行索引(大于0的整数)", "--search-row 需要指定关键词");
    } else if arg == "--max-cols" {
      s := ParsePositive(args, i, acc, "maxCols", "--max-cols 需要指定数值", "--max-cols 需要指定大于0的整数");
    } else if arg == "--max-rows" {
      s := ParsePositive(args, i, acc, "maxRows", "--max-rows 需要指定数值", "--max-rows 需要指定大于0的整数");
    } else if arg == "--mode" {
      if i + 1 >= |args| {
        s := Stop(Exit(ExitParamError, "--mode 需要指定模式(fuzzy/exact/regex)"));
      } else if args[i + 1] != "fuzzy" && args[i + 1] != "exact" && args[i + 1] != "regex" {
        s := Stop(Exit(ExitParamError, "--mode 只能是 fuzzy、exact 或 regex 之一"));
      } else {
        s := Next(i + 2, acc.(params := acc.params["mode" := PText(args[i + 1])]));
      }
    } else if arg == "--limit" {
      s := ParsePositive(args, i, acc, "limit", "--limit 需要指定数量", "--limit 需要指定大于0的整数");
    } else {
      s := Stop(Exit(ExitParamError, "未知参数: " + arg));
    }
  }

  /** parseArgs: the cursor loop over the arguments, then the defaults. */
  method ParseArgs(args: seq<string>) returns (r: ParseOutcome)
    ensures r == ParseSpec(args)
  {
    var acc := Empty;
    var i := 0;
    while i < |args|
      invariant 0 <= i <= |args|
      invariant ParseFrom(args, i, acc) == ParseSpec(args)
      decreases |args| - i
    {
      var s := ParseOne(args, i, acc);
      match s {
        case Stop(o) =>
          return o;
        case Next(j, a) =>
          i, acc := j, a;
      }
    }
    r := Parsed(WithDefaults(acc));
  }

  predicate HasInt(p: map<string, Param>, k: string) { k in p && p[k].PInt? }
  predicate HasText(p: map<string, Param>, k: string) { k in p && p[k].PText? }

  /** Every integer parameter the parser stores is at least 1, only the keyword and the mode are
      strings, and a mode is one of the three. */
  predicate ParamsValid(p: map<string, Param>)
  {
    && (forall k :: k in p && p[k].PInt? ==> p[k].n >= 1)
    && (forall k :: k in p ==> (p[k].PText? <==> k == "keyword" || k == "mode"))
    && ("mode" in p ==> p["mode"] == PText("fuzzy") || p["mode"] == PText("exact") || p["mode"] == PText("regex"))
  }

  /** What the loop keeps: the operation's own parameters are present once it is chosen. */
  predicate LoopInvariant(a: Args)
  {
    var p := a.params;
    && ParamsValid(p)
    && a.operation in {"", "size", "rows", "cols", "search-col", "search-row"}
    && (a.operation == "rows" ==> HasInt(p, "rowStart") && HasInt(p, "rowEnd"))
    && (a.operation == "cols" ==> HasInt(p, "colStart") && HasInt(p, "colEnd"))
    && (a.operation == "search-col" ==> HasInt(p, "colIndex") && HasText(p, "keyword"))
    && (a.operation == "search-row" ==> HasInt(p, "rowIndex") && HasText(p, "keyword"))
  }

  /** Every parameter main reads for the chosen operation is present with the type it asserts. */
  predicate Complete(a: Args)
  {
    var p := a.params;
    && LoopInvariant(a)
    && (a.operation == "rows" ==> HasInt(p, "maxCols"))
    && (a.operation == "cols" ==> HasInt(p, "maxRows"))
    && (a.operation in {"search-col", "search-row"} ==> HasText(p, "mode") && HasInt(p, "limit"))
  }

  lemma RangeStepKeepsInvariant(args: seq<string>, i: nat, acc: Args, op: string, startKey: string, endKey: string,
                                 defStart: int, defEnd: int)
    requires LoopInvariant(acc) && acc.operation == "" && defStart >= 1 && defEnd >= 1
    requires (op == "rows" && startKey == "rowStart" && endKey == "rowEnd")
          || (op == "cols" && startKey == "colStart" && endKey == "colEnd")
    ensures RangeStep(args, i, acc, op, startKey, endKey, defStart, defEnd).Next?
    ensures LoopInvariant(RangeStep(args, i, acc, op, startKey, endKey, defStart, defEnd).acc)
  {
    var p := acc.params[startKey := PInt(defStart)][endKey := PInt(defEnd)];
    assert ParamsValid(p);
    var n1 := PositiveAt(args, i + 1);
    if n1.Some? {
      var p1 := p[startKey := PInt(1)][endKey := PInt(n1.value)];
      assert ParamsValid(p1);
      var n2 := PositiveAt(args, i + 2);
      if n2.Some? {
        assert ParamsValid(p1[startKey := PInt(n1.value)][endKey := PInt(n2.value)]);
      }
    }
  }

  lemma SearchStepKeepsInvariant(args: seq<string>, i: nat, acc: Args, op: string, indexKey: string,
                                 missingIndex: string, badIndex: string, missingKeyword: string)
    requires LoopInvariant(acc) && acc.operation == ""
    requires (op == "search-col" && indexKey == "colIndex") || (op == "search-row" && indexKey == "rowIndex")
    ensures var r := SearchStep(args, i, acc, op, indexKey, missingIndex, badIndex, missingKeyword);
            r.Next? ==> LoopInvariant(r.acc)
  {
  }

  lemma PositiveStepKeepsInvariant(args: seq<string>, i: nat, acc: Args, key: string, missing: string, bad: string)
    requires LoopInvariant(acc) && key in {"maxCols", "maxRows", "limit"}
    ensures var r := PositiveOptionStep(args, i, acc, key, missing, bad);
            r.Next? ==> LoopInvariant(r.acc)
  {
    if i + 1 < |args| {
      var n := Atoi(args[i + 1]);
      if n.Some? && n.value >= 1 {
        assert ParamsValid(acc.params[key := PInt(n.value)]);
      }
    }
  }

  lemma StepKeepsInvariant(args: seq<string>, i: nat, acc: Args)
    requires i < |args| && LoopInvariant(acc)
    ensures StepAt(args, i, acc).Next? ==> LoopInvariant(StepAt(args, i, acc).acc)
  {
    var arg := args[i];
    if arg == "--help" || arg == "-h" || arg == "--path" {
    } else if IsOperationFlag(arg) && acc.operation != "" {
    } else if arg == "--size" {
    } else if arg == "--rows" {
      RangeStepKeepsInvariant(args, i, acc, "rows", "rowStart", "rowEnd", RowsStartDefault, RowsEndDefault);
    } else if arg == "--cols" {
      RangeStepKeepsInvariant(args, i, acc, "cols", "colStart", "colEnd", ColsStartDefault, ColsEndDefault);
    } else if arg == "--search-col" {
      SearchStepKeepsInvariant(args, i, acc, "search-col", "colIndex", "--search-col 需要指定列索引",
                               "--search-col 需要指定有效的列索引(大于0的整数)", "--search-col 需要指定关键词");
    } else if arg == "--search-row" {
      SearchStepKeepsInvariant(args, i, acc, "search-row", "rowIndex", "--search-row 需要指定行索引",
                               "--search-row 需要指定有效的行索引(大于0的整数)", "--search-row 需要指定关键词");
    } else if arg == "--max-cols" {
      PositiveStepKeepsInvariant(args, i, acc, "maxCols", "--max-cols 需要指定数值", "--max-cols 需要指定大于0的整数");
    } else if arg == "--max-rows" {
      PositiveStepKeepsInvariant(args, i, acc, "maxRows", "--max-rows 需要指定数值", "--max-rows 需要指定大于0的整数");
    } else if arg == "--limit" {
      PositiveStepKeepsInvariant(args, i, acc, "limit", "--limit 需要指定数量", "--limit 需要指定大于0的整数");
    } else if arg == "--mode" {
      if i + 1 < |args| && (args[i + 1] == "fuzzy" || args[i + 1] == "exact" || args[i + 1] == "regex") {
        assert ParamsValid(acc.params["mode" := PText(args[i + 1])]);
      }
    }
  }

  lemma DefaultsComplete(a: Args)
    requires LoopInvariant(a)
    ensures Complete(WithDefaults(a))
  {
    var p0 := a.params;
    var p1 := if a.operation == "rows" && "maxCols" !in p0 then p0["maxCols" := PInt(MaxColsDefault)] else p0;
    assert ParamsValid(p1);
    var p2 := if a.operation == "cols" && "maxRows" !in p1 then p1["maxRows" := PInt(MaxRowsDefault)] else p1;
    assert ParamsValid(p2);
    var search := a.operation == "search-col" || a.operation == "search-row";
    var p3 := if search && "mode" !in p2 then p2["mode" := PText(SearchModeDefault)] else p2;
    assert ParamsValid(p3);
    var p4 := if search && "limit" !in p3 then p3["limit" := PInt(SearchLimitDefault)] else p3;
    assert ParamsValid(p4);
    assert WithDefaults(a).params == p4;
  }

  /** Whatever the arguments, a successful parse carries every parameter its operation needs,
      every integer is at least 1 and the mode is fuzzy, exact or regex. */
  lemma {:induction false} ParsedIsComplete(args: seq<string>, i: nat, acc: Args)
    requires LoopInvariant(acc)
    ensures ParseFrom(args, i, acc).Parsed? ==> Complete(ParseFrom(args, i, acc).args)
    decreases |args| - i
  {
    if i >= |args| {
      DefaultsComplete(acc);
    } else {
      StepKeepsInvariant(args, i, acc);
      match StepAt(args, i, acc)
      case Stop(o) =>
      case Next(j, a) => ParsedIsComplete(args, j, a);
    }
  }

  lemma ParseSpecComplete(args: seq<string>)
    ensures ParseSpec(args).Parsed? ==> Complete(ParseSpec(args).args)
  {
    ParsedIsComplete(args, 0, Empty);
  }

  /** An operation flag after an operation has been chosen is a parameter error (exit 2). */
  lemma SecondOperationFails(args: seq<string>, i: nat, acc: Args)
    requires i < |args| && IsOperationFlag(args[i]) && acc.operation != ""
    ensures ParseFrom(args, i, acc) == Exit(ExitParamError, OneOperationMessage)
  {
  }

  lemma {:induction false} TwoOperationsFail(path: string, first: string, second: string)
    requires first in {"--size", "--rows", "--cols"} && IsOperationFlag(second)
    ensures ParseSpec(["--path", path, first, second]) == Exit(ExitParamError, OneOperationMessage)
  {
    var args := ["--path", path, first, second];
    var a1 := Empty.(path := path);
    assert ParseSpec(args) == ParseFrom(args, 2, a1);
    assert !StartsWith(second, "--") == false by { assert second[..2] == "--"; }
    assert StepAt(args, 2, a1).Next? && StepAt(args, 2, a1).next == 3;
    SecondOperationFails(args, 3, StepAt(args, 2, a1).acc);
  }

  /** The operation and keys of the two range flags. */
  function RangeOp(flag: string): string { if flag == "--rows" then "rows" else "cols" }
  function StartKey(flag: string): string { if flag == "--rows" then "rowStart" else "colStart" }
  function EndKey(flag: string): string { if flag == "--rows" then "rowEnd" else "colEnd" }
  function LimitKey(flag: string): string { if flag == "--rows" then "maxCols" else "maxRows" }

  /** The parameters a range flag leaves: start, end and the 50-cell default limit. */
  function RangeParams(flag: string, start: int, end: int): map<string, Param>
  {
    map[StartKey(flag) := PInt(start), EndKey(flag) := PInt(end), LimitKey(flag) := PInt(50)]
  }

  lemma PathFirst(args: seq<string>)
    requires |args| >= 2 && args[0] == "--path"
    ensures ParseSpec(args) == ParseFrom(args, 2, Empty.(path := args[1]))
  {
  }

  lemma RangeFlagStep(args: seq<string>, i: nat, acc: Args)
    requires i < |args| && args[i] in {"--rows", "--cols"} && acc.operation == ""
    ensures StepAt(args, i, acc) == RangeStep(args, i, acc, RangeOp(args[i]), StartKey(args[i]), EndKey(args[i]), 1, 3)
  {
  }

  /** `--rows` (or `--cols`) with no number covers 1-3. */
  lemma {:induction false} RangeNoNumber(path: string, flag: string)
    requires flag in {"--rows", "--cols"}
    ensures ParseSpec(["--path", path, flag]) == Parsed(Args(path, RangeOp(flag), RangeParams(flag, 1, 3)))
  {
    var args := ["--path", path, flag];
    PathFirst(args);
    RangeFlagStep(args, 2, Empty.(path := path));
    assert WithDefaults(Args(path, RangeOp(flag), map[StartKey(flag) := PInt(1), EndKey(flag) := PInt(3)])).params
        == RangeParams(flag, 1, 3);
  }

  /** `--rows n` (or `--cols n`) with a positive n covers 1-n. */
  lemma {:induction false} RangeOneNumber(path: string, flag: string, a: string)
    requires flag in {"--rows", "--cols"} && Atoi(a).Some? && Atoi(a).value > 0
    ensures ParseSpec(["--path", path, flag, a]) == Parsed(Args(path, RangeOp(flag), RangeParams(flag, 1, Atoi(a).value)))
  {
    var args := ["--path", path, flag, a];
    NumberIsNotFlag(a);
    PathFirst(args);
    RangeFlagStep(args, 2, Empty.(path := path));
    assert PositiveAt(args, 3) == Atoi(a);
    var n := Atoi(a).value;
    assert WithDefaults(Args(path, RangeOp(flag), map[StartKey(flag) := PInt(1), EndKey(flag) := PInt(3)]
                                                  [StartKey(flag) := PInt(1)][EndKey(flag) := PInt(n)])).params
        == RangeParams(flag, 1, n);
  }

  /** `--rows a b` (or `--cols a b`) with positive a and b covers a-b. */
  lemma {:induction false} RangeTwoNumbers(path: string, flag: string, a: string, b: string)
    requires flag in {"--rows", "--cols"}
    requires Atoi(a).Some? && Atoi(a).value > 0 && Atoi(b).Some? && Atoi(b).value > 0
    ensures ParseSpec(["--path", path, flag, a, b])
         == Parsed(Args(path, RangeOp(flag), RangeParams(flag, Atoi(a).value, Atoi(b).value)))
  {
    var args := ["--path", path, flag, a, b];
    NumberIsNotFlag(a);
    NumberIsNotFlag(b);
    PathFirst(args);
    RangeFlagStep(args, 2, Empty.(path := path));
    assert PositiveAt(args, 3) == Atoi(a) && PositiveAt(args, 4) == Atoi(b);
    var n1, n2 := Atoi(a).value, Atoi(b).value;
    assert WithDefaults(Args(path, RangeOp(flag), map[StartKey(flag) := PInt(1), EndKey(flag) := PInt(3)]
                                                  [StartKey(flag) := PInt(1)][EndKey(flag) := PInt(n1)]
                                                  [StartKey(flag) := PInt(n1)][EndKey(flag) := PInt(n2)])).params
        == RangeParams(flag, n1, n2);
  }

  /** A string Atoi accepts never starts with "--". */
  lemma NumberIsNotFlag(s: string)
    ensures StartsWith(s, "--") ==> Atoi(s).None?
  {
    if StartsWith(s, "--") {
      assert s[0] == '-' && s[1..][0] == '-';
    }
  }

  /** A search with no --mode or --limit is a fuzzy search limited to 10 results. */
  lemma {:induction false} SearchDefaults(path: string, index: string, keyword: string)
    requires Atoi(index).Some? && Atoi(index).value >= 1 && !StartsWith(keyword, "--")
    ensures ParseSpec(["--path", path, "--search-col", index, keyword])
      == Parsed(Args(path, "search-col", map["colIndex" := PInt(Atoi(index).value), "keyword" := PText(keyword),
                                             "mode" := PText("fuzzy"), "limit" := PInt(10)]))
  {
    var args := ["--path", path, "--search-col", index, keyword];
    var a1 := Empty.(path := path);
    assert ParseSpec(args) == ParseFrom(args, 2, a1);
    assert ParseFrom(args, 2, a1) == ParseFrom(args, 5, Args(path, "search-col",
      map["colIndex" := PInt(Atoi(index).value), "keyword" := PText(keyword)]));
  }

  /** main: a path and an operation are both required (exit 2 otherwise). */
  function CheckRequired(a: Args): (r: Option<ParseOutcome>)
    ensures r.None? <==> a.path != "" && a.operation != ""
    ensures r.Some? ==> r.value.Exit? && r.value.code == ExitParamError
  {
    if a.path == "" then Some(Exit(ExitParamError, "必须指定文件路径 (--path 参数)"))
    else if a.operation == "" then Some(Exit(ExitParamError, "必须指定操作类型 (--size, --rows, --cols, --search-col, --search-row 之一)"))
    else None
  }
}
