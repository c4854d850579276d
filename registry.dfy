// The command-handler registry and the plugin-loading summary
// (UnitySkills/AgentCommands/Core/CommandHandlerRegistry.cs and
// PluginLoadResult.cs). Command types are compared ignoring case.
module Registry {
  import opened Wrappers
  import opened Text
  import opened JsonValues
  import opened Commands

  /** A command handler: params in, a result or a thrown exception out. */
  type Handler = Json -> Result<Json, Exception>

  const EmptyTypeMessage := "命令类型不能为空"
  const NullHandlerMessage := "处理器不能为null"

  /** The handler map after registering `t`: the entry for every spelling of `t` is replaced. */
  function WithHandler(handlers: map<string, Handler>, t: string, h: Handler): (m: map<string, Handler>)
    ensures forall u :: Lower(u) in m <==> Lower(u) in handlers || EqualsIgnoreCase(u, t)
    ensures Lower(t) in m && m[Lower(t)] == h
    ensures forall u :: Lower(u) in handlers && !EqualsIgnoreCase(u, t) ==> m[Lower(u)] == handlers[Lower(u)]
  {
    handlers[Lower(t) := h]
  }

  /** The command types the static constructor registers, in its order. */
  const BuiltinTypes: seq<string> := [
    "log.query", "prefab.queryHierarchy", "prefab.queryComponents",
    "prefab.setGameObjectProperties", "k3prefab.queryByK3Id", "k3prefab.setComponentProperties"]

  /** The registrations the static constructor's initializer performs: built-in type i with builtins[i]. */
  function BuiltinRegistrations(builtins: seq<Handler>): (regs: seq<(string, Handler)>)
    requires |builtins| == |BuiltinTypes|
    ensures |regs| == |BuiltinTypes|
    ensures forall i :: 0 <= i < |regs| ==> regs[i] == (BuiltinTypes[i], builtins[i])
  {
    seq(|BuiltinTypes|, i requires 0 <= i < |BuiltinTypes| => (BuiltinTypes[i], builtins[i]))
  }

  /** The dictionary the static constructor builds. */
  function InitialHandlers(builtins: seq<Handler>): map<string, Handler>
    requires |builtins| == |BuiltinTypes|
  {
    RegisterAll(map[], BuiltinRegistrations(builtins))
  }

  /** Types whose lengths differ are different commands ignoring case. */
  lemma DistinctByLength(types: seq<string>)
    requires forall i, j :: 0 <= i < j < |types| ==> |types[i]| != |types[j]|
    ensures forall i, j :: 0 <= i < j < |types| ==> !EqualsIgnoreCase(types[i], types[j])
  {
  }

  /** The initial dictionary holds exactly the six built-in types, ignoring case, each with its own handler. */
  lemma InitialHandlersMeaning(builtins: seq<Handler>)
    requires |builtins| == |BuiltinTypes|
    ensures forall u :: Lower(u) in InitialHandlers(builtins) <==>
              exists i :: 0 <= i < |BuiltinTypes| && EqualsIgnoreCase(BuiltinTypes[i], u)
    ensures forall i :: 0 <= i < |BuiltinTypes| ==>
              Lower(BuiltinTypes[i]) in InitialHandlers(builtins) && InitialHandlers(builtins)[Lower(BuiltinTypes[i])] == builtins[i]
  {
    var regs := BuiltinRegistrations(builtins);
    forall u ensures Lower(u) in InitialHandlers(builtins) <==>
                     exists i :: 0 <= i < |BuiltinTypes| && EqualsIgnoreCase(BuiltinTypes[i], u)
    {
      RegisteredFrom(map[], regs, u);
    }
    forall i | 0 <= i < |BuiltinTypes|
      ensures Lower(BuiltinTypes[i]) in InitialHandlers(builtins) && InitialHandlers(builtins)[Lower(BuiltinTypes[i])] == builtins[i]
    {
      InitialEntry(builtins, i, BuiltinTypes[i]);
    }
  }

  /** Any spelling u of built-in type k finds that type's handler in the initial dictionary. */
  lemma InitialEntry(builtins: seq<Handler>, k: nat, u: string)
    requires |builtins| == |BuiltinTypes| && k < |BuiltinTypes| && EqualsIgnoreCase(BuiltinTypes[k], u)
    ensures Lower(u) in InitialHandlers(builtins) && InitialHandlers(builtins)[Lower(u)] == builtins[k]
  {
    DistinctByLength(BuiltinTypes);
    LastRegistrationWinsFrom(map[], BuiltinRegistrations(builtins), k, u);
  }

  class CommandHandlerRegistry {
    /** The dictionary, keyed by the lower-cased command type (StringComparer.OrdinalIgnoreCase). */
    var handlers: map<string, Handler>

    /** The static constructor: the registry starts with the six built-in handlers. */
    constructor (builtins: seq<Handler>)
      requires |builtins| == |BuiltinTypes|
      ensures handlers == InitialHandlers(builtins)
    {
      handlers := InitialHandlers(builtins);
    }

    /** IsRegistered: some spelling of the type was registered. */
    predicate IsRegistered(commandType: string)
      reads this
    {
      Lower(commandType) in handlers
    }

    /** Register: an empty type or a null handler throws; otherwise the entry is added or overwritten. */
    method Register(commandType: string, handler: Option<Handler>) returns (thrown: Option<Exception>)
      modifies this
      ensures commandType == "" ==> thrown == Some(Exception(ArgumentException, EmptyTypeMessage)) && handlers == old(handlers)
      ensures commandType != "" && handler.None? ==>
                thrown == Some(Exception(ArgumentException, NullHandlerMessage)) && handlers == old(handlers)
      ensures commandType != "" && handler.Some? ==>
                thrown.None? && handlers == WithHandler(old(handlers), commandType, handler.value)
    {
      if commandType == "" {
        return Some(Exception(ArgumentException, EmptyTypeMessage));
      }
      if handler.None? {
        return Some(Exception(ArgumentException, NullHandlerMessage));
      }
      handlers := WithHandler(handlers, commandType, handler.value);
      thrown := None;
    }

    /** Execute: the registered handler's outcome, or NotSupportedException prefixed UNKNOWN_TYPE. */
    function Execute(commandType: string, parameters: Json): (r: Result<Json, Exception>)
      reads this
      ensures IsRegistered(commandType) ==> r == handlers[Lower(commandType)](parameters)
      ensures !IsRegistered(commandType) ==> r == Failure(UnknownTypeException(commandType))
    {
      if Lower(commandType) in handlers then handlers[Lower(commandType)](parameters)
      else Failure(UnknownTypeException(commandType))
    }
  }

  /** The exception Execute throws for an unregistered type. */
  function UnknownTypeException(commandType: string): (e: Exception)
    ensures e.kind == NotSupportedException && StartsWith(e.message, UnknownTypeCode + ": ")
    ensures e.message[|UnknownTypeCode + ": "|..] == commandType
  {
    Exception(NotSupportedException, UnknownTypeCode + ": " + commandType)
  }

  /** The handler map after a sequence of successful registrations, in order. */
  function RegisterAll(handlers: map<string, Handler>, regs: seq<(string, Handler)>): map<string, Handler>
    decreases |regs|
  {
    if regs == [] then handlers
    else WithHandler(RegisterAll(handlers, regs[..|regs| - 1]), regs[|regs| - 1].0, regs[|regs| - 1].1)
  }

  /** From any start, a type is registered exactly when it was already there or some registration named it. */
  lemma {:induction false} RegisteredFrom(start: map<string, Handler>, regs: seq<(string, Handler)>, u: string)
    ensures Lower(u) in RegisterAll(start, regs) <==>
              Lower(u) in start || exists i :: 0 <= i < |regs| && EqualsIgnoreCase(regs[i].0, u)
    decreases |regs|
  {
    if regs != [] {
      var init := regs[..|regs| - 1];
      RegisteredFrom(start, init, u);
      if exists i :: 0 <= i < |init| && EqualsIgnoreCase(init[i].0, u) {
        var i :| 0 <= i < |init| && EqualsIgnoreCase(init[i].0, u);
        assert regs[i] == init[i];
      }
      if exists i :: 0 <= i < |regs| && EqualsIgnoreCase(regs[i].0, u) {
        var i :| 0 <= i < |regs| && EqualsIgnoreCase(regs[i].0, u);
        if i < |init| {
          assert init[i] == regs[i];
        }
      }
    }
  }

  /** From any start, the last registration of a type decides its handler. */
  lemma {:induction false} LastRegistrationWinsFrom(start: map<string, Handler>, regs: seq<(string, Handler)>, i: nat, u: string)
    requires i < |regs| && EqualsIgnoreCase(regs[i].0, u)
    requires forall j :: i < j < |regs| ==> !EqualsIgnoreCase(regs[j].0, u)
    ensures Lower(u) in RegisterAll(start, regs) && RegisterAll(start, regs)[Lower(u)] == regs[i].1
    decreases |regs|
  {
    if i < |regs| - 1 {
      LastRegistrationWinsFrom(start, regs[..|regs| - 1], i, u);
    }
  }

  /** After the static constructor and any registrations, IsRegistered(u) holds exactly when u is a
      built-in type or some registration named it, in any letter case. */
  lemma RegisteredIff(builtins: seq<Handler>, regs: seq<(string, Handler)>, u: string)
    requires |builtins| == |BuiltinTypes|
    ensures Lower(u) in RegisterAll(InitialHandlers(builtins), regs) <==>
              (exists i :: 0 <= i < |BuiltinTypes| && EqualsIgnoreCase(BuiltinTypes[i], u)) ||
              (exists i :: 0 <= i < |regs| && EqualsIgnoreCase(regs[i].0, u))
  {
    InitialHandlersMeaning(builtins);
    RegisteredFrom(InitialHandlers(builtins), regs, u);
  }

  /** After the static constructor, the last registration of a type decides its handler. */
  lemma LastRegistrationWins(builtins: seq<Handler>, regs: seq<(string, Handler)>, i: nat, u: string)
    requires |builtins| == |BuiltinTypes|
    requires i < |regs| && EqualsIgnoreCase(regs[i].0, u)
    requires forall j :: i < j < |regs| ==> !EqualsIgnoreCase(regs[j].0, u)
    ensures Lower(u) in RegisterAll(InitialHandlers(builtins), regs)
    ensures RegisterAll(InitialHandlers(builtins), regs)[Lower(u)] == regs[i].1
  {
    LastRegistrationWinsFrom(InitialHandlers(builtins), regs, i, u);
  }

  /** A built-in type that no registration names keeps its built-in handler. */
  lemma BuiltinKept(builtins: seq<Handler>, regs: seq<(string, Handler)>, k: nat, u: string)
    requires |builtins| == |BuiltinTypes|
    requires k < |BuiltinTypes| && EqualsIgnoreCase(BuiltinTypes[k], u)
    requires forall j :: 0 <= j < |regs| ==> !EqualsIgnoreCase(regs[j].0, u)
    ensures Lower(u) in RegisterAll(InitialHandlers(builtins), regs)
    ensures RegisterAll(InitialHandlers(builtins), regs)[Lower(u)] == builtins[k]
  {
    var initial := InitialHandlers(builtins);
    var key := Lower(u);
    assert key in initial && initial[key] == builtins[k] by {
      InitialEntry(builtins, k, u);
    }
    UnchangedWithout(initial, regs, u);
  }

  /** Registrations that never name u leave its entry alone. */
  lemma {:induction false} UnchangedWithout(start: map<string, Handler>, regs: seq<(string, Handler)>, u: string)
    requires Lower(u) in start
    requires forall j :: 0 <= j < |regs| ==> !EqualsIgnoreCase(regs[j].0, u)
    ensures Lower(u) in RegisterAll(start, regs) && RegisterAll(start, regs)[Lower(u)] == start[Lower(u)]
    decreases |regs|
  {
    if regs != [] {
      UnchangedWithout(start, regs[..|regs| - 1], u);
    }
  }

  /** PluginLoadResult: the fields GetStatusSummary reads. */
  datatype PluginLoadResult = PluginLoadResult(
    isFrameworkFunctional: bool, coreCommandsLoaded: bool, criticalFailure: bool,
    successfulPlugins: seq<string>, failedPlugins: map<string, string>)

  const CriticalSummary := "CRITICAL: 核心命令加载失败,框架不可用"
  const WarningSummary := "WARNING: 框架不可用,核心命令未正确注册"

  /** GetStatusSummary: a critical failure wins, then a non-functional framework, else the success ratio. */
  function GetStatusSummary(r: PluginLoadResult): (s: string)
    ensures r.criticalFailure ==> s == CriticalSummary
    ensures !r.criticalFailure && !r.isFrameworkFunctional ==> s == WarningSummary
    ensures StartsWith(s, "OK: ") <==> !r.criticalFailure && r.isFrameworkFunctional
    ensures !r.criticalFailure && r.isFrameworkFunctional ==>
              Contains(s, IntToString(|r.successfulPlugins|) + "/" + IntToString(|r.successfulPlugins| + |r.failedPlugins|))
  {
    assert CriticalSummary[0] == 'C' && WarningSummary[0] == 'W';
    if r.criticalFailure then CriticalSummary
    else if !r.isFrameworkFunctional then WarningSummary
    else
      var ratio := IntToString(|r.successfulPlugins|) + "/" + IntToString(|r.successfulPlugins| + |r.failedPlugins|);
      InfixContained("OK: 框架可用, 成功加载", ratio, "个插件");
      "OK: 框架可用, 成功加载" + ratio + "个插件"
  }
}
