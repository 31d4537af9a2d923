/** The reserved names of the Jesse trading framework and the rule that
    namespaces every other instance-level name with the strategy's name. */
module Naming {

  /** `JESSE_GLOBAL_FUNCTIONS`: framework helpers and the callback protocol. */
  const JesseGlobalFunctions: seq<string> := [
    "get_candles", "log", "notify", "index_to_timestamp", "timestamp_to_index",
    "anchor_timeframe", "crossed", "crossed_above", "crossed_below", "numpy_candles",
    "get_trading_exchanges", "get_position_exchanges", "get_all_exchanges",
    "terminate_session", "store_indicator_value", "get_indicator_value",
    "liquidate", "add_line_to_candle_chart", "add_line_to_chart", "add_extra_line_chart",
    "hyperparameters", "before", "after", "should_long", "should_short", "on_open_position",
    "on_close_position", "update_position", "should_cancel_entry", "go_long", "go_short", "__init__"
  ]

  /** `JESSE_GLOBAL_ATTRIBUTES`, with its repeated entries kept as written. */
  const JesseGlobalAttributes: seq<string> := [
    "active_strategy", "balance", "price", "time", "candles",
    "position", "hp", "available_margin", "position", "index",
    "is_long", "is_short", "order", "is_open", "hp", "exchange",
    "symbol", "sell", "buy", "take_profit", "stop_loss", "stop_loss_price",
    "timeframe", "index", "fee_rate", "close", "open", "high", "low",
    "current_candle"
  ]

  /** `FUNCTIONS_TO_ADD_IF`: callbacks whose merged body runs a module's code
      only while that module owns the trade. */
  const FunctionsToAddIf: seq<string> := [
    "on_open_position", "on_close_position", "update_position", "should_cancel_entry", "go_long", "go_short"
  ]

  /** Membership in `JESSE_GLOBAL_ATTRIBUTES + JESSE_GLOBAL_FUNCTIONS`; the
      three visitors test the same concatenation. */
  predicate IsReserved(name: string) {
    name in JesseGlobalAttributes + JesseGlobalFunctions
  }

  predicate IsGated(name: string) {
    name in FunctionsToAddIf
  }

  /** Python's `name.startswith(prefix)`. */
  predicate StartsWith(name: string, prefix: string) {
    |prefix| <= |name| && name[..|prefix|] == prefix
  }

  function PrefixOf(strategy: string): string {
    strategy + "_"
  }

  /** The renaming rule shared by `visit_Attribute`, `visit_FunctionDef` and
      `visit_Call`: prefix with `<strategy>_` unless the name is reserved or
      already carries that prefix. */
  function Rename(strategy: string, name: string): (r: string)
    ensures r != name <==> !IsReserved(name) && !StartsWith(name, PrefixOf(strategy))
    ensures r != name ==> r == PrefixOf(strategy) + name
    ensures StartsWith(r, PrefixOf(strategy)) || IsReserved(name)
  {
    if IsReserved(name) || StartsWith(name, PrefixOf(strategy)) then name
    else
      assert (PrefixOf(strategy) + name)[..|PrefixOf(strategy)|] == PrefixOf(strategy);
      PrefixOf(strategy) + name
  }

  /** Renaming twice is renaming once. */
  lemma RenameIdempotent(strategy: string, name: string)
    ensures Rename(strategy, Rename(strategy, name)) == Rename(strategy, name)
  {
  }

  /** Every protocol callback, and so every gated callback, keeps its name. */
  lemma ProtocolNamesKept(strategy: string, name: string)
    requires name in JesseGlobalFunctions || IsGated(name)
    ensures Rename(strategy, name) == name
  {
    assert IsGated(name) ==> name in JesseGlobalFunctions;
  }

  /** Two distinct names that are neither reserved nor already prefixed stay distinct. */
  lemma RenameInjective(strategy: string, a: string, b: string)
    requires !IsReserved(a) && !StartsWith(a, PrefixOf(strategy))
    requires !IsReserved(b) && !StartsWith(b, PrefixOf(strategy))
    requires Rename(strategy, a) == Rename(strategy, b)
    ensures a == b
  {
    var p := PrefixOf(strategy);
    assert a == (p + a)[|p|..];
    assert b == (p + b)[|p|..];
  }

  /** The prefix rule alone does not keep a helper clear of the callback
      protocol: a strategy called `go` whose helper is `self.long` gets
      `go_long`, a gated callback name. */
  lemma RenameCanReachProtocolName()
    ensures Rename("go", "long") == "go_long" && IsGated(Rename("go", "long"))
  {
    forall i | 0 <= i < |JesseGlobalAttributes + JesseGlobalFunctions|
      ensures (JesseGlobalAttributes + JesseGlobalFunctions)[i] != "long"
    {
      var w := (JesseGlobalAttributes + JesseGlobalFunctions)[i];
      assert |w| != 4 || w[0] != 'l';
    }
    assert "long"[..3] != "go_" by { assert "long"[0] != "go_"[0]; }
  }

  /** Renaming is not injective on names that already carry the prefix: in
      a strategy called `go`, a helper `x` and a helper `go_x` both end up
      as `go_x`. */
  lemma RenameCollidesWithPrefixed()
    ensures Rename("go", "x") == Rename("go", "go_x") == "go_x"
  {
    forall i | 0 <= i < |JesseGlobalAttributes + JesseGlobalFunctions|
      ensures (JesseGlobalAttributes + JesseGlobalFunctions)[i] != "x"
    {
      var w := (JesseGlobalAttributes + JesseGlobalFunctions)[i];
      assert |w| != 1;
    }
    assert "x"[..0] == [];
    assert StartsWith("go_x", PrefixOf("go")) by { assert "go_x"[..3] == "go_"; }
  }
}
