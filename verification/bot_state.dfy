/**
 * The bot state writer of the trading dashboard: each bot keeps one JSON
 * state file, layered over an in-memory default state, and every change goes
 * through a write that stamps `last_update`.
 *
 * The file on disk is a field of the writer: absent, holding a JSON object,
 * or present but not parseable. The clock is a parameter of each operation
 * and is read once per call. An operation that raises in the source returns
 * `Raised` here and changes nothing.
 */
module BotState {
  import opened Wrappers
  import opened Json

  /** The state file of one bot, as the writer finds it on disk. */
  datatype StateFile = Absent | Holds(rec: Record) | Unparsable

  /** Why an operation raised. */
  datatype Failure =
    | UnparsableStateFile  // json.loads on a file that is not JSON
    | UnhashableStatus     // a list or object as `status` cannot be looked up in the colour table
    | NonNumericCounter    // a trade counter or pnl that `+` rejects

  datatype Outcome = Ok(state: Record) | Raised(failure: Failure)

  const CounterKeys: set<string> := {"trades_total", "trades_24h", "pnl_total", "pnl_24h"}

  /**
   * The dashboard colour of a status: green for running/active, red for
   * stopped/error, gray for offline, yellow for anything else that can be
   * looked up; a list or object status has no colour (the lookup raises).
   */
  function StatusColor(status: Value): (c: Option<string>)
    ensures c.None? <==> status.Arr? || status.Obj?
    ensures c == Some("green") <==> status == Str("running") || status == Str("active")
    ensures c == Some("red") <==> status == Str("stopped") || status == Str("error")
    ensures c == Some("gray") <==> status == Str("offline")
    ensures c.Some? ==> c.value in {"green", "yellow", "red", "gray"}
  {
    match status
    case Arr(_) => None
    case Obj(_) => None
    case Str(s) =>
      if s == "running" || s == "active" then Some("green")
      else if s == "initializing" || s == "paused" then Some("yellow")
      else if s == "stopped" || s == "error" then Some("red")
      else if s == "offline" then Some("gray")
      else Some("yellow")
    case _ => Some("yellow")
  }

  /** The default state of a new writer, before any write stamps it. */
  function DefaultState(botId: string, botName: string): (rec: Record)
    ensures rec.Keys == {"bot_id", "bot_name", "status", "status_color", "pnl_total", "pnl_24h", "trades_total",
                         "trades_24h", "position", "last_update", "last_error", "uptime_seconds", "version"}
    ensures rec["status"] == Str("initializing") && rec["status_color"] == Str("yellow")
    ensures forall k :: k in CounterKeys ==> rec[k] == Num(0)
    ensures rec["last_update"] == Null && rec["position"] == Null && rec["last_error"] == Null
    ensures rec["uptime_seconds"] == Num(0) && rec["version"] == Str("1.0.0")
    ensures rec["bot_id"] == Str(botId) && rec["bot_name"] == Str(botName)
  {
    map[
      "bot_id" := Str(botId),
      "bot_name" := Str(botName),
      "status" := Str("initializing"),
      "status_color" := Str("yellow"),
      "pnl_total" := Num(0),
      "pnl_24h" := Num(0),
      "trades_total" := Num(0),
      "trades_24h" := Num(0),
      "position" := Null,
      "last_update" := Null,
      "last_error" := Null,
      "uptime_seconds" := Num(0),
      "version" := Str("1.0.0")
    ]
  }

  /** Python's `bot_name or bot_id`: a missing or empty name falls back to the id. */
  function DisplayName(botId: string, botName: Option<string>): (name: string)
    ensures botName.Some? && botName.value != "" ==> name == botName.value
    ensures botName.None? || botName.value == "" ==> name == botId
  {
    if botName.Some? && botName.value != "" then botName.value else botId
  }

  /**
   * What `update` returns for a writer with these defaults and this file:
   * defaults, overlaid by the stored record, overlaid by the updates; then the
   * colour of the resulting status and the `last_update` stamp.
   */
  function UpdateResult(defaults: Record, file: StateFile, updates: Record, now: string): (o: Outcome)
    ensures o.Raised? <==>
      file.Unparsable? || StatusColor(GetOr(Layered(defaults, file, updates), "status", Str("unknown"))).None?
    ensures o.Ok? ==> o.state.Keys == Layered(defaults, file, updates).Keys + {"status_color", "last_update"}
  {
    if file.Unparsable? then Raised(UnparsableStateFile)
    else
      var current := Layered(defaults, file, updates);
      match StatusColor(GetOr(current, "status", Str("unknown")))
      case None => Raised(UnhashableStatus)
      case Some(color) => Ok(Stamped(current["status_color" := Str(color)], now))
  }

  /** What `_write` stores: the record with `last_update` set to the time of the write. */
  function Stamped(state: Record, now: string): Record {
    state["last_update" := Str(now)]
  }

  /** `current = defaults.copy(); current.update(stored); current.update(updates)`. */
  function Layered(defaults: Record, file: StateFile, updates: Record): Record {
    defaults + (if file.Holds? then file.rec else map[]) + updates
  }

  /**
   * Precedence of `update`: a key given in the updates takes that value, then
   * the stored record, then the defaults; `status_color` is the colour of the
   * resulting status and `last_update` the time of the write.
   */
  lemma UpdatePrecedence(defaults: Record, file: StateFile, updates: Record, now: string)
    requires UpdateResult(defaults, file, updates, now).Ok?
    ensures var s := UpdateResult(defaults, file, updates, now).state;
      && (forall k :: k in s && k != "status_color" && k != "last_update" ==>
            s[k] == if k in updates then updates[k]
                    else if file.Holds? && k in file.rec then file.rec[k]
                    else defaults[k])
      && s["status_color"] == Str(StatusColor(GetOr(Layered(defaults, file, updates), "status", Str("unknown"))).value)
      && s["last_update"] == Str(now)
  {
  }

  /** `set_paused` on a readable (or absent) file writes `paused`, coloured yellow. */
  lemma SetPausedColour(defaults: Record, file: StateFile, now: string)
    requires !file.Unparsable?
    ensures var o := UpdateResult(defaults, file, map["status" := Str("paused")], now);
            o.Ok? && o.state["status"] == Str("paused") && o.state["status_color"] == Str("yellow")
  {
  }

  /** `set_stopped` on a readable (or absent) file writes `stopped`, coloured red. */
  lemma SetStoppedColour(defaults: Record, file: StateFile, now: string)
    requires !file.Unparsable?
    ensures var o := UpdateResult(defaults, file, map["status" := Str("stopped")], now);
            o.Ok? && o.state["status"] == Str("stopped") && o.state["status_color"] == Str("red")
  {
  }

  /** `set_error` on a readable (or absent) file writes `error`, coloured red, with the message. */
  lemma SetErrorColour(defaults: Record, file: StateFile, message: string, now: string)
    requires !file.Unparsable?
    ensures var o := UpdateResult(defaults, file, map["status" := Str("error"), "last_error" := Str(message)], now);
            o.Ok? && o.state["status"] == Str("error") && o.state["status_color"] == Str("red")
            && o.state["last_error"] == Str(message)
  {
  }

  /**
   * `set_running` on a readable (or absent) file writes `running`, coloured
   * green, unless an extra field overrides the status.
   */
  lemma SetRunningColour(defaults: Record, file: StateFile, extra: Option<Record>, now: string)
    requires !file.Unparsable?
    requires extra.None? || "status" !in extra.value
    ensures var o := UpdateResult(defaults, file, RunningUpdates(extra), now);
            o.Ok? && o.state["status"] == Str("running") && o.state["status_color"] == Str("green")
  {
    assert "status" in RunningUpdates(extra) && RunningUpdates(extra)["status"] == Str("running");
  }

  /** The numeric value `current.get(key, 0)` contributes to `+`, if `+` accepts it (a bool counts as 0 or 1). */
  function CountOf(rec: Record, key: string): (n: Option<int>)
    ensures key !in rec ==> n == Some(0)
    ensures key in rec && rec[key].Num? ==> n == Some(rec[key].n)
    ensures key in rec && rec[key].Bool? ==> n == Some(if rec[key].b then 1 else 0)
    ensures n.None? <==> key in rec && !rec[key].Num? && !rec[key].Bool?
  {
    if key !in rec then Some(0)
    else match rec[key]
      case Num(n) => Some(n)
      case Bool(b) => Some(if b then 1 else 0)
      case _ => None
  }

  predicate CountersNumeric(rec: Record) {
    && CountOf(rec, "trades_total").Some? && CountOf(rec, "trades_24h").Some?
    && CountOf(rec, "pnl_total").Some? && CountOf(rec, "pnl_24h").Some?
  }

  /**
   * The changes `record_trade` makes to `current` before writing it; `None`
   * when a counter is not a number.
   */
  function TradeResult(current: Record, pnl: int, side: string, now: string): (r: Option<Record>)
    ensures r.Some? <==> CountersNumeric(current)
  {
    if !CountersNumeric(current) then None
    else
      Some(current["trades_total" := Num(CountOf(current, "trades_total").value + 1)]
                  ["trades_24h" := Num(CountOf(current, "trades_24h").value + 1)]
                  ["pnl_total" := Num(CountOf(current, "pnl_total").value + pnl)]
                  ["pnl_24h" := Num(CountOf(current, "pnl_24h").value + pnl)]
                  ["last_trade" := Obj(map["time" := Str(now), "pnl" := Num(pnl), "side" := Str(side)])])
  }

  /**
   * A trade adds one to both trade counters and `pnl` to both totals and
   * records the trade; every other field, `status_color` included, is left as
   * it was.
   */
  lemma TradeResultFields(current: Record, pnl: int, side: string, now: string)
    requires CountersNumeric(current)
    ensures var r := TradeResult(current, pnl, side, now).value;
      && r.Keys == current.Keys + CounterKeys + {"last_trade"}
      && (forall k :: k in current && k !in CounterKeys && k != "last_trade" ==> r[k] == current[k])
      && CountOf(r, "trades_total") == Some(CountOf(current, "trades_total").value + 1)
      && CountOf(r, "trades_24h") == Some(CountOf(current, "trades_24h").value + 1)
      && CountOf(r, "pnl_total") == Some(CountOf(current, "pnl_total").value + pnl)
      && CountOf(r, "pnl_24h") == Some(CountOf(current, "pnl_24h").value + pnl)
      && r["last_trade"] == Obj(map["time" := Str(now), "pnl" := Num(pnl), "side" := Str(side)])
      && CountersNumeric(r)
  {
  }

  /** What the writer's default dictionary keeps through every operation. */
  predicate DefaultsHold(rec: Record, botId: string, botName: string) {
    && "bot_id" in rec && rec["bot_id"] == Str(botId)
    && "bot_name" in rec && rec["bot_name"] == Str(botName)
    && "status" in rec && rec["status"] == Str("initializing")
    && CountersNumeric(rec)
  }

  /** A trade written through the default dictionary keeps what the defaults promise. */
  lemma TradeKeepsDefaults(defaults: Record, botId: string, botName: string, pnl: int, side: string, now: string)
    requires DefaultsHold(defaults, botId, botName)
    ensures TradeResult(defaults, pnl, side, now).Some?
    ensures DefaultsHold(Stamped(TradeResult(defaults, pnl, side, now).value, now), botId, botName)
  {
    TradeResultFields(defaults, pnl, side, now);
  }

  /** What `record_trade` returns: the stored record if there is one, else the default state, updated. */
  function TradeOutcome(defaults: Record, file: StateFile, pnl: int, side: string, now: string): (o: Outcome)
    ensures file.Unparsable? ==> o == Raised(UnparsableStateFile)
    ensures file.Absent? ==> (o.Raised? <==> !CountersNumeric(defaults))
    ensures file.Holds? ==> (o.Raised? <==> !CountersNumeric(file.rec))
    ensures o.Raised? && !file.Unparsable? ==> o.failure == NonNumericCounter
    ensures o.Ok? ==> o.state == Stamped(TradeResult(if file.Holds? then file.rec else defaults, pnl, side, now).value, now)
  {
    match file
    case Unparsable => Raised(UnparsableStateFile)
    case Absent => if CountersNumeric(defaults) then Ok(Stamped(TradeResult(defaults, pnl, side, now).value, now)) else Raised(NonNumericCounter)
    case Holds(rec) => if CountersNumeric(rec) then Ok(Stamped(TradeResult(rec, pnl, side, now).value, now)) else Raised(NonNumericCounter)
  }

  /** The `position` value `update_position` stores: null without a side. */
  function PositionValue(side: Option<string>, size: int, entryPrice: Option<int>, now: string): (v: Value)
    ensures side.None? <==> v == Null
    ensures side.Some? ==> v.Obj? && v.fields.Keys == {"side", "size", "entry_price", "opened_at"}
    ensures side.Some? ==> v.fields["side"] == Str(side.value) && v.fields["size"] == Num(size)
    ensures side.Some? ==> v.fields["entry_price"] == (if entryPrice.Some? then Num(entryPrice.value) else Null)
    ensures side.Some? ==> v.fields["opened_at"] == Str(now)
  {
    if side.None? then Null
    else Obj(map[
      "side" := Str(side.value),
      "size" := Num(size),
      "entry_price" := if entryPrice.Some? then Num(entryPrice.value) else Null,
      "opened_at" := Str(now)])
  }

  /** The updates `set_running` applies: `status: running`, overridden by any extra field. */
  function RunningUpdates(extraFields: Option<Record>): (r: Record)
    ensures r.Keys == {"status"} + (if extraFields.Some? then extraFields.value.Keys else {})
    ensures r["status"] == if extraFields.Some? && "status" in extraFields.value then extraFields.value["status"] else Str("running")
    ensures extraFields.Some? ==> forall k :: k in extraFields.value ==> r[k] == extraFields.value[k]
  {
    if extraFields.Some? && extraFields.value != map[] then map["status" := Str("running")] + extraFields.value
    else map["status" := Str("running")]
  }

  class BotStateWriter {
    const botId: string
    const botName: string
    /** The writer's own default dictionary; the first write and a trade without a file change it in place. */
    var defaultState: Record
    /** The bot's state file on disk. */
    var stateFile: StateFile

    /**
     * The default state keeps the writer's id and name and the `initializing`
     * status, and its counters stay numbers, so a trade recorded without a
     * file never raises.
     */
    ghost predicate Valid()
      reads this
    {
      DefaultsHold(defaultState, botId, botName)
    }

    /** A writer for `botId`; when its state file does not exist, the stamped default state is written. */
    constructor (botId: string, botName: Option<string>, existing: StateFile, now: string)
      ensures Valid()
      ensures this.botId == botId && this.botName == DisplayName(botId, botName)
      ensures existing.Absent? ==> defaultState == DefaultState(botId, this.botName)["last_update" := Str(now)]
      ensures !existing.Absent? ==> defaultState == DefaultState(botId, this.botName)
      ensures stateFile == if existing.Absent? then Holds(defaultState) else existing
    {
      this.botId := botId;
      this.botName := DisplayName(botId, botName);
      var defaults := DefaultState(botId, DisplayName(botId, botName));
      if existing.Absent? {
        defaults := defaults["last_update" := Str(now)];
        defaultState := defaults;
        stateFile := Holds(defaults);
      } else {
        defaultState := defaults;
        stateFile := existing;
      }
    }

    /** `_write`: stamp `last_update` into the record and replace the file with it. */
    method Write(state: Record, now: string) returns (written: Record)
      modifies this
      ensures written == Stamped(state, now)
      ensures stateFile == Holds(written) && defaultState == old(defaultState)
    {
      written := Stamped(state, now);
      stateFile := Holds(written);
    }

    /** `update`: layer the updates over the stored state and the defaults, colour the status, write. */
    method Update(updates: Record, now: string) returns (out: Outcome)
      requires Valid()
      modifies this
      ensures Valid() && defaultState == old(defaultState)
      ensures out == UpdateResult(old(defaultState), old(stateFile), updates, now)
      ensures stateFile == if out.Ok? then Holds(out.state) else old(stateFile)
    {
      if stateFile.Unparsable? {
        return Raised(UnparsableStateFile);
      }
      var current := Layered(defaultState, stateFile, updates);
      var color := StatusColor(GetOr(current, "status", Str("unknown")));
      if color.None? {
        return Raised(UnhashableStatus);
      }
      current := current["status_color" := Str(color.value)];
      var written := Write(current, now);
      out := Ok(written);
    }

    method SetRunning(extraFields: Option<Record>, now: string) returns (out: Outcome)
      requires Valid()
      modifies this
      ensures Valid() && defaultState == old(defaultState)
      ensures out == UpdateResult(old(defaultState), old(stateFile), RunningUpdates(extraFields), now)
      ensures stateFile == if out.Ok? then Holds(out.state) else old(stateFile)
    {
      var updates := map["status" := Str("running")];
      if extraFields.Some? && extraFields.value != map[] {
        updates := updates + extraFields.value;
      }
      out := Update(updates, now);
    }

    method SetError(errorMessage: string, now: string) returns (out: Outcome)
      requires Valid()
      modifies this
      ensures Valid() && defaultState == old(defaultState)
      ensures out == UpdateResult(old(defaultState), old(stateFile),
                                  map["status" := Str("error"), "last_error" := Str(errorMessage)], now)
      ensures stateFile == if out.Ok? then Holds(out.state) else old(stateFile)
    {
      out := Update(map["status" := Str("error"), "last_error" := Str(errorMessage)], now);
    }

    method SetPaused(now: string) returns (out: Outcome)
      requires Valid()
      modifies this
      ensures Valid() && defaultState == old(defaultState)
      ensures out == UpdateResult(old(defaultState), old(stateFile), map["status" := Str("paused")], now)
      ensures stateFile == if out.Ok? then Holds(out.state) else old(stateFile)
    {
      out := Update(map["status" := Str("paused")], now);
    }

    method SetStopped(now: string) returns (out: Outcome)
      requires Valid()
      modifies this
      ensures Valid() && defaultState == old(defaultState)
      ensures out == UpdateResult(old(defaultState), old(stateFile), map["status" := Str("stopped")], now)
      ensures stateFile == if out.Ok? then Holds(out.state) else old(stateFile)
    {
      out := Update(map["status" := Str("stopped")], now);
    }

    /**
     * `record_trade`: bump the trade counters and pnl totals, record the trade,
     * write. Without a state file the default dictionary itself is updated and
     * written, so the writer's defaults carry the trade from then on.
     */
    method RecordTrade(pnl: int, side: string, now: string) returns (out: Outcome)
      requires Valid()
      modifies this
      ensures Valid()
      ensures out == TradeOutcome(old(defaultState), old(stateFile), pnl, side, now)
      ensures old(stateFile).Absent? ==> out.Ok? && defaultState == out.state
      ensures !old(stateFile).Absent? ==> defaultState == old(defaultState)
      ensures stateFile == if out.Ok? then Holds(out.state) else old(stateFile)
    {
      if stateFile.Unparsable? {
        return Raised(UnparsableStateFile);
      }
      var current := if stateFile.Holds? then stateFile.rec else defaultState;
      var traded := TradeResult(current, pnl, side, now);
      if traded.None? {
        return Raised(NonNumericCounter);
      }
      var wasDefault := stateFile.Absent?;
      var written := Write(traded.value, now);
      if wasDefault {
        TradeKeepsDefaults(current, botId, botName, pnl, side, now);
        defaultState := written;
      }
      out := Ok(written);
    }

    method UpdatePosition(side: Option<string>, size: int, entryPrice: Option<int>, now: string) returns (out: Outcome)
      requires Valid()
      modifies this
      ensures Valid() && defaultState == old(defaultState)
      ensures out == UpdateResult(old(defaultState), old(stateFile), map["position" := PositionValue(side, size, entryPrice, now)], now)
      ensures stateFile == if out.Ok? then Holds(out.state) else old(stateFile)
    {
      out := Update(map["position" := PositionValue(side, size, entryPrice, now)], now);
    }

    /** `get_state`: the stored record, or a copy of the defaults when there is no file. */
    method GetState() returns (out: Outcome)
      requires Valid()
      ensures stateFile.Holds? ==> out == Ok(stateFile.rec)
      ensures stateFile.Absent? ==> out == Ok(defaultState)
      ensures stateFile.Unparsable? ==> out == Raised(UnparsableStateFile)
    {
      match stateFile
      case Holds(rec) => out := Ok(rec);
      case Absent => out := Ok(defaultState);
      case Unparsable => out := Raised(UnparsableStateFile);
    }

    /** Deleting the state file from outside the writer (as the module's own demo does at its end). */
    method DeleteStateFile()
      modifies this
      ensures stateFile == Absent && defaultState == old(defaultState)
    {
      stateFile := Absent;
    }
  }

  /**
   * The default dictionary is shared with the first trade recorded while the
   * bot has no state file: after that trade and a deletion of the file, the
   * writer reports the traded defaults rather than fresh ones.
   */
  method TradeWithoutFileSurvivesDeletion(created: string, traded: string) returns (after: Outcome)
    ensures after.Ok?
    ensures CountOf(after.state, "trades_total") == Some(1) && CountOf(after.state, "pnl_total") == Some(5)
    ensures "last_update" in after.state && after.state["last_update"] == Str(traded)
  {
    var w := new BotStateWriter("test_bot", Some("Test Market Maker"), Absent, created);
    ghost var defaults := w.defaultState;
    assert CountOf(defaults, "trades_total") == Some(0) && CountOf(defaults, "pnl_total") == Some(0);
    w.DeleteStateFile();
    var trade := w.RecordTrade(5, "long", traded);
    TradeResultFields(defaults, 5, "long", traded);
    assert w.defaultState == Stamped(TradeResult(defaults, 5, "long", traded).value, traded);
    w.DeleteStateFile();
    after := w.GetState();
  }
}
