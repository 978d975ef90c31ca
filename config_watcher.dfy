/** internal/config/config_watcher.go: completion of the flexible time formats
    accepted in configuration files, the generic handler that re-reads a
    configuration when it changes, and the watcher's registry of handlers. */
module ConfigWatch {
  import opened Wrappers

  // ---------------------------------------------------------------------------
  // parseFlexibleTime
  // ---------------------------------------------------------------------------

  const EmptyTimeError: string := "time string is empty"

  function InvalidTimeFormat(s: string): string {
    "invalid time format: " + s
  }

  /** The two local-time layouts, differing only in the separator at index 10. */
  const LayoutT: string := "2006-01-02T15:04:05"
  const LayoutSpace: string := "2006-01-02 15:04:05"

  /** The time of day a date alone is completed with. */
  const Midnight: string := " 00:00:00"

  predicate IsSeparator(c: char) {
    c == 'T' || c == ' '
  }

  /** The lengths completion accepts: a date, and a date with hours, minutes or
      seconds after a 'T' or ' ' separator. */
  predicate Completable(s: string) {
    |s| == 10 || ((|s| == 13 || |s| == 16 || |s| == 19) && IsSeparator(s[10]))
  }

  /** The auto-completion step of parseFlexibleTime: the 19-character string to
      parse in local time and the layout to parse it with. */
  function CompleteTime(s: string): (r: Result<(string, string), string>)
    ensures r.Ok? <==> Completable(s)
    ensures r.Err? ==> r.error == InvalidTimeFormat(s)
    ensures r.Ok? ==>
      var (completed, layout) := r.value;
      |completed| == 19 && |layout| == 19 &&
      completed[..|s|] == s && completed[|s|..] == Midnight[|s| - 10..] &&
      (layout == LayoutT || layout == LayoutSpace) && layout[10] == completed[10]
  {
    var completed: Result<(string, string), string> :=
      if |s| == 10 then Ok((s + Midnight, " "))
      else if |s| == 13 || |s| == 16 || |s| == 19 then
        if IsSeparator(s[10]) then Ok((s + Midnight[|s| - 10..], [s[10]]))
        else Err(InvalidTimeFormat(s))
      else Err(InvalidTimeFormat(s));
    match completed
    case Err(e) => Err(e)
    case Ok((completeStr, separator)) =>
      var layout := if separator == " " then LayoutSpace else LayoutT;
      Ok((completeStr, layout))
  }

  /** parseFlexibleTime over a time type T. `parseRfc3339` and `parseNoSeconds`
      are time.Parse with the RFC 3339 layout (section 5.6 of RFC 3339) and with
      "2006-01-02T15:04-07:00"; `parseLocal` is time.ParseInLocation in the
      server's time zone. */
  function ParseFlexibleTime<T>(s: string, parseRfc3339: string -> Option<T>, parseNoSeconds: string -> Option<T>,
                                parseLocal: (string, string) -> Result<T, string>): (r: Result<T, string>)
    ensures s == [] ==> r == Err(EmptyTimeError)
    ensures s != [] && parseRfc3339(s).Some? ==> r == Ok(parseRfc3339(s).value)
    ensures s != [] && parseRfc3339(s).None? && parseNoSeconds(s).Some? ==> r == Ok(parseNoSeconds(s).value)
    ensures s != [] && parseRfc3339(s).None? && parseNoSeconds(s).None? && !Completable(s) ==>
      r == Err(InvalidTimeFormat(s))
    ensures s != [] && parseRfc3339(s).None? && parseNoSeconds(s).None? && Completable(s) ==>
      CompleteTime(s).Ok? && r == parseLocal(CompleteTime(s).value.1, CompleteTime(s).value.0)
  {
    if s == [] then Err(EmptyTimeError)
    else if parseRfc3339(s).Some? then Ok(parseRfc3339(s).value)
    else if parseNoSeconds(s).Some? then Ok(parseNoSeconds(s).value)
    else
      match CompleteTime(s)
      case Err(e) => Err(e)
      case Ok((completeStr, layout)) => parseLocal(layout, completeStr)
  }

  /** The completions the test table expects. */
  lemma CompletionExamples()
    ensures CompleteTime("2024-01-01") == Ok(("2024-01-01 00:00:00", LayoutSpace))
    ensures CompleteTime("2024-01-01T00") == Ok(("2024-01-01T00:00:00", LayoutT))
    ensures CompleteTime("2024-01-01T00:00") == Ok(("2024-01-01T00:00:00", LayoutT))
    ensures CompleteTime("2024-01-01 00:00") == Ok(("2024-01-01 00:00:00", LayoutSpace))
    ensures CompleteTime("2024-01-01 00:00:00") == Ok(("2024-01-01 00:00:00", LayoutSpace))
    ensures CompleteTime("2024-01-01X00").Err?
  {
    assert "2024-01-01" + Midnight == "2024-01-01 00:00:00";
    assert "2024-01-01T00"[10] == 'T' && "2024-01-01T00" + Midnight[3..] == "2024-01-01T00:00:00";
    assert "2024-01-01T00:00"[10] == 'T' && "2024-01-01T00:00" + Midnight[6..] == "2024-01-01T00:00:00";
    assert "2024-01-01 00:00"[10] == ' ' && "2024-01-01 00:00" + Midnight[6..] == "2024-01-01 00:00:00";
    assert "2024-01-01 00:00:00"[10] == ' ' && "2024-01-01 00:00:00" + Midnight[9..] == "2024-01-01 00:00:00";
    assert "2024-01-01X00"[10] == 'X';
  }

  /** Completing an already complete local time changes nothing. */
  lemma CompletionIdempotent(s: string)
    requires CompleteTime(s).Ok?
    ensures CompleteTime(CompleteTime(s).value.0) == CompleteTime(s)
  {
    var (c, layout) := CompleteTime(s).value;
    if |s| == 10 {
      assert c[10] == Midnight[0];
    } else {
      assert c[10] == c[..|s|][10] == s[10];
    }
    assert Midnight[9..] == [];
    assert c == c + Midnight[9..];
  }

  // ---------------------------------------------------------------------------
  // GenericConfigHandler
  // ---------------------------------------------------------------------------

  const ConfigTypeNotInitialized: string := "failed to create config instance: config type not initialized"

  function UnmarshalFailure(e: string): string {
    "failed to unmarshal config: " + e
  }

  /** GenericConfigHandler over the configuration type C. */
  class GenericConfigHandler<C> {
    const dataId: string
    /** The cached configuration; `None` is a nil configPtr. */
    var config: Option<C>
    /** Whether an onChange callback was supplied. */
    const hasOnChange: bool
    /** The configurations handed to the onChange callback so far, in order. */
    var notified: seq<C>

    constructor (dataId: string, configType: Option<C>, hasOnChange: bool)
      ensures this.dataId == dataId && config == configType
      ensures this.hasOnChange == hasOnChange && notified == []
    {
      this.dataId := dataId;
      config := configType;
      this.hasOnChange := hasOnChange;
      notified := [];
    }

    /** OnChange: decodes `data` into a fresh instance of the configuration
        type (`unmarshal` is the YAML decoder, whose time fields go through
        parseFlexibleTime); on success the cache is replaced and the callback,
        if any, is called with the new configuration. On any failure nothing
        changes and the callback is not called. */
    method OnChange(data: string, unmarshal: string -> Result<C, string>) returns (err: Option<string>)
      modifies this
      ensures old(config).None? ==> err == Some(ConfigTypeNotInitialized)
      ensures old(config).Some? && unmarshal(data).Err? ==> err == Some(UnmarshalFailure(unmarshal(data).error))
      ensures err.Some? ==> config == old(config) && notified == old(notified)
      ensures err.None? <==> old(config).Some? && unmarshal(data).Ok?
      ensures err.None? ==> config == Some(unmarshal(data).value)
      ensures err.None? ==> notified == old(notified) + (if hasOnChange then [unmarshal(data).value] else [])
    {
      if config.None? {
        return Some(ConfigTypeNotInitialized);
      }
      var newConfig := unmarshal(data);
      if newConfig.Err? {
        return Some(UnmarshalFailure(newConfig.error));
      }
      config := Some(newConfig.value);
      if hasOnChange {
        notified := notified + [newConfig.value];
      }
      return None;
    }
  }

  // ---------------------------------------------------------------------------
  // ConfigWatcher
  // ---------------------------------------------------------------------------

  const NilHandlerError: string := "handler cannot be nil"
  const EmptyDataIdError: string := "dataId cannot be empty"
  const NotConnectedError: string := "nacos client is not connected"
  const NoHandlersError: string := "no handlers registered"

  function AlreadyRegistered(dataId: string): string {
    "handler for dataId " + dataId + " already registered"
  }

  function WatchFailure(dataId: string, e: string): string {
    "failed to start watching for " + dataId + ": failed to listen for config changes: " + e
  }

  /** ConfigWatcher: the registry of handlers by data id, the connection flag,
      and the data ids the configuration client has been asked to listen to. */
  class ConfigWatcher<C> {
    var handlers: map<string, GenericConfigHandler<C>>
    var isConnected: bool
    var listening: set<string>

    /** NewConfigWatcher: connected exactly when a client was given. */
    constructor (hasClient: bool)
      ensures handlers == map[] && isConnected == hasClient && listening == {}
    {
      handlers := map[];
      isConnected := hasClient;
      listening := {};
    }

    /** RegisterHandler: adds exactly one entry, for a non-nil handler with a
        non-empty data id not registered yet; otherwise reports why and leaves
        the registry as it was. */
    method RegisterHandler(handler: GenericConfigHandler?<C>) returns (err: Option<string>)
      modifies this
      ensures handler == null ==> err == Some(NilHandlerError)
      ensures handler != null && handler.dataId == [] ==> err == Some(EmptyDataIdError)
      ensures handler != null && handler.dataId != [] && handler.dataId in old(handlers) ==>
        err == Some(AlreadyRegistered(handler.dataId))
      ensures err.None? <==> handler != null && handler.dataId != [] && handler.dataId !in old(handlers)
      ensures err.None? ==> handlers == old(handlers)[handler.dataId := handler]
      ensures err.Some? ==> handlers == old(handlers)
      ensures isConnected == old(isConnected) && listening == old(listening)
    {
      if handler == null {
        return Some(NilHandlerError);
      }
      var dataId := handler.dataId;
      if dataId == [] {
        return Some(EmptyDataIdError);
      }
      if dataId in handlers {
        return Some(AlreadyRegistered(dataId));
      }
      handlers := handlers[dataId := handler];
      return None;
    }

    /** GetHandler: the handler registered for `dataId`, if any. */
    method GetHandler(dataId: string) returns (handler: GenericConfigHandler?<C>, found: bool)
      ensures found <==> dataId in handlers
      ensures found ==> handler == handlers[dataId]
      ensures !found ==> handler == null
    {
      if dataId in handlers {
        return handlers[dataId], true;
      }
      return null, false;
    }

    /** GetAllHandlers: a copy of the registry, filled entry by entry. */
    method GetAllHandlers() returns (result: map<string, GenericConfigHandler<C>>)
      ensures result == handlers
    {
      result := map[];
      var rest := handlers.Keys;
      while rest != {}
        invariant rest <= handlers.Keys
        invariant forall k :: k in result <==> k in handlers && k !in rest
        invariant forall k :: k in result ==> result[k] == handlers[k]
        decreases |rest|
      {
        var k :| k in rest;
        result := result[k := handlers[k]];
        rest := rest - {k};
      }
      assert result.Keys == handlers.Keys;
    }

    /** StartWatching: requires a connection and at least one handler, then asks
        the client to listen to every registered data id, in the map's
        unspecified order, stopping at the first refusal. `listen` gives the
        client's error for a data id, if it refuses it. */
    method StartWatching(listen: string -> Option<string>) returns (err: Option<string>)
      modifies this
      ensures !old(isConnected) ==> err == Some(NotConnectedError)
      ensures old(isConnected) && handlers == map[] ==> err == Some(NoHandlersError)
      ensures old(isConnected) && handlers != map[] ==>
        (err.None? <==> forall id :: id in handlers ==> listen(id).None?)
      ensures err.None? ==> listening == old(listening) + handlers.Keys
      ensures err.Some? && old(isConnected) && handlers != map[] ==>
        exists id :: id in handlers && listen(id).Some? && err.value == WatchFailure(id, listen(id).value)
      ensures old(listening) <= listening <= old(listening) + handlers.Keys
      ensures !old(isConnected) || handlers == map[] ==> listening == old(listening)
      ensures handlers == old(handlers) && isConnected == old(isConnected)
    {
      if !isConnected {
        return Some(NotConnectedError);
      }
      if |handlers| == 0 {
        assert handlers == map[];
        return Some(NoHandlersError);
      }
      assert handlers != map[];
      var rest := handlers.Keys;
      while rest != {}
        invariant handlers == old(handlers) && isConnected == old(isConnected)
        invariant rest <= handlers.Keys
        invariant listening == old(listening) + (handlers.Keys - rest)
        invariant forall id :: id in handlers && id !in rest ==> listen(id).None?
        decreases |rest|
      {
        var dataId :| dataId in rest;
        var e := listen(dataId);
        if e.Some? {
          return Some(WatchFailure(dataId, e.value));
        }
        listening := listening + {dataId};
        rest := rest - {dataId};
      }
      return None;
    }

    function IsConnected(): bool
      reads this
    {
      isConnected
    }

    /** Close: marks the watcher disconnected; the registry stays. */
    method Close() returns (err: Option<string>)
      modifies this
      ensures err.None? && !isConnected
      ensures handlers == old(handlers) && listening == old(listening)
    {
      isConnected := false;
      return None;
    }
  }

  /** Once closed, a watcher refuses to start watching, whatever it holds. */
  method CloseThenStart<C>(w: ConfigWatcher<C>, listen: string -> Option<string>) returns (err: Option<string>)
    modifies w
    ensures err == Some(NotConnectedError)
    ensures w.handlers == old(w.handlers) && w.listening == old(w.listening)
  {
    var _ := w.Close();
    err := w.StartWatching(listen);
  }
}
