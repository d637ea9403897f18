/**
 * The module state of the logger (src/index.ts:31-147): the current registry, replaced by
 * `logSetRegistry`/`logNewRegistry` and changed in place by `logAddKey`/`logAddKeys`, and the
 * line-writing `log` with its four fixed-level wrappers.
 */
module Logger {
  import opened Wrappers
  import opened Levels
  import opened Keys
  import opened Policy

  /** A registry: a `Map` object from keys to thresholds, shared by reference. */
  class Registry {
    var entries: Entries

    /** `new Map()`: an empty registry. */
    constructor ()
      ensures entries == map[]
    {
      entries := map[];
    }

    /** `Map.get`. */
    method Get(key: LogKey) returns (r: Option<LogLevel>)
      ensures r.Some? <==> key in entries
      ensures r.Some? ==> r.value == entries[key]
    {
      if key in entries {
        r := Some(entries[key]);
      } else {
        r := None;
      }
    }

    /** `Map.set`: overwrite or insert one entry. */
    method Set(key: LogKey, level: LogLevel)
      modifies this
      ensures entries == old(entries)[key := level]
    {
      entries := entries[key := level];
    }
  }

  /**
   * The logger's process-wide state: which registry is current, and the lines written to the
   * console so far. `D` is the type of the caller's data arguments, passed through untouched.
   */
  class Logger<D> {
    var current: Registry
    var written: seq<LogLine<D>>

    /** Module load: a fresh empty registry is current and nothing has been written. */
    constructor ()
      ensures fresh(current) && current.entries == map[]
      ensures written == []
    {
      current := new Registry();
      written := [];
    }

    /** `logGetRegistry`: the current registry itself, not a copy. */
    method GetRegistry() returns (r: Registry)
      ensures r == current
    {
      r := current;
    }

    /** `logSetRegistry`: make `r` current, discarding the previous registry object. */
    method SetRegistry(r: Registry)
      modifies this
      ensures current == r
      ensures written == old(written)
    {
      current := r;
    }

    /** `logNewRegistry`: install and return a new empty registry. */
    method NewRegistry() returns (r: Registry)
      modifies this
      ensures fresh(r) && r.entries == map[]
      ensures current == r
      ensures written == old(written)
    {
      current := new Registry();
      r := current;
    }

    /** `logAddKey`: insert an absent key; a present key keeps the lower of its levels. */
    method AddKey(key: LogKey, level: LogLevel)
      modifies current
      ensures current.entries == Merge(old(current.entries), key, level)
    {
      var registered := current.Get(key);
      if registered.None? {
        current.Set(key, level);
      } else {
        current.Set(key, Min(level, registered.value));
      }
    }

    /** `logAddKeys`: `logAddKey` for each pair, in list order. */
    method AddKeys(list: seq<(LogKey, LogLevel)>)
      modifies current
      ensures current.entries == MergeAll(old(current.entries), list)
    {
      for i := 0 to |list|
        invariant current.entries == MergeAll(old(current.entries), list[..i])
      {
        var (key, level) := list[i];
        AddKey(key, level);
        assert list[..i + 1][..i] == list[..i];
      }
      assert list[..|list|] == list;
    }

    /**
     * `log`: write one line if `key` is registered with a threshold at most `level`; the
     * registry is only read.
     */
    method Log(key: LogKey, level: MessageLevel, data: seq<D>)
      modifies this`written
      ensures written == old(written) + Emission(current.entries, key, level, data)
    {
      var registered := current.Get(key);
      if registered.Some? && Le(registered.value, level) {
        var levelDisplay := Display(level);
        var keyDisplay := KeyDisplay(key);
        written := written + [LogLine(levelDisplay + ":", keyDisplay + ":", data)];
      }
    }

    /** `logDebug`. */
    method LogDebug(key: LogKey, data: seq<D>)
      modifies this`written
      ensures written == old(written) + Emission(current.entries, key, Debug, data)
    {
      Log(key, Debug, data);
    }

    /** `logInfo`. */
    method LogInfo(key: LogKey, data: seq<D>)
      modifies this`written
      ensures written == old(written) + Emission(current.entries, key, Info, data)
    {
      Log(key, Info, data);
    }

    /** `logWarn`. */
    method LogWarn(key: LogKey, data: seq<D>)
      modifies this`written
      ensures written == old(written) + Emission(current.entries, key, Warn, data)
    {
      Log(key, Warn, data);
    }

    /** `logError`. */
    method LogError(key: LogKey, data: seq<D>)
      modifies this`written
      ensures written == old(written) + Emission(current.entries, key, Error, data)
    {
      Log(key, Error, data);
    }
  }

  /**
   * Saving and restoring a registry: a new registry is a different object from the one it
   * replaces, and setting the old one back makes it current again.
   */
  method SaveAndRestore(first: Registry) returns (second: Registry, restored: Registry)
    ensures second != first
    ensures restored == first
  {
    var logger := new Logger<string>();
    logger.SetRegistry(first);
    var saved := logger.GetRegistry();
    second := logger.NewRegistry();
    logger.SetRegistry(saved);
    restored := logger.GetRegistry();
  }

  /**
   * A key registered at `Warn` drops an `Info` message and writes its `Warn` and `Error`
   * messages as "Warn:", "net:", then the data.
   */
  method WarnThresholdScenario() returns (lines: seq<LogLine<string>>)
    ensures lines == [LogLine("Warn:", "net:", ["slow"]), LogLine("Error:", "net:", ["fail"])]
  {
    var logger := new Logger<string>();
    var _ := logger.NewRegistry();
    var net := new LogKey(Named("net"));
    logger.AddKey(net, Warn);
    assert logger.current.entries == map[net := Warn];
    logger.LogInfo(net, ["connecting"]);
    assert logger.written == [];
    logger.LogWarn(net, ["slow"]);
    assert logger.written == [LogLine("Warn" + ":", "net" + ":", ["slow"])];
    logger.LogError(net, ["fail"]);
    lines := logger.written;
    assert lines == [LogLine("Warn" + ":", "net" + ":", ["slow"]), LogLine("Error" + ":", "net" + ":", ["fail"])];
    assert "Warn" + ":" == "Warn:" && "Error" + ":" == "Error:" && "net" + ":" == "net:";
  }

  /**
   * Keys are told apart by reference: a second key with the same name as a registered one is
   * not registered, and nothing is written for it.
   */
  method IdentityScenario() returns (lines: seq<LogLine<string>>)
    ensures lines == [LogLine("Error:", "key0:", ["x"])]
  {
    var logger := new Logger<string>();
    var key, twin := TwinKeys(Named("key0"));
    logger.AddKeys([(key, Debug)]);
    assert logger.current.entries == map[key := Debug] by {
      assert [(key, Debug)][..0] == [];
    }
    logger.LogError(twin, ["y"]);
    assert logger.written == [];
    logger.LogError(key, ["x"]);
    lines := logger.written;
    assert lines == [LogLine("Error" + ":", "key0" + ":", ["x"])];
    assert "Error" + ":" == "Error:" && "key0" + ":" == "key0:";
  }
}
