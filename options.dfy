/**
 * The script's option table and its start-up initialisation: every option
 * that the host's plugin configuration does not hold yet gets its default,
 * and the table entry is replaced by the (possibly converted) stored value.
 */
module Options {
  import opened Wrappers
  import PyInt

  /** The optional third element of a table entry: `int`, or none (identity). */
  datatype Transform = Identity | ToInt

  /** A table entry as declared: default, description and transform. */
  datatype OptionSpec = OptionSpec(defaultValue: string, description: string, transform: Transform)

  /** What a transform produces from the stored string. */
  datatype Value = Text(text: string) | Number(number: int)

  /** An entry of the table: still the declaration, or the resolved value that replaced it. */
  datatype Entry = Declared(spec: OptionSpec) | Resolved(value: Value)

  /** The table as the script declares it. */
  function DeclaredOptions(): map<string, Entry>
  {
    map[
      "userkey" := Declared(OptionSpec("", "User key for pushover.net (required)", Identity)),
      "apptoken" := Declared(OptionSpec("", "App token for pushover.net (required)", Identity)),
      "sound" := Declared(OptionSpec("default", "Sound to request pushover use", Identity)),
      "timeout" := Declared(OptionSpec("5000", "How long to wait for pushover to accept a message", ToInt))
    ]
  }

  predicate AllDeclared(table: map<string, Entry>)
  {
    forall name :: name in table ==> table[name].Declared?
  }

  /** The declarations of a table none of whose entries is resolved yet. */
  function Specs(table: map<string, Entry>): (specs: map<string, OptionSpec>)
    requires AllDeclared(table)
    ensures specs.Keys == table.Keys
    ensures forall name :: name in table ==> table[name] == Declared(specs[name])
  {
    map name | name in table :: table[name].spec
  }

  /** Applying a transform; `None` stands for the ValueError `int` raises. */
  function Apply(t: Transform, stored: string): Option<Value>
  {
    match t
    case Identity => Some(Text(stored))
    case ToInt =>
      match PyInt.ParseInt(stored)
      case Some(n) => Some(Number(n))
      case None => None
  }

  /** The value the host holds for an option once it has been initialised. */
  function StoredValue(config: map<string, string>, specs: map<string, OptionSpec>, name: string): string
    requires name in specs
  {
    if name in config then config[name] else specs[name].defaultValue
  }

  /** The host store after every declared option missing from it got its default. */
  function FillDefaults(config: map<string, string>, specs: map<string, OptionSpec>): (filled: map<string, string>)
    ensures filled.Keys == config.Keys + specs.Keys
    ensures forall name :: name in config ==> filled[name] == config[name]
    ensures forall name :: name in specs ==> filled[name] == StoredValue(config, specs, name)
  {
    map name | name in config.Keys + specs.Keys ::
      if name in config then config[name] else specs[name].defaultValue
  }

  /** Whether the transform of every option succeeds on its stored value. */
  predicate Resolvable(config: map<string, string>, specs: map<string, OptionSpec>)
  {
    forall name :: name in specs ==> Apply(specs[name].transform, StoredValue(config, specs, name)).Some?
  }

  /** What the entry of one option becomes: its transformed stored value. */
  function ResolvedEntry(config: map<string, string>, specs: map<string, OptionSpec>, name: string): Entry
    requires name in specs
    requires Apply(specs[name].transform, StoredValue(config, specs, name)).Some?
  {
    Resolved(Apply(specs[name].transform, StoredValue(config, specs, name)).value)
  }

  /** The whole table once every option is resolved. */
  function ResolvedTable(config: map<string, string>, specs: map<string, OptionSpec>): (table: map<string, Entry>)
    requires Resolvable(config, specs)
    ensures table.Keys == specs.Keys
  {
    map name | name in specs :: ResolvedEntry(config, specs, name)
  }

  /** The settings `notify` reads from the table. */
  datatype Settings = Settings(userKey: string, appToken: string, sound: string, timeout: int)

  predicate HoldsText(table: map<string, Entry>, name: string)
  {
    name in table && table[name].Resolved? && table[name].value.Text?
  }

  predicate HoldsNumber(table: map<string, Entry>, name: string)
  {
    name in table && table[name].Resolved? && table[name].value.Number?
  }

  /** The settings a resolved table holds, if its four entries have the expected kinds. */
  function SettingsOf(table: map<string, Entry>): Option<Settings>
  {
    if HoldsText(table, "userkey") && HoldsText(table, "apptoken") && HoldsText(table, "sound")
       && HoldsNumber(table, "timeout")
    then Some(Settings(table["userkey"].value.text, table["apptoken"].value.text,
                       table["sound"].value.text, table["timeout"].value.number))
    else None
  }

  /**
   * With the script's own table, initialisation fails exactly when the stored
   * `timeout` is not an integer.
   */
  lemma ResolvableIffTimeoutParses(config: map<string, string>)
    ensures Resolvable(config, Specs(DeclaredOptions()))
        <==> PyInt.ParseInt(StoredValue(config, Specs(DeclaredOptions()), "timeout")).Some?
  {
    var specs := Specs(DeclaredOptions());
    assert specs["timeout"].transform == ToInt;
    forall name | name in specs && name != "timeout" ensures specs[name].transform == Identity {
    }
  }

  /**
   * A resolved table of the script's own options gives `notify` the stored
   * user key, app token and sound unchanged and the stored timeout as an integer.
   */
  lemma SettingsOfResolved(config: map<string, string>)
    requires PyInt.ParseInt(StoredValue(config, Specs(DeclaredOptions()), "timeout")).Some?
    ensures Resolvable(config, Specs(DeclaredOptions()))
    ensures var specs := Specs(DeclaredOptions());
      SettingsOf(ResolvedTable(config, specs)) == Some(Settings(
        StoredValue(config, specs, "userkey"), StoredValue(config, specs, "apptoken"),
        StoredValue(config, specs, "sound"),
        PyInt.ParseInt(StoredValue(config, specs, "timeout")).value))
  {
    ResolvableIffTimeoutParses(config);
    var specs := Specs(DeclaredOptions());
    var table := ResolvedTable(config, specs);
    TextEntry(config, specs, "userkey");
    TextEntry(config, specs, "apptoken");
    TextEntry(config, specs, "sound");
    NumberEntry(config, specs, "timeout");
    SettingsOfEntries(table, StoredValue(config, specs, "userkey"), StoredValue(config, specs, "apptoken"),
      StoredValue(config, specs, "sound"), PyInt.ParseInt(StoredValue(config, specs, "timeout")).value);
  }

  /** An option without a transform resolves to its stored string. */
  lemma TextEntry(config: map<string, string>, specs: map<string, OptionSpec>, name: string)
    requires Resolvable(config, specs) && name in specs && specs[name].transform == Identity
    ensures name in ResolvedTable(config, specs)
    ensures ResolvedTable(config, specs)[name] == Resolved(Text(StoredValue(config, specs, name)))
  {
  }

  /** An option with the `int` transform resolves to the integer its stored string denotes. */
  lemma NumberEntry(config: map<string, string>, specs: map<string, OptionSpec>, name: string)
    requires Resolvable(config, specs) && name in specs && specs[name].transform == ToInt
    ensures PyInt.ParseInt(StoredValue(config, specs, name)).Some?
    ensures name in ResolvedTable(config, specs)
    ensures ResolvedTable(config, specs)[name]
      == Resolved(Number(PyInt.ParseInt(StoredValue(config, specs, name)).value))
  {
  }

  /** A table whose four entries hold these values gives exactly these settings. */
  lemma SettingsOfEntries(table: map<string, Entry>, userKey: string, appToken: string, sound: string, timeout: int)
    requires "userkey" in table && table["userkey"] == Resolved(Text(userKey))
    requires "apptoken" in table && table["apptoken"] == Resolved(Text(appToken))
    requires "sound" in table && table["sound"] == Resolved(Text(sound))
    requires "timeout" in table && table["timeout"] == Resolved(Number(timeout))
    ensures SettingsOf(table) == Some(Settings(userKey, appToken, sound, timeout))
  {
  }

  /**
   * On a host that holds none of the options, initialisation succeeds and
   * yields empty credentials, the sound "default" and a 5000 ms timeout.
   */
  lemma FirstStartSettings()
    ensures Resolvable(map[], Specs(DeclaredOptions()))
    ensures SettingsOf(ResolvedTable(map[], Specs(DeclaredOptions()))) == Some(Settings("", "", "default", 5000))
  {
    var specs := Specs(DeclaredOptions());
    assert StoredValue(map[], specs, "timeout") == "5000";
    DefaultTimeoutParses();
    SettingsOfResolved(map[]);
  }

  /** The declared default of `timeout` is the integer 5000. */
  lemma DefaultTimeoutParses()
    ensures PyInt.ParseInt("5000") == Some(5000)
  {
    assert PyInt.NatToString(5) == "5";
    assert PyInt.NatToString(50) == "50";
    assert PyInt.NatToString(500) == "500";
    assert PyInt.NatToString(5000) == "5000";
    PyInt.ParseIntOfString(5000);
  }

  /** Initialising a second time leaves the host store as the first time left it. */
  lemma FillDefaultsIdempotent(config: map<string, string>, specs: map<string, OptionSpec>)
    ensures FillDefaults(FillDefaults(config, specs), specs) == FillDefaults(config, specs)
  {
  }

  /**
   * The host store once the loop has visited the options in `done`: those
   * options were added if missing, and nothing else changed.
   */
  predicate StoreVisited(config0: map<string, string>, specs: map<string, OptionSpec>,
                         done: set<string>, config: map<string, string>)
    requires done <= specs.Keys
  {
    && config.Keys == config0.Keys + done
    && forall k :: k in config ==> config[k] == FillDefaults(config0, specs)[k]
  }

  /**
   * The table once the loop has visited the options in `done`: those entries
   * hold their resolved values, the others are still declarations.
   */
  predicate TableVisited(config0: map<string, string>, specs: map<string, OptionSpec>,
                         done: set<string>, options: map<string, Entry>)
  {
    && options.Keys == specs.Keys
    && forall k :: k in specs ==>
         if k in done then
           Apply(specs[k].transform, StoredValue(config0, specs, k)).Some?
           && options[k] == ResolvedEntry(config0, specs, k)
         else options[k] == Declared(specs[k])
  }

  /** Visiting one more option stores its default if it was missing. */
  lemma StoreVisit(config0: map<string, string>, specs: map<string, OptionSpec>,
                   done: set<string>, config: map<string, string>, name: string)
    requires done <= specs.Keys && name in specs && name !in done
    requires StoreVisited(config0, specs, done, config)
    ensures var config' := if name in config then config else config[name := specs[name].defaultValue];
      && StoreVisited(config0, specs, done + {name}, config')
      && config'[name] == StoredValue(config0, specs, name)
  {
  }

  /** Visiting one more option replaces its entry by its resolved value. */
  lemma TableVisit(config0: map<string, string>, specs: map<string, OptionSpec>,
                   done: set<string>, options: map<string, Entry>, name: string)
    requires name in specs && TableVisited(config0, specs, done, options)
    requires Apply(specs[name].transform, StoredValue(config0, specs, name)).Some?
    ensures TableVisited(config0, specs, done + {name},
      options[name := Resolved(Apply(specs[name].transform, StoredValue(config0, specs, name)).value)])
  {
  }

  /** Once every option is visited, the store is filled in and the table resolved. */
  lemma AllVisited(config0: map<string, string>, specs: map<string, OptionSpec>,
                   config: map<string, string>, options: map<string, Entry>)
    requires StoreVisited(config0, specs, specs.Keys, config)
    requires TableVisited(config0, specs, specs.Keys, options)
    ensures config == FillDefaults(config0, specs)
    ensures Resolvable(config0, specs) && options == ResolvedTable(config0, specs)
  {
  }

  /** What the option loop stopped on: nothing, or the ValueError of one option's `int`. */
  datatype InitOutcome = Completed | ValueError(option: string)

  /**
   * The script's global state: the option table, and the host's plugin
   * configuration store that `config_is_set_plugin`, `config_set_plugin` and
   * `config_get_plugin` read and write.
   */
  class Script {
    var options: map<string, Entry>
    var config: map<string, string>

    /** The script as loaded: its declared table, and whatever the host has stored. */
    constructor (hostConfig: map<string, string>)
      ensures options == DeclaredOptions() && config == hostConfig
    {
      options := DeclaredOptions();
      config := hostConfig;
    }

    /**
     * `init_options`: for each option, in an unspecified order, store the
     * default unless the host already holds a value, then replace the table
     * entry with the transformed stored value. A ValueError from `int` ends
     * the loop with the options visited before it (`visited`) resolved, the
     * failing option's default stored but its entry unchanged, and the rest
     * untouched.
     */
    method InitOptions() returns (outcome: InitOutcome, ghost visited: set<string>)
      requires AllDeclared(options)
      modifies this
      ensures outcome.Completed? <==> Resolvable(old(config), Specs(old(options)))
      ensures outcome.Completed? ==>
        && config == FillDefaults(old(config), Specs(old(options)))
        && options == ResolvedTable(old(config), Specs(old(options)))
      ensures outcome.ValueError? ==>
        var specs, name := Specs(old(options)), outcome.option;
        && visited <= specs.Keys && name in specs && name !in visited
        && Apply(specs[name].transform, StoredValue(old(config), specs, name)).None?
        && StoreVisited(old(config), specs, visited + {name}, config)
        && TableVisited(old(config), specs, visited, options)
    {
      ghost var specs := Specs(options);
      var remaining := options.Keys;
      visited := {};
      while remaining != {}
        invariant remaining == specs.Keys - visited && visited <= specs.Keys
        invariant StoreVisited(old(config), specs, visited, config)
        invariant TableVisited(old(config), specs, visited, options)
        decreases remaining
      {
        var name :| name in remaining;
        var spec := options[name].spec;
        StoreVisit(old(config), specs, visited, config, name);
        if name !in config {
          config := config[name := spec.defaultValue];
        }
        var value := Apply(spec.transform, config[name]);
        if value.None? {
          return ValueError(name), visited;
        }
        TableVisit(old(config), specs, visited, options, name);
        options := options[name := Resolved(value.value)];
        remaining := remaining - {name};
        visited := visited + {name};
      }
      AllVisited(old(config), specs, config, options);
      return Completed, visited;
    }
  }
}
