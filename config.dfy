/**
 The objects of hayrack/config.py: `ConfigSection`, `HayrackConfiguration`
 and the module-level shared instance, with their in-place updates. Each
 method's contract ties the new observable state to the value-level model
 in module MergeModel.
 */
module Config {
  import opened MergeModel

  /** A section: options set one at a time, each overwriting any earlier
      value of the same name. */
  class ConfigSection {
    var options: Section

    constructor ()
      ensures options == map[]
    {
      options := map[];
    }

    /** `add_option`: binds `option` to `value`; every other option keeps
        its value, and an earlier value of `option` is replaced. */
    method AddOption(option: string, value: Value)
      modifies this
      ensures options == old(options)[option := value]
      ensures option in options && options[option] == value
      ensures forall o :: o != option ==> (o in options <==> o in old(options))
      ensures forall o :: o != option && o in options ==> options[o] == old(options)[o]
    {
      options := options[option := value];
    }
  }

  /** A configuration: section name -> section object. */
  class HayrackConfiguration {
    var sections: map<string, ConfigSection>

    /** What a consumer reads through the configuration: section name ->
        that section's options. */
    function Contents(): Table
      reads this, sections.Values
    {
      map k | k in sections :: sections[k].options
    }

    /** `__init__`: a configuration holding exactly the default table. */
    constructor (defaults: Table)
      ensures Contents() == defaults
    {
      sections := map[];
      new;
      LoadDefaults(defaults);
    }

    /** `__setattr__(name, section)`: binds `name` to `section`, replacing
        any section bound to it before; no other binding changes. */
    method BindSection(name: string, section: ConfigSection)
      modifies this
      ensures sections == old(sections)[name := section]
      ensures Contents() == old(Contents())[name := section.options]
    {
      sections := sections[name := section];
    }

    /** `load_defaults`: binds, for each section of the table, a fresh
        section filled with that entry's options; other sections stay. */
    method LoadDefaults(defaults: Table)
      modifies this
      ensures Contents() == old(Contents()) + defaults
    {
      ghost var start := Contents();
      var pending := defaults.Keys;
      while pending != {}
        invariant pending <= defaults.Keys
        invariant Contents() == start + (defaults - pending)
        decreases pending
      {
        var name :| name in pending;
        ghost var before := Contents();
        var section := SectionFromDefaults(defaults[name]);
        assert Contents() == before;
        BindSection(name, section);
        assert Contents() == before[name := defaults[name]];
        BindOneMore(start, defaults, pending, name);
        pending := pending - {name};
      }
      assert defaults - pending == defaults;
    }

    /** `load_config`: for each section the provider lists, binds a fresh
        section holding only the provider's options, replacing the whole
        earlier section; sections it does not list stay as they were. */
    method LoadConfig(p: Provider)
      modifies this
      ensures Contents() == Merged(old(Contents()), p)
      ensures forall k :: k in p.sections ==> k in sections && fresh(sections[k])
      ensures forall k :: k in old(sections) && k !in p.sections ==> k in sections && sections[k] == old(sections[k])
    {
      var i := 0;
      while i < |p.sections|
        invariant 0 <= i <= |p.sections|
        invariant Contents() == Rebind(old(Contents()), p, p.sections[..i])
        invariant forall k :: k in p.sections[..i] ==> k in sections && fresh(sections[k])
        invariant forall k :: k in old(sections) && k !in p.sections[..i] ==> k in sections && sections[k] == old(sections[k])
      {
        var name := p.sections[i];
        var section := SectionFromProvider(p, name);
        BindSection(name, section);
        assert p.sections[..i + 1] == p.sections[..i] + [name];
        i := i + 1;
      }
      assert p.sections[..i] == p.sections;
    }
  }

  /** The inner loop of `load_defaults`: a fresh section given, one
      `add_option` at a time, every option of one default-table entry. */
  method SectionFromDefaults(entry: Section) returns (section: ConfigSection)
    ensures fresh(section)
    ensures section.options == entry
  {
    section := new ConfigSection();
    var todo := entry.Keys;
    while todo != {}
      invariant todo <= entry.Keys
      invariant section.options == map o | o in entry.Keys - todo :: entry[o]
      decreases todo
    {
      var option :| option in todo;
      section.AddOption(option, entry[option]);
      todo := todo - {option};
    }
  }

  /** The inner loop of `load_config`: a fresh section given, one
      `add_option` at a time, exactly the options the provider lists for
      `name`, with the provider's values. */
  method SectionFromProvider(p: Provider, name: string) returns (section: ConfigSection)
    ensures fresh(section)
    ensures section.options == Provided(p, name)
  {
    section := new ConfigSection();
    var opts := p.options(name);
    var j := 0;
    while j < |opts|
      invariant 0 <= j <= |opts|
      invariant section.options == map o | o in opts[..j] :: Str(p.get(name, o))
    {
      assert opts[..j + 1] == opts[..j] + [opts[j]];
      section.AddOption(opts[j], Str(p.get(name, opts[j])));
      j := j + 1;
    }
    assert opts[..j] == opts;
  }

  /** The module-level state of hayrack/config.py: the one shared
      configuration `_cfg`, built from the default table at start-up and
      never rebound. A provider stands for the parsed settings file. */
  class ConfigModule {
    const cfg: HayrackConfiguration

    /** Module initialisation: `_cfg = HayrackConfiguration(_CFG_DEFAULTS)`. */
    constructor ()
      ensures fresh(cfg)
      ensures cfg.Contents() == CFG_DEFAULTS
    {
      cfg := new HayrackConfiguration(CFG_DEFAULTS);
    }

    /** `load_config(config_file)`: one override pass on the shared
        configuration, on top of its current state. */
    method LoadConfigFile(source: Provider)
      modifies cfg
      ensures cfg.Contents() == Merged(old(cfg.Contents()), source)
    {
      cfg.LoadConfig(source);
    }

    /** `get_config`: a fresh override pass, then the shared instance
        itself (not a copy). */
    method GetConfig(source: Provider) returns (shared: HayrackConfiguration)
      modifies cfg
      ensures shared == cfg
      ensures cfg.Contents() == Merged(old(cfg.Contents()), source)
    {
      LoadConfigFile(source);
      shared := cfg;
    }
  }

  /** Two `add_option` calls with the same name leave only the second
      value. */
  method OverwriteWithinSection() returns (options: Section)
    ensures options == map["a" := Int(2)]
  {
    var section := new ConfigSection();
    section.AddOption("a", Int(1));
    section.AddOption("a", Int(2));
    options := section.options;
  }

  /** The shared instance under a settings file whose `[core]` section
      gives only `zmq_bind_port = 6000`: both `get_config` calls return the
      same object; after the first, `core` holds only that option, as a
      string, while `logging` keeps its defaults; the second call changes
      nothing. */
  method PortOnlySettingsFile()
    returns (first: HayrackConfiguration, second: HayrackConfiguration, afterFirst: Table, afterSecond: Table)
    ensures second == first
    ensures afterSecond == afterFirst
    ensures "core" in afterFirst && afterFirst["core"] == map["zmq_bind_port" := Str("6000")]
    ensures "logging" in afterFirst && afterFirst["logging"] == CFG_DEFAULTS["logging"]
  {
    var hayrack := new ConfigModule();
    var source := Provider(["core"], s => ["zmq_bind_port"], (s, o) => "6000");
    first := hayrack.GetConfig(source);
    afterFirst := first.Contents();
    second := hayrack.GetConfig(source);
    afterSecond := second.Contents();
    MergedIdempotent(CFG_DEFAULTS, source);
    PortOnlyOverrideDropsDefaults();
    MergedKeys(CFG_DEFAULTS, source);
  }
}
