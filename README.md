# hayrack configuration merge, modelled in Dafny

This project models the configuration store of hayrack (`hayrack/config.py`).
A `HayrackConfiguration` maps section names to `ConfigSection` objects, and
each section maps option names to opaque values. The configuration is built
from the compiled-in default table `_CFG_DEFAULTS`. After that, every
`load_config`/`get_config` call merges in an override source, which is a
parsed settings file.

The merge works per section, not per option. For each section the override
source lists, a fresh section is built that holds only the source's options,
and it replaces the old section wholesale. A default option that the source
does not repeat is lost. Sections the source does not list are left alone.

Files:

- `merge_model.dfy` (module `MergeModel`) is the value-level model.
  - `Value` is a Python str, bool, int or None.
  - `Section` and `Table` are the nested maps.
  - `Provider` is the parsed settings file. It exposes the list of section
    names, the option names of a section, and the string value of an option.
  - `CFG_DEFAULTS` is the default table.
  - `Rebind`/`Merged` give the meaning of one override pass. The lemmas about
    them state the merge laws.
- `config.dfy` (module `Config`) models the objects, with their in-place
  updates.
  - `ConfigSection` has `AddOption`.
  - `HayrackConfiguration` has `BindSection`, `LoadDefaults` and
    `LoadConfig`. The two loaders are loops proved against `MergeModel`.
  - `ConfigModule` holds the shared instance `_cfg` and the module functions
    `load_config`/`get_config`.
  - Two client methods work through the scenarios the code implies.

The settings-file reader is a foreign library, so the model takes it as a
`Provider` value. Reading the file at `_CONFIG_FILE` is I/O and is left out.
Each `load_config`/`get_config` call therefore receives the `Provider` its
read would have produced. A missing file reads as a provider with no
sections. Python's `ConfigParser.get` returns strings. So every value an
override pass stores is a `Str`, even where the default was a bool, int or
None.

## Model

| member | source | states |
|---|---|---|
| `Config.ConfigSection.constructor` | hayrack/config.py:29-33 | A new section holds no options. |
| `Config.ConfigSection.AddOption` | hayrack/config.py:34-35 | The section now maps the option to the given value. Every other option keeps its presence and value. An earlier value of the same option is replaced. |
| `Config.OverwriteWithinSection` | hayrack/config.py:34-35 | `add_option("a", 1)` then `add_option("a", 2)` leaves the section holding exactly `{a: 2}`. |
| `Config.HayrackConfiguration.constructor` | hayrack/config.py:44-45 | A configuration built from a default table holds exactly that table. Its sections are that table's section names, and each section has exactly that entry's options and values. |
| `Config.HayrackConfiguration.BindSection` | hayrack/config.py:56 | Binding a name to a section object replaces whatever was bound to it. No other binding changes. |
| `Config.SectionFromDefaults` | hayrack/config.py:53-55 | The inner loop of `load_defaults` yields a new section object whose options equal the default-table entry exactly. Values are passed through without coercion. |
| `Config.HayrackConfiguration.LoadDefaults` | hayrack/config.py:47-56 | Afterwards the configuration is the old one overlaid with every section of the table, whatever order the dict yields its keys in. |
| `Config.SectionFromProvider` | hayrack/config.py:64-67 | The inner loop of `load_config` yields a new section object with exactly the options the provider lists for that section. Each option has the provider's `get` value. |
| `Config.HayrackConfiguration.LoadConfig` | hayrack/config.py:58-68 | The new contents are the old contents with each listed section rebound in listing order (`Merged`). Each listed section is a new object. Each unlisted section is the very same object as before. |
| `MergeModel.RebindIsOverride` | hayrack/config.py:63-68 | Rebinding section by section gives the same result in any listing order and with any repetition. That result is the old table with each listed section replaced wholesale by the provider's. |
| `MergeModel.MergedKeys` | hayrack/config.py:63-68 | After a pass, the section names are the old names plus every name the provider lists. |
| `MergeModel.MergedUntouched` | hayrack/config.py:63-68 | A section the provider does not list is present exactly when it was before, with identical options and values. |
| `MergeModel.MergedReplaces` | hayrack/config.py:64-68 | A listed section holds an option if and only if the provider lists that option, with value `Str(get(...))`. This holds whether or not the section existed before, so a new section is added. An earlier option the provider does not repeat is absent. |
| `MergeModel.MergedIdempotent` | hayrack/config.py:63-68 | Applying the same provider twice gives the same state as applying it once. |
| `MergeModel.MergedEmpty` | hayrack/config.py:63 | A provider with no sections (a missing or empty settings file) leaves the configuration unchanged. |
| `MergeModel.DefaultsShape` | hayrack/config.py:14-26 | The default table has exactly the sections `core` and `logging`, with their listed option names. For example, `core.zmq_bind_port` is `"5000"`, `zmq_linger` is `-1`, `logging.logfile` is None and `console` is True. |
| `Config.ConfigModule.constructor` | hayrack/config.py:71 | At module start-up the shared configuration is a new object holding exactly `_CFG_DEFAULTS`. |
| `Config.ConfigModule.LoadConfigFile` | hayrack/config.py:74-77 | Loading a settings file merges its provider into the current state of the shared configuration. It does not reset to the defaults first. |
| `Config.ConfigModule.GetConfig` | hayrack/config.py:80-82 | Each call runs a new override pass and then returns the shared instance itself. |
| `MergeModel.PortOnlyOverrideDropsDefaults` | hayrack/config.py:14-26 | Take the default table and a source whose `core` lists only `zmq_bind_port = 6000`. After the merge, `core` is exactly `{zmq_bind_port: "6000"}`, so `zmq_bind_host` is gone, and `logging` keeps its defaults. |
| `Config.PortOnlySettingsFile` | hayrack/config.py:71-82 | The same scenario, worked through the shared instance: the two `get_config` calls return the same object, the state after the second call equals the state after the first, and after the first `core` is exactly `{zmq_bind_port: "6000"}` while `logging` keeps its defaults. |

## Left out

- Reading and parsing the settings file (hayrack/config.py:75-76) is left out. That work belongs to the foreign `ConfigParser` library and to file I/O. This includes the silent skip of a missing file, the lower-casing of option names, the inheritance from the `DEFAULT` section, and `%(name)s` interpolation. The parser is modelled only as a `Provider`: section names, option names per section, and a total `get` returning a string.
- Errors raised by `ConfigParser.get` partway through a pass (interpolation errors) are not modelled, because `get` is modelled as total. Such an error would leave the sections already rebound in place, and that partial state is not captured.
- The hard-coded path `_CONFIG_FILE` (hayrack/config.py:11) is left out. Also left out is that `get_config` re-reads that file on every call: each call takes the provider its read would produce.
- Python attribute mechanics (`__setattr__`) are modelled as explicit maps. A section or option name that collides with a method or attribute name is not modelled. For example, a section called `load_config` would shadow the method.
- The process-wide global `_cfg` is modelled as the `const` field of a `ConfigModule` object, because Dafny has no mutable module-level state.
- Concurrency and logging are left out: the code has neither locking nor logging.
- Config.HayrackConfiguration.LoadDefaults: its contract states only the resulting contents. Unlike `LoadConfig`, it does not state that each bound section is a new object or that untouched sections keep their object identity. The constructor therefore does not promise freshness of its sections either.
