/**
 The value-level model of hayrack's configuration merge: option values, the
 section and configuration tables, the settings-source provider, and the
 meaning of one override pass (hayrack/config.py, `load_config`).
 */
module MergeModel {

  /** An option value, carried opaquely: a Python str, bool, int or None. */
  datatype Value = Str(s: string) | Bool(b: bool) | Int(i: int) | Null

  /** The options of one section: option name -> value. */
  type Section = map<string, Value>

  /** Section name -> the options of that section. Both the default table
      and the observable state of a configuration have this shape. */
  type Table = map<string, Section>

  /** The parsed settings source, as far as an override pass uses it:
      the list of section names, the option names listed for a section,
      and the (string) value of an option in a section. */
  datatype Provider = Provider(
    sections: seq<string>,
    options: string -> seq<string>,
    get: (string, string) -> string)

  /** The compiled-in default table `_CFG_DEFAULTS`. */
  const CFG_DEFAULTS: Table :=
    map[
      "core" := map[
        "zmq_bind_host" := Str("0.0.0.0"),
        "zmq_bind_port" := Str("5000"),
        "zmq_hwm" := Int(0),
        "zmq_linger" := Int(-1)],
      "logging" := map[
        "console" := Bool(true),
        "logfile" := Null,
        "verbosity" := Str("DEBUG")]]

  /** The fresh section an override pass builds for `name`: exactly the
      options the provider lists for it, each with the provider's value. */
  function Provided(p: Provider, name: string): (s: Section)
  {
    map o | o in p.options(name) :: Str(p.get(name, o))
  }

  /** Every section named in `names`, as the provider supplies it. */
  function Overrides(p: Provider, names: seq<string>): (t: Table)
  {
    map k | k in names :: Provided(p, k)
  }

  /** The state after rebinding, in order, each name of `names` to a fresh
      section built from the provider: the outer loop of `load_config`. */
  function Rebind(cfg: Table, p: Provider, names: seq<string>): (t: Table)
    decreases |names|
  {
    if names == [] then cfg
    else
      var last := names[|names| - 1];
      Rebind(cfg, p, names[..|names| - 1])[last := Provided(p, last)]
  }

  /** The state after one complete override pass over the provider. */
  function Merged(cfg: Table, p: Provider): (t: Table)
  {
    Rebind(cfg, p, p.sections)
  }

  /** Rebinding section by section, in whatever order and with whatever
      repetitions the provider lists them, is the same as overriding the
      whole sections the provider names, at once. */
  lemma {:induction false} RebindIsOverride(cfg: Table, p: Provider, names: seq<string>)
    ensures Rebind(cfg, p, names) == cfg + Overrides(p, names)
    decreases |names|
  {
    if names == [] {
      assert Overrides(p, names) == map[];
    } else {
      var init, last := names[..|names| - 1], names[|names| - 1];
      RebindIsOverride(cfg, p, init);
      OverridesSnoc(p, init, last);
      assert names == init + [last];
      UpdateAfterUnion(cfg, Overrides(p, init), last, Provided(p, last));
    }
  }

  /** Naming one more section adds (or rebinds) just that one. */
  lemma OverridesSnoc(p: Provider, names: seq<string>, last: string)
    ensures Overrides(p, names + [last]) == Overrides(p, names)[last := Provided(p, last)]
  {
    var whole, front := Overrides(p, names + [last]), Overrides(p, names)[last := Provided(p, last)];
    assert forall k :: k in names + [last] <==> k in names || k == last;
    assert whole.Keys == front.Keys;
  }

  lemma UpdateAfterUnion(m: Table, n: Table, k: string, v: Section)
    ensures (m + n)[k := v] == m + n[k := v]
  {
  }

  /** Binding one more pending section of `t` on top of `cfg`: the part
      of `t` laid over `cfg` grows by that one name. */
  lemma BindOneMore(cfg: Table, t: Table, pending: set<string>, name: string)
    requires name in pending && name in t
    ensures (cfg + (t - pending))[name := t[name]] == cfg + (t - (pending - {name}))
  {
    assert t - (pending - {name}) == (t - pending)[name := t[name]];
  }

  /** After a pass, the section names are the old ones plus every name the
      provider lists. */
  lemma MergedKeys(cfg: Table, p: Provider)
    ensures Merged(cfg, p).Keys == cfg.Keys + set k | k in p.sections
  {
    RebindIsOverride(cfg, p, p.sections);
  }

  /** A section the provider does not list is untouched: present exactly
      when it was, with the same options and values. */
  lemma MergedUntouched(cfg: Table, p: Provider, name: string)
    requires name !in p.sections
    ensures name in Merged(cfg, p) <==> name in cfg
    ensures name in cfg ==> Merged(cfg, p)[name] == cfg[name]
  {
    RebindIsOverride(cfg, p, p.sections);
  }

  /** A section the provider lists -- whether it existed before or not --
      holds exactly the provider's options afterwards, each with the
      provider's value as a string. The last clause, a corollary of the
      second stated for readers, spells out that an earlier option the
      provider does not repeat is gone. */
  lemma MergedReplaces(cfg: Table, p: Provider, name: string)
    requires name in p.sections
    ensures name in Merged(cfg, p)
    ensures forall o :: o in Merged(cfg, p)[name] <==> o in p.options(name)
    ensures forall o :: o in p.options(name) ==> Merged(cfg, p)[name][o] == Str(p.get(name, o))
    ensures forall o :: name in cfg && o in cfg[name] && o !in p.options(name) ==> o !in Merged(cfg, p)[name]
  {
    RebindIsOverride(cfg, p, p.sections);
  }

  /** Applying the same provider a second time changes nothing. */
  lemma MergedIdempotent(cfg: Table, p: Provider)
    ensures Merged(Merged(cfg, p), p) == Merged(cfg, p)
  {
    var once := Merged(cfg, p);
    RebindIsOverride(cfg, p, p.sections);
    RebindIsOverride(once, p, p.sections);
    var o := Overrides(p, p.sections);
    assert (cfg + o) + o == cfg + o;
  }

  /** An empty settings source (or a missing file, which reads as one)
      leaves the configuration as it was. */
  lemma MergedEmpty(cfg: Table, p: Provider)
    requires p.sections == []
    ensures Merged(cfg, p) == cfg
  {
  }

  /** The default table holds the sections `core` and `logging` and
      nothing else, with the listed defaults. */
  lemma DefaultsShape()
    ensures CFG_DEFAULTS.Keys == {"core", "logging"}
    ensures CFG_DEFAULTS["core"].Keys == {"zmq_bind_host", "zmq_bind_port", "zmq_hwm", "zmq_linger"}
    ensures CFG_DEFAULTS["core"]["zmq_bind_port"] == Str("5000")
    ensures CFG_DEFAULTS["core"]["zmq_linger"] == Int(-1)
    ensures CFG_DEFAULTS["logging"].Keys == {"console", "logfile", "verbosity"}
    ensures CFG_DEFAULTS["logging"]["logfile"] == Null
    ensures CFG_DEFAULTS["logging"]["console"] == Bool(true)
  {
  }

  /** Per-section replacement on the defaults: a source that lists `core`
      with only `zmq_bind_port = 6000` leaves `core` holding that one
      option (as a string) and drops the other three defaults, while
      `logging` keeps its defaults. */
  lemma PortOnlyOverrideDropsDefaults()
    ensures var p := Provider(["core"], s => ["zmq_bind_port"], (s, o) => "6000");
      && Merged(CFG_DEFAULTS, p)["core"] == map["zmq_bind_port" := Str("6000")]
      && Merged(CFG_DEFAULTS, p)["logging"] == CFG_DEFAULTS["logging"]
      && "zmq_bind_host" !in Merged(CFG_DEFAULTS, p)["core"]
  {
    var p := Provider(["core"], s => ["zmq_bind_port"], (s, o) => "6000");
    MergedReplaces(CFG_DEFAULTS, p, "core");
    MergedUntouched(CFG_DEFAULTS, p, "logging");
  }
}
