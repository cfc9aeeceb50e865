/** Bringing an outdated configuration file up to date: the defaults,
    turned into a nested dictionary, are merged into the dictionary read
    from the file (`MaybeUpdateConfigDict`). */
module ConfigMerge {

  /** A value of the deserialised configuration: a dictionary, or anything
      else (a number, a string, a boolean, null or a list), kept as its
      JSON text. */
  datatype ConfigValue = Leaf(json: string) | Dict(entries: map<string, ConfigValue>)

  type ConfigDict = map<string, ConfigValue>

  /** The merged dictionary: every key of either side; for a key of the
      defaults, the merged value at that key. */
  function Merged(defaults: ConfigDict, raw: ConfigDict): ConfigDict
    decreases Dict(defaults), 1
  {
    map k | k in defaults.Keys + raw.Keys :: MergedAt(defaults, raw, k)
  }

  /** A key missing from the raw side takes the default; a raw value that
      is not a dictionary where the default is one is replaced by the
      default; two dictionaries are merged; any other raw value stays. */
  function MergedAt(defaults: ConfigDict, raw: ConfigDict, k: string): ConfigValue
    requires k in defaults.Keys + raw.Keys
    decreases Dict(defaults), 0
  {
    if k !in defaults then raw[k]
    else if k !in raw then defaults[k]
    else match defaults[k]
      case Leaf(_) => raw[k]
      case Dict(nestedDefaults) =>
        match raw[k]
        case Leaf(_) => defaults[k]
        case Dict(nestedRaw) => Dict(Merged(nestedDefaults, nestedRaw))
  }

  /** The loop over the keys of the defaults, with the `changed` flag. The
      source updates `raw` (and its nested dictionaries) in place; here the
      updated dictionary is returned. */
  method MaybeUpdateConfigDict(defaults: ConfigDict, raw: ConfigDict) returns (updated: ConfigDict, changed: bool)
    ensures updated == Merged(defaults, raw)
    ensures changed <==> updated != raw
    decreases Dict(defaults)
  {
    updated := raw;
    changed := false;
    var pending := defaults.Keys;
    while pending != {}
      invariant pending <= defaults.Keys
      invariant updated.Keys == raw.Keys + (defaults.Keys - pending)
      invariant forall k :: k in updated ==>
        updated[k] == if k in defaults.Keys - pending then MergedAt(defaults, raw, k) else raw[k]
      invariant changed <==> exists k :: k in defaults.Keys - pending && (k !in raw || MergedAt(defaults, raw, k) != raw[k])
      decreases pending
    {
      var key :| key in pending;
      if key in raw {
        match defaults[key] {
          case Leaf(_) =>
          case Dict(nestedDefaults) =>
            match raw[key] {
              case Leaf(_) =>
                updated := updated[key := defaults[key]];
                changed := true;
              case Dict(nestedRaw) =>
                var nested, nestedChanged := MaybeUpdateConfigDict(nestedDefaults, nestedRaw);
                updated := updated[key := Dict(nested)];
                if nestedChanged {
                  changed := true;
                }
            }
        }
      } else {
        updated := updated[key := defaults[key]];
        changed := true;
      }
      pending := pending - {key};
    }
    MergedDiffers(defaults, raw);
  }

  /** The merge changes the raw dictionary exactly when some key of the
      defaults is missing from it or gets a different value. */
  lemma MergedDiffers(defaults: ConfigDict, raw: ConfigDict)
    ensures Merged(defaults, raw) != raw <==>
      exists k :: k in defaults.Keys && (k !in raw || MergedAt(defaults, raw, k) != raw[k])
  {
    var m := Merged(defaults, raw);
    if forall k :: k in defaults.Keys ==> k in raw && MergedAt(defaults, raw, k) == raw[k] {
      assert m.Keys == raw.Keys;
      forall k | k in m
        ensures m[k] == raw[k]
      {
        assert m[k] == MergedAt(defaults, raw, k);
      }
    }
  }

  /** Keys are only ever added, and every default key ends up present. */
  lemma MergedKeys(defaults: ConfigDict, raw: ConfigDict)
    ensures Merged(defaults, raw).Keys == raw.Keys + defaults.Keys
    ensures forall k :: k in defaults && k !in raw ==> Merged(defaults, raw)[k] == defaults[k]
  {
  }

  /** Existing values are left alone unless the default there is a
      dictionary: a key unknown to the defaults, or one whose default is
      not a dictionary, keeps its raw value. */
  lemma MergedKeepsOtherValues(defaults: ConfigDict, raw: ConfigDict, k: string)
    requires k in raw
    requires k !in defaults || defaults[k].Leaf?
    ensures Merged(defaults, raw)[k] == raw[k]
  {
  }

  /** Where the default is a dictionary, the merged value is one too. */
  lemma MergedDictWhereDefaultIsDict(defaults: ConfigDict, raw: ConfigDict, k: string)
    requires k in defaults && defaults[k].Dict?
    ensures Merged(defaults, raw)[k].Dict?
    ensures k !in raw ==> Merged(defaults, raw)[k] == defaults[k]
    ensures k in raw && raw[k].Leaf? ==> Merged(defaults, raw)[k] == defaults[k]
    ensures k in raw && raw[k].Dict? ==>
      Merged(defaults, raw)[k] == Dict(Merged(defaults[k].entries, raw[k].entries))
  {
  }

  /** Merging the defaults into themselves changes nothing. */
  lemma {:induction false} MergedWithItself(defaults: ConfigDict)
    ensures Merged(defaults, defaults) == defaults
    decreases Dict(defaults)
  {
    forall k | k in defaults
      ensures MergedAt(defaults, defaults, k) == defaults[k]
    {
      match defaults[k] {
        case Leaf(_) =>
        case Dict(nested) => MergedWithItself(nested);
      }
    }
  }

  /** A merged file is up to date: merging the defaults again changes
      nothing, so a second load reports no change. */
  lemma {:induction false} MergedIdempotent(defaults: ConfigDict, raw: ConfigDict)
    ensures Merged(defaults, Merged(defaults, raw)) == Merged(defaults, raw)
    decreases Dict(defaults)
  {
    var m := Merged(defaults, raw);
    forall k | k in m.Keys
      ensures MergedAt(defaults, m, k) == m[k]
    {
      assert m[k] == MergedAt(defaults, raw, k);
      if k in defaults {
        match defaults[k] {
          case Leaf(_) =>
          case Dict(nestedDefaults) =>
            if k in raw && raw[k].Dict? {
              MergedIdempotent(nestedDefaults, raw[k].entries);
              assert m[k] == Dict(Merged(nestedDefaults, raw[k].entries));
            } else {
              MergedWithItself(nestedDefaults);
              assert m[k] == defaults[k];
            }
        }
      }
    }
    assert Merged(defaults, m).Keys == m.Keys;
  }
}
