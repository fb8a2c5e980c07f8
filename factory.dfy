/**
 * The two ready-made configurations of `DirideaFactory`: `create` wires the
 * default plugin of every family that has one, `createDebug` wires the
 * reporting twin of each. Both leave the logger verbosity unset and the
 * encrypt, backup and cache families empty.
 */
module Factory {
  import opened Common
  import opened Paths
  import opened DirValues
  import opened Storage
  import opened Plugins
  import opened Engine

  /** The adapter class used when the caller names none. */
  const DefaultAdapter := "LocalFilesystemAdapter"

  function AdapterOrDefault(adapterClass: Option<string>): string {
    if adapterClass.Some? then adapterClass.value else DefaultAdapter
  }

  /**
   * `create`. `LocationDefault` creates real symbolic links through code that
   * is not part of this model, so its behaviour comes in as a parameter.
   */
  function Create(path: string, publicWebPath: string, adapterClass: Option<string>,
                  locationDefault: Behaviour): Config
  {
    Config(AdapterOrDefault(adapterClass), path, None,
           Some([Opaque(locationDefault)]),
           Some([VisibilityDefault]),
           Some([ExpireDefault]),
           Some([ArchiveDefault]),
           Some([]), Some([]), Some([]))
  }

  /** `createDebug`. */
  function CreateDebug(path: string, publicWebPath: string, adapterClass: Option<string>): Config {
    Config(AdapterOrDefault(adapterClass), path, None,
           Some([LocationDebug(publicWebPath)]),
           Some([VisibilityDebug]),
           Some([ExpireDebug]),
           Some([ArchiveDebug]),
           Some([]), Some([]), Some([]))
  }

  /** The plugins a preset runs on one entry: visibility, location, then expire or archive as the timing option says. */
  function PresetRun(visibility: Plugin, location: Plugin, expire: Plugin, archive: Plugin, d: DirValue): seq<Plugin> {
    [visibility, location]
      + (if d.timingOption == Some(Expire) then [expire] else [])
      + (if d.timingOption == Some(Archive) then [archive] else [])
  }

  lemma PresetFamilies(cfg: Config, visibility: Plugin, location: Plugin, expire: Plugin, archive: Plugin, d: DirValue)
    requires OrEmpty(cfg.visibilityProcesses) == [visibility]
    requires OrEmpty(cfg.locationProcesses) == [location]
    requires OrEmpty(cfg.expireProcesses) == [expire]
    requires OrEmpty(cfg.archiveProcesses) == [archive]
    requires OrEmpty(cfg.encryptProcesses) == [] && OrEmpty(cfg.backupProcesses) == [] && OrEmpty(cfg.cacheProcesses) == []
    ensures Families(cfg, d) == PresetRun(visibility, location, expire, archive, d)
  {
    assert FamiliesUpTo(cfg, d, 1) == [] + [visibility];
    assert FamiliesUpTo(cfg, d, 2) == [visibility] + [location];
    assert FamiliesUpTo(cfg, d, 3) == [visibility, location] + [];
    assert FamiliesUpTo(cfg, d, 4) == [visibility, location] + [];
    assert FamiliesUpTo(cfg, d, 5) == [visibility, location] + [];
    var ex := if d.timingOption == Some(Expire) then [expire] else [];
    var ar := if d.timingOption == Some(Archive) then [archive] else [];
    assert Family(cfg, d, 5) == ex;
    assert Family(cfg, d, 6) == ar;
    assert FamiliesUpTo(cfg, d, 6) == [visibility, location] + ex;
    assert Families(cfg, d) == [visibility, location] + ex + ar;
  }

  /**
   * Under `create`, the plugins that run on an entry are the visibility and
   * location defaults followed by the default of the family the timing
   * option selects; the encrypt, backup and cache flags change nothing.
   */
  lemma CreateRuns(path: string, publicWebPath: string, adapterClass: Option<string>,
                   locationDefault: Behaviour, d: DirValue)
    ensures Families(Create(path, publicWebPath, adapterClass, locationDefault), d)
            == PresetRun(VisibilityDefault, Opaque(locationDefault), ExpireDefault, ArchiveDefault, d)
  {
    PresetFamilies(Create(path, publicWebPath, adapterClass, locationDefault),
                   VisibilityDefault, Opaque(locationDefault), ExpireDefault, ArchiveDefault, d);
  }

  /** Under `createDebug`, the same slots hold the reporting twins. */
  lemma CreateDebugRuns(path: string, publicWebPath: string, adapterClass: Option<string>, d: DirValue)
    ensures Families(CreateDebug(path, publicWebPath, adapterClass), d)
            == PresetRun(VisibilityDebug, LocationDebug(publicWebPath), ExpireDebug, ArchiveDebug, d)
  {
    PresetFamilies(CreateDebug(path, publicWebPath, adapterClass),
                   VisibilityDebug, LocationDebug(publicWebPath), ExpireDebug, ArchiveDebug, d);
  }

  /** Both presets use the named adapter, or `LocalFilesystemAdapter` when none is named, and the given base path. */
  lemma PresetsShareSettings(path: string, publicWebPath: string, adapterClass: Option<string>, locationDefault: Behaviour)
    ensures var c := Create(path, publicWebPath, adapterClass, locationDefault);
            var g := CreateDebug(path, publicWebPath, adapterClass);
            && c.adapterClass == g.adapterClass
            && c.basePath == path && g.basePath == path
            && c.loggerVerbosity == None && g.loggerVerbosity == None
            && (adapterClass.Some? ==> c.adapterClass == adapterClass.value)
            && (adapterClass.None? ==> c.adapterClass == DefaultAdapter)
  {
  }

  /** A run under `createDebug` only reports: the store is the same afterwards, whatever it held. */
  lemma DebugRunKeepsStore(path: string, publicWebPath: string, adapterClass: Option<string>,
                           s: State, now: int, isLink: string -> bool)
    ensures RunSpec(CreateDebug(path, publicWebPath, adapterClass), s, now, isLink).state.world.tree == s.world.tree
  {
    var cfg := CreateDebug(path, publicWebPath, adapterClass);
    assert AllDebug(cfg);
    RunJurisdiction(cfg, s, now, isLink);
  }

  /** A run under `create` echoes nothing and leaves the symlink memo as it was. */
  lemma DefaultRunIsSilent(path: string, publicWebPath: string, adapterClass: Option<string>,
                           locationDefault: Behaviour, s: State, now: int, isLink: string -> bool)
    ensures var r := RunSpec(Create(path, publicWebPath, adapterClass, locationDefault), s, now, isLink).state;
            r.world.output == s.world.output && r.world.locationSeen == s.world.locationSeen
  {
    var cfg := Create(path, publicWebPath, adapterClass, locationDefault);
    assert Silent(cfg);
    RunJurisdiction(cfg, s, now, isLink);
  }
}
