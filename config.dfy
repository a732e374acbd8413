/** The `Config` object of the inference: whether dicts are unified into
    UniformRecords, and which equivalence mode decides how Records with
    different keys merge. `init` rewrites both fields of the one shared
    instance in place. */
module Configuration {
  import opened Schemas

  /** The modes `init` accepts. */
  predicate IsMode(mode: string) {
    mode == "kind" || mode == "label"
  }

  class Config {
    var unifyRecords: bool
    var equivalenceMode: string

    predicate Valid()
      reads this
    {
      IsMode(equivalenceMode)
    }

    /** `Config()` with its default arguments: the module-level `config`. */
    constructor ()
      ensures unifyRecords && equivalenceMode == "kind"
      ensures Valid()
    {
      unifyRecords := true;
      equivalenceMode := "kind";
    }

    /** `init(unify_records, equivalence_mode)`: `_unify_records` is written
        first, then the assertion on the mode is checked, and only then is
        `_equivalence_mode` written. A rejected mode therefore leaves the new
        `unify_records` in place and the old mode unchanged. Both arguments
        default as in Python, to `True` and `'kind'`. */
    method Init(unify: bool := true, mode: string := "kind") returns (r: Result<()>)
      modifies this
      ensures unifyRecords == unify
      ensures r.Ok? <==> IsMode(mode)
      ensures r.Ok? ==> equivalenceMode == mode
      ensures r.Err? ==> r.error == AssertionError && equivalenceMode == old(equivalenceMode)
      ensures old(Valid()) ==> Valid()
    {
      unifyRecords := unify;
      if !IsMode(mode) {
        return Err(AssertionError);
      }
      equivalenceMode := mode;
      return Ok(());
    }

    /** The settings the schema algebra reads: `unify_records`, and `kind`
        or `label` as a `Mode`. */
    function Current(): (s: Settings)
      requires Valid()
      reads this
      ensures s.unifyRecords == unifyRecords
      ensures s.mode == Kind <==> equivalenceMode == "kind"
      ensures s.mode == Label <==> equivalenceMode == "label"
    {
      Settings(unifyRecords, if equivalenceMode == "kind" then Kind else Label)
    }
  }

  /** `Config(unify_records, equivalence_mode)`: `__init__` calls `init`, so a
      rejected mode raises AssertionError and no instance is returned. The
      arguments default to `True` and `'kind'`. */
  method NewConfig(unify: bool := true, mode: string := "kind") returns (r: Result<Config>)
    ensures r.Ok? <==> IsMode(mode)
    ensures r.Err? ==> r.error == AssertionError
    ensures r.Ok? ==> fresh(r.value) && r.value.Valid()
    ensures r.Ok? ==> r.value.unifyRecords == unify && r.value.equivalenceMode == mode
  {
    var c := new Config();
    var ok := c.Init(unify, mode);
    if ok.Err? {
      return Err(ok.error);
    }
    return Ok(c);
  }

  /** The defaults give the settings the algebra starts from. */
  method DefaultsAreKindWithUnify() returns (s: Settings)
    ensures s == DefaultSettings
  {
    var config := new Config();
    s := config.Current();
  }

  /** `init` on the shared instance is seen through every reference to it:
      after a rejected mode, readers see the new `unify_records` paired with
      the mode from before the call. */
  method FailedInitThroughAlias() returns (unify: bool, mode: string)
    ensures !unify && mode == "kind"
  {
    var config := new Config();
    var reader := config;
    var r := config.Init(false, "kinds");
    unify, mode := reader.unifyRecords, reader.equivalenceMode;
  }

  /** The defaults of `init` apply to every argument left out: passing only
      `equivalence_mode='label'` also sets `unify_records` back to `True`,
      and `init()` restores both defaults. */
  method InitDefaultArguments() returns (unifyAfterLabel: bool, modeAfterLabel: string,
                                         unifyAfterReset: bool, modeAfterReset: string)
    ensures unifyAfterLabel && modeAfterLabel == "label"
    ensures unifyAfterReset && modeAfterReset == "kind"
  {
    var config := new Config();
    var r := config.Init(false, "kind");
    r := config.Init(mode := "label");
    unifyAfterLabel, modeAfterLabel := config.unifyRecords, config.equivalenceMode;
    r := config.Init(false, "label");
    r := config.Init();
    unifyAfterReset, modeAfterReset := config.unifyRecords, config.equivalenceMode;
  }
}
