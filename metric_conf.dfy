/**
 * The configurator's settings record: its name, the directory the
 * descriptors are written to, and whether sensors are propagated through the
 * topology. The file-system checks the directory setter performs are
 * passed in as their outcomes.
 */
module MetricConf {

  /** The observable settings, as a value. */
  datatype Settings = Settings(name: string, verbose: bool, cfgdir: string, propagation: bool)

  /** The settings of a new record: empty directory, propagation on, not verbose. */
  function Initial(name: string): (s: Settings)
    ensures s.name == name && s.cfgdir == "" && s.propagation && !s.verbose
  {
    Settings(name, false, "", true)
  }

  /** `c_metric_conf_set_cfgdir` on values: the new settings and the return code. */
  function SetCfgdirResult(s: Settings, path: string, dirExists: bool, writable: bool): (r: (Settings, int))
    ensures r.1 == 0 <==> dirExists && writable
    ensures r.1 == 0 || r.1 == -1
    ensures r.1 == 0 ==> r.0 == s.(cfgdir := path)
    ensures r.1 != 0 ==> r.0 == s
  {
    if !dirExists then (s, -1)
    else if !writable then (s, -1)
    else (s.(cfgdir := path), 0)
  }

  /** A failed attempt between two reads of the directory changes nothing. */
  lemma {:induction false} FailedSetKeepsDir(s: Settings, good: string, bad: string, badExists: bool, badWritable: bool)
    requires !(badExists && badWritable)
    ensures SetCfgdirResult(SetCfgdirResult(s, good, true, true).0, bad, badExists, badWritable).0.cfgdir == good
    ensures SetCfgdirResult(SetCfgdirResult(s, good, true, true).0, bad, badExists, badWritable).1 == -1
  {
    var s1 := SetCfgdirResult(s, good, true, true).0;
    assert s1.cfgdir == good;
  }

  /** Setting the directory touches neither the name nor the propagation flag. */
  lemma SetCfgdirKeepsOthers(s: Settings, path: string, dirExists: bool, writable: bool)
    ensures SetCfgdirResult(s, path, dirExists, writable).0.name == s.name
    ensures SetCfgdirResult(s, path, dirExists, writable).0.propagation == s.propagation
    ensures SetCfgdirResult(s, path, dirExists, writable).0.verbose == s.verbose
  {
  }

  class MetricConf {
    var verbose: bool
    var name: string
    var configurationDir: string
    var isPropagationNeeded: bool

    /** The record's settings as a value. */
    function Current(): Settings
      reads this
    {
      Settings(name, verbose, configurationDir, isPropagationNeeded)
    }

    /** `c_metric_conf_new`. */
    constructor (name: string)
      ensures Current() == Initial(name)
    {
      this.name := name;
      configurationDir := "";
      verbose := false;
      isPropagationNeeded := true;
    }

    function Name(): string
      reads this
    {
      name
    }

    function Propagation(): bool
      reads this
    {
      isPropagationNeeded
    }

    function Cfgdir(): string
      reads this
    {
      configurationDir
    }

    /** `c_metric_conf_set_propagation`: the flag becomes `b`, nothing else changes. */
    method SetPropagation(b: bool)
      modifies this
      ensures Current() == old(Current()).(propagation := b)
      ensures Propagation() == b
    {
      isPropagationNeeded := b;
    }

    /**
     * `c_metric_conf_set_cfgdir`: the directory must exist and be writable;
     * otherwise -1 and the old directory stays.
     */
    method SetCfgdir(path: string, dirExists: bool, writable: bool) returns (rc: int)
      modifies this
      ensures (Current(), rc) == SetCfgdirResult(old(Current()), path, dirExists, writable)
    {
      if !dirExists {
        return -1;
      }
      if !writable {
        return -1;
      }
      configurationDir := path;
      rc := 0;
    }
  }

  /**
   * `c_metric_conf_destroy`: the handle is cleared, and a cleared handle
   * stays cleared, so destroying twice is harmless.
   */
  method Destroy(self: MetricConf?) returns (cleared: MetricConf?)
    ensures cleared == null
  {
    if self != null {
      cleared := null;
    } else {
      cleared := self;
    }
  }

  /** The record's own selftest: defaults, a successful set, a refused set, two destroys. */
  method Selftest() returns (initialDir: string, rv1: int, dirAfterSet: string, rv2: int, dirAfterRefusal: string, handle: MetricConf?)
    ensures initialDir == "" && rv1 == 0 && dirAfterSet == "/tmp"
    ensures rv2 == -1 && dirAfterRefusal == "/tmp"
    ensures handle == null
  {
    var first := new MetricConf("myname");
    handle := Destroy(first);
    handle := Destroy(handle);
    var self := new MetricConf("myname");
    initialDir := self.Cfgdir();
    rv1 := self.SetCfgdir("/tmp", true, true);
    dirAfterSet := self.Cfgdir();
    rv2 := self.SetCfgdir("/etc", true, false);
    dirAfterRefusal := self.Cfgdir();
  }
}
