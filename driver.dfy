/**
 * The driver session manager: a single slot that is empty (Idle) or holds
 * the one automation session of the process (Active).  Everything the code
 * obtains from the outside world -- whether the server address parses, what
 * the device probes print, whether the server accepts the session, whether
 * closing it succeeds -- is a parameter.
 */
module Driver {
  import opened Wrappers
  import opened Text
  import opened Probes
  import opened SessionBuilder

  /** An open automation session: the server's identifier and the options it was opened with. */
  datatype Session = Session(id: nat, capabilities: Capabilities)

  datatype DriverError =
    | MissingKey(key: string)        // a configuration value the code dereferences is absent
    | InvalidServerUrl               // appium.server.url does not parse as a URI or URL
    | UnsupportedPlatform(name: string)
    | EmulatorNameMissing            // startEmulator was given no name or an empty one
    | EmulatorNeverBooted            // the given boot probes ran out without a completed boot
    | SessionRejected                // the server did not open a session
    | NotInitialized                 // getDriver while Idle
    | CloseFailed                    // the server reported an error closing the session

  /** The outside world as one call of `initializeDriver` sees it. */
  datatype Environment = Environment(
    serverUrlAccepted: bool,
    bootProbes: seq<ProbeOutput>,
    installProbe: ProbeOutput,
    serverSession: Option<nat>)

  /** The name check of `startEmulator`; launching the emulator itself is fire-and-forget. */
  function StartEmulator(name: Option<string>): (r: Outcome<DriverError>)
    ensures r.Fail? <==> name.None? || name.value == ""
    ensures r.Fail? ==> r.error == EmulatorNameMissing
  {
    match name
    case None => Fail(EmulatorNameMissing)
    case Some(n) => if n == "" then Fail(EmulatorNameMissing) else Pass
  }

  /** The install probe's answer, as `getAndroidOptions` obtains it for the configured package. */
  predicate AppInstalled(cfg: Config, env: Environment)
  {
    "app.package" in cfg && SomeLineContains(Delivered(env.installProbe), cfg["app.package"])
  }

  /** The Android part of `initializeDriver`: emulator start and boot wait, then the options. */
  function AndroidCapabilities(cfg: Config, env: Environment): (r: Result<Capabilities, DriverError>)
    ensures "android.device.type" !in cfg ==> r == Failure(MissingKey("android.device.type"))
    ensures r == Failure(EmulatorNameMissing) <==>
              && "android.device.type" in cfg
              && EqualsIgnoreCase(cfg["android.device.type"], "emulator")
              && ("android.emulator.name" !in cfg || cfg["android.emulator.name"] == "")
    ensures r == Failure(EmulatorNeverBooted) <==>
              && "android.device.type" in cfg
              && EqualsIgnoreCase(cfg["android.device.type"], "emulator")
              && "android.emulator.name" in cfg && cfg["android.emulator.name"] != ""
              && !BootObserved(env.bootProbes)
    ensures r.Failure? && r.error.MissingKey? ==>
              "android.device.type" !in cfg || GetAndroidOptions(cfg, AppInstalled(cfg, env)).Failure?
    ensures r.Success? <==>
              && "android.device.type" in cfg
              && (EqualsIgnoreCase(cfg["android.device.type"], "emulator") ==>
                    "android.emulator.name" in cfg && cfg["android.emulator.name"] != ""
                    && BootObserved(env.bootProbes))
              && GetAndroidOptions(cfg, AppInstalled(cfg, env)).Success?
    ensures r.Success? ==> r.value == AndroidCaps(GetAndroidOptions(cfg, AppInstalled(cfg, env)).value)
  {
    if "android.device.type" !in cfg then Failure(MissingKey("android.device.type"))
    else if EqualsIgnoreCase(cfg["android.device.type"], "emulator")
            && StartEmulator(Get(cfg, "android.emulator.name")).Fail? then Failure(EmulatorNameMissing)
    else if EqualsIgnoreCase(cfg["android.device.type"], "emulator")
            && !BootObserved(env.bootProbes) then Failure(EmulatorNeverBooted)
    else
      match GetAndroidOptions(cfg, AppInstalled(cfg, env))
      case Failure(key) => Failure(MissingKey(key))
      case Success(options) => Success(AndroidCaps(options))
  }

  /** The session that `initializeDriver` opens from Idle, or the error it throws. */
  function NewSession(cfg: Config, env: Environment): (r: Result<Session, DriverError>)
    ensures r.Success? ==> env.serverSession == Some(r.value.id)
    ensures r.Success? ==> "appium.server.url" in cfg && env.serverUrlAccepted && "platform.name" in cfg
  {
    if "appium.server.url" !in cfg then Failure(MissingKey("appium.server.url"))
    else if !env.serverUrlAccepted then Failure(InvalidServerUrl)
    else if "platform.name" !in cfg then Failure(MissingKey("platform.name"))
    else
      var platform := ToLower(cfg["platform.name"]);
      var caps :=
        if platform == "android" then AndroidCapabilities(cfg, env)
        else if platform == "ios" then
          match GetIosOptions(cfg)
          case Failure(key) => Failure(MissingKey(key))
          case Success(options) => Success(IosCaps(options))
        else Failure(UnsupportedPlatform(cfg["platform.name"]));
      match caps
      case Failure(e) => Failure(e)
      case Success(c) =>
        match env.serverSession
        case None => Failure(SessionRejected)
        case Some(id) => Success(Session(id, c))
  }

  /** Any platform name other than "android" or "ios", in any case, is rejected and no session is opened. */
  lemma UnsupportedPlatformRejected(cfg: Config, env: Environment)
    requires "appium.server.url" in cfg && env.serverUrlAccepted && "platform.name" in cfg
    requires !EqualsIgnoreCase(cfg["platform.name"], "android")
    requires !EqualsIgnoreCase(cfg["platform.name"], "ios")
    ensures NewSession(cfg, env) == Failure(UnsupportedPlatform(cfg["platform.name"]))
  {
    assert forall i :: 0 <= i < |"android"| ==> !('A' <= "android"[i] <= 'Z');
    assert forall i :: 0 <= i < |"ios"| ==> !('A' <= "ios"[i] <= 'Z');
    LowerEqualsIffIgnoreCase(cfg["platform.name"], "android");
    LowerEqualsIffIgnoreCase(cfg["platform.name"], "ios");
  }

  /** The platform of an opened session is chosen by the platform name compared ignoring case. */
  lemma PlatformChosenIgnoringCase(cfg: Config, env: Environment)
    requires NewSession(cfg, env).Success?
    ensures NewSession(cfg, env).value.capabilities.AndroidCaps? <==>
              EqualsIgnoreCase(cfg["platform.name"], "android")
    ensures NewSession(cfg, env).value.capabilities.IosCaps? <==>
              EqualsIgnoreCase(cfg["platform.name"], "ios")
  {
    assert forall i :: 0 <= i < |"android"| ==> !('A' <= "android"[i] <= 'Z');
    assert forall i :: 0 <= i < |"ios"| ==> !('A' <= "ios"[i] <= 'Z');
    LowerEqualsIffIgnoreCase(cfg["platform.name"], "android");
    LowerEqualsIffIgnoreCase(cfg["platform.name"], "ios");
  }

  /**
   * An Android session on the emulator is opened only once the emulator has
   * a name and a probe has reported a completed boot; it carries the AVD,
   * both timeouts and no UDID.
   */
  lemma AndroidEmulatorSession(cfg: Config, env: Environment)
    requires NewSession(cfg, env).Success?
    requires EqualsIgnoreCase(cfg["platform.name"], "android")
    requires "android.device.type" in cfg && EqualsIgnoreCase(cfg["android.device.type"], "emulator")
    ensures "android.emulator.name" in cfg && cfg["android.emulator.name"] != ""
    ensures BootObserved(env.bootProbes)
    ensures var caps := NewSession(cfg, env).value.capabilities;
            && caps.AndroidCaps?
            && caps.android.avd == Some(cfg["android.emulator.name"])
            && caps.android.avdLaunchTimeoutSeconds == Some(180)
            && caps.android.avdReadyTimeoutSeconds == Some(60)
            && caps.android.udid == None
  {
    PlatformChosenIgnoringCase(cfg, env);
  }

  /** An Android session on a real device carries the configured UDID and no AVD settings. */
  lemma AndroidRealDeviceSession(cfg: Config, env: Environment)
    requires NewSession(cfg, env).Success?
    requires EqualsIgnoreCase(cfg["platform.name"], "android")
    requires "android.device.type" in cfg && EqualsIgnoreCase(cfg["android.device.type"], "real")
    ensures var caps := NewSession(cfg, env).value.capabilities;
            && caps.AndroidCaps?
            && caps.android.udid == Get(cfg, "android.device.udid")
            && caps.android.avd == None
            && caps.android.avdLaunchTimeoutSeconds == None
            && caps.android.avdReadyTimeoutSeconds == None
  {
    PlatformChosenIgnoringCase(cfg, env);
  }

  /** Android: the app binary is attached exactly when the install probe did not find the package. */
  lemma AndroidAppAttachedUnlessInstalled(cfg: Config, env: Environment)
    requires NewSession(cfg, env).Success?
    requires EqualsIgnoreCase(cfg["platform.name"], "android")
    ensures var caps := NewSession(cfg, env).value.capabilities;
            && caps.AndroidCaps?
            && "app.package" in cfg
            && (SomeLineContains(Delivered(env.installProbe), cfg["app.package"]) ==> caps.android.app == None)
            && (!SomeLineContains(Delivered(env.installProbe), cfg["app.package"]) ==>
                  caps.android.app == Get(cfg, "android.app.path"))
  {
    PlatformChosenIgnoringCase(cfg, env);
  }

  class DriverManager {
    /** The configuration table the class loads for itself (no separator rewriting). */
    const properties: Config
    /** The static `driver` field. */
    var driver: Option<Session>
    /** How many sessions have been opened so far. */
    ghost var sessionsOpened: nat

    ghost predicate Valid()
      reads this
    {
      driver.Some? ==> sessionsOpened > 0
    }

    constructor (properties: Config)
      ensures this.properties == properties
      ensures driver == None && sessionsOpened == 0 && Valid()
    {
      this.properties := properties;
      driver := None;
      sessionsOpened := 0;
    }

    /**
     * `initializeDriver`.  While Active it returns at once; from Idle it
     * either opens the session `NewSession` describes or fails and stays Idle.
     */
    method InitializeDriver(env: Environment) returns (r: Outcome<DriverError>)
      requires Valid()
      modifies this
      ensures Valid()
      ensures old(driver).Some? ==> driver == old(driver) && sessionsOpened == old(sessionsOpened) && r == Pass
      ensures old(driver).None? ==>
                match NewSession(properties, env)
                case Success(s) => driver == Some(s) && sessionsOpened == old(sessionsOpened) + 1 && r == Pass
                case Failure(e) => driver == None && sessionsOpened == old(sessionsOpened) && r == Fail(e)
    {
      if driver.Some? {
        return Pass;
      }
      if "appium.server.url" !in properties {
        return Fail(MissingKey("appium.server.url"));
      }
      if !env.serverUrlAccepted {
        return Fail(InvalidServerUrl);
      }
      if "platform.name" !in properties {
        return Fail(MissingKey("platform.name"));
      }
      var platformName := properties["platform.name"];
      var caps: Capabilities;
      var platform := ToLower(platformName);
      if platform == "android" {
        if "android.device.type" !in properties {
          return Fail(MissingKey("android.device.type"));
        }
        if EqualsIgnoreCase(properties["android.device.type"], "emulator") {
          var started := StartEmulator(Get(properties, "android.emulator.name"));
          if started.Fail? {
            return started;
          }
          var polls, booted := WaitForBoot(env.bootProbes);
          if !booted {
            return Fail(EmulatorNeverBooted);
          }
        }
        var installed := false;
        if "app.package" in properties {
          installed := IsAppInstalled(env.installProbe, properties["app.package"]);
        }
        var options := GetAndroidOptions(properties, installed);
        if options.Failure? {
          return Fail(MissingKey(options.error));
        }
        caps := AndroidCaps(options.value);
      } else if platform == "ios" {
        var options := GetIosOptions(properties);
        if options.Failure? {
          return Fail(MissingKey(options.error));
        }
        caps := IosCaps(options.value);
      } else {
        return Fail(UnsupportedPlatform(platformName));
      }
      if env.serverSession.None? {
        return Fail(SessionRejected);
      }
      driver := Some(Session(env.serverSession.value, caps));
      sessionsOpened := sessionsOpened + 1;
      return Pass;
    }

    /** `getDriver`: the held session, or an error while Idle.  A session it returns was opened by an initialisation. */
    method GetDriver() returns (r: Result<Session, DriverError>)
      requires Valid()
      ensures r.Success? ==> sessionsOpened > 0
      ensures driver.None? ==> r == Failure(NotInitialized)
      ensures driver.Some? ==> r == Success(driver.value)
    {
      if driver.None? {
        return Failure(NotInitialized);
      }
      return Success(driver.value);
    }

    /**
     * `quitDriver`.  Idle: nothing happens.  Active: the session is closed
     * and the slot emptied; if closing fails the error propagates before the
     * slot is cleared, so the stale session stays in it.
     */
    method QuitDriver(closeSucceeds: bool) returns (r: Outcome<DriverError>)
      requires Valid()
      modifies this
      ensures Valid() && sessionsOpened == old(sessionsOpened)
      ensures old(driver).None? ==> driver == None && r == Pass
      ensures old(driver).Some? && closeSucceeds ==> driver == None && r == Pass
      ensures old(driver).Some? && !closeSucceeds ==> driver == old(driver) && r == Fail(CloseFailed)
    {
      if driver.Some? {
        if !closeSucceeds {
          return Fail(CloseFailed);
        }
        driver := None;
      }
      return Pass;
    }
  }

  /**
   * Two initialisations without a quit in between open at most one session,
   * and `getDriver` then returns the one the first call opened.
   */
  method InitializeTwice(m: DriverManager, first: Environment, second: Environment)
    returns (held: Result<Session, DriverError>)
    requires m.Valid() && m.driver.None?
    modifies m
    ensures m.Valid()
    ensures m.sessionsOpened <= old(m.sessionsOpened) + 1
    ensures NewSession(m.properties, first).Success? ==>
              m.sessionsOpened == old(m.sessionsOpened) + 1 && held == NewSession(m.properties, first)
  {
    var r1 := m.InitializeDriver(first);
    var r2 := m.InitializeDriver(second);
    held := m.GetDriver();
  }

  /**
   * Quitting a session that closes cleanly, then initialising again, opens
   * a fresh session described by the new environment.
   */
  method QuitThenReinitialize(m: DriverManager, env: Environment)
    returns (held: Result<Session, DriverError>)
    requires m.Valid() && m.driver.Some?
    modifies m
    ensures m.Valid()
    ensures NewSession(m.properties, env).Success? ==>
              m.sessionsOpened == old(m.sessionsOpened) + 1 && held == NewSession(m.properties, env)
    ensures NewSession(m.properties, env).Failure? ==>
              m.sessionsOpened == old(m.sessionsOpened) && held == Failure(NotInitialized)
  {
    var q := m.QuitDriver(true);
    var r := m.InitializeDriver(env);
    held := m.GetDriver();
  }

  /** A close that fails leaves the stale session in the slot, and the next initialisation opens nothing. */
  method FailedQuitBlocksReinitialize(m: DriverManager, env: Environment)
    returns (held: Result<Session, DriverError>)
    requires m.Valid() && m.driver.Some?
    modifies m
    ensures m.Valid()
    ensures m.sessionsOpened == old(m.sessionsOpened) && held == Success(old(m.driver).value)
  {
    var q := m.QuitDriver(false);
    var r := m.InitializeDriver(env);
    held := m.GetDriver();
  }
}
