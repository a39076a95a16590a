/**
 * The session builder: the capability sets for an Android (UiAutomator2)
 * and an iOS (XCUITest) session, computed from the configuration.  A value
 * the code hands to an option setter may be missing, and the capability is
 * then left unset; a value the code calls a method on must be present, and
 * its absence fails the build with the name of the missing key.
 */
module SessionBuilder {
  import opened Wrappers
  import opened Text

  type Config = map<string, string>

  /** `properties.getProperty(key)`, with `None` for `null`. */
  function Get(cfg: Config, key: string): Option<string>
  {
    if key in cfg then Some(cfg[key]) else None
  }

  const AvdLaunchTimeoutSeconds: nat := 180
  const AvdReadyTimeoutSeconds: nat := 60

  datatype AndroidOptions = AndroidOptions(
    automationName: string,
    platformName: Option<string>,
    ignoreHiddenApiPolicyError: bool,
    deviceName: Option<string>,
    appPackage: string,
    appWaitActivity: Option<string>,
    noReset: bool,
    dontStopAppOnReset: bool,
    app: Option<string>,
    avd: Option<string>,
    avdLaunchTimeoutSeconds: Option<nat>,
    avdReadyTimeoutSeconds: Option<nat>,
    udid: Option<string>)

  datatype IosOptions = IosOptions(
    automationName: string,
    platformName: Option<string>,
    deviceName: Option<string>,
    app: Option<string>,
    udid: Option<string>)

  /** The options a session is opened with, tagged by platform. */
  datatype Capabilities = AndroidCaps(android: AndroidOptions) | IosCaps(ios: IosOptions)

  /**
   * `getAndroidOptions`, given the answer of the install probe.  The error
   * is the first key, in the order the code reads them, whose absence the
   * code dereferences.
   */
  function GetAndroidOptions(cfg: Config, installed: bool): (r: Result<AndroidOptions, string>)
    ensures r.Failure? <==>
              "android.device.name" !in cfg || "app.package" !in cfg || "android.device.type" !in cfg
    ensures r.Failure? ==>
              r.error == if "android.device.name" !in cfg then "android.device.name"
                         else if "app.package" !in cfg then "app.package"
                         else "android.device.type"
    ensures r.Success? ==>
              var o := r.value;
              var deviceType := cfg["android.device.type"];
              && o.automationName == "UiAutomator2"
              && o.platformName == Get(cfg, "platform.name")
              && o.ignoreHiddenApiPolicyError && o.noReset && o.dontStopAppOnReset
              && o.appPackage == cfg["app.package"]
              && o.appWaitActivity == Get(cfg, "app.activity")
              // the device name follows android.device.name, not android.device.type
              && (EqualsIgnoreCase(cfg["android.device.name"], "emulator") ==>
                    o.deviceName == Get(cfg, "android.emulator.name"))
              && (!EqualsIgnoreCase(cfg["android.device.name"], "emulator") ==>
                    o.deviceName == Get(cfg, "android.real.name"))
              // the app binary is attached only when the package is not installed yet
              && (installed ==> o.app.None?)
              && (!installed ==> o.app == Get(cfg, "android.app.path"))
              // emulator: AVD with its two fixed timeouts
              && (o.avdLaunchTimeoutSeconds.Some? <==> EqualsIgnoreCase(deviceType, "emulator"))
              && (o.avdReadyTimeoutSeconds.Some? <==> EqualsIgnoreCase(deviceType, "emulator"))
              && (o.avdLaunchTimeoutSeconds.Some? ==> o.avdLaunchTimeoutSeconds.value == 180)
              && (o.avdReadyTimeoutSeconds.Some? ==> o.avdReadyTimeoutSeconds.value == 60)
              && (EqualsIgnoreCase(deviceType, "emulator") ==> o.avd == Get(cfg, "android.emulator.name"))
              && (!EqualsIgnoreCase(deviceType, "emulator") ==> o.avd.None?)
              // real device: the UDID
              && (EqualsIgnoreCase(deviceType, "real") ==> o.udid == Get(cfg, "android.device.udid"))
              && (!EqualsIgnoreCase(deviceType, "real") ==> o.udid.None?)
              // never both
              && (o.udid.Some? ==> o.avd.None? && o.avdLaunchTimeoutSeconds.None? && o.avdReadyTimeoutSeconds.None?)
  {
    if "android.device.name" !in cfg then Failure("android.device.name")
    else if "app.package" !in cfg then Failure("app.package")
    else if "android.device.type" !in cfg then Failure("android.device.type")
    else
      var onEmulator := EqualsIgnoreCase(cfg["android.device.type"], "emulator");
      var onReal := EqualsIgnoreCase(cfg["android.device.type"], "real");
      Success(AndroidOptions(
        automationName := "UiAutomator2",
        platformName := Get(cfg, "platform.name"),
        ignoreHiddenApiPolicyError := true,
        deviceName := if EqualsIgnoreCase(cfg["android.device.name"], "emulator")
                      then Get(cfg, "android.emulator.name")
                      else Get(cfg, "android.real.name"),
        appPackage := cfg["app.package"],
        appWaitActivity := Get(cfg, "app.activity"),
        noReset := true,
        dontStopAppOnReset := true,
        app := if installed then None else Get(cfg, "android.app.path"),
        avd := if onEmulator then Get(cfg, "android.emulator.name") else None,
        avdLaunchTimeoutSeconds := if onEmulator then Some(AvdLaunchTimeoutSeconds) else None,
        avdReadyTimeoutSeconds := if onEmulator then Some(AvdReadyTimeoutSeconds) else None,
        udid := if onReal then Get(cfg, "android.device.udid") else None))
  }

  /**
   * `getIosOptions`.  The simulator's name is read under the key
   * "ios.simulator.nam", as the code spells it; any other device name is
   * used as the device name itself.
   */
  function GetIosOptions(cfg: Config): (r: Result<IosOptions, string>)
    ensures r.Failure? <==> "ios.device.name" !in cfg || "ios.device.type" !in cfg
    ensures r.Failure? ==>
              r.error == if "ios.device.name" !in cfg then "ios.device.name" else "ios.device.type"
    ensures r.Success? ==>
              var o := r.value;
              && o.automationName == "XCUITest"
              && o.platformName == Get(cfg, "platform.name")
              && o.app == Get(cfg, "ios.app.path")
              && (EqualsIgnoreCase(cfg["ios.device.name"], "simulator") ==>
                    o.deviceName == Get(cfg, "ios.simulator.nam"))
              && (!EqualsIgnoreCase(cfg["ios.device.name"], "simulator") ==>
                    o.deviceName == Some(cfg["ios.device.name"]))
              && (EqualsIgnoreCase(cfg["ios.device.type"], "real") ==> o.udid == Get(cfg, "ios.device.udid"))
              && (!EqualsIgnoreCase(cfg["ios.device.type"], "real") ==> o.udid.None?)
  {
    if "ios.device.name" !in cfg then Failure("ios.device.name")
    else if "ios.device.type" !in cfg then Failure("ios.device.type")
    else
      Success(IosOptions(
        automationName := "XCUITest",
        platformName := Get(cfg, "platform.name"),
        deviceName := if EqualsIgnoreCase(cfg["ios.device.name"], "simulator")
                      then Get(cfg, "ios.simulator.nam")
                      else Some(cfg["ios.device.name"]),
        app := Get(cfg, "ios.app.path"),
        udid := if EqualsIgnoreCase(cfg["ios.device.type"], "real") then Get(cfg, "ios.device.udid") else None))
  }

  /** The correctly spelt key "ios.simulator.name" plays no part in the iOS options. */
  lemma IosIgnoresSimulatorNameKey(cfg: Config, v: string, w: string)
    ensures GetIosOptions(cfg["ios.simulator.name" := v]) == GetIosOptions(cfg["ios.simulator.name" := w])
  {
    var cv, cw := cfg["ios.simulator.name" := v], cfg["ios.simulator.name" := w];
    assert forall k :: k != "ios.simulator.name" ==> Get(cv, k) == Get(cw, k);
    assert "ios.simulator.nam" != "ios.simulator.name";
  }
}
