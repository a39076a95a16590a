# Mobile-automation session bootstrapper, modelled in Dafny

This project models the core logic of a small Appium test harness. The harness reads
key/value configuration, builds the capability set for an Android (UiAutomator2) or an
iOS (XCUITest) session, optionally starts an emulator and waits for it to boot, and then
keeps the one automation session of the process in a static slot until it is quit.

Modules:

- `Wrappers` (`wrappers.dfy`): `Option`, `Result` and `Outcome`. `None` stands for Java's
  `null`. `Failure` and `Fail` stand for a thrown exception.
- `Text` (`text.dfy`): `toLowerCase`, `equalsIgnoreCase` and `contains`, with lemmas that
  relate them.
- `Config` (`config.dfy`): the class `ConfigReader`, which holds the static `properties`
  slot. `LoadProperties` fills the slot from a given resource. `GetProperty` looks a key
  up and rewrites both kinds of path separator in the values of "path"/"directory" keys.
- `Probes` (`probes.dfy`): the boot probe and the install probe, as decisions over the
  lines of command output they are given. Also the boot-wait loop, run over a given
  sequence of probe outputs.
- `SessionBuilder` (`session_builder.dfy`): the records of Android and iOS options, and
  `getAndroidOptions` / `getIosOptions` as pure functions of the configuration.
- `Driver` (`driver.dfy`): the class `DriverManager`, which holds the `driver` slot
  (Idle = `None`, Active = `Some(session)`) and a ghost count of sessions opened.
  `NewSession` is the specification of what `initializeDriver` opens from Idle. Three
  client methods state how the lifecycle plays out over several calls.

Modelling choices:

- The code dereferences some configuration values: it calls `equalsIgnoreCase` or
  `toLowerCase` on them, passes them to `new URI`, or passes them as a process argument.
  A missing value of that kind would be a `NullPointerException`. Here it is the error
  `MissingKey(key)`, naming the first such key in the order the code reads them.
- Other values are only passed to an option setter. A missing one leaves that capability
  unset, so those fields are `Option`s. This assumes the Selenium/Appium convention that
  setting a capability to `null` removes it.
- `DriverManager` reads its own `Properties` table directly, so its values are never
  separator-rewritten. The `DriverManager` class therefore takes a plain map.

## Behaviour modelled as written

- The Android device name depends on `android.device.name` equalling "emulator"
  (DriverManager.java:68). It does not depend on `android.device.type`, which decides the
  AVD and UDID settings.
- The iOS simulator name is read under the key `ios.simulator.nam` (DriverManager.java:101).
  `IosIgnoresSimulatorNameKey` shows that the correctly spelt key plays no part.
- The boot probe compares only the FIRST line of output with "1" (DriverManager.java:126-127).
  Output such as "1" followed by more lines also counts as booted.
- `quitDriver` does not clear the slot when `driver.quit()` throws: the exception leaves the
  method before `driver = null` (DriverManager.java:198-199). `FailedQuitBlocksReinitialize`
  states what follows: the stale session stays, and the next `initializeDriver` opens nothing.
- `loadProperties` stores a fresh, empty table before it looks for the resource
  (ConfigReader.java:17). So after a failed load the slot holds an empty (or partially read)
  table, not "uninitialised".

## Model

| member | source | states |
|---|---|---|
| `Text.ToLower` | src/main/java/utils/DriverManager.java:36 | the result has the input's length and holds the lower-case form of each character |
| `Text.EqualsIgnoreCaseIffSameLower` | src/main/java/utils/DriverManager.java:36-38 | two strings are equal ignoring case exactly when their lower-case forms are equal (ASCII folding) |
| `Text.EqualsIgnoreCase` | src/main/java/utils/DriverManager.java:38 | equal strings are equal ignoring case (ASCII folding); the same comparison serves DriverManager.java:68, 81, 87, 100 and 105 |
| `Text.LowerEqualsIffIgnoreCase` | src/main/java/utils/DriverManager.java:36-38 | switching on `toLowerCase()` against a lower-case literal selects the same case as `equalsIgnoreCase` with that literal (ASCII folding) |
| `Text.Contains` | src/main/java/utils/ConfigReader.java:35 | the empty string is contained in every string, and a contained string is no longer than the one containing it; also used for the line test at DriverManager.java:169 |
| `Text.ContainsIffOccurs` | src/main/java/utils/ConfigReader.java:35 | the substring test holds exactly when the substring occurs at some index |
| `Config.IsPathKey` | src/main/java/utils/ConfigReader.java:35 | a key is rewritten exactly when "path" or "directory" occurs in it at some index, case-sensitively |
| `Config.Replace` | src/main/java/utils/ConfigReader.java:36 | single-character replace keeps the length; every occurrence becomes the replacement and every other character is unchanged |
| `Config.Normalize` | src/main/java/utils/ConfigReader.java:36 | the two replace calls keep the length and turn every `/` or `\` into the host separator, leaving other characters alone; no other separator remains |
| `Config.NormalizeIdempotent` | src/main/java/utils/ConfigReader.java:36 | rewriting an already rewritten value gives the same string |
| `Config.ConfigReader.constructor` | src/main/java/utils/ConfigReader.java:10 | before any load the properties slot is unset |
| `Config.ConfigReader.LoadProperties` | src/main/java/utils/ConfigReader.java:16-28 | missing resource: the slot holds an empty table and the error is "resource missing"; read failure: the slot holds what was read and the error is "load failed"; otherwise the slot holds the resource's entries |
| `Config.ConfigReader.GetProperty` | src/main/java/utils/ConfigReader.java:30-39 | fails with "not initialised" exactly when nothing was loaded; a value is returned exactly when the key is present; for a key without "path"/"directory" it is the stored value; otherwise it has the stored length, holds the host separator where the stored value had either separator and the stored character elsewhere, and is unchanged by a second rewrite |
| `Config.LoadThenLookup` | src/main/java/utils/ConfigReader.java:16-38 | a lookup after any load never fails as uninitialised; after a missing resource every key is absent; after a read failure the keys read before it are found; after a successful load the resource's entries are found, unchanged for non-path keys |
| `Probes.FirstLine` | src/main/java/utils/DriverManager.java:126 | the first `readLine` yields a line exactly when some line was delivered, and then it is the first one |
| `Probes.IsEmulatorBooted` | src/main/java/utils/DriverManager.java:120-131 | "booted" holds exactly when the first delivered line is "1"; output of just "1" is booted; no output (including an I/O error before any line) is not booted |
| `Probes.IsAppInstalled` | src/main/java/utils/DriverManager.java:160-177 | "installed" holds exactly when some delivered line contains the package name; no output (including an I/O error before any line) is not installed |
| `Probes.WaitForBoot` | src/main/java/utils/DriverManager.java:40-43 | the wait ends booted exactly when some probe reports a boot; it stops at the first such probe, after that many "not booted" probes; otherwise every probe was polled |
| `SessionBuilder.GetAndroidOptions` | src/main/java/utils/DriverManager.java:63-92 | fails exactly when `android.device.name`, `app.package` or `android.device.type` is missing, naming the first in reading order; otherwise the options are UiAutomator2 with noReset, dontStopAppOnReset and ignoreHiddenApiPolicyError set; the device name is the emulator name when `android.device.name` equals "emulator" ignoring case, else the real name; the app is attached exactly when the package is not installed; the AVD and the 180 s / 60 s timeouts are set exactly when the device type is "emulator"; the UDID exactly when it is "real"; the two never both |
| `SessionBuilder.GetIosOptions` | src/main/java/utils/DriverManager.java:95-111 | fails exactly when `ios.device.name` or `ios.device.type` is missing; otherwise the options are XCUITest with the app from `ios.app.path`; the device name comes from `ios.simulator.nam` when `ios.device.name` equals "simulator" ignoring case, else it is `ios.device.name` itself; the UDID is set exactly when the device type is "real" ignoring case |
| `SessionBuilder.IosIgnoresSimulatorNameKey` | src/main/java/utils/DriverManager.java:100-102 | the iOS options do not depend on the key `ios.simulator.name` |
| `Driver.StartEmulator` | src/main/java/utils/DriverManager.java:138-141 | the launch fails with "emulator name missing" exactly when the name is absent or empty |
| `Driver.AndroidCapabilities` | src/main/java/utils/DriverManager.java:37-46 | a missing `android.device.type` is a missing-key error; `EmulatorNameMissing` exactly when the device type is "emulator" and the emulator name is absent or empty; `EmulatorNeverBooted` exactly when the name is present but no probe reports a boot; success exactly when those pass and `GetAndroidOptions` succeeds with the install probe's answer (DriverManager.java:77), and then the result is those Android options |
| `Driver.NewSession` | src/main/java/utils/DriverManager.java:27-56 | a session opened from Idle carries the identifier the server assigned, and exists only when the server URL is present and accepted and a platform name is configured |
| `Driver.UnsupportedPlatformRejected` | src/main/java/utils/DriverManager.java:36-54 | a platform name equal to neither "android" nor "ios", ignoring case, yields the unsupported-platform error naming it |
| `Driver.PlatformChosenIgnoringCase` | src/main/java/utils/DriverManager.java:36-51 | an opened session is an Android one exactly when the platform name equals "android" ignoring case, and an iOS one exactly when it equals "ios" (ASCII folding) |
| `Driver.AndroidEmulatorSession` | src/main/java/utils/DriverManager.java:38-89 | an Android emulator session is opened only after a non-empty emulator name and an observed boot; it carries that AVD, launch timeout 180, ready timeout 60 and no UDID |
| `Driver.AndroidRealDeviceSession` | src/main/java/utils/DriverManager.java:87-89 | an Android real-device session carries the configured UDID and no AVD or timeouts |
| `Driver.AndroidAppAttachedUnlessInstalled` | src/main/java/utils/DriverManager.java:77-79 | an Android session carries the app path exactly when the install probe did not find the package |
| `Driver.DriverManager.constructor` | src/main/java/utils/DriverManager.java:18-19 | the manager starts Idle with no session opened, over the table it loaded |
| `Driver.DriverManager.InitializeDriver` | src/main/java/utils/DriverManager.java:27-56 | while Active: returns at once, nothing changes and no session is opened; from Idle: either holds the session `NewSession` describes after opening exactly one, or fails with `NewSession`'s error, stays Idle and opens none |
| `Driver.DriverManager.GetDriver` | src/main/java/utils/DriverManager.java:186-191 | fails with "not initialised" when Idle, else returns the held session; a session it returns was opened by some initialisation (the manager's invariant) |
| `Driver.DriverManager.QuitDriver` | src/main/java/utils/DriverManager.java:196-201 | Idle: nothing changes; Active with a clean close: the slot becomes empty; Active with a failed close: the error propagates and the session stays |
| `Driver.InitializeTwice` | src/main/java/utils/DriverManager.java:28-30 | two initialisations without a quit open at most one session, and the held session is the first one's |
| `Driver.QuitThenReinitialize` | src/main/java/utils/DriverManager.java:196-201 | after a clean quit, a new initialisation opens a fresh session (the count goes up by one) or leaves the slot Idle |
| `Driver.FailedQuitBlocksReinitialize` | src/main/java/utils/DriverManager.java:198-199 | after a failed close the old session stays held and the next initialisation opens nothing |

## Left out

- Process spawning (`adb`, `cmd.exe /c start emulator -avd`) and stream reading: a probe is given the lines it read, and whether an I/O error ended the read.
- The emulator launch itself: fire-and-forget, and its spawn failures are only logged. Only the name check of `startEmulator` is modelled.
- Appium client construction and the remote-session protocol: opening a session is a given server answer (an identifier or a rejection), and closing one is a given success flag.
- `new URI(...)` and `toURL()`: their success is a given flag, checked after the URL key is known to be present.
- `Thread.sleep` and the unbounded boot wait: the wait runs over a finite sequence of probe outputs. Running out of them is the error `EmulatorNeverBooted`, which the code never raises (it waits forever).
- The `.properties` file format and classpath lookup: a load starts from a resource that is missing, unreadable part-way (with what was read before the failure), or readable as a map.
- The static initialisers: a failed load there makes the Java class unusable. That failure mode is not modelled.
- The unset configuration slot of `ConfigReader.constructor`, and the "not initialised" branch of `GetProperty` (ConfigReader.java:31-33): the Java program cannot reach them. The static initialiser (ConfigReader.java:12-14) runs a load before any lookup, and every load assigns a table first (ConfigReader.java:17). They are modelled only to make the code's guard explicit.
- `File.separator`: the host separator is a parameter, `/` or `\`.
- Case folding covers ASCII letters only. Java's Unicode and locale-sensitive rules (the Turkish dotless i, for example) are not modelled.
- Console and stderr logging.
- `BaseTest.java`: its suite hooks only call `initializeDriver` and `quitDriver`.
- Concurrency: the slot is used by one caller. The unsynchronised static field is not modelled.
