/**
 * The two device probes, reduced to what they decide from the console
 * output of the device-bridge command, and the wait for the emulator to
 * finish booting.  Spawning the command and reading its stream are outside
 * the model; a probe is given the lines it managed to read.
 */
module Probes {
  import opened Wrappers
  import opened Text

  /** The output of one run of a device-bridge command. */
  datatype ProbeOutput =
    | Exited(lines: seq<string>)           // the stream ended normally
    | IoFailure(readBefore: seq<string>)   // an I/O error, after these lines were read

  /** The lines the reader delivered before the end of the stream or the I/O error. */
  function Delivered(o: ProbeOutput): seq<string>
  {
    match o
    case Exited(lines) => lines
    case IoFailure(readBefore) => readBefore
  }

  /** What `readLine` returns first: `None` plays the part of `null`. */
  function FirstLine(o: ProbeOutput): (line: Option<string>)
    ensures line.Some? <==> Delivered(o) != []
    ensures line.Some? ==> line.value == Delivered(o)[0]
  {
    var lines := Delivered(o);
    if lines == [] then None else Some(lines[0])
  }

  /**
   * `isEmulatorBooted`: `"1".equals(reader.readLine())`.  An I/O error
   * before the first line reads as "not booted".
   */
  function IsEmulatorBooted(o: ProbeOutput): (booted: bool)
    ensures booted <==> Delivered(o) != [] && Delivered(o)[0] == "1"
    ensures Delivered(o) == ["1"] ==> booted
    ensures Delivered(o) == [] ==> !booted
  {
    FirstLine(o) == Some("1")
  }

  /** Some delivered line contains the package name. */
  predicate SomeLineContains(lines: seq<string>, packageName: string)
  {
    exists i :: 0 <= i < |lines| && Contains(lines[i], packageName)
  }

  /**
   * `isAppInstalled`: scans the delivered lines and stops at the first one
   * that contains the package name; an I/O error ends the scan with "not
   * installed" unless an earlier line already matched.
   */
  method IsAppInstalled(o: ProbeOutput, packageName: string) returns (installed: bool)
    ensures installed <==> SomeLineContains(Delivered(o), packageName)
    ensures Delivered(o) == [] ==> !installed
  {
    var lines := Delivered(o);
    var i := 0;
    while i < |lines|
      invariant 0 <= i <= |lines|
      invariant forall j :: 0 <= j < i ==> !Contains(lines[j], packageName)
    {
      if Contains(lines[i], packageName) {
        return true;
      }
      i := i + 1;
    }
    return false;
  }

  /** Some probe in the sequence reports a completed boot. */
  predicate BootObserved(probes: seq<ProbeOutput>)
  {
    exists k :: 0 <= k < |probes| && IsEmulatorBooted(probes[k])
  }

  /**
   * The boot wait of `initializeDriver`: probe again and again until a probe
   * reports a completed boot.  The successive probe outputs are given; the
   * five-second pauses between them are not modelled.  `polls` is the number
   * of probes that reported "not booted".
   */
  method WaitForBoot(probes: seq<ProbeOutput>) returns (polls: nat, booted: bool)
    ensures booted <==> BootObserved(probes)
    ensures booted ==> polls < |probes| && IsEmulatorBooted(probes[polls])
    ensures !booted ==> polls == |probes|
    ensures forall k :: 0 <= k < polls && k < |probes| ==> !IsEmulatorBooted(probes[k])
  {
    polls := 0;
    while polls < |probes| && !IsEmulatorBooted(probes[polls])
      invariant polls <= |probes|
      invariant forall k :: 0 <= k < polls ==> !IsEmulatorBooted(probes[k])
    {
      polls := polls + 1;
    }
    booted := polls < |probes|;
  }
}
