/** The firmware targets the build recognises and the binary names each produces. */
module Targets {

  /** The members of the `Target` enum. */
  datatype Target = Copter | Heli | Plane | Rover | Sub | AntennaTracker | APPeriph

  /** The string value of each enum member, as passed to `--target`. */
  function TargetName(t: Target): string
  {
    match t
    case Copter => "copter"
    case Heli => "heli"
    case Plane => "plane"
    case Rover => "rover"
    case Sub => "sub"
    case AntennaTracker => "antennatracker"
    case APPeriph => "AP_Periph"
  }

  /** The `targets` array: every member once, in declaration order. */
  const AllTargets: seq<Target> := [Copter, Heli, Plane, Rover, Sub, AntennaTracker, APPeriph]

  /** The three files a build of one target leaves in the binary directory. */
  datatype Binaries = Binaries(elf: string, bin: string, apj: string)

  /** `generateBinaries`: the three file names on one stem. */
  function GenerateBinaries(name: string): Binaries
  {
    Binaries(name + ".elf", name + ".bin", name + ".apj")
  }

  /** The file-name stem of each target's binaries. */
  function Stem(t: Target): string
  {
    match t
    case Copter => "arducopter"
    case Heli => "arducopter_heli"
    case Plane => "ardupilot_plane"
    case Rover => "ardurover"
    case Sub => "ardusub"
    case AntennaTracker => "antennatracker"
    case APPeriph => "AP_Periph"
  }

  /** `DefaultBinaries`: the `.elf`, `.bin` and `.apj` names share the target's stem. */
  function DefaultBinaries(t: Target): (b: Binaries)
    ensures b.elf == Stem(t) + ".elf"
    ensures b.bin == Stem(t) + ".bin"
    ensures b.apj == Stem(t) + ".apj"
  {
    GenerateBinaries(Stem(t))
  }

  /** Distinct targets have distinct stems, hence distinct binaries. */
  lemma StemInjective(a: Target, b: Target)
    requires Stem(a) == Stem(b)
    ensures a == b
  {
  }

  lemma DefaultBinariesInjective(a: Target, b: Target)
    requires DefaultBinaries(a) == DefaultBinaries(b)
    ensures a == b
  {
    var sa, sb := Stem(a), Stem(b);
    assert DefaultBinaries(a).elf[..|sa|] == sa;
    assert |sa| == |sb|;
    assert DefaultBinaries(b).elf[..|sb|] == sb;
    StemInjective(a, b);
  }

  /** `targets` holds exactly the seven enum members, none twice. */
  lemma AllTargetsComplete(t: Target)
    ensures t in AllTargets
    ensures |AllTargets| == 7
    ensures forall i, j :: 0 <= i < j < |AllTargets| ==> AllTargets[i] != AllTargets[j]
  {
  }

  /** Distinct targets have distinct `--target` strings. */
  lemma TargetNameInjective(a: Target, b: Target)
    requires TargetName(a) == TargetName(b)
    ensures a == b
  {
  }
}
