/**
  Names the driver gives to disks (pkg/csi/diskname_generator.go), and the reading of a name
  label that the protocol models work with.

  A reading is exact: `WriteName` and `ReadName` are inverse to each other, so two labels are
  equal precisely when their readings are, and looking a disk up by label is looking it up by
  reading. The one thing that can go wrong is a volume whose own name starts with "temp-".
 */
module DiskNames {

  const DEFAULT_DISK_NAME_PREFIX := "csi-"
  const TEMPORARY_INFIX := "temp-"

  datatype DiskName =
    | Final(volume: string)      // the name of a finished disk of this volume
    | Temporary(volume: string)  // the name of a disk of this volume still being created
    | Foreign(text: string)      // any label the driver does not produce

  datatype Generator = Generator(prefix: string, tempPrefix: string) {

    /** What the constructor guarantees about the two fields. */
    predicate Valid() {
      prefix != "" && tempPrefix == prefix + TEMPORARY_INFIX
    }

    function FromVolumeName(volume: string): string {
      prefix + volume
    }

    function TemporaryFromVolumeName(volume: string): string {
      tempPrefix + volume
    }

    predicate IsTemporaryDisk(text: string) {
      tempPrefix != "" && tempPrefix <= text
    }

    function ReadName(text: string): DiskName {
      if tempPrefix <= text then Temporary(text[|tempPrefix|..])
      else if prefix <= text then Final(text[|prefix|..])
      else Foreign(text)
    }

    function WriteName(name: DiskName): string {
      match name
      case Final(volume) => FromVolumeName(volume)
      case Temporary(volume) => TemporaryFromVolumeName(volume)
      case Foreign(text) => text
    }
  }

  function NewGenerator(prefix: string): (g: Generator)
    ensures g.Valid()
    ensures g.prefix == (if prefix == "" then "csi-" else prefix) && g.tempPrefix == g.prefix + "temp-"
  {
    var p := if prefix == "" then DEFAULT_DISK_NAME_PREFIX else prefix;
    Generator(p, p + TEMPORARY_INFIX)
  }

  /** A volume name the scheme can handle: its final name is not somebody's temporary name. */
  predicate Ordinary(volume: string) {
    !(TEMPORARY_INFIX <= volume)
  }

  lemma NameIsRecoveredFromItsReading(g: Generator, text: string)
    requires g.Valid()
    ensures g.WriteName(g.ReadName(text)) == text
  {
    if g.tempPrefix <= text {
      assert text == g.tempPrefix + text[|g.tempPrefix|..];
    } else if g.prefix <= text {
      assert text == g.prefix + text[|g.prefix|..];
    }
  }

  lemma LabelsAgreeWithReadings(g: Generator, a: string, b: string)
    requires g.Valid()
    ensures a == b <==> g.ReadName(a) == g.ReadName(b)
  {
    NameIsRecoveredFromItsReading(g, a);
    NameIsRecoveredFromItsReading(g, b);
  }

  lemma TemporaryNameReading(g: Generator, volume: string)
    requires g.Valid()
    ensures g.ReadName(g.TemporaryFromVolumeName(volume)) == Temporary(volume)
    ensures g.IsTemporaryDisk(g.TemporaryFromVolumeName(volume))
  {
    var text := g.TemporaryFromVolumeName(volume);
    assert text[..|g.tempPrefix|] == g.tempPrefix;
    assert text[|g.tempPrefix|..] == volume;
  }

  /** The final name of a volume is recognised as final exactly for ordinary volume names. */
  lemma FinalNameReading(g: Generator, volume: string)
    requires g.Valid()
    ensures g.ReadName(g.FromVolumeName(volume)) == Final(volume) <==> Ordinary(volume)
    ensures g.IsTemporaryDisk(g.FromVolumeName(volume)) <==> !Ordinary(volume)
  {
    var text := g.FromVolumeName(volume);
    assert text[..|g.prefix|] == g.prefix;
    assert text[|g.prefix|..] == volume;
    if TEMPORARY_INFIX <= volume {
      assert volume == TEMPORARY_INFIX + volume[|TEMPORARY_INFIX|..];
      assert text == g.tempPrefix + volume[|TEMPORARY_INFIX|..];
    }
  }

  /** Without the restriction two volumes fight over one label: the final name of "temp-x" is the
      temporary name of "x". Over all pairs, this is the only way a final name can be a
      temporary one. */
  lemma FinalMeetsTemporary(g: Generator, a: string, b: string)
    requires g.Valid()
    ensures g.FromVolumeName(a) == g.TemporaryFromVolumeName(b) <==> a == TEMPORARY_INFIX + b
  {
    if g.FromVolumeName(a) == g.TemporaryFromVolumeName(b) {
      assert a == g.FromVolumeName(a)[|g.prefix|..];
      assert TEMPORARY_INFIX + b == g.TemporaryFromVolumeName(b)[|g.prefix|..];
    } else {
      assert g.prefix + (TEMPORARY_INFIX + b) == g.tempPrefix + b;
    }
  }
}
