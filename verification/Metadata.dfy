/**
  Metadata the driver embeds in disk descriptions (pkg/csi/embedded_vdi_metadata.go), as text and
  as the reading the protocol models work with.

  Timestamps are ticks since Go's zero time, written in decimal. Of JSON, only the layout the
  driver itself prints is accepted.
 */
module Metadata {
  import opened Wrappers
  import opened Json

  const STORAGE_INFO_PREFIX := "csi:info: "
  const DELETION_CANDIDATE_PREFIX := "csi:deletion-candidate: "

  /** `enabled` is only there to look nice in the description; a migration is in progress when
      `inProgressTo` holds the target SR. */
  datatype Migrating = Migrating(enabled: Option<bool>, inProgressTo: Option<string>) {

    function StartMigration(srUuid: string): Migrating {
      this.(inProgressTo := Some(srUuid))
    }

    function EndMigration(): Migrating {
      this.(inProgressTo := None)
    }
  }

  datatype StorageInfo = StorageInfo(migrating: Option<Migrating>, srsWithTag: Option<string>) {

    function HasOngoingMigration(): Option<string> {
      if migrating.None? then None else migrating.value.inProgressTo
    }

    /** What the parser accepts: migrating needs a tag, and the flag is always normalised to true. */
    predicate Stored() {
      migrating.Some? ==> srsWithTag.Some? && migrating.value.enabled == Some(true)
    }

    function StartMigration(srUuid: string): StorageInfo
      requires migrating.Some?
    {
      this.(migrating := Some(migrating.value.StartMigration(srUuid)))
    }

    function EndMigration(): StorageInfo
      requires migrating.Some?
    {
      this.(migrating := Some(migrating.value.EndMigration()))
    }
  }

  function NewStorageInfo(): StorageInfo {
    StorageInfo(None, None)
  }

  function NewStorageInfoWithMigrating(srsWithTag: Option<string>): StorageInfo {
    StorageInfo(Some(Migrating(Some(true), None)), srsWithTag)
  }

  datatype MetadataError = Malformed | Invalid

  /** What a description says. Text without metadata is kept, so readings are as fine as needed
      to compare descriptions (see `UnmarkedTextsAgreeWithReadings`). */
  datatype Description =
    | NoMetadata(text: string)
    | Info(info: StorageInfo)
    | Candidate(unusedSince: nat)
    | Unreadable(text: string, error: MetadataError)

  // ---------- printing ----------

  function PrintBool(b: bool): string {
    if b then "true" else "false"
  }

  function PrintMigrating(m: Migrating): string {
    PrintObject("enabled", if m.enabled.Some? then Some(PrintBool(m.enabled.value)) else None,
                "inProgressToSRUUID", m.inProgressTo)
  }

  function PrintStorageInfo(s: StorageInfo): string {
    PrintObject("migrating", if s.migrating.Some? then Some(PrintMigrating(s.migrating.value)) else None,
                "srsWithTag", s.srsWithTag)
  }

  function StorageInfoToDescription(s: StorageInfo): string {
    STORAGE_INFO_PREFIX + PrintStorageInfo(s)
  }

  /** The only field is a string, so the record is an object whose first field is never there. */
  function DeletionCandidateToDescription(unusedSince: nat): string {
    DELETION_CANDIDATE_PREFIX + PrintObject("", None, "unusedSince", Some(Decimal(unusedSince)))
  }

  // ---------- parsing ----------

  function ParseBool(s: string): Option<(bool, string)> {
    if "true" <= s then Some((true, s[4..]))
    else if "false" <= s then Some((false, s[5..]))
    else None
  }

  function ParseMigrating(s: string): Option<(Migrating, string)> {
    match ParseObject("enabled", ParseBool, "inProgressToSRUUID", s)
    case None => None
    case Some((f, rest)) => Some((Migrating(f.first, f.second), rest))
  }

  function ParseStorageInfo(body: string): Result<StorageInfo, MetadataError> {
    match ParseObject("migrating", ParseMigrating, "srsWithTag", body)
    case None => Err(Malformed)
    case Some((f, rest)) =>
      if rest != "" then Err(Malformed)
      else if f.first.None? then Ok(StorageInfo(None, f.second))
      else if f.second.None? then Err(Invalid)
      else Ok(StorageInfo(Some(f.first.value.(enabled := Some(true))), f.second))
  }

  /** A record without the field holds the zero time. */
  function ParseDeletionCandidate(body: string): Result<nat, MetadataError> {
    match ParseObject<()>("?", s => None, "unusedSince", body)
    case None => Err(Malformed)
    case Some((f, rest)) =>
      if rest != "" then Err(Malformed)
      else if f.second.None? then Ok(0)
      else
        match ParseDecimal(f.second.value)
        case None => Err(Malformed)
        case Some(n) => Ok(n)
  }

  function FromDescription(text: string): Description {
    if STORAGE_INFO_PREFIX <= text then
      match ParseStorageInfo(text[|STORAGE_INFO_PREFIX|..])
      case Ok(info) => Info(info)
      case Err(e) => Unreadable(text, e)
    else if DELETION_CANDIDATE_PREFIX <= text then
      match ParseDeletionCandidate(text[|DELETION_CANDIDATE_PREFIX|..])
      case Ok(since) => Candidate(since)
      case Err(e) => Unreadable(text, e)
    else NoMetadata(text)
  }

  // ---------- the texts the driver writes ----------

  /** In full, for every tag, target and time; keys and strings in quotes. */
  lemma TextsInFull(tag: string, target: string, unusedSince: nat)
    ensures StorageInfoToDescription(NewStorageInfo()) == "csi:info: " + ("{" + "}")
    ensures var info := NewStorageInfoWithMigrating(Some(tag));
            && StorageInfoToDescription(info) ==
               "csi:info: " + ("{" + Key("migrating") + ("{" + Key("enabled") + "true" + "}") + ","
                               + Key("srsWithTag") + Quote(tag) + "}")
            && StorageInfoToDescription(info.StartMigration(target)) ==
               "csi:info: " + ("{" + Key("migrating")
                               + ("{" + Key("enabled") + "true" + "," + Key("inProgressToSRUUID") + Quote(target) + "}")
                               + "," + Key("srsWithTag") + Quote(tag) + "}")
    ensures DeletionCandidateToDescription(unusedSince) ==
            "csi:deletion-candidate: " + ("{" + Key("unusedSince") + Quote(Decimal(unusedSince)) + "}")
  {
    ObjectText("enabled", "true", "inProgressToSRUUID", target);
    ObjectText("migrating", PrintMigrating(Migrating(Some(true), None)), "srsWithTag", tag);
    ObjectText("migrating", PrintMigrating(Migrating(Some(true), Some(target))), "srsWithTag", tag);
    ObjectText("", "", "unusedSince", Decimal(unusedSince));
  }

  // ---------- round trips ----------

  lemma BoolRoundTrip(b: bool, rest: string)
    ensures ParseBool(PrintBool(b) + rest) == Some((b, rest))
  {
    Stripped(PrintBool(b), rest);
    assert (PrintBool(b) + rest)[0] == PrintBool(b)[0];
  }

  lemma MigratingRoundTrip(m: Migrating, rest: string)
    ensures ParseMigrating(PrintMigrating(m) + rest) == Some((m, rest))
  {
    forall tail | m.enabled.Some?
      ensures ParseBool(PrintBool(m.enabled.value) + tail) == Some((m.enabled.value, tail))
    {
      BoolRoundTrip(m.enabled.value, tail);
    }
    ObjectRoundTrip("enabled", if m.enabled.Some? then Some(PrintBool(m.enabled.value)) else None, m.enabled, ParseBool,
                    "inProgressToSRUUID", m.inProgressTo, rest);
  }

  /** What reading back a printed storage record gives, for every record: a record that migrates
      without a tag is rejected, and a missing flag comes back as true. */
  lemma StorageInfoReadsBack(s: StorageInfo)
    ensures FromDescription(StorageInfoToDescription(s)) ==
            if s.migrating.Some? && s.srsWithTag.None? then Unreadable(StorageInfoToDescription(s), Invalid)
            else if s.migrating.Some? then Info(s.(migrating := Some(s.migrating.value.(enabled := Some(true)))))
            else Info(s)
  {
    Stripped(STORAGE_INFO_PREFIX, PrintStorageInfo(s));
    forall tail | s.migrating.Some?
      ensures ParseMigrating(PrintMigrating(s.migrating.value) + tail) == Some((s.migrating.value, tail))
    {
      MigratingRoundTrip(s.migrating.value, tail);
    }
    var printed := if s.migrating.Some? then Some(PrintMigrating(s.migrating.value)) else None;
    ObjectRoundTrip("migrating", printed, s.migrating, ParseMigrating, "srsWithTag", s.srsWithTag, "");
    assert PrintStorageInfo(s) + "" == PrintStorageInfo(s);
  }

  /** Reading back is the identity exactly on the records the parser could have produced. */
  lemma StorageInfoRoundTrip(s: StorageInfo)
    ensures FromDescription(StorageInfoToDescription(s)) == Info(s) <==> s.Stored()
  {
    StorageInfoReadsBack(s);
  }

  lemma DeletionCandidateRoundTrip(unusedSince: nat)
    ensures FromDescription(DeletionCandidateToDescription(unusedSince)) == Candidate(unusedSince)
  {
    var value := Some(Decimal(unusedSince));
    var body := PrintObject("", None, "unusedSince", value);
    Stripped(DELETION_CANDIDATE_PREFIX, body);
    assert DeletionCandidateToDescription(unusedSince)[4] == 'd';
    ObjectRoundTrip<()>("?", None, None, s => None, "unusedSince", value, "");
    assert body + "" == body == PrintObject("?", None, "unusedSince", value);
    DecimalRoundTrip(unusedSince);
  }

  /** Kinds never mix: text that reads as one kind of metadata is not the text of the other. */
  lemma KindsAreDisjoint(s: StorageInfo, unusedSince: nat)
    ensures !FromDescription(StorageInfoToDescription(s)).Candidate?
    ensures !FromDescription(DeletionCandidateToDescription(unusedSince)).Info?
    ensures StorageInfoToDescription(s) != DeletionCandidateToDescription(unusedSince)
  {
    StorageInfoReadsBack(s);
    DeletionCandidateRoundTrip(unusedSince);
  }

  /** The cleaner compares descriptions as text, and only when the first one has no metadata; on
      those, comparing readings is the same thing. */
  lemma UnmarkedTextsAgreeWithReadings(a: string, b: string)
    requires FromDescription(a).NoMetadata?
    ensures a == b <==> FromDescription(a) == FromDescription(b)
  {
  }
}
