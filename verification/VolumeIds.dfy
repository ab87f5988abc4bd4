/** Volume handles (pkg/csi/volume_id.go). */
module VolumeIds {
  import opened Wrappers

  const NAME_HANDLE_PREFIX := "name:"

  datatype VolumeIdType = NameAsVolumeId | UuidAsVolumeId

  datatype ParsedId = ParsedId(kind: VolumeIdType, value: string)

  datatype IdError = VolumeIdRequired

  function CreateVolumeIdWithName(name: string): string {
    NAME_HANDLE_PREFIX + name
  }

  function CreateVolumeIdWithUuid(uuid: string): string {
    uuid
  }

  function ParseVolumeId(id: string): Result<ParsedId, IdError> {
    if id == "" then Err(VolumeIdRequired)
    else if NAME_HANDLE_PREFIX <= id then Ok(ParsedId(NameAsVolumeId, id[|NAME_HANDLE_PREFIX|..]))
    else Ok(ParsedId(UuidAsVolumeId, id))
  }

  /** Which uuids survive being used as a handle. */
  predicate UsableUuid(uuid: string) {
    uuid != "" && !(NAME_HANDLE_PREFIX <= uuid)
  }

  lemma NameHandleRoundTrip(name: string)
    ensures ParseVolumeId(CreateVolumeIdWithName(name)) == Ok(ParsedId(NameAsVolumeId, name))
  {
    assert CreateVolumeIdWithName(name)[|NAME_HANDLE_PREFIX|..] == name;
  }

  lemma UuidHandleRoundTrip(uuid: string)
    ensures ParseVolumeId(CreateVolumeIdWithUuid(uuid)) == Ok(ParsedId(UuidAsVolumeId, uuid)) <==> UsableUuid(uuid)
  {
  }

  /** Parsing loses nothing: a handle is rebuilt from what it parsed to, so distinct handles
      never denote the same (kind, value) pair. */
  lemma ParsedHandleIsRebuilt(id: string)
    requires ParseVolumeId(id).Ok?
    ensures var p := ParseVolumeId(id).value;
            id == if p.kind.NameAsVolumeId? then CreateVolumeIdWithName(p.value) else CreateVolumeIdWithUuid(p.value)
  {
    if NAME_HANDLE_PREFIX <= id {
      assert id == NAME_HANDLE_PREFIX + id[|NAME_HANDLE_PREFIX|..];
    }
  }
}
