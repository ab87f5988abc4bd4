/** Storage class parameters (pkg/csi/storage_parameters.go). */
module StorageParameters {
  import opened Wrappers

  datatype Parameters = Parameters(srUuid: Option<string>, srsWithTag: Option<string>, migrating: bool)

  datatype ParametersError = InvalidStorageParameters

  /** Reading a missing key of a Go map gives the empty string. */
  function Lookup(parameters: map<string, string>, key: string): string {
    if key in parameters then parameters[key] else ""
  }

  /** The parameter is there, and not empty. */
  predicate Given(parameters: map<string, string>, key: string) {
    key in parameters && parameters[key] != ""
  }

  /** The combinations the driver accepts. */
  predicate Accepted(p: Parameters) {
    p.srUuid.Some? ==> p.srsWithTag.None? && !p.migrating
  }

  method LoadStorageParameters(parameters: map<string, string>) returns (r: Result<Parameters, ParametersError>)
    ensures r.Ok? ==> Accepted(r.value)
    ensures r.Ok? ==>
      && r.value.srUuid == (if Given(parameters, "srUUID") then Some(parameters["srUUID"]) else None)
      && r.value.srsWithTag == (if Given(parameters, "srsWithTag") then Some(parameters["srsWithTag"]) else None)
      && (r.value.migrating <==> "migrating" in parameters && parameters["migrating"] == "true")
    ensures r.Err? <==>
      Given(parameters, "srUUID")
        && (Given(parameters, "srsWithTag") || ("migrating" in parameters && parameters["migrating"] == "true"))
  {
    var migrating := Lookup(parameters, "migrating") == "true";
    var srUuid: Option<string>, srsWithTag: Option<string> := None, None;
    if Lookup(parameters, "srUUID") != "" {
      srUuid := Some(Lookup(parameters, "srUUID"));
    }
    if Lookup(parameters, "srsWithTag") != "" {
      srsWithTag := Some(Lookup(parameters, "srsWithTag"));
    }
    if Lookup(parameters, "srUUID") != "" && Lookup(parameters, "srsWithTag") != "" {
      return Err(InvalidStorageParameters);
    }
    if srUuid.Some? && migrating {
      return Err(InvalidStorageParameters);
    }
    return Ok(Parameters(srUuid, srsWithTag, migrating));
  }
}
