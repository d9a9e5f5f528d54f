/**
 * How CreateBucket chooses the bucket's location constraint and whether the
 * create request carries a bucket configuration. The list of valid
 * constraints the SDK knows, and the answers of the two S3 calls, are
 * inputs.
 */
module S3 {
  import opened Wrappers

  const DefaultS3Region := "us-east-1"

  /**
   * The constraint the loop settles on: the region when it is one of the
   * valid constraints; otherwise "us-east-1", or "" when there are none to
   * compare against.
   */
  function SelectedConstraint(validLocationConstraints: seq<string>, region: string): (c: string)
    ensures region in validLocationConstraints ==> c == region
    ensures region !in validLocationConstraints && |validLocationConstraints| > 0 ==> c == DefaultS3Region
    ensures |validLocationConstraints| == 0 ==> c == ""
    ensures c == "" || c in validLocationConstraints || c == DefaultS3Region
  {
    if region in validLocationConstraints then region
    else if |validLocationConstraints| == 0 then ""
    else DefaultS3Region
  }

  /**
   * The loop over the valid constraints: each mismatch sets "us-east-1",
   * the first match sets the region and stops.
   */
  method LocationConstraint(validLocationConstraints: seq<string>, region: string) returns (locationConstraint: string)
    ensures locationConstraint == SelectedConstraint(validLocationConstraints, region)
  {
    locationConstraint := "";
    var i := 0;
    while i < |validLocationConstraints|
      invariant 0 <= i <= |validLocationConstraints|
      invariant region !in validLocationConstraints[..i]
      invariant locationConstraint == if i == 0 then "" else DefaultS3Region
    {
      if validLocationConstraints[i] == region {
        locationConstraint := region;
        break;
      } else {
        locationConstraint := DefaultS3Region;
      }
      i := i + 1;
    }
    assert i == |validLocationConstraints| ==> validLocationConstraints[..i] == validLocationConstraints;
  }

  /** The create request: the bucket name, and a location constraint unless the region is us-east-1. */
  datatype CreateBucketInput = CreateBucketInput(bucket: string, locationConstraint: Option<string>)

  /** The request CreateBucket sends. */
  method BuildCreateBucketInput(bucketName: string, region: string, validLocationConstraints: seq<string>)
    returns (input: CreateBucketInput)
    ensures input.bucket == bucketName
    ensures input.locationConstraint.Some? <==> region != DefaultS3Region
    ensures input.locationConstraint.Some? ==>
      input.locationConstraint.value == SelectedConstraint(validLocationConstraints, region)
  {
    var locationConstraint := LocationConstraint(validLocationConstraints, region);
    input := CreateBucketInput(bucketName, None);
    if region != DefaultS3Region {
      input := input.(locationConstraint := Some(locationConstraint));
    }
  }

  /**
   * A configuration is sent for every region but us-east-1, and when the
   * region is a valid constraint it is the region itself; a region the
   * list lacks is sent as us-east-1.
   */
  lemma ConfiguredConstraint(validLocationConstraints: seq<string>, region: string)
    requires region != DefaultS3Region && |validLocationConstraints| > 0
    ensures SelectedConstraint(validLocationConstraints, region) == region <==> region in validLocationConstraints
    ensures SelectedConstraint(validLocationConstraints, region) != region ==>
      SelectedConstraint(validLocationConstraints, region) == DefaultS3Region
  {
  }

  /**
   * CreateBucket after its request: an error from creating the bucket or
   * from turning on versioning is wrapped with the bucket name; otherwise
   * the created bucket is returned.
   */
  function CreateBucketResult<B>(bucketName: string, created: Result<B>, versioning: Option<string>): (r: Result<B>)
    ensures r.Ok? <==> created.Ok? && versioning.None?
    ensures r.Ok? ==> r.value == created.value
    ensures created.Err? ==> r.error == "error creating s3 bucket " + bucketName + ": " + created.error
    ensures created.Ok? && versioning.Some? ==>
      r.error == "error creating s3 bucket " + bucketName + ": " + versioning.value
  {
    if created.Err? then Err("error creating s3 bucket " + bucketName + ": " + created.error)
    else if versioning.Some? then Err("error creating s3 bucket " + bucketName + ": " + versioning.value)
    else Ok(created.value)
  }
}
