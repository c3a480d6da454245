/** cmd/bucketgrowth/flag.go: the command-line argument guards. */
module Flag {
  import opened Common

  const OutputText: string := "text"
  const OutputJson: string := "json"

  /** The accepted values of the output-type flag, in declaration order. */
  const ValidOutputTypes: seq<string> := [OutputText, OutputJson]

  const ErrUnsupportedOutputType: Error := Error("Unsupported output type")

  /** The loop of `guardOutputType` over a list of accepted values: `nil` on
      the first value equal to the flag (comparison is case-sensitive string
      equality), the unsupported-type error once the list is exhausted. */
  function ScanOutputTypes(valid: seq<string>, flagOutputType: string): (r: Option<Error>)
    ensures r == None <==> flagOutputType in valid
    ensures r != None ==> r == Some(ErrUnsupportedOutputType)
  {
    if valid == [] then Some(ErrUnsupportedOutputType)
    else if valid[0] == flagOutputType then None
    else ScanOutputTypes(valid[1..], flagOutputType)
  }

  /** `guardOutputType`, with the package variable `flagOutputType` passed in:
      it succeeds exactly for "text" and "json". */
  function GuardOutputType(flagOutputType: string): (r: Option<Error>)
    ensures r == None <==> flagOutputType == "text" || flagOutputType == "json"
    ensures r != None ==> r == Some(ErrUnsupportedOutputType)
  {
    ScanOutputTypes(ValidOutputTypes, flagOutputType)
  }

  /** Only membership matters: any reordering (or repetition) of the accepted
      values gives the same verdict, because the loop stops at the first match. */
  lemma ScanIgnoresOrder(v1: seq<string>, v2: seq<string>, flagOutputType: string)
    requires forall x :: x in v1 <==> x in v2
    ensures ScanOutputTypes(v1, flagOutputType) == ScanOutputTypes(v2, flagOutputType)
  {}

  /** The empty flag and an upper-case spelling are both rejected. */
  lemma RejectsEmptyAndUpperCase()
    ensures GuardOutputType("") == Some(ErrUnsupportedOutputType)
    ensures GuardOutputType("JSON") == Some(ErrUnsupportedOutputType)
    ensures GuardOutputType("Text") == Some(ErrUnsupportedOutputType)
  {}

  /** The result of `guardBucketArg`: whether the application help was shown,
      and the error returned. */
  datatype BucketGuard = BucketGuard(helpShown: bool, err: Option<Error>)

  /** `guardBucketArg`: a non-empty bucket name passes without showing help.
      An empty one shows the help, whose outcome is the parameter `showHelp`,
      and always fails: with the help's own error if it had one, otherwise
      with a blank error. */
  function GuardBucketArg(bucket: string, showHelp: Option<Error>): (r: BucketGuard)
    ensures r.err == None <==> |bucket| > 0
    ensures r.helpShown <==> |bucket| == 0
    ensures |bucket| == 0 && showHelp != None ==> r.err == showHelp
    ensures |bucket| == 0 && showHelp == None ==> r.err == Some(Error(""))
  {
    if bucket != "" then BucketGuard(false, None)
    else if showHelp.Some? then BucketGuard(true, showHelp)
    else BucketGuard(true, Some(Error("")))
  }
}
