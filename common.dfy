/**
 * How the AWS providers treat an exception raised while talking to AWS:
 * some exception classes and some error codes are ignored (the directory is
 * then recorded as errored), everything else is raised again.
 */
module AwsErrors {
  import opened Base
  import opened Directories
  import opened Providers

  /**
   * `aws_error_codes_to_ignore` as the literal is written: a missing comma
   * makes Python concatenate two of the intended codes into one string.
   */
  const ErrorCodesToIgnore: set<string> := {
    "AccessDeniedException",
    "InvalidSignatureException",
    "UnrecognizedClientException" + "ExpiredTokenException",
    "ResourceNotFoundException"
  }

  /** `aws_error_classes_to_ignore`: missing credentials or region. */
  predicate IgnoredClass(e: AwsError)
  {
    e.NoCredentialsError? || e.NoRegionError?
  }

  /** `isinstance(e, BotoCoreError)`. */
  predicate IsBotoCoreError(e: AwsError)
  {
    e.NoCredentialsError? || e.NoRegionError? || e.OtherBotoCoreError?
  }

  /** What `handle_aws_exception` does with an exception. */
  datatype Handling = IgnoredByClass | IgnoredByCode(code: string) | Reraised

  /** The decision of `handle_aws_exception`, in the order the source tests it. */
  function Classify(e: AwsError): (h: Handling)
    ensures h.IgnoredByClass? <==> IgnoredClass(e)
    ensures h.IgnoredByCode? <==>
      e.ClientError? && e.hasResponse && e.code.Some? && e.code.value in ErrorCodesToIgnore
    ensures h.IgnoredByCode? ==> h.code == e.code.value
  {
    if IgnoredClass(e) then IgnoredByClass
    else if !e.ClientError? then Reraised
    else if !e.hasResponse then Reraised
    else if e.code.Some? && e.code.value in ErrorCodesToIgnore then IgnoredByCode(e.code.value)
    else Reraised
  }

  /** The errored directories after handling `e` for `d`: marked only when ignored. */
  function MarkedAfter(e: AwsError, errored: set<Directory>, d: Directory): (r: set<Directory>)
    ensures !Classify(e).Reraised? ==> r == errored + {d}
    ensures Classify(e).Reraised? ==> r == errored
  {
    if Classify(e).Reraised? then errored else errored + {d}
  }

  /** The remembered botocore error after handling `e`: set only by an ignored botocore error. */
  function BotoCoreAfter(e: AwsError, prior: Option<AwsError>): (r: Option<AwsError>)
    ensures IgnoredClass(e) ==> r == Some(e)
    ensures !IgnoredClass(e) ==> r == prior
  {
    if !Classify(e).Reraised? && IsBotoCoreError(e) then Some(e) else prior
  }

  /** The exceptions `handle_aws_exception` is given, in order, with the directory each is given for. */
  type Handled = seq<(AwsError, Directory)>

  /**
   * The errored directories after handling each exception for its directory,
   * in order: a directory is added exactly when one of its exceptions is ignored.
   */
  function MarkedAfterAll(hs: Handled, errored: set<Directory>): (r: set<Directory>)
    ensures forall d :: d in r <==>
      d in errored || exists i :: 0 <= i < |hs| && hs[i].1 == d && !Classify(hs[i].0).Reraised?
  {
    if |hs| == 0 then errored
    else
      var init := hs[..|hs| - 1];
      var r := MarkedAfter(hs[|hs| - 1].0, MarkedAfterAll(init, errored), hs[|hs| - 1].1);
      assert forall i :: 0 <= i < |init| ==> init[i] == hs[i];
      r
  }

  /** The remembered botocore error after handling each exception in order: the last ignored botocore error. */
  function BotoCoreAfterAll(hs: Handled, prior: Option<AwsError>): (r: Option<AwsError>)
    ensures r != prior ==> exists i :: 0 <= i < |hs| && r == Some(hs[i].0) && IgnoredClass(hs[i].0)
  {
    if |hs| == 0 then prior
    else
      var init := hs[..|hs| - 1];
      var r0 := BotoCoreAfterAll(init, prior);
      assert forall i :: 0 <= i < |init| ==> init[i] == hs[i];
      BotoCoreAfter(hs[|hs| - 1].0, r0)
  }

  /**
   * The remembered botocore error after a run of exceptions is the last
   * exception of an ignored class in the run, or the prior one when the run
   * has none.
   */
  lemma {:induction false} BotoCoreAfterAllIsLast(hs: Handled, prior: Option<AwsError>)
    ensures (forall i :: 0 <= i < |hs| ==> !IgnoredClass(hs[i].0)) ==> BotoCoreAfterAll(hs, prior) == prior
    ensures forall i :: 0 <= i < |hs| && IgnoredClass(hs[i].0) && (forall j :: i < j < |hs| ==> !IgnoredClass(hs[j].0)) ==>
                BotoCoreAfterAll(hs, prior) == Some(hs[i].0)
  {
    if |hs| > 0 {
      var init := hs[..|hs| - 1];
      assert forall i :: 0 <= i < |init| ==> init[i] == hs[i];
      BotoCoreAfterAllIsLast(init, prior);
    }
  }

  /** Handling one more exception extends both folds by one step. */
  lemma HandledSnoc(hs: Handled, e: AwsError, d: Directory,
                    errored: set<Directory>, prior: Option<AwsError>)
    ensures MarkedAfterAll(hs + [(e, d)], errored) == MarkedAfter(e, MarkedAfterAll(hs, errored), d)
    ensures BotoCoreAfterAll(hs + [(e, d)], prior) == BotoCoreAfter(e, BotoCoreAfterAll(hs, prior))
  {
    assert (hs + [(e, d)])[..|hs|] == hs;
  }

  /** Handling no exception changes neither fold. */
  lemma HandledNone(errored: set<Directory>, prior: Option<AwsError>)
    ensures MarkedAfterAll([], errored) == errored
    ensures BotoCoreAfterAll([], prior) == prior
  {
  }

  /** Handling a single exception is one step of each fold. */
  lemma HandledSingle(e: AwsError, d: Directory, errored: set<Directory>, prior: Option<AwsError>)
    ensures MarkedAfterAll([(e, d)], errored) == MarkedAfter(e, errored, d)
    ensures BotoCoreAfterAll([(e, d)], prior) == BotoCoreAfter(e, prior)
  {
    HandledSnoc([], e, d, errored, prior);
    assert [] + [(e, d)] == [(e, d)];
  }

  /** Handling two runs of exceptions one after the other is handling their concatenation. */
  lemma {:induction false} FoldsConcat(a: Handled, b: Handled,
                                       errored: set<Directory>, prior: Option<AwsError>)
    ensures MarkedAfterAll(a + b, errored) == MarkedAfterAll(b, MarkedAfterAll(a, errored))
    ensures BotoCoreAfterAll(a + b, prior) == BotoCoreAfterAll(b, BotoCoreAfterAll(a, prior))
    decreases |b|
  {
    if |b| == 0 {
      assert a + b == a;
    } else {
      var init := b[..|b| - 1];
      var last := b[|b| - 1];
      assert a + b == (a + init) + [last];
      assert b == init + [last];
      FoldsConcat(a, init, errored, prior);
      HandledSnoc(a + init, last.0, last.1, errored, prior);
      HandledSnoc(init, last.0, last.1, MarkedAfterAll(a, errored), BotoCoreAfterAll(a, prior));
    }
  }

  /**
   * `handle_aws_exception` followed by `log_ignored_aws_exception`: an ignored
   * exception marks the directory as errored and, when it is a botocore error,
   * is remembered on the provider; any other exception is raised again.
   */
  method HandleAwsException(e: AwsError, errors: ProviderErrors, directory: Directory)
    returns (r: Result<(), XconError>)
    modifies errors
    ensures r.Ok? <==> !Classify(e).Reraised?
    ensures r.Err? ==> r.error == Aws(e)
    ensures errors.erroredDirectories == MarkedAfter(e, old(errors.erroredDirectories), directory)
    ensures errors.botocoreErrorIgnored == BotoCoreAfter(e, old(errors.botocoreErrorIgnored))
  {
    var h := Classify(e);
    if h.Reraised? {
      return Err(Aws(e));
    }
    errors.MarkErroredDirectory(directory);
    if IsBotoCoreError(e) {
      errors.botocoreErrorIgnored := Some(e);
    }
    r := Ok(());
  }

  /** Only a missing credential or region is remembered: an ignored `ClientError` marks the directory only. */
  lemma IgnoredClientErrorOnlyMarks(e: AwsError, errored: set<Directory>, d: Directory, prior: Option<AwsError>)
    requires Classify(e).IgnoredByCode?
    ensures BotoCoreAfter(e, prior) == prior
    ensures MarkedAfter(e, errored, d) == errored + {d}
  {
  }

  /**
   * Because of the concatenated literal, an expired token and an unrecognised
   * client are raised again, while the concatenated code is ignored.
   */
  lemma ConcatenatedCodes()
    ensures Classify(ClientError(true, Some("ExpiredTokenException"))).Reraised?
    ensures Classify(ClientError(true, Some("UnrecognizedClientException"))).Reraised?
    ensures Classify(ClientError(true, Some("UnrecognizedClientExceptionExpiredTokenException"))).IgnoredByCode?
    ensures Classify(ClientError(true, Some("AccessDeniedException"))).IgnoredByCode?
  {
    assert "UnrecognizedClientException" + "ExpiredTokenException" ==
      "UnrecognizedClientExceptionExpiredTokenException";
    assert "ExpiredTokenException" != "UnrecognizedClientExceptionExpiredTokenException" by {
      assert |"ExpiredTokenException"| != |"UnrecognizedClientExceptionExpiredTokenException"|;
    }
    assert "UnrecognizedClientException" != "UnrecognizedClientExceptionExpiredTokenException" by {
      assert |"UnrecognizedClientException"| != |"UnrecognizedClientExceptionExpiredTokenException"|;
    }
  }
}
