/** Errors carried across workflow boundaries as failures (flow/failure_converter.go). */
module FailureConverter {
  import opened Wrappers
  import opened ErrorTree
  import opened ErrorText
  import opened ErrorCodec
  import opened ErrorDecoder
  import opened ErrorLaws

  datatype Payload = Payload(encoding: string, data: seq<Token>)

  /** A failure: its own data and the failure that caused it. */
  datatype Failure = Failure(message: string, source: string, info: Info, cause: Option<Failure>)

  datatype Info =
    | Application(typ: string, nonRetryable: bool, details: seq<Payload>)
    | OtherInfo(data: string)

  /** The configured data converter and the converter for everything else. */
  datatype Config = Config(
    toPayload: seq<Token> -> Option<Payload>,
    fromPayload: Payload -> Option<seq<Token>>,
    fallbackToFailure: Err -> Failure,
    fallbackToError: Failure -> Option<Err>)

  const CANCELED := 1
  const INVALID_ARGUMENT := 3
  const NOT_FOUND := 5
  const ALREADY_EXISTS := 6
  const PERMISSION_DENIED := 7
  const FAILED_PRECONDITION := 9
  const ABORTED := 10
  const OUT_OF_RANGE := 11
  const UNIMPLEMENTED := 12
  const UNAUTHENTICATED := 16

  predicate IsBusinessErrCode(code: int) {
    code in {INVALID_ARGUMENT, NOT_FOUND, ALREADY_EXISTS, PERMISSION_DENIED, FAILED_PRECONDITION, ABORTED,
             OUT_OF_RANGE, UNIMPLEMENTED, UNAUTHENTICATED, CANCELED}
  }

  predicate ContainsErrsError(e: Err) {
    First(e).Some?
  }

  function ErrorToFailure(c: Config, err: Option<Err>): Option<Failure> {
    if err == None then None
    else
      var e := First(err.value);
      Some(if e.Some? then ErrsErrorToFailure(c, err.value, e.value) else c.fallbackToFailure(err.value))
  }

  function ErrsErrorToFailure(c: Config, err: Err, e: Err): Failure
    requires e.Errs?
  {
    var payload := c.toPayload(Marshaled(Some(err)));
    if payload == None then c.fallbackToFailure(err)
    else Failure(Text(err), "GoSDK", Application(ERRS_TYPE, IsBusinessErrCode(e.code), [payload.value]), None)
  }

  /** The conversion back; reading an error with an invalid code panics. */
  function FailureToError(c: Config, failure: Option<Failure>): Read<Option<Err>>
    decreases failure
  {
    if failure == None then Decoded(None)
    else
      var f := failure.value;
      if f.info.Application? && f.info.typ == ERRS_TYPE then FailureToErrsError(c, f.info)
      else if f.cause == None then Decoded(c.fallbackToError(f))
      else
        match FailureToError(c, f.cause)
        case Failed => Failed
        case Panicked => Panicked
        case Decoded(causeErr) =>
          if causeErr.Some? && ContainsErrsError(causeErr.value) then
            var shellErr := c.fallbackToError(f.(cause := None));
            if shellErr == None then Decoded(causeErr) else Decoded(Some(Chained(shellErr.value, causeErr.value)))
          else Decoded(c.fallbackToError(f))
  }

  function FailureToErrsError(c: Config, info: Info): (r: Read<Option<Err>>)
    requires info.Application?
    ensures !r.Failed?
  {
    var data := FailureDetailsPayload(c, info.details);
    if data == None then Decoded(c.fallbackToError(Failure("", "", info, None)))
    else
      match Unmarshaled(data.value)
      case Failed => Decoded(c.fallbackToError(Failure("", "", info, None)))
      case Panicked => Panicked
      case Decoded(e) => Decoded(Some(e))
  }

  function FailureDetailsPayload(c: Config, details: seq<Payload>): Option<seq<Token>> {
    if details == [] then None else c.fromPayload(details[0])
  }

  /** The data converter gives back the bytes it was given. */
  ghost predicate Faithful(c: Config) {
    forall ts :: c.toPayload(ts).Some? ==> c.fromPayload(c.toPayload(ts).value) == Some(ts)
  }

  /** An error that contains an `*errs.Error` comes back as its normal form exactly when the codec
      reads it; otherwise it is what the fallback makes of the bare failure information. */
  lemma ErrsErrorsRoundTrip(c: Config, err: Err)
    requires Faithful(c) && ContainsErrsError(err) && c.toPayload(Marshaled(Some(err))).Some?
    ensures FailureToError(c, ErrorToFailure(c, Some(err))) ==
            if Writable(err) then Decoded(Some(Normal(err)))
            else Decoded(c.fallbackToError(Failure("", "", ErrorToFailure(c, Some(err)).value.info, None)))
  {
    RoundTrip(Some(err));
  }

  /** Retries are ruled out exactly for business codes, by the first `*errs.Error`. */
  lemma RetriesAreRuledOutByTheFirst(c: Config, err: Err)
    requires ContainsErrsError(err) && c.toPayload(Marshaled(Some(err))).Some?
    ensures var f := ErrorToFailure(c, Some(err)).value;
            f.info.Application? && (f.info.nonRetryable <==> IsBusinessErrCode(CodeOfFirst(Reached(err))))
  {
    FirstIsHeadOfReached(err);
  }

  /** By their names: retries are ruled out exactly for these. */
  lemma BusinessCodesByName(code: int)
    ensures IsBusinessErrCode(code) <==>
              CodeName(code) in {"canceled", "invalid_argument", "not_found", "already_exists", "permission_denied",
                                 "failed_precondition", "aborted", "out_of_range", "unimplemented", "unauthenticated"}
  {
    if ValidCode(code) {
      assert |CodeName(code)| > 0;
    }
  }

  /** An error that can be written keeps what is reached through causes, and so its code exactly if
      the first of that has it. */
  lemma CodeSurvivesConversion(c: Config, err: Err)
    requires Faithful(c) && ContainsErrsError(err) && c.toPayload(Marshaled(Some(err))).Some? && Writable(err)
    ensures var r := FailureToError(c, ErrorToFailure(c, Some(err)));
            && r.Decoded? && r.value.Some? && Reached(r.value.value) == Inner(err)
            && (Code(r.value) == Code(Some(err)) <==> CodeOfFirst(Inner(err)) == CodeOfFirst(Reached(err)))
            && (Plain(err) ==> Code(r.value) == Code(Some(err)))
  {
    ErrsErrorsRoundTrip(c, err);
    CodeOfNormal(err);
    NormalReachesTheInner(err);
  }

  // Chains of failures.

  /** A failure under wrappers, the outermost first. */
  function Wrapped(shells: seq<Failure>, f: Failure): Failure {
    if shells == [] then f else shells[0].(cause := Some(Wrapped(shells[1..], f)))
  }

  /** A wrapper as it is converted on its own. */
  function ShellError(c: Config, shell: Failure): Option<Err> {
    c.fallbackToError(shell.(cause := None))
  }

  predicate IsErrsFailure(f: Failure) {
    f.info.Application? && f.info.typ == ERRS_TYPE
  }

  /** What errors.As reaches in the converted wrappers. */
  function ReachedInShells(c: Config, shells: seq<Failure>): seq<(int, string)> {
    if shells == [] then []
    else
      var e := ShellError(c, shells[0]);
      ReachedIn(e) + ReachedInShells(c, shells[1..])
  }

  /** Under any number of wrappers, an error that contains an `*errs.Error` stays reachable: what
      errors.As finds is what the wrappers hold of their own, and then all of the error. */
  lemma {:induction false} WrappersKeepTheError(c: Config, shells: seq<Failure>, f: Failure, err: Err)
    requires forall s :: s in shells ==> !IsErrsFailure(s)
    requires FailureToError(c, Some(f)) == Decoded(Some(err)) && ContainsErrsError(err)
    ensures FailureToError(c, Some(Wrapped(shells, f))).Decoded?
    ensures var r := FailureToError(c, Some(Wrapped(shells, f))).value;
            r.Some? && ContainsErrsError(r.value) && Reached(r.value) == ReachedInShells(c, shells) + Reached(err)
    decreases |shells|
  {
    if shells == [] {
      assert [] + Reached(err) == Reached(err);
    } else {
      WrappersKeepTheError(c, shells[1..], f, err);
      var inner := Wrapped(shells[1..], f);
      assert shells[0] in shells;
      OneWrapper(c, shells[0], inner, FailureToError(c, Some(inner)).value.value);
      assert ReachedIn(ShellError(c, shells[0])) + (ReachedInShells(c, shells[1..]) + Reached(err))
          == ReachedInShells(c, shells) + Reached(err);
    }
  }

  lemma OneWrapper(c: Config, shell: Failure, inner: Failure, err: Err)
    requires !IsErrsFailure(shell)
    requires FailureToError(c, Some(inner)) == Decoded(Some(err)) && ContainsErrsError(err)
    ensures FailureToError(c, Some(shell.(cause := Some(inner)))).Decoded?
    ensures var r := FailureToError(c, Some(shell.(cause := Some(inner)))).value;
            r.Some? && ContainsErrsError(r.value) && Reached(r.value) == ReachedIn(ShellError(c, shell)) + Reached(err)
  {
    var w := shell.(cause := Some(inner));
    assert w.(cause := None) == shell.(cause := None);
    var r := FailureToError(c, Some(w)).value;
    FirstIsHeadOfReached(r.value);
    FirstIsHeadOfReached(err);
  }

  /** The texts of the converted wrappers, the outermost first, each with a colon after it. */
  function TextsOfShells(c: Config, shells: seq<Failure>): string {
    if shells == [] then ""
    else
      var e := ShellError(c, shells[0]);
      (if e.Some? then Text(e.value) + ": " else "") + TextsOfShells(c, shells[1..])
  }

  /** The text under any number of wrappers is the wrappers' texts and then the error's. */
  lemma {:induction false} WrappersTellTheirTexts(c: Config, shells: seq<Failure>, f: Failure, err: Err)
    requires forall s :: s in shells ==> !IsErrsFailure(s)
    requires FailureToError(c, Some(f)) == Decoded(Some(err)) && ContainsErrsError(err)
    ensures FailureToError(c, Some(Wrapped(shells, f))).Decoded?
    ensures var r := FailureToError(c, Some(Wrapped(shells, f))).value;
            r.Some? && ContainsErrsError(r.value) && Text(r.value) == TextsOfShells(c, shells) + Text(err)
    decreases |shells|
  {
    if shells == [] {
      assert "" + Text(err) == Text(err);
    } else {
      WrappersTellTheirTexts(c, shells[1..], f, err);
      var inner := Wrapped(shells[1..], f);
      assert shells[0] in shells;
      OneWrapper(c, shells[0], inner, FailureToError(c, Some(inner)).value.value);
      var e := ShellError(c, shells[0]);
      OneText(c, shells[0], inner, FailureToError(c, Some(inner)).value.value);
      Regroup(if e.Some? then Text(e.value) + ": " else "", TextsOfShells(c, shells[1..]), Text(err), "");
    }
  }

  lemma OneText(c: Config, shell: Failure, inner: Failure, err: Err)
    requires !IsErrsFailure(shell)
    requires FailureToError(c, Some(inner)) == Decoded(Some(err)) && ContainsErrsError(err)
    ensures var r, e := FailureToError(c, Some(shell.(cause := Some(inner)))), ShellError(c, shell);
            && r.Decoded? && r.value.Some?
            && Text(r.value.value) == if e.Some? then Text(e.value) + ": " + Text(err) else Text(err)
  {
    var w := shell.(cause := Some(inner));
    assert w.(cause := None) == shell.(cause := None);
  }

  /** So under any number of wrappers the converted error reaches what the wrappers hold and then
      what the error reaches through causes, and its code is that of the first of these. */
  lemma CodeSurvivesWrappers(c: Config, shells: seq<Failure>, err: Err)
    requires Faithful(c) && c.toPayload(Marshaled(Some(err))).Some? && Writable(err) && Inner(err) != []
    requires forall s :: s in shells ==> !IsErrsFailure(s)
    ensures ErrorToFailure(c, Some(err)).Some?
    ensures var w := FailureToError(c, Some(Wrapped(shells, ErrorToFailure(c, Some(err)).value)));
            && w.Decoded? && w.value.Some? && Reached(w.value.value) == ReachedInShells(c, shells) + Inner(err)
            && Code(w.value) == CodeOfFirst(ReachedInShells(c, shells) + Inner(err))
            && (ReachedInShells(c, shells) == [] && Plain(err) ==> Code(w.value) == Code(Some(err)))
  {
    InnerIsReached(err);
    FirstIsHeadOfReached(err);
    NormalReachesTheInner(err);
    FirstIsHeadOfReached(Normal(err));
    ErrsErrorsRoundTrip(c, err);
    WrappersKeepTheError(c, shells, ErrorToFailure(c, Some(err)).value, Normal(err));
    CodeIsOfFirst(FailureToError(c, Some(Wrapped(shells, ErrorToFailure(c, Some(err)).value))).value.value);
    CodeOfNormal(err);
    CodeIsOfFirst(err);
    assert ReachedInShells(c, shells) == [] ==> ReachedInShells(c, shells) + Inner(err) == Inner(err);
  }

  /** What is reached through causes is reached. */
  lemma InnerIsReached(e: Err)
    requires Inner(e) != []
    ensures Reached(e) != []
  {
    NormalReachesTheInner(e);
    ReachedIsKeptIffPlain(e);
  }

  /** Converting a converted error again, as at the next boundary, changes nothing more. */
  lemma NextBoundaryKeepsTheError(c: Config, err: Err)
    requires Faithful(c) && Writable(err) && Inner(err) != []
    requires c.toPayload(Marshaled(Some(Normal(err)))).Some?
    ensures FailureToError(c, ErrorToFailure(c, Some(Normal(err)))) == Decoded(Some(Normal(err)))
    ensures ErrorToFailure(c, Some(Normal(err))).value.message == InnerText(err)
  {
    NormalReachesTheInner(err);
    FirstIsHeadOfReached(Normal(err));
    NormalStaysReadable(err);
    NormalIsIdempotent(err);
    TextOfNormal(err);
    ErrsErrorsRoundTrip(c, Normal(err));
  }

  /** A failure with no converted error anywhere in its chain is the fallback's business alone. */
  lemma {:induction false} OthersAreLeftToTheFallback(c: Config, f: Failure)
    requires NoErrsFailure(f)
    requires forall g :: NoErrsFailure(g) && c.fallbackToError(g).Some? ==> !ContainsErrsError(c.fallbackToError(g).value)
    ensures FailureToError(c, Some(f)) == Decoded(c.fallbackToError(f))
    decreases f
  {
    if f.cause.Some? {
      OthersAreLeftToTheFallback(c, f.cause.value);
    }
  }

  predicate NoErrsFailure(f: Failure)
    decreases f
  {
    !IsErrsFailure(f) && (f.cause.Some? ==> NoErrsFailure(f.cause.value))
  }
}
