/** Resolving the access token (`_get_fb_access_token`): a cached token wins; otherwise the
    `FB_ACCESS_TOKEN` environment value when truthy, else the argument following `--fb-token`;
    a missing, empty or whitespace-only token is an error. The process environment, `sys.argv`
    and the module-level cache are passed in and returned explicitly. */
module Token {
  import opened Wrappers
  import opened Text

  const FlagName: string := "--fb-token"

  datatype TokenError =
    | NoValueAfterFlag   // `--fb-token` is the last argument
    | FlagNotInList      // the `ValueError` of `sys.argv.index('--fb-token')`
    | NotProvided        // neither the environment nor the arguments name a token
    | EmptyToken         // the token is empty or whitespace only

  /** The text of the `ValueError` raised for each error. */
  function Message(e: TokenError): string {
    match e
    case NoValueAfterFlag => FlagName + " flag provided but no token value found"
    case FlagNotInList => "'" + FlagName + "' is not in list"
    case NotProvided =>
      "Facebook access token not provided. Set FB_ACCESS_TOKEN environment variable or run with: python server.py --fb-token YOUR_TOKEN"
    case EmptyToken => "Facebook access token cannot be empty"
  }

  /** The outcome of one call, and the cache it leaves behind. */
  datatype Resolution = Resolution(result: Result<string, TokenError>, cache: Option<string>)

  /** A token the server may use: present, and not whitespace only. */
  predicate Usable(t: string) {
    !IsBlank(t)
  }

  /** `if not tok or tok.strip() == ''`. */
  predicate Rejected(tok: Option<string>) {
    !Truthy(tok) || Strip(tok.value) == ""
  }

  lemma RejectedIffUnusable(tok: Option<string>)
    ensures Rejected(tok) <==> tok.None? || !Usable(tok.value)
  {
    if tok.Some? {
      StripEmptyIffBlank(tok.value);
    }
  }

  /** The handler `except ValueError as e`: an error whose text mentions the flag is re-raised,
      anything else becomes "not provided". Both errors the `try` block raises mention the
      flag, so the handler re-raises them unchanged. */
  function Rewrap(e: TokenError): (r: TokenError)
    ensures e == NoValueAfterFlag || e == FlagNotInList ==> r == e
    ensures !Contains(FlagName, Message(e)) ==> r == NotProvided
    ensures r == e || r == NotProvided
  {
    assert OccursAt(FlagName, Message(NoValueAfterFlag), 0);
    ContainsAt(FlagName, Message(NoValueAfterFlag), 0);
    assert OccursAt(FlagName, Message(FlagNotInList), 1);
    ContainsAt(FlagName, Message(FlagNotInList), 1);
    if Contains(FlagName, Message(e)) then e else NotProvided
  }

  /** The token named on the command line, or the error the `try` block raises. */
  function FromArgs(argv: seq<string>): (r: Result<string, TokenError>)
    ensures FlagName !in argv ==> r == Failure(FlagNotInList)
    ensures FlagName in argv && Find(argv, FlagName).value + 1 < |argv|
      ==> r == Success(argv[Find(argv, FlagName).value + 1])
    ensures FlagName in argv && Find(argv, FlagName).value + 1 == |argv| ==> r == Failure(NoValueAfterFlag)
    ensures r.Failure? ==> r.error == NoValueAfterFlag || r.error == FlagNotInList
  {
    match Find(argv, FlagName)
    case None => Failure(FlagNotInList)
    case Some(i) => if i + 1 < |argv| then Success(argv[i + 1]) else Failure(NoValueAfterFlag)
  }

  // ---------------------------------------------------------------------------
  // As written
  // ---------------------------------------------------------------------------

  /** `_get_fb_access_token` as written. The global is assigned before the token is validated,
      so a rejected token stays cached, and the handler's "not provided" branch is dead code. */
  function ResolveAsWritten(cache: Option<string>, env: Option<string>, argv: seq<string>): (r: Resolution)
    ensures cache.Some? ==> r == Resolution(Success(cache.value), cache)
  {
    if cache.Some? then Resolution(Success(cache.value), cache)
    else if Truthy(env) then
      if Rejected(env) then Resolution(Failure(EmptyToken), env) else Resolution(Success(env.value), env)
    else
      match FromArgs(argv)
      case Failure(e) => Resolution(Failure(Rewrap(e)), env)
      case Success(t) =>
        if Rejected(Some(t)) then Resolution(Failure(EmptyToken), Some(t)) else Resolution(Success(t), Some(t))
  }

  /** A whitespace-only environment value is rejected once, but stays cached and is returned
      without complaint by the next call. */
  lemma AsWrittenCachesRejectedToken(env: Option<string>, argv: seq<string>)
    requires Truthy(env) && IsBlank(env.value)
    ensures ResolveAsWritten(None, env, argv) == Resolution(Failure(EmptyToken), env)
    ensures ResolveAsWritten(ResolveAsWritten(None, env, argv).cache, env, argv).result == Success(env.value)
    ensures !Usable(env.value)
  {
    RejectedIffUnusable(env);
  }

  /** The concrete case: `FB_ACCESS_TOKEN=" "` and no arguments. */
  lemma AsWrittenBlankTokenSecondCall()
    ensures ResolveAsWritten(None, Some(" "), []).result == Failure(EmptyToken)
    ensures ResolveAsWritten(ResolveAsWritten(None, Some(" "), []).cache, Some(" "), []).result == Success(" ")
  {
    assert IsBlank(" ");
    AsWrittenCachesRejectedToken(Some(" "), []);
  }

  /** The handler never produces "not provided": without the flag the caller sees the
      `list.index` error instead. */
  lemma AsWrittenNeverNotProvided(cache: Option<string>, env: Option<string>, argv: seq<string>)
    ensures ResolveAsWritten(cache, env, argv).result != Failure(NotProvided)
    ensures cache.None? && !Truthy(env) && FlagName !in argv
      ==> ResolveAsWritten(cache, env, argv).result == Failure(FlagNotInList)
  {
  }

  // ---------------------------------------------------------------------------
  // Corrected
  // ---------------------------------------------------------------------------

  /** The cache holds nothing or a usable token. */
  predicate ValidCache(cache: Option<string>) {
    cache.None? || Usable(cache.value)
  }

  /** `_get_fb_access_token` as evidently intended: only a usable token is cached, and a missing
      flag is reported as "not provided". */
  function Resolve(cache: Option<string>, env: Option<string>, argv: seq<string>): (r: Resolution)
    ensures ValidCache(cache) ==> ValidCache(r.cache)
    ensures r.result.Success? ==> Usable(r.result.value) || cache.Some?
    ensures cache.None? && r.result.Success? ==> r.cache == Some(r.result.value)
    ensures cache.None? && r.result.Failure? ==> r.cache == None
    ensures cache.Some? ==> r == Resolution(Success(cache.value), cache)
  {
    if cache.Some? then Resolution(Success(cache.value), cache)
    else
      var candidate :=
        if Truthy(env) then Success(env.value)
        else
          match FromArgs(argv)
          case Failure(FlagNotInList) => Failure(NotProvided)
          case other => other;
      match candidate
      case Failure(e) => Resolution(Failure(e), None)
      case Success(t) =>
        RejectedIffUnusable(Some(t));
        if Rejected(Some(t)) then Resolution(Failure(EmptyToken), None) else Resolution(Success(t), Some(t))
  }

  /** What a call makes of a token found on the command line. */
  function FlagTokenOutcome(t: string): Result<string, TokenError> {
    if Usable(t) then Success(t) else Failure(EmptyToken)
  }

  /** Which token wins, and every way to fail, for a call with an empty cache. */
  lemma ResolvePriority(env: Option<string>, argv: seq<string>)
    ensures Truthy(env) && Usable(env.value) ==> Resolve(None, env, argv).result == Success(env.value)
    ensures Truthy(env) && !Usable(env.value) ==> Resolve(None, env, argv).result == Failure(EmptyToken)
    ensures !Truthy(env) && FlagName !in argv ==> Resolve(None, env, argv).result == Failure(NotProvided)
    ensures !Truthy(env) && FlagName in argv && Find(argv, FlagName).value + 1 == |argv|
      ==> Resolve(None, env, argv).result == Failure(NoValueAfterFlag)
    ensures !Truthy(env) && FlagName in argv && Find(argv, FlagName).value + 1 < |argv|
      ==> Resolve(None, env, argv).result == FlagTokenOutcome(argv[Find(argv, FlagName).value + 1])
  {
    RejectedIffUnusable(env);
    if FlagName in argv && Find(argv, FlagName).value + 1 < |argv| {
      RejectedIffUnusable(Some(argv[Find(argv, FlagName).value + 1]));
    }
  }

  /** Once a call succeeds, every later call returns the same token, whatever the environment
      and arguments are by then; a failed call leaves nothing cached, so the next one retries. */
  lemma ResolveIdempotent(env: Option<string>, argv: seq<string>, env2: Option<string>, argv2: seq<string>)
    ensures Resolve(None, env, argv).result.Success? ==>
      Resolve(Resolve(None, env, argv).cache, env2, argv2).result == Resolve(None, env, argv).result
    ensures Resolve(None, env, argv).result.Failure? ==>
      Resolve(Resolve(None, env, argv).cache, env2, argv2) == Resolve(None, env2, argv2)
  {
  }

  /** On a first call the two versions agree, except that the corrected one reports a missing
      flag as "not provided"; they differ only in what they cache on failure. */
  lemma FirstCallAgreement(env: Option<string>, argv: seq<string>)
    ensures Resolve(None, env, argv).result
         == match ResolveAsWritten(None, env, argv).result
            case Failure(FlagNotInList) => Failure(NotProvided)
            case other => other
    ensures ResolveAsWritten(None, env, argv).result.Success? ==> Resolve(None, env, argv) == ResolveAsWritten(None, env, argv)
  {
    if !Truthy(env) {
      var args := FromArgs(argv);
      if args.Failure? {
        assert Rewrap(args.error) == args.error;
      }
    }
  }
}
