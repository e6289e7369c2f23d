/**
 * Choosing the HTTP backend: the configuration-time availability check and
 * the start-up policy that picks txrequests or treq.
 */
module BackendSelection {
  import opened PyValues

  /** Persistent connections per host of the treq connection pool. */
  const MAX_THREADS: nat := 5

  /** Class-level default of the treq preference: txrequests is preferred. */
  const DEFAULT_PREFER_TREQ: bool := false

  /** The dedented guidance text appended to the configuration error. */
  const TREQ_PROS_AND_CONS: string :=
    "\ntxrequests is based on requests and is probably a bit more mature, but it requires threads to run,\n"
    + "so has more overhead.\n"
    + "treq is better integrated in twisted and is more and more feature equivalent\n"
    + "\n"
    + "txrequests is 2.8x slower than treq due to the use of threads.\n"
    + "\n"
    + "http://treq.readthedocs.io/en/latest/#feature-parity-w-requests\n"
    + "pip install txrequests\n"
    + "    or\n"
    + "pip install treq\n"

  /** Which of the two optional transport libraries imported successfully. */
  datatype Environment = Environment(txrequestsInstalled: bool, treqInstalled: bool)

  /** The request path bound to `_doRequest`; Unbound before a successful start. */
  datatype Backend = Unbound | TxRequests | Treq

  /** What `startService` does: bind a backend, or raise. */
  datatype StartOutcome = Started(backend: Backend) | Failed(error: Error)

  const NEITHER_INSTALLED_HEAD: string := "neither txrequests nor treq is installed, but "
  const NEITHER_INSTALLED_TAIL: string := " is requiring it\n\n"

  /** The configuration error reported on behalf of `fromModule`. */
  function NeitherInstalledMessage(fromModule: string): string
  {
    NEITHER_INSTALLED_HEAD + fromModule + NEITHER_INSTALLED_TAIL + TREQ_PROS_AND_CONS
  }

  /**
   * `checkAvailable(from_module)`: `config.error` appends one message to the
   * configuration errors collected so far, exactly when neither library is
   * installed.
   */
  function CheckAvailable(env: Environment, fromModule: string, errors: seq<string>): (r: seq<string>)
    ensures |errors| <= |r| && r[..|errors|] == errors
    ensures r != errors <==> !env.txrequestsInstalled && !env.treqInstalled
    ensures r != errors ==> r == errors + [NeitherInstalledMessage(fromModule)]
  {
    if !env.txrequestsInstalled && !env.treqInstalled then
      errors + [NeitherInstalledMessage(fromModule)]
    else
      errors
  }

  /** The reported configuration error names the requiring module and carries the guidance text. */
  lemma NeitherInstalledMessageContents(fromModule: string)
    ensures Contains(NeitherInstalledMessage(fromModule), fromModule)
    ensures Contains(NeitherInstalledMessage(fromModule), TREQ_PROS_AND_CONS)
  {
    ContainsSuffix(NEITHER_INSTALLED_HEAD, fromModule);
    ContainsAppend(NEITHER_INSTALLED_HEAD + fromModule, NEITHER_INSTALLED_TAIL, fromModule);
    ContainsAppend(NEITHER_INSTALLED_HEAD + fromModule + NEITHER_INSTALLED_TAIL, TREQ_PROS_AND_CONS, fromModule);
    ContainsSuffix(NEITHER_INSTALLED_HEAD + fromModule + NEITHER_INSTALLED_TAIL, TREQ_PROS_AND_CONS);
  }

  const IMPORT_ERROR_MIDDLE: string := " requires either txrequest or treq install. Users should call "
  const CHECK_AVAILABLE_CALL: string := ".checkAvailable()"
  const IMPORT_ERROR_TAIL: string := " during checkConfig() to properly alert the user."

  /** The message of the ImportError raised by `startService` of class `className`. */
  function ImportErrorMessage(className: string): string
  {
    className + IMPORT_ERROR_MIDDLE + className + CHECK_AVAILABLE_CALL + IMPORT_ERROR_TAIL
  }

  /** The ImportError names the class and tells the user to call its checkAvailable. */
  lemma ImportErrorMessageContents(className: string)
    ensures Contains(ImportErrorMessage(className), className)
    ensures Contains(ImportErrorMessage(className), className + CHECK_AVAILABLE_CALL)
  {
    ContainsSuffix([], className);
    assert [] + className == className;
    ContainsAppend(className, IMPORT_ERROR_MIDDLE + className + CHECK_AVAILABLE_CALL + IMPORT_ERROR_TAIL, className);
    assert className + (IMPORT_ERROR_MIDDLE + className + CHECK_AVAILABLE_CALL + IMPORT_ERROR_TAIL)
        == ImportErrorMessage(className);
    ContainsSuffix(className + IMPORT_ERROR_MIDDLE, className + CHECK_AVAILABLE_CALL);
    ContainsAppend(className + IMPORT_ERROR_MIDDLE + (className + CHECK_AVAILABLE_CALL), IMPORT_ERROR_TAIL, className + CHECK_AVAILABLE_CALL);
    assert className + IMPORT_ERROR_MIDDLE + (className + CHECK_AVAILABLE_CALL) == className + IMPORT_ERROR_MIDDLE + className + CHECK_AVAILABLE_CALL;
  }

  /** treq only supports basic auth: any credential other than None or a tuple switches the treq preference off. */
  function EffectivePreferTreq(auth: Value, preferTreq: bool): (p: bool)
    ensures p ==> preferTreq
    ensures p != preferTreq <==> preferTreq && auth != NoneValue && !auth.Tuple?
  {
    if auth != NoneValue && !auth.Tuple? then false else preferTreq
  }

  /**
   * The backend `startService` binds, or the ImportError it raises, given the
   * installed libraries, the instance credential and the treq preference.
   */
  function SelectBackend(env: Environment, auth: Value, preferTreq: bool, className: string): (s: StartOutcome)
    ensures s != Started(Unbound)
    ensures s == Started(TxRequests) <==>
      env.txrequestsInstalled && (!preferTreq || (auth != NoneValue && !auth.Tuple?))
    ensures s == Started(Treq) ==> env.treqInstalled
    ensures s.Failed? <==> !env.treqInstalled && s != Started(TxRequests)
    ensures s.Failed? ==> s.error == ImportError(ImportErrorMessage(className))
  {
    if env.txrequestsInstalled && !EffectivePreferTreq(auth, preferTreq) then
      Started(TxRequests)
    else if !env.treqInstalled then
      Failed(ImportError(ImportErrorMessage(className)))
    else
      Started(Treq)
  }

  /** A credential that treq cannot express selects txrequests whenever it is installed, whatever the preference. */
  lemma NonBasicAuthForcesTxRequests(env: Environment, auth: Value, preferTreq: bool, className: string)
    requires auth != NoneValue && !auth.Tuple?
    requires env.txrequestsInstalled
    ensures SelectBackend(env, auth, preferTreq, className) == Started(TxRequests)
  {
  }

  /**
   * With the default preference, txrequests is used when installed, treq is
   * the fall-back, and start-up fails only when neither is installed.
   */
  lemma DefaultPreferenceSelection(env: Environment, auth: Value, className: string)
    ensures var s := SelectBackend(env, auth, DEFAULT_PREFER_TREQ, className);
      && (s == Started(TxRequests) <==> env.txrequestsInstalled)
      && (s == Started(Treq) <==> !env.txrequestsInstalled && env.treqInstalled)
      && (s.Failed? <==> !env.txrequestsInstalled && !env.treqInstalled)
  {
  }

  /**
   * With the default preference, the availability check is silent exactly
   * when start-up will bind a backend.
   */
  lemma CheckAvailableAgreesWithStartup(env: Environment, auth: Value, className: string,
                                        fromModule: string, errors: seq<string>)
    ensures CheckAvailable(env, fromModule, errors) == errors
        <==> SelectBackend(env, auth, DEFAULT_PREFER_TREQ, className).Started?
  {
  }

  /**
   * With the treq preference switched on and a credential treq accepts,
   * start-up raises even though txrequests is installed and the availability
   * check reported nothing.
   */
  lemma PreferTreqWithoutTreqFails(env: Environment, auth: Value, className: string,
                                   fromModule: string, errors: seq<string>)
    requires env.txrequestsInstalled && !env.treqInstalled
    requires auth == NoneValue || auth.Tuple?
    ensures CheckAvailable(env, fromModule, errors) == errors
    ensures SelectBackend(env, auth, true, className).Failed?
  {
  }

  /**
   * Without txrequests, treq is bound even for a credential it cannot express:
   * start-up does not reject that combination.
   */
  lemma NonBasicAuthReachesTreqWithoutTxRequests(env: Environment, auth: Value, preferTreq: bool, className: string)
    requires !env.txrequestsInstalled && env.treqInstalled
    ensures SelectBackend(env, auth, preferTreq, className) == Started(Treq)
  {
  }
}
