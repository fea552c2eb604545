/** The admission gate every entry point runs before touching the database. */
module Gate {
  import opened Envelope
  import opened Driver

  /** The (status, result) pair the gate returns. */
  datatype Verdict = Verdict(status: string, result: string)

  /** The entry points' test for a verdict that stops the call. */
  predicate Rejected(v: Verdict)
  {
    v.status == StatusAborted || v.status == StatusUnauthorized
  }

  /** The call is well formed: metadata present, an auth entry, a query. */
  predicate WellFormedCall(meta: Option<seq<string>>, query: string)
  {
    meta.Some? && |meta.value| > 0 && query != ""
  }

  /** `meta` is the list of `auth` values of the call metadata, or None when
      the call carries no metadata; `secret` is the shared secret. */
  function Validation(meta: Option<seq<string>>, query: string, secret: string): (v: Verdict)
    ensures v.result == ResultInternal <==> meta.None?
    ensures v.result == ResultInvalidForm <==> meta.Some? && (|meta.value| == 0 || query == "")
    ensures v.status == StatusAborted <==> !WellFormedCall(meta, query)
    ensures v.status == StatusUnauthorized <==> WellFormedCall(meta, query) && meta.value[0] != secret
    ensures v.status == StatusUnauthorized ==> v.result == ResultOk
    ensures !Rejected(v) <==> WellFormedCall(meta, query) && meta.value[0] == secret
    ensures !Rejected(v) ==> v == Verdict(StatusOk, ResultOk)
  {
    if meta.None? then Verdict(StatusAborted, ResultInternal)
    else if |meta.value| == 0 then Verdict(StatusAborted, ResultInvalidForm)
    else if query == "" then Verdict(StatusAborted, ResultInvalidForm)
    else if meta.value[0] != secret then Verdict(StatusUnauthorized, ResultOk)
    else Verdict(StatusOk, ResultOk)
  }

  /** The gate only ever returns one of four pairs. */
  predicate GateVerdict(v: Verdict)
  {
    v in {Verdict(StatusAborted, ResultInternal), Verdict(StatusAborted, ResultInvalidForm),
          Verdict(StatusUnauthorized, ResultOk), Verdict(StatusOk, ResultOk)}
  }

  lemma VerdictsAreFixed(meta: Option<seq<string>>, query: string, secret: string)
    ensures GateVerdict(Validation(meta, query, secret))
  {
  }

  /** Without metadata the call is aborted as an internal error, whatever
      its query and whatever the secret. */
  lemma MissingMetadata(query: string, secret: string, query': string, secret': string)
    ensures Validation(None, query, secret) == Verdict(StatusAborted, ResultInternal)
    ensures Validation(None, query, secret) == Validation(None, query', secret')
  {
  }

  /** Metadata without an auth entry is an invalid form, even for an empty query. */
  lemma MissingAuth(query: string, secret: string)
    ensures Validation(Some([]), query, secret) == Verdict(StatusAborted, ResultInvalidForm)
  {
  }

  /** The empty query is refused as an invalid form before the credential is
      compared: even the right credential does not get it through. */
  lemma EmptyQueryBeforeSecret(auth: seq<string>, secret: string)
    requires |auth| > 0 && auth[0] == secret
    ensures Validation(Some(auth), "", secret) == Verdict(StatusAborted, ResultInvalidForm)
  {
  }

  /** A well-formed call with the wrong credential is unauthorized, with the
      benign result "OK". */
  lemma WrongCredential(auth: seq<string>, query: string, secret: string)
    requires |auth| > 0 && query != "" && auth[0] != secret
    ensures Validation(Some(auth), query, secret) == Verdict(StatusUnauthorized, ResultOk)
  {
  }

  /** Only the first auth value is compared: values after it never change
      the verdict. */
  lemma OnlyFirstCredential(auth: seq<string>, auth': seq<string>, query: string, secret: string)
    requires |auth| > 0 && |auth'| > 0 && auth[0] == auth'[0]
    ensures Validation(Some(auth), query, secret) == Validation(Some(auth'), query, secret)
  {
  }
}
