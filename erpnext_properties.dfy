/**
  What the ERPNext client promises about its requests and about the way it
  reads the response envelope, proved about the model in module `ErpNext`.
*/
module ErpNextProperties {
  import opened Wrappers
  import opened JsonValue
  import opened ErpNext

  // ---------------------------------------------------------------------------
  // Reading a record: the order exc_type, exception, data
  // ---------------------------------------------------------------------------

  /**
    A member `exc_type` holding the string "DoesNotExistError" makes the read
    return "no record", whatever else the envelope holds: an `exception` or a
    `data` member beside it changes nothing.
  */
  lemma NotFoundWins<T>(members: seq<(string, Value)>, decode: Value -> Result<T, string>)
    requires DistinctKeys(members)
    requires ("exc_type", String(NotFoundExcType)) in members
    ensures InterpretFetch(Object(members), decode) == Success(None)
  {
  }

  /**
    An `exc_type` that is absent, is not a string, or is another string does
    not decide anything: the read goes on exactly as if the member were absent.
  */
  lemma OtherExcTypeFallsThrough<T>(body: Value, decode: Value -> Result<T, string>)
    requires !IsNotFound(body)
    ensures InterpretFetch(body, decode) == InterpretFetch(Without(body, "exc_type"), decode)
    ensures InterpretFetch(body, decode) != Success(None)
  {
  }

  /**
    An `exception` member, whatever its value (null included), makes the read
    fail with a remote exception carrying that value, unless the not-found
    rule fired first.
  */
  lemma ExceptionMemberFails<T>(members: seq<(string, Value)>, decode: Value -> Result<T, string>, v: Value)
    requires DistinctKeys(members)
    requires ("exception", v) in members
    requires !IsNotFound(Object(members))
    ensures InterpretFetch(Object(members), decode) == Failure(RemoteException(v))
  {
  }

  /** A read fails with a remote exception carrying `v` exactly when not-found did not fire and `exception` is `v`. */
  lemma RemoteExceptionIff<T>(body: Value, decode: Value -> Result<T, string>, v: Value)
    ensures InterpretFetch(body, decode) == Failure(RemoteException(v)) <==>
              !IsNotFound(body) && Get(body, "exception") == Some(v)
  {
  }

  /**
    A read fails with "Missing 'data' field" exactly when neither not-found nor
    `exception` applies and there is no `data` member.
  */
  lemma MissingDataIff<T>(body: Value, decode: Value -> Result<T, string>)
    ensures InterpretFetch(body, decode) == Failure(MissingData) <==>
              !IsNotFound(body) && Get(body, "exception").None? && Get(body, "data").None?
  {
  }

  /** A body that is not an object (a string, an array, null, ...) is a missing-data error for a read and a success for a write. */
  lemma NonObjectBody<T>(body: Value, decode: Value -> Result<T, string>)
    requires !body.Object?
    ensures InterpretFetch(body, decode) == Failure(MissingData)
    ensures InterpretWrite(body) == Success(())
  {
  }

  /**
    Once the read reaches `data`, nothing else in the envelope matters: the
    outcome is the one the bare envelope `{"data": data}` gives, `Some` of the
    decoded value or the decoder's error.
  */
  lemma OnlyDataMatters<T>(body: Value, decode: Value -> Result<T, string>)
    requires !IsNotFound(body) && Get(body, "exception").None? && Get(body, "data").Some?
    ensures InterpretFetch(body, decode) == InterpretFetch(WrapData(Get(body, "data").value), decode)
    ensures decode(Get(body, "data").value).Success? ==>
              InterpretFetch(body, decode) == Success(Some(decode(Get(body, "data").value).value))
    ensures decode(Get(body, "data").value).Failure? ==>
              InterpretFetch(body, decode) == Failure(Deserialize(decode(Get(body, "data").value).error))
  {
  }

  /** A read returns `Some(t)` exactly when not-found and `exception` are absent and `data` decodes to `t`. */
  lemma DecodedIff<T>(body: Value, decode: Value -> Result<T, string>, t: T)
    ensures InterpretFetch(body, decode) == Success(Some(t)) <==>
              && !IsNotFound(body)
              && Get(body, "exception").None?
              && Get(body, "data").Some?
              && decode(Get(body, "data").value) == Success(t)
  {
  }

  // ---------------------------------------------------------------------------
  // Writing a record: only `exception` is consulted
  // ---------------------------------------------------------------------------

  /** Update and insert never look at `exc_type` or `data`: deleting both changes no outcome. */
  lemma WriteIgnoresExcTypeAndData(body: Value)
    ensures InterpretWrite(body) == InterpretWrite(Without(Without(body, "exc_type"), "data"))
  {
  }

  /**
    A write fails with the value of `exception` when the object has that member,
    even when it also says "DoesNotExistError", and succeeds when it has no
    such member.
  */
  lemma WriteOutcomeByMembers(members: seq<(string, Value)>, v: Value)
    requires DistinctKeys(members)
    ensures ("exception", v) in members ==> InterpretWrite(Object(members)) == Failure(RemoteException(v))
    ensures (forall i :: 0 <= i < |members| ==> members[i].0 != "exception") ==>
              InterpretWrite(Object(members)) == Success(())
  {
  }

  /** Apart from not-found, a read and a write agree on which bodies carry a remote exception. */
  lemma FetchAndWriteAgreeOnExceptions<T>(body: Value, decode: Value -> Result<T, string>, v: Value)
    requires !IsNotFound(body)
    ensures InterpretFetch(body, decode) == Failure(RemoteException(v)) <==>
              InterpretWrite(body) == Failure(RemoteException(v))
  {
  }

  /** The one place they part: "DoesNotExistError" with an exception is "no record" to a read and an error to a write. */
  lemma NotFoundDivergence<T>(decode: Value -> Result<T, string>)
    ensures InterpretFetch(Object([("exc_type", String(NotFoundExcType)), ("exception", String("boom"))]), decode)
              == Success(None)
    ensures InterpretWrite(Object([("exc_type", String(NotFoundExcType)), ("exception", String("boom"))]))
              == Failure(RemoteException(String("boom")))
  {
    var members := [("exc_type", String(NotFoundExcType)), ("exception", String("boom"))];
    assert DistinctKeys(members);
    LookupMember(members, "exc_type", String(NotFoundExcType));
    LookupMember(members, "exception", String("boom"));
  }

  // ---------------------------------------------------------------------------
  // Round trips between the write body and a read
  // ---------------------------------------------------------------------------

  /**
    The body a write sends, answered back to a read, gives back the value
    written whenever the decoder inverts the encoder; as a write response it is
    a success.
  */
  lemma WriteBodyReadsBack<T>(x: T, encode: T -> Value, decode: Value -> Result<T, string>)
    requires decode(encode(x)) == Success(x)
    ensures InterpretFetch(WrapData(encode(x)), decode) == Success(Some(x))
    ensures InterpretWrite(WrapData(encode(x))) == Success(())
  {
  }

  /**
    A server that answers the read of a record with the very body an update of
    that record sent makes the read return the value updated.
  */
  lemma UpdateThenFetch<T>(c: Client, doctype: string, name: string, x: T,
                           encode: T -> Value, decode: Value -> Result<T, string>)
    requires decode(encode(x)) == Success(x)
    requires c.http(FetchRequest(c.settings, doctype, name))
             == Success(UpdateRequest(c.settings, doctype, name, encode(x)).body.value)
    ensures c.GetDoctypeByName(doctype, name, decode) == Success(Some(x))
  {
  }

  // ---------------------------------------------------------------------------
  // URLs and requests
  // ---------------------------------------------------------------------------

  /** The insert URL is the update URL without its last segment: a proper prefix of it. */
  lemma CollectionUrlIsPrefix(base: string, doctype: string, name: string)
    ensures ResourceUrl(base, doctype, name) == CollectionUrl(base, doctype) + "/" + name
    ensures CollectionUrl(base, doctype) < ResourceUrl(base, doctype, name)
  {
  }

  /**
    When the doctype holds no '/', the record URL string determines the
    doctype and the name: different records never share a URL string.
  */
  lemma ResourceUrlInjective(base: string, d1: string, n1: string, d2: string, n2: string)
    requires '/' !in d1 && '/' !in d2
    ensures ResourceUrl(base, d1, n1) == ResourceUrl(base, d2, n2) <==> d1 == d2 && n1 == n2
  {
    if ResourceUrl(base, d1, n1) == ResourceUrl(base, d2, n2) {
      var p := base + ResourcePath;
      var s1, s2 := d1 + "/" + n1, d2 + "/" + n2;
      assert ResourceUrl(base, d1, n1) == p + s1;
      assert ResourceUrl(base, d2, n2) == p + s2;
      assert s1 == (p + s1)[|p|..] == (p + s2)[|p|..] == s2;
      // the first '/' of the tail ends the doctype in both
      assert s1[|d1|] == '/' && forall i :: 0 <= i < |d1| ==> s1[i] == d1[i];
      assert s2[|d2|] == '/' && forall i :: 0 <= i < |d2| ==> s2[i] == d2[i];
      assert |d1| == |d2|;
      assert d1 == s1[..|d1|] == s2[..|d2|] == d2;
      assert n1 == s1[|d1| + 1..] == s2[|d2| + 1..] == n2;
    }
  }

  /** Doctype and name go into the URL verbatim, so a '/' inside a doctype makes two records share one URL. */
  lemma SlashInDoctypeCollides(base: string)
    ensures ResourceUrl(base, "a/b", "c") == ResourceUrl(base, "a", "b/c")
    ensures ("a/b", "c") != ("a", "b/c")
  {
  }

  /**
    Read and update address the same URL; insert posts to that URL's collection
    prefix. Update and insert send the same body `{"data": payload}`, from which
    the payload is read back under "data"; a read sends no body. All three carry
    the settings' credentials and ask for JSON.
  */
  lemma RequestShapes(s: Settings, doctype: string, name: string, payload: Value)
    ensures FetchRequest(s, doctype, name).verb == HttpGet
    ensures UpdateRequest(s, doctype, name, payload).verb == HttpPut
    ensures InsertRequest(s, doctype, payload).verb == HttpPost
    ensures FetchRequest(s, doctype, name).url == UpdateRequest(s, doctype, name, payload).url
    ensures InsertRequest(s, doctype, payload).url + "/" + name == UpdateRequest(s, doctype, name, payload).url
    ensures FetchRequest(s, doctype, name).body.None?
    ensures UpdateRequest(s, doctype, name, payload).body == InsertRequest(s, doctype, payload).body
    ensures Get(UpdateRequest(s, doctype, name, payload).body.value, "data") == Some(payload)
    ensures FetchRequest(s, doctype, name).basicAuth == UpdateRequest(s, doctype, name, payload).basicAuth
            == InsertRequest(s, doctype, payload).basicAuth == (s.key, s.secret)
    ensures AcceptJson in FetchRequest(s, doctype, name).headers
    ensures ContentTypeJson in UpdateRequest(s, doctype, name, payload).headers
    ensures UpdateRequest(s, doctype, name, payload).headers == InsertRequest(s, doctype, payload).headers
  {
  }
}
