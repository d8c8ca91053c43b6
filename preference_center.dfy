/** Preference-center URL issuance (preferencecenter.go): an ordered validator, the path
    built from the two identifiers, and the mapping of the decoded body to the result. */
module PreferenceCenter {
  import opened Wrappers
  import opened Json
  import opened Braze

  const NilRequestMessage := "request must not be nil"
  const EmptyPreferenceCenterIdMessage := "preferences center ID must not be empty"
  const EmptyUserIdMessage := "user ID must not be empty"

  const PathPrefix := "/preference_center/v1/"
  const PathInfix := "/url/"

  datatype PreferenceCenterCreateURLRequest = PreferenceCenterCreateURLRequest(preferenceCenterId: string, userId: string)

  datatype PreferenceCenterCreateURLResponse = PreferenceCenterCreateURLResponse(url: string)

  /** The anonymous struct the response body is decoded into: only `preference_center_url`. */
  datatype URLBody = URLBody(preferenceCenterUrl: string)

  /** Checks the request in order: present, then the preference-center ID, then the user ID. */
  function Validate(r: Option<PreferenceCenterCreateURLRequest>): (err: Option<ClientError>)
    ensures err.None? <==> r.Some? && r.value.preferenceCenterId != "" && r.value.userId != ""
    ensures r.None? ==> err == Some(Invalid(NilRequestMessage))
    ensures r.Some? && r.value.preferenceCenterId == "" ==> err == Some(Invalid(EmptyPreferenceCenterIdMessage))
    ensures r.Some? && r.value.preferenceCenterId != "" && r.value.userId == "" ==>
      err == Some(Invalid(EmptyUserIdMessage))
  {
    if r.None? then Some(Invalid(NilRequestMessage))
    else if r.value.preferenceCenterId == "" then Some(Invalid(EmptyPreferenceCenterIdMessage))
    else if r.value.userId == "" then Some(Invalid(EmptyUserIdMessage))
    else None
  }

  /** The request path: both identifiers interpolated as they are, without escaping. */
  function CreateURLPath(r: PreferenceCenterCreateURLRequest): string {
    PathPrefix + r.preferenceCenterId + PathInfix + r.userId
  }

  /** In `id + "/url/" + tail` with no '/' in `id`, the first '/' is right after `id`. */
  lemma FirstSlashEndsId(id: string, tail: string)
    requires '/' !in id
    ensures var s := id + PathInfix + tail;
      s[|id|] == '/' && forall i :: 0 <= i < |id| ==> s[i] != '/'
  {
    var s := id + PathInfix + tail;
    forall i | 0 <= i < |id| ensures s[i] != '/' {
      assert s[i] == id[i];
    }
  }

  /** When the preference-center ID holds no '/', the path determines both identifiers. */
  lemma CreateURLPathInjective(a: PreferenceCenterCreateURLRequest, b: PreferenceCenterCreateURLRequest)
    requires '/' !in a.preferenceCenterId && '/' !in b.preferenceCenterId
    requires CreateURLPath(a) == CreateURLPath(b)
    ensures a == b
  {
    var n := |PathPrefix|;
    var ia, ib := a.preferenceCenterId, b.preferenceCenterId;
    var ta, tb := ia + PathInfix + a.userId, ib + PathInfix + b.userId;
    assert CreateURLPath(a) == PathPrefix + ta;
    assert CreateURLPath(b) == PathPrefix + tb;
    assert ta == CreateURLPath(a)[n..] == CreateURLPath(b)[n..] == tb;
    FirstSlashEndsId(ia, a.userId);
    FirstSlashEndsId(ib, b.userId);
    if |ia| < |ib| {
      assert false;
    } else if |ib| < |ia| {
      assert false;
    }
    assert ia == ta[..|ia|] == tb[..|ib|] == ib;
    assert a.userId == ta[|ia| + |PathInfix|..] == tb[|ib| + |PathInfix|..] == b.userId;
  }

  /** The example the tests use: IDs "foo" and "bar". */
  lemma CreateURLPathExample()
    ensures CreateURLPath(PreferenceCenterCreateURLRequest("foo", "bar")) == "/preference_center/v1/foo/url/bar"
  {
  }

  /** How the request struct is encoded: it has no JSON tags, so its Go field names are the keys. */
  function RequestDocument(r: PreferenceCenterCreateURLRequest): JsonValue {
    JObject(map["PreferenceCenterID" := JStr(r.preferenceCenterId), "UserID" := JStr(r.userId)])
  }

  class PreferenceCenterService {
    const client: Client

    constructor (client: Client)
      ensures this.client == client
    {
      this.client := client;
    }

    /** Validates, builds a POST to the interpolated path with the request as body, hands it
        to `server` (the transport and the remote service), and reads the URL from the body.
        `sent` is the request handed over, None when none was built. */
    method CreateURL(r: Option<PreferenceCenterCreateURLRequest>, server: HttpRequest -> Exchange<URLBody>)
      returns (result: Result<PreferenceCenterCreateURLResponse, ClientError>, sent: Option<HttpRequest>)
      ensures Validate(r).Some? ==> result == Failure(Validate(r).value) && sent.None?
      ensures Validate(r).None? ==>
        && sent.Some?
        && sent.value.verb == MethodPost
        && sent.value.url == Url(client.http.baseURL, CreateURLPath(r.value))
        && sent.value.payload == Some(RequestDocument(r.value))
        && sent.value.header == map["Content-Type" := ContentTypeJson, "Authorization" := "Bearer " + client.http.apiKey]
      ensures Validate(r).None? && Do(server(sent.value), Some(URLBody(""))).Failure? ==>
        result == Failure(Do(server(sent.value), Some(URLBody(""))).error)
      ensures Validate(r).None? && Do(server(sent.value), Some(URLBody(""))).Success? ==>
        result.Success? && result.value.url == Do(server(sent.value), Some(URLBody(""))).value.value.preferenceCenterUrl
      ensures result.Success? ==>
        sent.Some? && server(sent.value).Received? && IsSuccessStatus(server(sent.value).response.statusCode)
    {
      var err := Validate(r);
      if err.Some? {
        return Failure(err.value), None;
      }
      var path := CreateURLPath(r.value);
      var req := client.http.NewRequest(MethodPost, path, Payload(Success(RequestDocument(r.value))));
      // Encoding this request cannot fail and URL resolution is outside the model, so the
      // source's error return after newRequest is never taken here.
      assert req.Success?;
      sent := Some(req.value);
      var resp := Do(server(req.value), Some(URLBody("")));
      if resp.Failure? {
        return Failure(resp.error), sent;
      }
      result := Success(PreferenceCenterCreateURLResponse(resp.value.value.preferenceCenterUrl));
    }
  }

  /** The test's exchange: 201 with body {"preference_center_url":"https://foo"} yields that URL. */
  lemma CreatedResponseYieldsURL()
    ensures Do(Received(HttpResponse(StatusCreated, 40, Undecodable("not read"), Success(URLBody("https://foo")))), Some(URLBody("")))
      == Success(Some(URLBody("https://foo")))
  {
  }
}
