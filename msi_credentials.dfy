/**
  The managed-service-identity credential object: its configuration (the
  resource to request a token for, the local port, the identity selector) and
  the HTTP request it sends to the local identity endpoint. Sending the
  request and reading the token from the reply are not part of this model.
 */
module MsiCredentials {
  import opened Wrappers
  import opened JavaText
  import opened Selection

  /** The part of the cloud environment descriptor the credential reads. */
  datatype Environment = Environment(resourceManagerEndpoint: string)

  /** The resource-manager endpoint of the public Azure cloud. */
  const AzureResourceManagerEndpoint: string := "https://management.azure.com/"

  /** The port of the local identity endpoint when none is given. */
  const DefaultMsiPort: Int32 := 50342

  const ContentType: string := "application/x-www-form-urlencoded; charset=utf-8"

  /**
    The request headers the credential sets, named on the wire `Content-Type`,
    `Metadata` and `Content-Length`.
   */
  datatype HeaderName = ContentTypeHeader | MetadataHeader | ContentLengthHeader

  /** An HTTP request: method, URL, request properties, body. */
  datatype TokenRequest = TokenRequest(requestMethod: string, url: string, headers: map<HeaderName, string>, body: string)

  /** The token endpoint on the local host at `port`. */
  function TokenUrl(port: Int32): (url: string)
    ensures |url| >= 30
    ensures url[..17] == "http://localhost:" && url[|url| - 13..] == "/oauth2/token"
    ensures ParseDecimal(url[17..|url| - 13]) == Some(port as int)
  {
    var digits := IntToDecimal(port as int);
    var url := "http://localhost:" + digits + "/oauth2/token";
    assert url[17..|url| - 13] == digits;
    DecimalRoundTrip(port as int);
    url
  }

  /**
    The three properties of `TokenUrl` fix the URL text: any string that has
    them is the URL with the port written as Java writes it.
   */
  lemma TokenUrlDetermined(port: Int32, url: string)
    requires |url| >= 30
    requires url[..17] == "http://localhost:" && url[|url| - 13..] == "/oauth2/token"
    requires ParseDecimal(url[17..|url| - 13]) == Some(port as int)
    ensures url == TokenUrl(port)
  {
    var digits := url[17..|url| - 13];
    ParsedIsRendering(digits, port as int);
    assert url == url[..17] + digits + url[|url| - 13..];
    assert url == "http://localhost:" + IntToDecimal(port as int) + "/oauth2/token";
  }

  /** Without an explicit port the token endpoint is the well-known local address. */
  lemma DefaultTokenUrl()
    ensures TokenUrl(DefaultMsiPort) == "http://localhost:50342/oauth2/token"
  {
  }

  /** The `Content-Length` header value: the body's Java string length in decimal. */
  function ContentLength(body: string): (v: string)
    ensures ParseDecimal(v) == Some(Utf16Length(body))
    ensures (forall i :: 0 <= i < |body| ==> body[i] as int < 0x1_0000) ==> ParseDecimal(v) == Some(|body|)
  {
    DecimalRoundTrip(Utf16Length(body));
    IntToDecimal(Utf16Length(body))
  }

  /** Any header value that reads back as the body's Java length is `Integer.toString`'s text. */
  lemma ContentLengthDetermined(body: string, v: string)
    requires ParseDecimal(v) == Some(Utf16Length(body))
    ensures v == ContentLength(body)
  {
    ParsedIsRendering(v, Utf16Length(body));
  }

  /** The request sent for a credential with this resource, port and selector. */
  function TokenRequestOf(resource: string, port: Int32, s: Selector): (req: TokenRequest)
    ensures req.requestMethod == "POST"
    ensures req.url == TokenUrl(port) && req.body == PostData(resource, s)
    ensures req.headers.Keys == {ContentTypeHeader, MetadataHeader, ContentLengthHeader}
    ensures req.headers[ContentTypeHeader] == ContentType && req.headers[MetadataHeader] == "true"
    ensures ParseDecimal(req.headers[ContentLengthHeader]) == Some(Utf16Length(req.body))
  {
    var body := PostData(resource, s);
    var headers := map[ContentTypeHeader := ContentType, MetadataHeader := "true", ContentLengthHeader := ContentLength(body)];
    assert headers.Keys == {ContentTypeHeader, MetadataHeader, ContentLengthHeader};
    TokenRequest("POST", TokenUrl(port), headers, body)
  }

  class MSICredentials {
    /** The resource the token is requested for, fixed at construction. */
    const resource: string
    /** The local port of the identity endpoint, fixed at construction. */
    const msiPort: Int32
    var objectId: Option<string>
    var servicePrincipalId: Option<string>
    var identityId: Option<string>

    /** The three selector fields as a value. */
    function Selectors(): Fields
      reads this
    {
      Fields(objectId, servicePrincipalId, identityId)
    }

    ghost predicate AtMostOneSelector()
      reads this
    {
      AtMostOne(Selectors())
    }

    /** A credential for `environment` that asks the endpoint on `msiPort`. */
    constructor (environment: Environment, msiPort: Int32)
      ensures resource == environment.resourceManagerEndpoint && this.msiPort == msiPort
      ensures Selectors() == NoFields && AtMostOneSelector()
    {
      resource := environment.resourceManagerEndpoint;
      this.msiPort := msiPort;
      objectId, servicePrincipalId, identityId := None, None, None;
    }

    /** A credential for `environment` on the default port. */
    constructor WithDefaultPort(environment: Environment)
      ensures resource == environment.resourceManagerEndpoint && msiPort == DefaultMsiPort
      ensures Selectors() == NoFields && AtMostOneSelector()
    {
      resource := environment.resourceManagerEndpoint;
      msiPort := DefaultMsiPort;
      objectId, servicePrincipalId, identityId := None, None, None;
    }

    /** A credential for the public Azure cloud on the default port. */
    constructor ForAzure()
      ensures resource == AzureResourceManagerEndpoint && msiPort == DefaultMsiPort
      ensures Selectors() == NoFields && AtMostOneSelector()
    {
      resource := AzureResourceManagerEndpoint;
      msiPort := DefaultMsiPort;
      objectId, servicePrincipalId, identityId := None, None, None;
    }

    /** Selects the identity by its service principal object id. */
    method WithObjectId(objectId: Option<string>) returns (self: MSICredentials)
      modifies this
      ensures self == this
      ensures this.objectId == objectId && servicePrincipalId == None && identityId == None
      ensures Selectors() == Apply(old(Selectors()), Setter(ObjectIdKind, objectId))
      ensures AtMostOneSelector()
    {
      this.objectId := objectId;
      servicePrincipalId := None;
      identityId := None;
      self := this;
    }

    /** Selects the identity by its service principal (client) id. */
    method WithServicePrincipalId(servicePrincipalId: Option<string>) returns (self: MSICredentials)
      modifies this
      ensures self == this
      ensures this.servicePrincipalId == servicePrincipalId && objectId == None && identityId == None
      ensures Selectors() == Apply(old(Selectors()), Setter(ServicePrincipalIdKind, servicePrincipalId))
      ensures AtMostOneSelector()
    {
      this.servicePrincipalId := servicePrincipalId;
      objectId := None;
      identityId := None;
      self := this;
    }

    /** Selects the identity by the resource id of the user-assigned identity. */
    method WithIdentityId(identityId: Option<string>) returns (self: MSICredentials)
      modifies this
      ensures self == this
      ensures this.identityId == identityId && servicePrincipalId == None && objectId == None
      ensures Selectors() == Apply(old(Selectors()), Setter(IdentityIdKind, identityId))
      ensures AtMostOneSelector()
    {
      this.identityId := identityId;
      servicePrincipalId := None;
      objectId := None;
      self := this;
    }

    /**
      The request a token fetch sends. The resource passed in is ignored: the
      body names the resource fixed at construction.
     */
    method BuildTokenRequest(requestedResource: string) returns (req: TokenRequest)
      ensures req == TokenRequestOf(resource, msiPort, Effective(Selectors()))
    {
      var url := "http://localhost:" + IntToDecimal(msiPort as int) + "/oauth2/token";
      var postData := "resource=" + resource;
      if objectId.Some? {
        postData := postData + "&object_id=" + objectId.value;
      } else if servicePrincipalId.Some? {
        postData := postData + "&client_id=" + servicePrincipalId.value;
      } else if identityId.Some? {
        postData := postData + "&ms_res_id=" + identityId.value;
      }
      assert postData == "resource=" + resource + ParamText(Effective(Selectors()));
      var headers: map<HeaderName, string> := map[];
      headers := headers[ContentTypeHeader := ContentType];
      headers := headers[MetadataHeader := "true"];
      headers := headers[ContentLengthHeader := IntToDecimal(Utf16Length(postData))];
      req := TokenRequest("POST", url, headers, postData);
    }
  }

  /**
    The sample driver's use of the credential: construct it for an environment
    on the default port, select a user-assigned identity, fetch a token.
   */
  method SampleRequest(environment: Environment, identityId: string) returns (req: TokenRequest)
    ensures req.body == "resource=" + environment.resourceManagerEndpoint + "&ms_res_id=" + identityId
    ensures req.url == "http://localhost:50342/oauth2/token"
  {
    var credentials := new MSICredentials.WithDefaultPort(environment);
    var _ := credentials.WithIdentityId(Some(identityId));
    req := credentials.BuildTokenRequest(environment.resourceManagerEndpoint);
    assert Effective(credentials.Selectors()) == IdentityId(identityId);
    DefaultTokenUrl();
  }
}
