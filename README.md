# Managed-service-identity credentials, modelled in Dafny

`MSICredentials` is a token credential that asks a local Managed Service
Identity (MSI) agent for an OAuth2 access token. This project models its
configurable part and the request it sends:

- The credential holds a resource identifier and a local port, both fixed at
  construction. The port defaults to 50342.
- It also holds three nullable identity selectors: object id, service
  principal (client) id and user-assigned identity resource id. Each fluent
  setter stores its own selector, clears the other two and returns the same
  object. So at most one selector is ever set.
- A token fetch POSTs to `http://localhost:<port>/oauth2/token`. The form body
  is `resource=<resource>` plus at most one selector parameter. The precedence
  is `&object_id=`, then `&client_id=`, then `&ms_res_id=`. Values are
  inserted verbatim, without URL-encoding. The headers are `Content-Type`,
  `Metadata: true` and `Content-Length`, the Java string length of the body.

Files:

- `wrappers.dfy`: `Option`, where `None` stands for Java's `null`.
- `java_text.dfy`: the Java `int` type. It also has the decimal rendering
  used by `String.format("%d")` and `Integer.toString`, and `String.length()`
  in UTF-16 code units. A reference reader shows that the rendering loses
  nothing.
- `selection.dfy`: the selector fields and setter calls as values, and the
  invariant over any chain of setter calls. It also has the tagged-union view
  of the selector, the form body, and a reference reader of form bodies that
  states what a body conveys.
- `msi_credentials.dfy`: the class `MSICredentials` with its constructors,
  setters and request builder. Java `final` fields are `const`; the selector
  fields are `var`s that the setters change under `modifies this`. Also the
  request value, the endpoint URL and the `Content-Length` value.

Two behaviours of the code shape the model:

- A setter accepts `null`, so `withObjectId(null)` clears all three selectors.
  The setters therefore take an `Option<string>`.
- The `resource` argument of `getToken` is ignored. The body always names the
  resource fixed at construction.

## Model

| member | source | states |
|---|---|---|
| `MsiCredentials.MSICredentials.constructor` | src/main/java/com/microsoft/azure/management/compute/samples/MSICredentials.java:58-63 | the resource is the environment's resource-manager endpoint, the port is the given one, and all three selectors are null |
| `MsiCredentials.MSICredentials.WithDefaultPort` | src/main/java/com/microsoft/azure/management/compute/samples/MSICredentials.java:48-50 | as the two-argument constructor, with port 50342 |
| `MsiCredentials.MSICredentials.ForAzure` | src/main/java/com/microsoft/azure/management/compute/samples/MSICredentials.java:38-40 | the public Azure cloud's resource-manager endpoint, port 50342, and no selector |
| `MsiCredentials.MSICredentials.WithObjectId` | src/main/java/com/microsoft/azure/management/compute/samples/MSICredentials.java:73-78 | stores the object id (possibly null), clears the other two selectors, keeps at most one selector set, returns the same object; resource and port are constants |
| `MsiCredentials.MSICredentials.WithServicePrincipalId` | src/main/java/com/microsoft/azure/management/compute/samples/MSICredentials.java:88-93 | stores the service principal id, clears object id and identity id, keeps the invariant, returns the same object |
| `MsiCredentials.MSICredentials.WithIdentityId` | src/main/java/com/microsoft/azure/management/compute/samples/MSICredentials.java:103-108 | stores the identity id, clears the other two, keeps the invariant, returns the same object |
| `MsiCredentials.MSICredentials.BuildTokenRequest` | src/main/java/com/microsoft/azure/management/compute/samples/MSICredentials.java:111-129 | builds the body step by step from the selector fields. The result is a POST to the port's token URL whose body is the form body for the constructor-time resource and the selector chosen by precedence; the request's own resource argument plays no part |
| `MsiCredentials.TokenRequestOf` | src/main/java/com/microsoft/azure/management/compute/samples/MSICredentials.java:112-129 | the request is a POST to `TokenUrl(port)` with exactly three headers: the form content type, `Metadata: true`, and a `Content-Length` that reads back as the body's Java length. With `ContentLengthDetermined` this fixes the header's text exactly |
| `MsiCredentials.TokenUrl` | src/main/java/com/microsoft/azure/management/compute/samples/MSICredentials.java:112 | the URL is `http://localhost:`, then a decimal number that reads back as the port, then `/oauth2/token`. The reader accepts only Java's own rendering, so this fixes the text (`TokenUrlDetermined`) |
| `MsiCredentials.TokenUrlDetermined` | src/main/java/com/microsoft/azure/management/compute/samples/MSICredentials.java:112 | any string with the token URL's prefix and suffix whose middle reads as the port is exactly the URL Java formats for that port |
| `MsiCredentials.DefaultTokenUrl` | src/main/java/com/microsoft/azure/management/compute/samples/MSICredentials.java:48-50 | with the default port the URL is exactly `http://localhost:50342/oauth2/token` |
| `MsiCredentials.ContentLength` | src/main/java/com/microsoft/azure/management/compute/samples/MSICredentials.java:129 | the header value reads back as the body's UTF-16 length; for a body inside the Basic Multilingual Plane, that is its character count |
| `MsiCredentials.ContentLengthDetermined` | src/main/java/com/microsoft/azure/management/compute/samples/MSICredentials.java:129 | any header value that reads back as the body's UTF-16 length is exactly `Integer.toString` of that length |
| `MsiCredentials.SampleRequest` | src/main/java/com/microsoft/azure/management/compute/samples/ExplicitMSILogin.java:69-71 | a credential built on the default port, then given an identity id, sends `resource=<R>&ms_res_id=<id>` to the default token URL |
| `JavaText.DecimalRoundTrip` | src/main/java/com/microsoft/azure/management/compute/samples/MSICredentials.java:129 | the decimal rendering of any integer, negative ones included, reads back as that integer |
| `JavaText.DecimalInjective` | src/main/java/com/microsoft/azure/management/compute/samples/MSICredentials.java:112 | distinct ports (and lengths) give distinct renderings |
| `JavaText.IntToDecimal` | src/main/java/com/microsoft/azure/management/compute/samples/MSICredentials.java:112 | the rendering starts with `-` exactly for negative values, and its digits have no leading zero unless the value is 0 (so `-0` never appears) |
| `JavaText.ParsedIsRendering` | src/main/java/com/microsoft/azure/management/compute/samples/MSICredentials.java:129 | the reader accepts only canonical text: a string that reads as `n` is the rendering of `n`, so `07` or `-0` is never read |
| `JavaText.CanonicalIsRendering` | src/main/java/com/microsoft/azure/management/compute/samples/MSICredentials.java:112 | a digit string with no leading zero (or `0` itself) is the rendering of its own value |
| `JavaText.NatToDecimal` | src/main/java/com/microsoft/azure/management/compute/samples/MSICredentials.java:112 | the rendering is a non-empty digit string, with a leading zero only for zero |
| `JavaText.Utf16Length` | src/main/java/com/microsoft/azure/management/compute/samples/MSICredentials.java:129 | the Java length lies between the number of characters and twice that, and equals the number of characters when no character needs a surrogate pair |
| `Selection.Apply` | src/main/java/com/microsoft/azure/management/compute/samples/MSICredentials.java:73-108 | after a setter call its own field holds the argument, the other two are null, and at most one selector is set |
| `Selection.ApplyForgetsPrevious` | src/main/java/com/microsoft/azure/management/compute/samples/MSICredentials.java:73-108 | a setter call's result is the same whatever selectors were set before it |
| `Selection.ApplyAllKeepsAtMostOne` | src/main/java/com/microsoft/azure/management/compute/samples/MSICredentials.java:30-32 | from any state with at most one selector, including a fresh object, every chain of setter calls keeps at most one selector |
| `Selection.ApplyAllLastWins` | src/main/java/com/microsoft/azure/management/compute/samples/MSICredentials.java:73-108 | after a non-empty chain of setter calls the selectors are exactly those the last call alone sets on a fresh object |
| `Selection.Effective` | src/main/java/com/microsoft/azure/management/compute/samples/MSICredentials.java:114-119 | no selector exactly when all three fields are null; otherwise the chosen selector holds the value of its own field, and every field checked before it is null |
| `Selection.FieldsOf` | src/main/java/com/microsoft/azure/management/compute/samples/MSICredentials.java:114-120 | every tagged-union selector corresponds to a field state that satisfies the invariant and that the precedence maps back to that selector |
| `Selection.EffectiveDeterminesFields` | src/main/java/com/microsoft/azure/management/compute/samples/MSICredentials.java:114-120 | under the invariant the precedence choice loses nothing: the chosen selector determines all three fields |
| `Selection.ParamText` | src/main/java/com/microsoft/azure/management/compute/samples/MSICredentials.java:115-119 | the parameter is empty exactly when no selector is chosen; otherwise it starts with `&` and is as long as `&`, the key, `=` and the value |
| `Selection.ParamTextShape` | src/main/java/com/microsoft/azure/management/compute/samples/MSICredentials.java:114-120 | a selector parameter is `&`, then the selector's form key, then `=`, then its value |
| `Selection.PostData` | src/main/java/com/microsoft/azure/management/compute/samples/MSICredentials.java:113 | whatever the selector, the body starts with `resource=` and the constructor-time resource |
| `Selection.PostDataBare` | src/main/java/com/microsoft/azure/management/compute/samples/MSICredentials.java:113-120 | the body is exactly `resource=<resource>` if and only if no selector is chosen |
| `Selection.ParamRoundTrip` | src/main/java/com/microsoft/azure/management/compute/samples/MSICredentials.java:114-120 | each of the three form keys reads back as its own selector kind with the value unchanged |
| `Selection.BodyRoundTrip` | src/main/java/com/microsoft/azure/management/compute/samples/MSICredentials.java:113-120 | when the resource contains no `&`, the body reads back as exactly that resource and that selector, whatever the selector's value holds |
| `Selection.PostDataInjective` | src/main/java/com/microsoft/azure/management/compute/samples/MSICredentials.java:113-120 | for `&`-free resources, distinct resource/selector pairs give distinct bodies |
| `Selection.AmpersandInResourceIsAmbiguous` | src/main/java/com/microsoft/azure/management/compute/samples/MSICredentials.java:113-120 | since nothing is URL-encoded, a resource containing `&object_id=` gives the same body as a shorter resource with an object-id selector |

## Left out

- The HTTP exchange in `getToken` is not modelled: opening the connection, writing the body, reading one line of the reply, and disconnecting in `finally` (MSICredentials.java lines 121-148). This is network I/O. `BuildTokenRequest` stops at the request value.
- The token reply (`MSIToken`, lines 154-166) and its JSON deserialization through `AzureJacksonAdapter` (lines 29, 62, 142) are foreign library calls, so `getToken`'s returned access token is not modelled.
- The base class `AzureTokenCredentials` (the `super` call on line 59) and the SDK type `AzureEnvironment` are not part of this model. An environment is reduced to its resource-manager endpoint.
- `ForAzure`: the default environment `AzureEnvironment.AZURE` is not part of this model. Its endpoint is written as the constant `https://management.azure.com/` that the SDK publishes.
- `TokenUrl`: the validation done by `java.net.URL`, which rejects some port values with an exception, is not modelled. The URL is the string handed to it.
- `TokenUrl`: `String.format("%d")` follows the default locale's digits; the model uses ASCII digits.
- A null environment is not modelled. `new MSICredentials(null, port)` throws a `NullPointerException` on line 60, but an `Environment` is a value and cannot be null.
- `Utf16Length`: a Java `String` may hold unpaired surrogates, which `length()` counts as one unit each. A Dafny string holds only Unicode scalar values, so the model covers only well-formed text.
- The resource is a non-null string. A null resource-manager endpoint, which Java would format as `resource=null`, is not modelled.
- `ContentLength`: as in the source, it counts UTF-16 code units of the body, not the bytes the writer encodes. The two differ for non-ASCII text.
- The sample driver ExplicitMSILogin.java is not modelled: environment variables, console output, building the environment map, and SDK authentication and resource calls. `SampleRequest` models only its use of the credential on lines 69-71.
- Concurrent use of one credential object is not modelled. The source has no synchronization.
