# go-braze client core, modelled in Dafny

This project models the two mechanisms that carry the logic of the go-braze REST client.

1. **The user-attributes object.** It holds a typed profile whose absent fields are left out of the wire form. It also holds a private overlay of custom attributes. Encoding it takes two passes: the typed fields are encoded alone and decoded back into a map, then every overlay entry is written over that map. An overlay key therefore wins over a typed field with the same wire name.
2. **The dispatch path.** This covers:
   - configuring the client with functional options;
   - building a request (headers, JSON body);
   - classifying the response into success, a structured API error or an opaque error;
   - decoding a success body;
   - the text of an API error;
   - the preference-center URL operation that uses the whole path.

Modules, one per source file plus two small helpers:

- `Wrappers` (wrappers.dfy): Option and Result.
- `Json` (json.dfy): JSON values, including the add/remove list-edit value.
- `CustomAttributes` (custom_attributes.dfy): `CustomAttribute` and its typed constructors.
- `Users` (users.dfy):
  - the typed `Profile`;
  - its baseline encoding;
  - the overlay functions;
  - the `UserAttributes` class;
  - the unimplemented `Identify` and `CreateAlias`.
- `Braze` (braze.dfy):
  - the response and error types;
  - `ParseError` and `Do`;
  - the `HttpClient` and `Client` classes with `NewRequest`, `ApplyOptions` and `NewClient`;
  - the error text.
- `PreferenceCenter` (preference_center.dfy): `Validate`, the request path and `CreateURL`.

How the model stands in for things it cannot contain:

- The HTTP exchange is an input. `Exchange<T>` is either a transport failure or a received response. A response is given by:
  - its status;
  - its content length;
  - what decoding its body into an error object yields (`ErrorBody`: the literal `null`, an object, or a decode error);
  - what decoding its body into the caller's value yields.
- A request body is passed explicitly as present or absent (`Body`). A typed nil pointer handed to `newRequest` is a present body: Go compares the interface, not the pointer. A present body therefore still gets the JSON content type.
- The caller's decode destination is an `Option<T>`. None stands for a nil destination; Some holds its current value. `Do` returns the destination's value afterwards.
- The overlay is a `map` field that `AddAttributes` reassigns entry by entry. Dafny maps are values. So the copy returned by `GetCustomAttributes` cannot alias the object's map, and changing the copy later cannot reach the owner.

Where the library's design description and its code differ, the model follows the code:

- No default user agent is ever installed. `defaultUserAgent` is declared but unused, so the `userAgent` field stays empty unless an option sets it.
- The JSON content type is set whenever the body interface is non-nil, including for a nil request pointer.
- Overlay entries are written in map-iteration order, not insertion order. Keys are unique, so the result is the same.

## Model

| member | source | states |
|---|---|---|
| CustomAttributes.Attribute | customattributes.go:12-28 | The attribute's Key() is the key and its Value() is the value it was built from. |
| CustomAttributes.BoolAttribute | customattributes.go:30-33 | Equals the generic attribute built from the key and the boolean. |
| CustomAttributes.Int64Attribute | customattributes.go:35-38 | Equals the generic attribute built from the key and the 64-bit integer. |
| CustomAttributes.StringAttribute | customattributes.go:45-48 | Equals the generic attribute built from the key and the string. |
| CustomAttributes.DateAttribute | customattributes.go:50-52 | Keeps the key and stores a string value: the RFC 3339 text of the instant. |
| CustomAttributes.StringSliceAttribute | customattributes.go:54-56 | Equals the generic attribute built from the key and the string list. |
| CustomAttributes.ModifyStringSliceAttribute | customattributes.go:5-10 | Equals the generic attribute holding the add/remove map. The map is stored unchanged and not validated. |
| Users.FieldEntries | users.go:70-120 | One entry per typed field, in declaration order, under that field's JSON wire name. |
| Users.WireNamesDistinct | users.go:72-119 | No two typed fields share a wire name. |
| Users.ObjectOfKeys | users.go:156-164 | An encoded struct has exactly the names of the fields that are written (omitempty). |
| Users.ObjectOfEntry | users.go:156-164 | With distinct names, a written field holds its encoded value and an omitted field is absent. |
| Users.BaselineFields | users.go:151-164 | The baseline's keys are exactly the present typed fields' wire names, each with its encoding. An absent field never appears. |
| Users.BaselineExternalId | users.go:72 | "external_id" is in the baseline exactly when ExternalID is non-nil, and then holds its string. |
| Users.BaselinePushTokens | users.go:113 | "push_tokens" is written exactly when the slice is non-empty. |
| Users.AddAllKeys | users.go:133-135 | Adding attributes adds exactly their keys to the overlay. |
| Users.AddAllLastWins | users.go:133-135 | A key maps to the value of the last attribute that carries it. |
| Users.AddAllKeepsOthers | users.go:129-135 | A key no attribute carries keeps its previous presence and value. |
| Users.AddAllOrderIndependent | users.go:125-136 | Adding the same attributes with pairwise different keys in any order gives the same overlay. |
| Users.MergeOverlay | users.go:166-170 | The merged keys are the baseline's plus the overlay's. An overlay key takes the overlay's value; other keys keep the baseline value. |
| Users.MergedKeysAndPrecedence | users.go:151-172 | The encoded object's keys are the present typed fields' wire names plus the overlay keys. An overlay key beats a typed field's value. |
| Users.MergeEmptyOverlay | users.go:166-171 | With an empty overlay the encoded object equals the baseline. |
| Users.TrackCustomAttributesScenario | users_test.go:88-109 | ExternalID "123" plus the attribute testing=true encodes to exactly {"external_id":"123","testing":true}. |
| Users.UserAttributes.constructor | users.go:121-123 | A new object has its typed fields and no custom-attribute map. |
| Users.UserAttributes.AddAttributes | users.go:125-136 | Creates the map if it is nil, then writes the attributes in order. Typed fields are untouched. Adding nothing leaves the visible overlay unchanged. |
| Users.UserAttributes.GetCustomAttributes | users.go:138-148 | Returns a copy equal in contents to the overlay (empty for a nil map) and changes nothing. |
| Users.UserAttributes.MarshalJSON | users.go:150-172 | The encoded document is the baseline of the typed fields with the overlay written over it. |
| Users.Identify | users.go:266-268 | Never yields a response; every call fails as not implemented. |
| Users.CreateAlias | users.go:270-272 | Never yields a response; every call fails as not implemented. |
| Braze.ParseError | braze.go:182-203 | No error exactly for 200/201/202. For 400/401/403/404/422/429: the decoded body with ErrorCode set to the status, or the decode error. Any other status: an error with only ErrorCode, body unread. |
| Braze.OpaqueStatusIgnoresBody | braze.go:199-201 | For a status outside both sets, the classification does not depend on the body. |
| Braze.ParseErrorAsWritten | braze.go:193-198 | The source's parseError, including the nil dereference after a `null` body under a structured status; it panics exactly then. |
| Braze.NullErrorBodyPanics | braze.go:193-198 | Status 400 with body `null` panics as written; the corrected classification returns an error carrying only 400. |
| Braze.ParseErrorAgreesWithSource | braze.go:183-203 | On every other response the corrected classification returns what the source returns. |
| Braze.Do | braze.go:162-180 | A transport error is returned unchanged. A classification error comes before any decoding. The body is decoded only on success with a non-zero content length and a non-nil destination; otherwise the destination is untouched. |
| Braze.InternalServerErrorIsOpaque | users_test.go:75-86 | A 500 answer fails with an error carrying only status 500, whatever its body. |
| Braze.UnprocessableEntityKeepsMinorErrors | braze.go:187-198 | A 422 body listing one minor error yields a structured error with that minor error and code 422. |
| Braze.CreatedWithEmptyBodyKeepsTarget | braze.go:173-177 | A 201 answer with content length 0 succeeds and leaves the destination as it was. |
| Braze.HttpClient.NewRequest | braze.go:137-160 | A body-encoding failure aborts with that error. Otherwise Authorization is always "Bearer " + API key, and Content-Type is application/json exactly when a body is present. |
| Braze.HttpClient.constructor | braze.go:41-46 | The client's fields are those of the given configuration. |
| Braze.Client.ApplyOptions | braze.go:128-135 | Applies the options in order and returns the first error. Options before the failing one stay applied and later ones do not run. |
| Braze.FoldOptionsAppend | braze.go:128-135 | Applying pre + post is applying pre, then post only if pre succeeded. |
| Braze.FoldOptionsStopsAtFirstFailure | braze.go:129-133 | The first failing option ends the fold with its error; the options after it have no effect. |
| Braze.LastAPIKeyWins | braze.go:104-110 | A later APIKey option overwrites an earlier one and changes nothing else. |
| Braze.LastBaseURLWins | braze.go:96-102 | A later BaseURL option overwrites an earlier one and changes nothing else. |
| Braze.BuiltinOptionsNeverFail | braze.go:96-126 | Options built only from BaseURL, APIKey, UserAgent and HTTPClient never fail. |
| Braze.Client.NewClient | braze.go:60-91 | Starts from the default base URL and a 10 s timeout, then applies the options. The client exists exactly when no option fails, and otherwise the option's error is returned. |
| Braze.TestClientConfiguration | users_test.go:25 | APIKey("key") then BaseURL(u) over the defaults gives base u, key "key", an empty user agent and a 10 s timeout. |
| Braze.ErrorResponse.Error | braze.go:205-214 | The error string is the text ErrorText describes. |
| Braze.ErrorText | braze.go:205-214 | "<code>: <message>", with ": <errors>" appended if and only if there are minor errors. |
| Braze.NatDigits | braze.go:207 | The decimal digits of a status code: non-empty, digits only, no leading zero. |
| Braze.ItoaRoundTrip | braze.go:207 | The decimal text of an integer reads back as that integer. |
| Braze.ErrorTextStartsWithCode | braze.go:207-208 | The error text begins with the status code in decimal, which reads back as the code, followed by ':'. |
| PreferenceCenter.Validate | preferencecenter.go:19-33 | A nil request is rejected first, then an empty preference-center ID, then an empty user ID. No error exactly when the request is present and both fields are non-empty. |
| PreferenceCenter.CreateURLPathInjective | preferencecenter.go:48 | The path "/preference_center/v1/" + ID + "/url/" + user ID determines both IDs when the ID holds no '/'. |
| PreferenceCenter.CreateURLPathExample | preferencecenter_test.go:16 | IDs "foo" and "bar" give the path /preference_center/v1/foo/url/bar. |
| PreferenceCenter.PreferenceCenterService.CreateURL | preferencecenter.go:43-66 | A validation error is returned with no request built. Otherwise one authorized JSON POST goes to the interpolated path, its errors propagate, and on success the URL is the body's preference_center_url. |
| PreferenceCenter.CreatedResponseYieldsURL | preferencecenter_test.go:20-21 | A 201 answer whose body carries preference_center_url "https://foo" yields that URL. |

## Findings

| source | as written | input that shows it | evidently intended | confidence | as-written member | corrected member |
|---|---|---|---|---|---|---|
| braze.go:193-198 | The body is decoded into `&e`, then `e.ErrorCode` is assigned. Decoding the JSON literal `null` into a pointer sets the pointer to nil, so the assignment dereferences nil and the client panics. | A 400 (or 401/403/404/422/429) response whose body is `null`. | An error carrying the status code, as for any other unusable body. | not executed; high | Braze.ParseErrorAsWritten | Braze.ParseError |

## Left out

- The HTTP transport: `http.Client.Do`, context cancellation and deadlines, connection handling. A call's transport outcome is the `Exchange` input. A cancelled context is one kind of `TransportFailed`.
- URL resolution (`url.ResolveReference`) and failures of `http.NewRequest`. A request's URL is the pair of base URL and path. No ID escaping is applied, as in the source.
- Braze.HttpClient.NewRequest: fails only on body encoding. An invalid method or URL cannot be represented.
- JSON encoder internals: byte layout, key sorting, HTML escaping. Also the conversion of numbers to float64 in the intermediate map, which would round integers above 2^53.
- Users.UserAttributes.MarshalJSON: returns a document, not a result with an error. No model value can fail to encode (floats and cyclic data are not modelled).
- The mutex in `UserAttributes` and all concurrency. Add, copy and encode are sequential steps. The source's MarshalJSON reads the map without taking the lock.
- Float-valued data: `Float64Attribute`, the `Float64` pointer helper and float fields of payloads.
- The pointer helpers `Bool`, `Int`, `Int64` and `String`. They add nothing beyond taking an address.
- The time formatter inside `DateAttribute`. It is a parameter of the model.
- messaging.go. It holds only payload definitions and two thin calls to `newRequest` and `do`.
- The thin endpoint wrappers `Track`, `Delete` and `Merge` in users.go. They only call `newRequest` and `do`.
- The endpoint accessors `Users`, `Messaging` and `PreferenceCenter`, and the service objects `NewClient` stores. The endpoint payload types (`UsersTrackRequest`, `UserEvent`, and others) are data definitions only.
- `userAgent`: stored, but never sent.
- Custom options are all-or-nothing. A caller-written option that changes the client and then fails is not modelled.
- Push tokens are non-nil elements. A nil element of `PushTokens` would encode as null.
- Integer fields are unbounded. Go's 64-bit `int` and `int64` are not wrapped.
- Users.Identify: the source panics rather than returning an error. The model returns a `NotImplemented` failure.
- Users.CreateAlias: the source panics rather than returning an error. The model returns a `NotImplemented` failure.
- Tests for `ExportIds` and the field-style `client.PreferenceCenter`: the code they call is not part of this model.
