# awscurl request-setup model

A Dafny model of the decision logic of `awscurl`, a command-line HTTP
client that signs requests with AWS Signature Version 4. It covers the
parser for `-H "<name>: <value>"` arguments (`lexical_cast` in
`HeaderValue.h`) and the choices `main` in `awscurl.cpp` makes before it
signs: the request method, the credentials profile and role to assume, the
signing region, the assume-role gate, the header calls, the request body
and its Content-Length.

Modules:

- `Wrappers` (`wrappers.dfy`): `Option` and `Result`.
- `Headers` (`headers.dfy`): the `Header` pair, `input.find(": ")` and `lexical_cast`.
- `HttpMethods` (`http_methods.dfy`): the six-entry method table matched ignoring case, and the default method.
- `Credentials` (`credentials.dfy`): profile lookup with the one-level `source_profile`/`role_arn` indirection, region fallback, and the assume-role gate.
- `RequestBody` (`request_body.dfy`): literal or `@file` bodies, text mode as the `getline` loop, and the decimal Content-Length.
- `Awscurl` (`awscurl.dfy`): `Run`, the steps of `main` in program order, ending in an exit status or in the request and signer that would be sent.

The SDK's objects are inputs of `Run` (the `Env` datatype):

- The shared config file is `Option<map<string, ProfileRecord>>`. `None` stands for a failed `Load()`.
- The region a `ClientConfiguration` reads is a function of the client config.
- The STS `AssumeRole` call is a function from the call to a `Result`.
- Opening a file is a function from its name to its contents and whether its stream can seek, or `None` when it does not open.

A character of a `string` stands for one byte of the C++ `std::string`.

Where the program's own comments or help strings and its code differ, the model follows the code:

- Text mode drops only `'\n'`. The comment at `awscurl.cpp:208-209` quotes curl's "carriage returns, newlines and null bytes are stripped out", but the loop only uses `std::getline`. A CRLF file therefore keeps its `'\r'` (`RequestBody.CarriageReturnKept`: 13 bytes give 11, namely `line1\rline2`).
- The help strings for `--insecure` and `--region` (`awscurl.cpp:64`, `awscurl.cpp:67`) read as if they governed every connection. The token service is in fact called with the named profile's client configuration, not with `--region`, and `--insecure` is applied only after that call (`awscurl.cpp:150`, `awscurl.cpp:183-186`).

## Model

| member | source | states |
|---|---|---|
| Headers.FindSeparator | HeaderValue.h:21 | the result is `None` exactly when the input has no `": "`; otherwise it is an index where `": "` starts, and no earlier index starts one |
| Headers.LexicalCast | HeaderValue.h:15-29 | parsing succeeds iff the input contains `": "` and does not start with it; on failure the given pair is returned untouched; on success the name is non-empty, holds no `": "`, and `name + ": " + value` rebuilds the input |
| Headers.FormatThenParse | HeaderValue.h:21-28 | for any non-empty name without `": "` and any value, parsing `name + ": " + value` succeeds with exactly that pair, whatever pair it starts from |
| Headers.ValueMayContainSeparator | HeaderValue.h:27 | `"a: b: c"` parses to name `a` and value `b: c`: only the first separator splits |
| Headers.RejectedArguments | HeaderValue.h:22-25 | `": v"` (empty name) and `"Accept:text/plain"` (no separator) fail and leave the pair unchanged |
| HttpMethods.Lookup | awscurl.cpp:56-57 | a found method belongs to an entry whose name matches the argument ignoring case; `None` means no entry matches |
| HttpMethods.MethodTableShape | awscurl.cpp:33-41 | the table has exactly six entries, each method appears once, and the names stay distinct after lower-casing |
| HttpMethods.LowerNames | awscurl.cpp:35-40 | the table names lower-case to get, post, delete, put, head, patch |
| HttpMethods.ParseMethod | awscurl.cpp:56-57 | `-X s` yields method `m` iff the table maps a name equal to `s` ignoring case to `m` |
| HttpMethods.ParseMethodNames | awscurl.cpp:33-41 | every table name, as written or lower-cased, parses to its own method |
| HttpMethods.UnknownMethodRejected | awscurl.cpp:56-57 | `OPTIONS` is not accepted |
| HttpMethods.ParseMethodIgnoresCase | awscurl.cpp:57 | arguments equal up to case parse to the same result |
| HttpMethods.DefaultMethod | awscurl.cpp:81-86 | an explicit method is kept; without one the method is POST iff data was given and GET iff not |
| Credentials.ResolveProfile | awscurl.cpp:104-131 | an empty profile gives the default chain and default client config; a non-empty profile always gives its own client config; a role is scheduled iff the loaded config holds the profile with non-empty `source_profile` and `role_arn`, and then credentials come from the source profile; otherwise from the named profile; a profile-file provider never has an empty name |
| Credentials.OneLevelIndirection | awscurl.cpp:113-130 | the result depends only on the named profile's own record, so the source profile's record (even one naming a role) is never followed |
| Credentials.UnloadedConfigIsMissingProfile | awscurl.cpp:116 | a config file that fails to load behaves like one without the profile |
| Credentials.ResolveRegion | awscurl.cpp:137-140 | a non-empty `--region` is kept; an empty one is replaced by the client config's region |
| Credentials.StsCallFor | awscurl.cpp:144-150 | the assume-role request asks for session `awscurl`, 900 seconds and the plan's role ARN, and the STS client uses the plan's provider and client config |
| Credentials.AssumeRoleGate | awscurl.cpp:142-167 | with no role the provider is kept and no STS call happens; with a role, an STS failure passes its message on, and success replaces the provider by one built from the returned key, secret and token only |
| RequestBody.StripNewlinesLength | awscurl.cpp:205-222 | stripping newlines shortens the text by exactly its `'\n'` count |
| RequestBody.StripNewlinesHasNone | awscurl.cpp:210-214 | the text-mode body holds no `'\n'` |
| RequestBody.LineEnd | awscurl.cpp:211 | one `getline` reads from its position up to, not including, the next `'\n'` or the end of input |
| RequestBody.ReadLines | awscurl.cpp:210-214 | the `getline` loop's concatenated lines equal the file with every `'\n'` removed |
| RequestBody.CarriageReturnKept | awscurl.cpp:208-214 | `"line1\r\nline2\n"` reads as the 11 bytes `line1\rline2` in text mode |
| RequestBody.ResolveBody | awscurl.cpp:188-222 | data not starting with `@` is the body verbatim with its own length; `@name` names a file, and a file that does not open is an error naming it; in binary mode the body is the file and its reported length is the file length, or -1 when the file cannot seek; in text mode the body is the file without its newlines and its length is the file length less the newline count |
| RequestBody.StreamLengthIsBodyLength | awscurl.cpp:201-222 | the reported length equals the body's length exactly when the body is not a binary file that cannot seek, and is -1 otherwise |
| RequestBody.TextModeLength | awscurl.cpp:205-222 | in text mode the body length is the file length less its `'\n'` count |
| RequestBody.Decimal | awscurl.cpp:226-228 | the Content-Length text is digits only, non-empty, and without a leading zero unless it is `0` |
| RequestBody.DecimalRoundTrip | awscurl.cpp:221-228 | reading the written Content-Length back gives the body length |
| RequestBody.LengthText | awscurl.cpp:226-228 | the Content-Length text for a non-negative length is non-empty digits reading back as the length, with no leading zero, and exactly `0` for 0; for a negative one it is `-` followed by such digits reading back as its magnitude |
| Awscurl.Run | awscurl.cpp:81-228 | the program exits, with status 1, exactly when the assume-role gate fails or the body file does not open, with the STS message in the first case, which is checked first, and the file name in the second; otherwise the request carries the method (explicit, else POST iff data and GET iff none), every header in order, and, exactly when data was given, the resolved body with its reported length as Content-Length; it is signed with the gate's provider for the given service and resolved region; without a configured role the gate passes with the default chain or the named profile |
| Awscurl.RoleFailureExits | awscurl.cpp:142-158 | a role-assuming profile calls STS for session `awscurl`, 900 seconds, the profile's role ARN, signed by the source profile under the named profile's client config; a failure exits 1 with the service's message before the body is read |
| Awscurl.SignsWithAssumedCredentials | awscurl.cpp:160-173 | after a successful assume-role, and a body that resolves, the request is sent and signed with exactly the returned access key, secret key and session token, never with a profile-file provider |
| Awscurl.RegionFromNamedProfile | awscurl.cpp:111-140 | without `--region`, once the gate passes and the body resolves, the request is sent with the named profile's client-config region, even when credentials come from the source profile, and with the default client config's region without a profile |
| Awscurl.FileBodyLength | awscurl.cpp:188-228 | for `@file` that opens, once the gate passes, the request is sent with the file (binary) or the file without newlines (text) as body, and Content-Length is exactly the decimal text of the resolved length (a binary file must be able to seek), not the on-disk size in text mode |
| Awscurl.UnseekableBinaryLength | awscurl.cpp:201-222 | a binary body file that opens but cannot seek is sent with its bytes and Content-Length `-1` |
| Awscurl.MissingFileExits | awscurl.cpp:191-199 | once the assume-role gate passes (or no role is configured), a body file that does not open exits 1 naming the file |
| Awscurl.LiteralDataIsPosted | awscurl.cpp:81-86 | once the gate passes, literal data with no `-X` is sent as a POST of the data verbatim, with Content-Length exactly the decimal text of its length |
| Awscurl.NoDataIsGet | awscurl.cpp:81-86 | with no data and no `-X`, once the gate passes (with or without an assumed role), the request is sent as GET without body or Content-Length |

## Left out

- `FixupUrl` (`awscurl.cpp:262-275`): it only re-encodes query parameters through the SDK's `URI` class, which is not part of this model. `Run` passes the URL through unchanged.
- Signature Version 4 signing (`awscurl.cpp:234`): the SDK's `AWSAuthV4Signer` is not part of this model. `Run` stops at the request and the signer that would sign it.
- The HTTP client, sending the request and printing the response (`awscurl.cpp:241-255`): network I/O and output only.
- `InitAPI`/`ShutdownAPI`: library lifecycle only.
- CLI11 option parsing: `Inputs` holds the already parsed values. How `-H` combines with the default `Accept`/`Content-Type` vector (`awscurl.cpp:46`) is the library's choice, so the model takes the final header vector as input. The exit code of a parse error, and any acceptance of a method's enum value instead of its name, are the library's too.
- Duplicate header names: what `SetHeaderValue` does with them is SDK behaviour. The model records the calls in order.
- Empty `-d ""`: reading the first character of an empty string is undefined behaviour, so `Run` and `ResolveBody` require non-empty data.
- Which files can seek: `OpenedFile.seekable` is an input; the model does not decide it from the file's kind.
- The end position of a seekable file: the model assumes that where `seekp(0, std::ios::end)`/`tellp()` lands (`awscurl.cpp:221-222`) equals the number of bytes in the file. A file that changes size after the seek is not modelled.
- Platform text-mode translation of `"\r\n"` when opening the file: the model removes only `'\n'`.
- `VERBOSE_LOGGING` output, and the exact diagnostic text on standard error beyond the modelled message.
- `pch.h`: includes only.
