# SmartBill core, modelled in Dafny

This project models the logic of the SmartBill billing application that sits
outside its WinForms screens:

- **ApiHelper** (`ApiHelper.dfy`) is the shared HTTP client helper.
  - GET, POST, PUT and DELETE each build a URL with optional query
    parameters. They then run an operation under `ExecuteWithRetryAsync`, which
    retries transient failures up to three times with exponential backoff of
    1 s, 2 s and 4 s. The operation builds the request, adds an optional bearer
    token and, for POST and PUT, a JSON body. It then sends the request,
    checks the status and deserialises the body.
  - The retry loop is a `while` method proved equal to a reference function
    `Retry`. The properties of the call follow from lemmas about `Retry`: how
    often the operation runs, which delays are waited, and which exception
    propagates.
  - The request object is a class. `AddBearerTokenIfProvided` and the body
    attachment update it in place.
  - `BuildUrlWithQueryParams` is a loop that sets one key at a time.
- **Login** (`Login.dfy`, `LoginModels.dfy`) covers `LoginAsync` and the
  records it works on.
  - `LoginAsync` validates the input and compares the password with a single
    hard-coded user. It then asks the JWT service for two tokens and builds a
    `LoginResponse`.
  - The refresh and logout operations are not implemented and always fail.
  - The records are datatypes, and each has a function giving its C# default
    value.
- **LogManager** (`LoggerManager.dfy`) is the process-wide logging facade.
  - Its static state is modelled as one object:
    - the initialise-once flag;
    - whether the current logger is open;
    - how many loggers have been built;
    - their settings;
    - the list of events handed to the logger.
  - Every logging call first makes sure a logger exists.
  - `ForceLogRollover` rebuilds the logger. `Shutdown` closes it but leaves the
    flag set.
  - `CleanupOldLogs` deletes expired log files in a counting loop.
  - `ContextualLogger` and `PerformanceTracker` build prefixed messages and
    operation names before handing them on.
- `DotNet.dfy` holds the pieces of the .NET library whose exact behaviour
  matters here:
  - nullable references;
  - `string.IsNullOrEmpty`;
  - `string.IsNullOrWhiteSpace`, with the Unicode white-space set of
    `char.IsWhiteSpace`;
  - ordinal `string.Contains`;
  - unchecked 32-bit `int` arithmetic.

How the model represents the world:

- A C# `null` is `None`.
- A thrown exception is an `Err`/`Threw` value.
- A `DateTime` is a whole number of seconds since `DateTime.MinValue`.
- The clock, the network, the JWT service, JSON (de)serialisation, query-string
  parsing and the file system are parameters:
  - plain values for the clock;
  - function values for the rest.

Behaviours of the code that the model keeps, surprising as some are:

- A successful login leaves `Success` at `false`, and the response carries no
  refresh-token expiry.
- The user name given at login is never compared. Any non-blank name with
  password "1234" logs in as "prashant".
- An HTTP error status such as 400 or 401 is retried like a broken connection,
  because `EnsureSuccessStatusCode` throws `HttpRequestException`.
- `Shutdown` does not clear the initialised flag. Logging after it goes to the
  closed logger.
- `ForceLogRollover` re-initialises with the automatic settings: the entry
  assembly name, the default directory and 40 MB. It does not keep the
  settings of the earlier `Initialize`.
- Two calls pass plain values to `LogInfo`, so C# picks the overload with a
  `context` parameter: the first value becomes the "Context" property and
  only the rest are positional. The process-id line at startup therefore leaves
  `{ProcessId}` unfilled. The cleanup summary shows keepDays as
  `{DeletedCount}` and leaves `{KeepDays}` unfilled (see Findings).

## Model

| member | source | states |
|---|---|---|
| `ApiHelper.Retryable` | Billing.Utility/Billing.Utility/Billing.Utility/ApiHelper.cs:194-201 | an HttpRequest, TaskCanceled or HttpListener exception is always retryable; so is any exception whose message contains "timeout" (case-sensitive); nothing else is |
| `ApiHelper.ShouldRetry` | Billing.Utility/Billing.Utility/Billing.Utility/ApiHelper.cs:189-202 | once 3 retries have been made nothing is retried; before that, exactly the retryable exceptions are |
| `ApiHelper.RetryDelayMs` | Billing.Utility/Billing.Utility/Billing.Utility/ApiHelper.cs:177-178 | the wait before a retry is never below the 1 s base, and the three retries wait 1000, 2000 and 4000 ms |
| `ApiHelper.CapitalTimeoutNotRetryable` | Billing.Utility/Billing.Utility/Billing.Utility/ApiHelper.cs:199 | the "timeout" match is case-sensitive: an InvalidOperation or other exception whose message is "TIMEOUT" in capitals with no lower-case 'u' anywhere around it is not retried |
| `ApiHelper.ExecuteWithRetryAsync` | Billing.Utility/Billing.Utility/Billing.Utility/ApiHelper.cs:165-184 | the retry loop produces exactly the reference trace `Retry(operation, 0)`: the operation runs 1 to 4 times, and the caller sees the outcome of the last run |
| `ApiHelper.RetryFrom` | Billing.Utility/Billing.Utility/Billing.Utility/ApiHelper.cs:165-201 | from any retry count k ≤ 3: the call stops within the retry budget, and waits 1000·2^j ms before retry j+1. The last run's outcome is returned unchanged. Every earlier run threw a retryable exception. An exception propagates before the budget runs out only if it is not retryable |
| `ApiHelper.RetryContract` | Billing.Utility/Billing.Utility/Billing.Utility/ApiHelper.cs:165-201 | a whole call runs the operation 1 to 4 times, and its delays are the prefix of [1000, 2000, 4000] ms with one delay per retry. The last outcome is returned unchanged. Earlier runs all threw retryable exceptions. A propagating exception that comes before the 4th run is non-retryable |
| `ApiHelper.DelaysIncrease` | Billing.Utility/Billing.Utility/Billing.Utility/ApiHelper.cs:177-181 | the delays strictly increase and there are at most three |
| `ApiHelper.RetryStopsAtFirstFinalRun` | Billing.Utility/Billing.Utility/Billing.Utility/ApiHelper.cs:169-183 | the call stops at the first run that returns or throws a non-retryable exception, or else at the 4th run. The whole trace is determined by that run |
| `ApiHelper.FirstSuccessReturnedUnchanged` | Billing.Utility/Billing.Utility/Billing.Utility/ApiHelper.cs:171-174 | a first run that returns gives its value unchanged, with one run and no delay |
| `ApiHelper.NonRetryablePropagatesAtOnce` | Billing.Utility/Billing.Utility/Billing.Utility/ApiHelper.cs:189-201 | an exception that is not an HttpRequest/TaskCanceled/HttpListener exception and has no "timeout" in its message propagates on its first occurrence, with no delay |
| `ApiHelper.FourthRetryableFailurePropagates` | Billing.Utility/Billing.Utility/Billing.Utility/ApiHelper.cs:191-192 | four retryable failures in a row: the 4th is thrown after waits of 1000, 2000 and 4000 ms |
| `ApiHelper.BearerHeader` | Billing.Utility/Billing.Utility/Billing.Utility/ApiHelper.cs:229-232 | a header exists exactly when the token is not null, empty or white space. Its value is "Bearer " followed by the token (section 2.1 of RFC 6750) |
| `ApiHelper.AddBearerTokenIfProvided` | Billing.Utility/Billing.Utility/Billing.Utility/ApiHelper.cs:227-233 | a non-blank token sets the Authorization header to scheme Bearer with that token. A blank or null token leaves the header as it was |
| `ApiHelper.SerializeToJson` | Billing.Utility/Billing.Utility/Billing.Utility/ApiHelper.cs:238-252 | returns the serialiser's text, or an InvalidOperationException whose message is "Failed to serialize request body to JSON: " followed by the serialiser's message |
| `ApiHelper.HttpRequestMessage.constructor` | Billing.Utility/Billing.Utility/Billing.Utility/ApiHelper.cs:74 | a new request has the given verb and URI, no Authorization header and no content |
| `ApiHelper.AttachJsonBody` | Billing.Utility/Billing.Utility/Billing.Utility/ApiHelper.cs:77-81 | a null body leaves the content unset. A non-null body becomes UTF-8 application/json content holding its JSON, or the serialisation exception is raised and the content is left unchanged |
| `ApiHelper.PrepareRequest` | Billing.Utility/Billing.Utility/Billing.Utility/ApiHelper.cs:74-81 | the request carries the verb, URI and bearer header. It has content exactly for POST/PUT with a non-null body. Building fails exactly when that body cannot be serialised |
| `ApiHelper.BuildUrlWithQueryParams` | Billing.Utility/Billing.Utility/Billing.Utility/ApiHelper.cs:207-222 | a null or empty map returns the base URL unchanged, and only then. Otherwise every parameter key holds the map's value, overriding an existing value of the same key, and other existing keys keep theirs (keys compared exactly) |
| `ApiHelper.EnsureSuccessStatusCode` | Billing.Utility/Billing.Utility/Billing.Utility/ApiHelper.cs:52 | throws exactly for statuses outside 200..299, and what it throws is a retryable HttpRequestException |
| `ApiHelper.DeserializeJson` | Billing.Utility/Billing.Utility/Billing.Utility/ApiHelper.cs:257-279 | a blank body gives "" when T is string, and otherwise an InvalidOperationException. A non-blank body returns a value exactly when the parser produced one. A null result or a JsonException becomes an InvalidOperationException, whose message names the target type (and, for a JsonException, carries the parser's message). Other exceptions pass through |
| `ApiHelper.BlankBodyAsStringIsEmpty` | Billing.Utility/Billing.Utility/Billing.Utility/ApiHelper.cs:261-264 | for T = string a blank body deserialises to "", whatever the parser would do |
| `ApiHelper.EmptyResponseNotRetryable` | Billing.Utility/Billing.Utility/Billing.Utility/ApiHelper.cs:266 | the empty-response exception is not retryable |
| `ApiHelper.RunOnce` | Billing.Utility/Billing.Utility/Billing.Utility/ApiHelper.cs:42-56 | one run throws the build or transport exception, or the status exception for a non-2xx response. Otherwise it gives the deserialised body |
| `ApiHelper.SendAsync` | Billing.Utility/Billing.Utility/Billing.Utility/ApiHelper.cs:68-93 | the request has the built URI, the verb, the bearer header, and a body exactly for POST/PUT with a non-null body; that body is the JSON content of the serialised value. Building fails exactly when serialising it fails, with the wrapped InvalidOperationException. The call is the retry trace of the operation that sends it |
| `ApiHelper.GetAsync` | Billing.Utility/Billing.Utility/Billing.Utility/ApiHelper.cs:38-57 | a GET request never fails to build and never carries a body. It has the built URI and the bearer header, and is sent under the retry loop |
| `ApiHelper.PostAsync` | Billing.Utility/Billing.Utility/Billing.Utility/ApiHelper.cs:68-93 | a POST carries a body exactly when one is given, and that body is UTF-8 application/json content holding the serialised value. Building fails exactly when it cannot be serialised, with the wrapped InvalidOperationException. The call is the retry trace |
| `ApiHelper.PutAsync` | Billing.Utility/Billing.Utility/Billing.Utility/ApiHelper.cs:104-129 | a PUT carries a body exactly when one is given, and that body is UTF-8 application/json content holding the serialised value. Building fails exactly when it cannot be serialised, with the wrapped InvalidOperationException. The call is the retry trace |
| `ApiHelper.DeleteAsync` | Billing.Utility/Billing.Utility/Billing.Utility/ApiHelper.cs:139-158 | a DELETE request never fails to build and never carries a body. It has the built URI and the bearer header, and is sent under the retry loop |
| `ApiHelper.ErrorStatusIsRetried` | Billing.Utility/Billing.Utility/Billing.Utility/ApiHelper.cs:189-196 | a server answering with error statuses is sent the request four times, with waits of 1, 2 and 4 s, and the HttpRequestException propagates |
| `ApiHelper.EmptyBodyForObjectNotRetried` | Billing.Utility/Billing.Utility/Billing.Utility/ApiHelper.cs:261-266 | an empty 2xx body for a non-string T ends the call after one send, with the InvalidOperationException |
| `ApiHelper.SerializeFailureRunCount` | Billing.Utility/Billing.Utility/Billing.Utility/ApiHelper.cs:248-251 | a body that cannot be serialised is never sent. Its exception is thrown after 1 run, or after 4 runs when its message contains "timeout" |
| `ApiHelper.SerializeTimeoutRetriedFourTimes` | Billing.Utility/Billing.Utility/Billing.Utility/ApiHelper.cs:248-251 | a serialiser failure whose message contains "timeout" is run four times with waits of 1, 2 and 4 s before the InvalidOperationException propagates |
| `Login.StoredUser` | Billing.BusinessLogic/Billing.BussinessLogic/Billing.BussinessLogic/Login.cs:36-43 | the user authenticated against has id 1, name "prashant", password "1234", role Admin and e-mail abc123@gmail.com |
| `Login.UserSummary` | Billing.BusinessLogic/Billing.BussinessLogic/Billing.BussinessLogic/Login.cs:65-70 | the summary keeps id, name and role. Every other property, password and e-mail included, stays at its default |
| `Login.LoginService.LoginAsync` | Billing.BusinessLogic/Billing.BussinessLogic/Billing.BussinessLogic/Login.cs:24-72 | a blank name or password gives InvalidInput, and any other password than "1234" gives Unauthorized, in both cases with no token call. Success holds exactly for a non-blank name with password "1234". It makes one access-token call for the stored user, then one refresh-token call. The tokens are exactly the service's results. The access expiry is now + lifetime minutes. Success, message and refresh expiry are left unset |
| `Login.LoginService.RefreshTokenAsync` | Billing.BusinessLogic/Billing.BussinessLogic/Billing.BussinessLogic/Login.cs:74-120 | always fails with NotImplemented |
| `Login.LoginService.LogoutAsync` | Billing.BusinessLogic/Billing.BussinessLogic/Billing.BussinessLogic/Login.cs:122-134 | always fails with NotImplemented |
| `Login.UserNameNeverCompared` | Billing.BusinessLogic/Billing.BussinessLogic/Billing.BussinessLogic/Login.cs:36-47 | two requests with non-blank names and the same password get identical outcomes |
| `Login.LoginSucceedsIffAccepted` | Billing.BusinessLogic/Billing.BussinessLogic/Billing.BussinessLogic/Login.cs:27-47 | login succeeds exactly for requests passing the credential test, and a success always carries both tokens, an expiry and a user |
| `Login.DefaultAccessTokenLifetime` | Billing.BusinessLogic/Billing.BussinessLogic/Billing.BussinessLogic/Login.cs:64 | with default settings the access token expires 900 seconds after login |
| `LoginModels.DefaultUser` | Billing.DataModels/Biling.DataModels/Biling.DataModels/LoginModels/LoginResponse.cs:29-45 | a new User has id 0, is inactive, has both dates at DateTime.MinValue and all its strings null |
| `LoginModels.DefaultLoginResponse` | Billing.DataModels/Biling.DataModels/Biling.DataModels/LoginModels/LoginResponse.cs:11-20 | Success is false. Message, tokens, expiries and User are null |
| `LoginModels.DefaultLoginRequest` | Billing.DataModels/Biling.DataModels/Biling.DataModels/LoginModels/LoginResponse.cs:22-27 | user name, password and login time are null |
| `LoginModels.DefaultJwtSettings` | Billing.DataModels/Biling.DataModels/Biling.DataModels/LoginModels/LoginResponse.cs:47-54 | the key, issuer and audience are empty. Access tokens live 15 minutes and refresh tokens 7 days |
| `LoginModels.DefaultRefreshRequest` | Billing.DataModels/Biling.DataModels/Biling.DataModels/LoginModels/LoginResponse.cs:56-59 | the refresh token is the empty string, not null |
| `LoginModels.UserJson` | Billing.DataModels/Biling.DataModels/Biling.DataModels/LoginModels/LoginResponse.cs:29-45 | a user is serialised to ten properties, none of them Password |
| `LoginModels.PasswordNotSerialized` | Billing.DataModels/Biling.DataModels/Biling.DataModels/LoginModels/LoginResponse.cs:34-35 | the serialised form does not depend on the password |
| `LoginModels.UserJsonKeepsOtherProperties` | Billing.DataModels/Biling.DataModels/Biling.DataModels/LoginModels/LoginResponse.cs:29-45 | users with equal JSON agree on every property but the password |
| `LoggerManager.MaxFileSizeBytes` | Billing.Utility/Billing.Utility/Billing.Utility/LoggerManager.cs:31 | the byte limit is the true product maxFileSizeMB·1048576 when that fits in an int, and otherwise that product wrapped around modulo 2^32 |
| `LoggerManager.MaxFileSizeBytesRange` | Billing.Utility/Billing.Utility/Billing.Utility/LoggerManager.cs:31 | the 32-bit size limit is exact for sizes in -2048..2047 MB, is 41943040 bytes for the default 40 MB, and wraps to int.MinValue at 2048 MB and to 0 at 4096 MB |
| `LoggerManager.StartupEvents` | Billing.Utility/Billing.Utility/Billing.Utility/LoggerManager.cs:70-74 | initialisation writes five Information events: the banner with no values, then the application, the log directory and the size in MB as the single positional value. The process id is not a positional value: it is the "Context" property, and `{ProcessId}` stays unfilled |
| `LoggerManager.IntendedProcessIdEvent` | Billing.Utility/Billing.Utility/Billing.Utility/LoggerManager.cs:74 | the process-id event as meant: the id fills `{ProcessId}` and there is no Context property |
| `LoggerManager.ProcessIdPlaceholderUnfilled` | Billing.Utility/Billing.Utility/Billing.Utility/LoggerManager.cs:74 | for every configuration and process id, the startup event leaves `{ProcessId}` unfilled and differs from the intended event |
| `LoggerManager.SecurityUser` | Billing.Utility/Billing.Utility/Billing.Utility/LoggerManager.cs:254 | the user is the given id, or "Unknown" for null |
| `LoggerManager.MethodEntryEvent` | Billing.Utility/Billing.Utility/Billing.Utility/LoggerManager.cs:180-192 | a Debug event whose values are exactly the class name, the method name and, only when given, the parameters object itself; the template gains " with parameters: {@Parameters}" exactly then |
| `LoggerManager.MethodExitEvent` | Billing.Utility/Billing.Utility/Billing.Utility/LoggerManager.cs:197-209 | a Debug event whose values are exactly the class name, the method name and, only when given, the result object itself; the template gains " with result: {@Result}" exactly then |
| `LoggerManager.PerformanceEvent` | Billing.Utility/Billing.Utility/Billing.Utility/LoggerManager.cs:214-227 | an Information event whose values are exactly the operation, the duration and, only when given, the additional data object itself; the template gains " {@AdditionalData}" exactly then |
| `LoggerManager.BusinessEvent` | Billing.Utility/Billing.Utility/Billing.Utility/LoggerManager.cs:232-243 | an Information event whose values are exactly the operation, the status and, only when given, the data object itself; the template gains " {@Data}" exactly then |
| `LoggerManager.SecurityEvent` | Billing.Utility/Billing.Utility/Billing.Utility/LoggerManager.cs:248-261 | a Warning event whose values are exactly the security event, the user ("Unknown" for null) and, only when given, the details object itself; the template gains " {@Details}" exactly then |
| `LoggerManager.Expired` | Billing.Utility/Billing.Utility/Billing.Utility/LoggerManager.cs:326-327 | the expired files are exactly the listed files created strictly before the cutoff |
| `LoggerManager.CleanupDeletesExactlyExpired` | Billing.Utility/Billing.Utility/Billing.Utility/LoggerManager.cs:321-332 | the cleanup loop deletes only expired files, in listing order. With no failing deletion it deletes exactly the expired files. Otherwise it stops at the first expired file it cannot delete, having deleted every expired file before it |
| `LoggerManager.DeleteExpired` | Billing.Utility/Billing.Utility/Billing.Utility/LoggerManager.cs:322-332 | the loop's deletions match the cleanup specification, and the count equals the number of files deleted |
| `LoggerManager.CleanupCutoff` | Billing.Utility/Billing.Utility/Billing.Utility/LoggerManager.cs:319 | the cutoff is now − keepDays days, and it exists exactly when it lies within DateTime's range |
| `LoggerManager.LogManager.constructor` | Billing.Utility/Billing.Utility/Billing.Utility/LoggerManager.cs:11 | the process starts uninitialised, with no logger and no events |
| `LoggerManager.LogManager.Initialize` | Billing.Utility/Billing.Utility/Billing.Utility/LoggerManager.cs:21-76 | afterwards the flag is set. If it was already set nothing changes. Otherwise one new open logger is built with the given name, the directory (custom or default) and the 32-bit byte limit, and the startup events are written |
| `LoggerManager.LogManager.EnsureInitialized` | Billing.Utility/Billing.Utility/Billing.Utility/LoggerManager.cs:82-90 | afterwards the flag is set. When it was unset, a logger is built with the entry assembly name (or "SmartBill"), the default directory and 40 MB |
| `LoggerManager.LogManager.Log` | Billing.Utility/Billing.Utility/Billing.Utility/LoggerManager.cs:97-98 | the shared shape of every logging call: the logger is made ready as by EnsureInitialized, then exactly the given event is appended |
| `LoggerManager.LogManager.LogInfo` | Billing.Utility/Billing.Utility/Billing.Utility/LoggerManager.cs:95-99 | the logger is made ready as by EnsureInitialized, then one Information event is appended |
| `LoggerManager.LogManager.LogWarning` | Billing.Utility/Billing.Utility/Billing.Utility/LoggerManager.cs:114-118 | the logger is made ready, then one Warning event is appended |
| `LoggerManager.LogManager.LogError` | Billing.Utility/Billing.Utility/Billing.Utility/LoggerManager.cs:133-137 | the logger is made ready, then one Error event is appended |
| `LoggerManager.LogManager.LogException` | Billing.Utility/Billing.Utility/Billing.Utility/LoggerManager.cs:142-146 | the logger is made ready, then one Error event carrying the exception is appended |
| `LoggerManager.LogManager.LogInfoWithContext` | Billing.Utility/Billing.Utility/Billing.Utility/LoggerManager.cs:104-109 | the logger is made ready, then one Information event is appended whose Context property is the context object and whose positional values are only the remaining ones |
| `LoggerManager.LogManager.LogWarningWithContext` | Billing.Utility/Billing.Utility/Billing.Utility/LoggerManager.cs:123-128 | as LogInfoWithContext, at Warning |
| `LoggerManager.LogManager.LogErrorWithContext` | Billing.Utility/Billing.Utility/Billing.Utility/LoggerManager.cs:151-156 | as LogInfoWithContext, at Error |
| `LoggerManager.LogManager.LogExceptionWithContext` | Billing.Utility/Billing.Utility/Billing.Utility/LoggerManager.cs:161-166 | as LogInfoWithContext, at Error and carrying the exception |
| `LoggerManager.LogManager.LogDebug` | Billing.Utility/Billing.Utility/Billing.Utility/LoggerManager.cs:171-175 | the logger is made ready, then one Debug event is appended |
| `LoggerManager.LogManager.LogMethodEntry` | Billing.Utility/Billing.Utility/Billing.Utility/LoggerManager.cs:180-192 | the logger is made ready, then the method-entry event is appended |
| `LoggerManager.LogManager.LogMethodExit` | Billing.Utility/Billing.Utility/Billing.Utility/LoggerManager.cs:197-209 | the logger is made ready, then the method-exit event is appended |
| `LoggerManager.LogManager.LogPerformance` | Billing.Utility/Billing.Utility/Billing.Utility/LoggerManager.cs:214-227 | the logger is made ready, then the performance event is appended |
| `LoggerManager.LogManager.LogBusinessOperation` | Billing.Utility/Billing.Utility/Billing.Utility/LoggerManager.cs:232-243 | the logger is made ready, then the business event is appended |
| `LoggerManager.LogManager.LogSecurity` | Billing.Utility/Billing.Utility/Billing.Utility/LoggerManager.cs:248-261 | the logger is made ready, then the security event is appended, with "Unknown" for a null user |
| `LoggerManager.LogManager.ForceLogRollover` | Billing.Utility/Billing.Utility/Billing.Utility/LoggerManager.cs:295-307 | the flag ends set and a new logger is open with the automatic settings. One more logger is built (two if none existed). The rollover request is logged, followed by the new logger's startup events |
| `LoggerManager.LogManager.Shutdown` | Billing.Utility/Billing.Utility/Billing.Utility/LoggerManager.cs:347-355 | the flag and settings never change. When initialised, the shutdown message is logged and the logger closed; otherwise nothing happens |
| `LoggerManager.LogManager.CleanupOldLogs` | Billing.Utility/Billing.Utility/Billing.Utility/LoggerManager.cs:312-341 | the method never fails. It deletes exactly what the cleanup loop deletes, then writes the completion event as the source binds it: the count is the Context property and keepDays the only positional value. A bad cutoff, a failed listing or a failed deletion is logged as an error instead |
| `LoggerManager.CleanupCompletedEvent` | Billing.Utility/Billing.Utility/Billing.Utility/LoggerManager.cs:334-335 | the completion event as written: `{DeletedCount}` receives keepDays, `{KeepDays}` stays unfilled, and the count is the Context property |
| `LoggerManager.IntendedCleanupCompletedEvent` | Billing.Utility/Billing.Utility/Billing.Utility/LoggerManager.cs:334-335 | the completion event as meant: `{DeletedCount}` receives the count, `{KeepDays}` receives keepDays, and there is no Context property |
| `LoggerManager.CleanupCountMisreported` | Billing.Utility/Billing.Utility/Billing.Utility/LoggerManager.cs:334-335 | whenever the count differs from keepDays the message shows the wrong count, and the written event never equals the intended one |
| `LoggerManager.LogAfterShutdown` | Billing.Utility/Billing.Utility/Billing.Utility/LoggerManager.cs:347-355 | logging after Shutdown builds no new logger: the logger stays closed and the flag stays set |
| `LoggerManager.ContextMessage` | Billing.Utility/Billing.Utility/Billing.Utility/LoggerManager.cs:420 | the text is "[", the context (empty for null), "] ", then the message, which can be read back |
| `LoggerManager.QualifiedOperation` | Billing.Utility/Billing.Utility/Billing.Utility/LoggerManager.cs:445 | the name is the context, a dot, then the operation |
| `LoggerManager.ContextMessageInjective` | Billing.Utility/Billing.Utility/Billing.Utility/LoggerManager.cs:418-441 | under one context, different messages never produce the same prefixed text |
| `LoggerManager.ContextualLogger.constructor` | Billing.Utility/Billing.Utility/Billing.Utility/LoggerManager.cs:413-416 | the logger keeps its context |
| `LoggerManager.ContextualLogger.LogInfo` | Billing.Utility/Billing.Utility/Billing.Utility/LoggerManager.cs:418-421 | logs the prefixed message at Information |
| `LoggerManager.ContextualLogger.LogWarning` | Billing.Utility/Billing.Utility/Billing.Utility/LoggerManager.cs:423-426 | logs the prefixed message at Warning |
| `LoggerManager.ContextualLogger.LogError` | Billing.Utility/Billing.Utility/Billing.Utility/LoggerManager.cs:428-431 | logs the prefixed message at Error |
| `LoggerManager.ContextualLogger.LogException` | Billing.Utility/Billing.Utility/Billing.Utility/LoggerManager.cs:433-436 | logs the prefixed message at Error with the exception |
| `LoggerManager.ContextualLogger.LogDebug` | Billing.Utility/Billing.Utility/Billing.Utility/LoggerManager.cs:438-441 | logs the prefixed message at Debug |
| `LoggerManager.ContextualLogger.LogBusinessOperation` | Billing.Utility/Billing.Utility/Billing.Utility/LoggerManager.cs:443-446 | logs the business event under "context.operation" |
| `LoggerManager.ContextualLogger.LogPerformance` | Billing.Utility/Billing.Utility/Billing.Utility/LoggerManager.cs:448-451 | logs the performance event under "context.operation" |
| `LoggerManager.TrackedOperation` | Billing.Utility/Billing.Utility/Billing.Utility/LoggerManager.cs:471 | the name is the bare operation when the context is null or empty, and "context.operation" otherwise |
| `LoggerManager.TrackerAndContextualNames` | Billing.Utility/Billing.Utility/Billing.Utility/LoggerManager.cs:445-478 | a tracker and a contextual logger give the same name for a non-empty context. For a null or empty context the tracker gives the bare operation and the contextual logger ".operation" |
| `LoggerManager.PerformanceTracker.constructor` | Billing.Utility/Billing.Utility/Billing.Utility/LoggerManager.cs:464-473 | creation logs the Debug start event under the tracked name |
| `LoggerManager.PerformanceTracker.Dispose` | Billing.Utility/Billing.Utility/Billing.Utility/LoggerManager.cs:475-480 | disposal logs the performance event under the same tracked name, with the elapsed time |

## Left out

- Sending HTTP requests, the 30-second HttpClient timeout and the User-Agent header are not modelled. The network is a function from request and run number to a response or a transport exception; a timeout is one such exception.
- The real `Task.Delay` waits are not modelled. The delays are recorded as whole milliseconds, and the floating-point `Math.Pow` and `TotalMilliseconds` are replaced by exact integers.
- The Console logging of `LogRequest`, `LogResponse` and `LogRetryAttempt` is output only and is not modelled.
- System.Text.Json serialisation and camel-case naming are not modelled. They are the `serialize` and `deserializer` parameters.
- The encoding and ordering of `UriBuilder` and `HttpUtility` query strings are not modelled. A URI with a query is the base URL with the resulting key/value map, and `parseQuery` stands for parsing the existing query. A `UriFormatException` for a malformed URL is not modelled.
- ApiHelper.RunOnce: the request is built once per call, where the source rebuilds an identical request on every run. The result is the same, because building depends only on the call's arguments.
- ApiHelper.EnsureSuccessStatusCode: the exception message is a fixed text and does not include the status code.
- ApiHelper.BuildUrlWithQueryParams: query keys are compared exactly, while the collection `HttpUtility.ParseQueryString` returns matches keys ignoring case. A parameter therefore does not replace an existing key that differs only in case, and parameters differing only in case are not merged into one; the model also has no order of keys.
- Login.LoginService.LoginAsync: the two `DateTime.UtcNow` reads are one `now` argument. DateTime overflow in `AddMinutes`/`AddDays` is not modelled.
- The token service's implementation is not part of this model; it is a pair of function values.
- Refresh-token storage, rotation and revocation exist only as commented-out code and are not modelled.
- The API controller and dependency-injection wiring are not part of this model. The WinForms UI files are not part of this model either.
- The Serilog sinks are not modelled: console and file output, rolling, retention counts, output templates and flush intervals. What is written is the list of events handed to the logger.
- The lock in `Initialize` is not modelled. The model is sequential.
- The `Thread.Sleep` in `Shutdown` is not modelled.
- `Directory.CreateDirectory` failing in `Initialize` is not modelled.
- LoggerManager.LogManager.Initialize: always ends with the flag set. The Serilog file sink is not part of this model, so a sink that rejects a negative or zero size limit (maxFileSizeMB ≤ 0, or a size that wraps, such as 2048 MB) and makes Initialize throw before the flag is set is not captured.
- `GetLogFileInfo` and its directory listing are not modelled.
- The `context` overloads keep the context object as one value. The destructuring `ForContext("Context", context, true)` applies to it is not modelled.
- `ForContext<T>` is not modelled; it is the `ContextualLogger` constructor with the type's name.
- LoggerManager.LogManager.CleanupOldLogs: the exception attached to the error event is a placeholder text, not the .NET exception message. The `*.txt` filtering of the listing belongs to the `listFiles` parameter.
- LoggerManager.LogManager.LogPerformance: the duration is whole milliseconds, where the source logs the floating-point `TotalMilliseconds`.

## Findings

| source | as written | input that shows it | evidently intended | confidence | as-written member | corrected member |
|---|---|---|---|---|---|---|
| Billing.Utility/Billing.Utility/Billing.Utility/LoggerManager.cs:334-335 | `LogInfo(template, deletedCount, keepDays)` binds to the `context` overload (two plain values, and the tie-break prefers more declared parameters). The count becomes the Context property, `{DeletedCount}` shows keepDays and `{KeepDays}` is unfilled | 3 files deleted with keepDays 30: the message reads "Deleted 30 old log files older than {KeepDays} days" | both values positional: "Deleted 3 … older than 30 days" | high (overload rules read, not executed) | `LoggerManager.CleanupCountMisreported` | `LoggerManager.IntendedCleanupCompletedEvent` |
| Billing.Utility/Billing.Utility/Billing.Utility/LoggerManager.cs:74 | `LogInfo("Process ID: {ProcessId}", pid)` binds to the `context` overload, so the pid is the Context property and `{ProcessId}` is unfilled | any process id | the pid fills `{ProcessId}` | high (overload rules read, not executed) | `LoggerManager.ProcessIdPlaceholderUnfilled` | `LoggerManager.IntendedProcessIdEvent` |

The LogManager model keeps the as-written events, because those are what the logger receives. The corrected events stand beside them with their intended properties proved.
