# mcp-qbit-server in Dafny

A model of the request pipeline of mcp-qbit-server. The server is a JSON-RPC 2.0
front-end that exposes two MCP tools backed by the qBittorrent WebUI API v2.

The model covers five parts:

- **JSON-RPC dispatcher** (`JsonRpcHandler`): envelope checks, routing by method name, notifications, batches, and error codes -32600, -32601 and -32603.
- **Tool service** (`ToolService`): the `tools/call` method. It validates the call envelope, looks up the tool, validates the tool's arguments, runs the tool and normalises every outcome into a tool-level result.
- **Tool registry** (`ToolRegistry`): a mutable name-to-tool map with last-write-wins registration.
- **qBittorrent client** (`QBit`): one mutable session cookie, login, and the authenticated request that logs in on demand. On an HTTP 403 it logs in again and retries once.
- **The two tools** (`AddTorrentTool`, `GetTorrentsTool`, joined in `McpTool`): the URL-scheme check, the argument schemas, the mapping of the client's answer, and the six-field projection of torrent records.

How each file is modelled:

- `js_values.dfy` models the JavaScript values involved: parsed JSON plus `undefined`, truthiness, `??`, and `String.prototype.trim`.
- The dispatcher and the service are pure functions. A handler is a function from `params` to an outcome.
- The service gets the tools' `execute` as a function of the tool and its validated arguments. This function is the boundary to the stateful layer below.
- The client is a class with a `cookie` field. The qBittorrent server is a `Backend` object: it answers the k-th login and the k-th authenticated request from two oracle functions, and it logs the number of logins and every request sent.
- `#makeRequest` is specified by the pure function `RequestRun`. The methods' postconditions tie the result, the new cookie and the backend log to it.
- The registry is a class whose `registerTool` reassigns a `map` field.

## Model

| member | source | states |
|---|---|---|
| JsValues.Get | lib/mcp/JsonRpcHandler.js:38 | A property read gives the value stored under an own key, and `undefined` for a missing key. |
| JsValues.Coalesce | lib/mcp/JsonRpcHandler.js:41 | `id ?? null`: the left operand unless it is null or undefined, in which case the right one. |
| JsValues.TrimStart | lib/qbit/QBitClient.js:48 | The result is a suffix of the input; everything removed is white space; the result does not start with white space. |
| JsValues.TrimEnd | lib/qbit/QBitClient.js:48 | The mirror image of TrimStart: the result is a prefix, only white space is removed, and the result does not end with white space. |
| JsValues.Trim | lib/qbit/QBitClient.js:48 | A trimmed string is empty or starts and ends with a non-space character. |
| JsValues.TrimStartOfPadded | lib/qbit/QBitClient.js:48 | Trimming the start of white space followed by a string that does not start with white space leaves exactly that string. |
| JsValues.TrimEndOfPadded | lib/qbit/QBitClient.js:48 | Trimming the end of a string followed by white space, where the string does not end with white space, leaves exactly that string. |
| JsValues.TrimmedIsPadded | lib/qbit/QBitClient.js:48 | If `s.trim()` equals a core, then `s` is that core surrounded by white space. |
| JsValues.PaddedTrims | lib/qbit/QBitClient.js:145 | Conversely, white space around a core that has no white space at either end trims back to the core. |
| JsValues.TrimEqualsIffPadded | lib/qbit/QBitClient.js:145 | `s.trim() === core` holds exactly when `s` is the core padded with white space. |
| JsValues.TrimOkIffPadded | lib/qbit/QBitClient.js:48 | `s.trim() === 'Ok.'` holds exactly when `s` is "Ok." padded with white space. |
| QBit.LoginAcceptedIffTrimmedOk | lib/qbit/QBitClient.js:48-51 | A login is accepted exactly when the body is a string whose `trim()` is "Ok." and the first `set-cookie` entry exists and is truthy. |
| QBit.HasSession | lib/qbit/QBitClient.js:73 | `!this.cookie` is false exactly when a non-empty cookie is held: `null` and `""` both mean no session. |
| QBit.Forbidden | lib/qbit/QBitClient.js:86 | Only a thrown error with a server response of status 403 counts as an expired session. A successful attempt or a transport failure without a response never does. |
| QBit.CookiePrefix | lib/qbit/QBitClient.js:52 | `split(';')[0]`: the longest prefix without ';', which is the whole header or stops right before the first ';'. |
| QBit.LoginCookie | lib/qbit/QBitClient.js:48-62 | A login yields a cookie exactly when the body is a string trimming to "Ok." and the first `set-cookie` entry is non-empty. The cookie is that entry's part before the first ';'. |
| QBit.Translate | lib/qbit/QBitClient.js:98-106 | ECONNREFUSED gives the "Cannot connect…" error. ETIMEDOUT and ECONNABORTED give the "…timed out…" error. Any other error is rethrown unchanged. |
| QBit.RequestRun | lib/qbit/QBitClient.js:72-108 | At most two logins and two attempts, all for the same call. Nothing is sent exactly when there is no session and the login fails, which throws "qBittorrent login failed" with the cookie unchanged after one login. A held session is used without a login, as `SessionRun` of that cookie. Without one, a successful login is followed by exactly `SessionRun` of the new cookie, with that login counted. The cookie only ever changes to the cookie of a successful login of this run. |
| QBit.SessionRun | lib/qbit/QBitClient.js:80-107 | One or two attempts, the first with the held cookie. Without a 403 there is no login, and the outcome is the data or the translated error. A 403 causes exactly one re-login, and a second attempt happens exactly when that re-login succeeds. If that re-login fails, the call throws "qBittorrent re-login failed" and keeps the stale cookie. Otherwise it makes exactly one retry with the new cookie and passes the retry's outcome on untranslated. |
| QBit.AddAck | lib/qbit/QBitClient.js:144-145 | The answer is truthy exactly when the body is a string that trims to "Ok.", and it is then `true`. The call throws exactly when the body is truthy but not a string. |
| QBit.AddTorrentResult | lib/qbit/QBitClient.js:130-146 | `addTorrent` reports success exactly when the request returned a string body that trims to "Ok.". Errors from the request propagate unchanged. |
| QBit.Backend.constructor | lib/qbit/QBitClient.js:37-46 | The backend starts with no logins and no requests, answering from the given oracles. |
| QBit.Backend.PostLogin | lib/qbit/QBitClient.js:37-46 | A login post is counted and answered by the login oracle. |
| QBit.Backend.Send | lib/qbit/QBitClient.js:116-122 | A request is appended to the log and answered by the request oracle. |
| QBit.QBitClient.constructor | lib/qbit/QBitClient.js:18-25 | A new client holds no cookie. `apiUrl` is `baseUrl + "/api/v2"`, and `timeout` defaults to 10000. |
| QBit.QBitClient.Login | lib/qbit/QBitClient.js:31-63 | One login post. The result is true exactly under LoginCookie's condition, in which case the new cookie is stored. Otherwise the call returns false without throwing and leaves the cookie unchanged. |
| QBit.QBitClient.MakeRequest | lib/qbit/QBitClient.js:72-108 | The result, the new cookie and the requests and logins sent are exactly those of `RequestRun` from the state before the call. |
| QBit.QBitClient.SendInSession | lib/qbit/QBitClient.js:80-107 | The same, from a held cookie, against `SessionRun`. |
| QBit.QBitClient.GetTorrents | lib/qbit/QBitClient.js:115-123 | Runs `RequestRun` for `torrents/info` with only `filter` as parameter. `status` has no effect. |
| QBit.QBitClient.AddTorrent | lib/qbit/QBitClient.js:130-146 | Runs `RequestRun` for `torrents/add` with the URL, and reads the body with `AddTorrentResult`. |
| AddTorrentTool.ParseArgs | lib/mcp/tools/AddTorrentTool.js:7-14 | A `url` is accepted exactly when it is a non-empty string, it passes the URL check, and it starts with "magnet:", "http://" or "https://". The accepted value is the given string. |
| AddTorrentTool.OtherSchemesRejected | lib/mcp/tools/AddTorrentTool.js:11-14 | An `ftp://` URL is rejected whatever the URL check says. |
| AddTorrentTool.Content | lib/mcp/tools/AddTorrentTool.js:51-54 | The result object has exactly the keys `success` and `message`. `success` is the client's answer, and the message is "Torrent added successfully." exactly when that answer is truthy. |
| AddTorrentTool.ExecuteResult | lib/mcp/tools/AddTorrentTool.js:49-57 | An error from the client propagates with its message. A returned answer gives an object with exactly the keys `success` and `message`: `success` is the answer itself, and the message is "Torrent added successfully." exactly when the answer is truthy, "Failed to add torrent." otherwise. |
| AddTorrentTool.SuccessIffAcknowledged | lib/mcp/tools/AddTorrentTool.js:45-58 | The tool reports "Torrent added successfully." exactly when the backend acknowledged with "Ok." (white space allowed around it), and `success` is then `true`. |
| AddTorrentTool.Execute | lib/mcp/tools/AddTorrentTool.js:45-58 | `execute` makes one client call for exactly the given URL. Every request it sends is `torrents/add` with that URL, its completion is the mapped answer, and the client's cookie afterwards is the one the client's run leaves. |
| GetTorrentsTool.ParseArgs | lib/mcp/tools/GetTorrentsTool.js:7-10 | The arguments are valid exactly when `filter` and `status` are each absent or a string. The parsed values are the given ones. |
| GetTorrentsTool.NumericFilterRejected | lib/mcp/tools/GetTorrentsTool.js:8 | A numeric `filter` is rejected. |
| GetTorrentsTool.Project | lib/mcp/tools/GetTorrentsTool.js:47-54 | A projected record has exactly the keys name, hash, size, progress, state and eta. Each key holds the input record's value for it, or `undefined`. |
| GetTorrentsTool.ProjectAll | lib/mcp/tools/GetTorrentsTool.js:47-54 | The map succeeds exactly when no element is null or undefined. It then keeps the length and order, and each entry is the projection of the corresponding input. Otherwise the error is the TypeError of the first nullish element. |
| GetTorrentsTool.ExecuteResult | lib/mcp/tools/GetTorrentsTool.js:44-56 | A returned list comes from a backend array of the same length, element by element projected. Conversely, every array without null or undefined items is returned, projected. An array with a nullish item throws that item's TypeError from `ProjectAll`. A nullish answer throws the TypeError of reading `map`; any other non-array throws "torrents.map is not a function". Client errors propagate with their message. |
| GetTorrentsTool.Execute | lib/mcp/tools/GetTorrentsTool.js:39-57 | `execute` forwards `filter` to the client. Every request it sends is `torrents/info` with that filter, its completion is `ExecuteResult` of the client's answer, and the client's cookie afterwards is the one the client's run leaves, so a later call reuses the session. |
| McpTool.Tool.Name | lib/mcp/tools/GetTorrentsTool.js:24-26 | Each tool's `name` getter gives its own constant ("qbit/getTorrents"; "qbit/addTorrent" at lib/mcp/tools/AddTorrentTool.js:29-31), and every name starts with "qbit/". |
| McpTool.NamesIdentifyKind | lib/mcp/tools/GetTorrentsTool.js:24-26 | The two tools answer to different names ("qbit/getTorrents", "qbit/addTorrent" at lib/mcp/tools/AddTorrentTool.js:29-31). |
| McpTool.ParseArgs | lib/mcp/McpTool.js:32-34 | A tool's `inputSchema` is its own schema. Validated arguments always fit the tool that produced them. |
| McpTool.Execute | lib/mcp/McpTool.js:41-43 | `execute` on validated arguments runs that tool's own `execute`. Every request it sends is the tool's one API call, and the tool's client ends with the cookie of that call's run. |
| ToolRegistry.ToolRegistry.constructor | lib/mcp/ToolRegistry.js:9-12 | A new registry is empty, and so keeps every tool under its own name. |
| ToolRegistry.ToolRegistry.GetTool | lib/mcp/ToolRegistry.js:29-31 | The registered tool for a known name, `undefined` for a name never registered. In a valid registry the tool found has the name asked for. |
| ToolRegistry.ToolRegistry.RegisterTool | lib/mcp/ToolRegistry.js:17-21 | Afterwards `getTool(t.name)` is `t`, even if another tool was there (last write wins). Every other name keeps its entry. The registry stays valid. |
| ToolRegistry.Default | app.js:54-58 | The application's registry holds exactly the two tools, sharing one client, under their names. |
| ToolService.ParseCallParams | lib/mcp/ToolService.js:9-16 | The envelope is accepted exactly when `params` is an object whose `name` is a string and whose `arguments` is an object (not null, not an array). |
| ToolService.CallTool | lib/mcp/ToolService.js:51-100 | The cases are: (1) an invalid envelope gives "Invalid 'tools/call' parameters." with the zod issues; (2) an unknown name gives "Tool '<name>' not found." with `null`; (3) a known tool whose arguments fail its schema gives "Invalid arguments for tool '<name>'." with the zod issues; (4) the result is a success exactly when validation passed and `execute` returned, and then the content is exactly what `execute` returned; (5) a zod error from `execute` gives "Invalid arguments for tool '<name>'."; (6) any other error gives "Tool '<name>' failed.", with the message as data outside production and `null` in production. |
| ToolService.FailedMessagesDiffer | lib/mcp/ToolService.js:84-98 | The invalid-arguments and the failed message differ for every tool name. |
| ToolService.ExecuteNotReached | lib/mcp/ToolService.js:53-72 | When any check before execution fails, the result does not depend on `execute`: the tool is never run. |
| ToolService.UnknownToolNotFound | lib/mcp/ToolService.js:64-67 | A well-formed call to an unregistered name gets the not-found result, whatever its arguments. |
| ToolService.FailureMessagesIdentify | lib/mcp/ToolService.js:38-44 | The four failure messages are pairwise different, and each message naming a tool determines that name. |
| JsonRpcHandler.HandlerInput | lib/mcp/JsonRpcHandler.js:53 | The default for `params`: the handler gets `params` when it is truthy, and an empty object otherwise. |
| JsonRpcHandler.HandleSingle | lib/mcp/JsonRpcHandler.js:37-70 | Every response carries `id ?? null`. No response is given exactly for a notification whose handler returned. The checks run in order, each with its error: version ≠ "2.0" gives -32600, a non-string method gives -32600, and an unknown method gives -32601 with a message naming it (own-key lookup; as written, see HandleSingleAsWritten). The handler gets `params` or `{}`. A returned result is answered with the caller's `id`. A thrown error gives -32603 "Internal error" with the message as data outside production, also for notifications. |
| JsonRpcHandler.HandlerNotReached | lib/mcp/JsonRpcHandler.js:40-50 | A request rejected before dispatch gets the same answer whatever the handlers do. |
| JsonRpcHandler.FalsyIdsAreEchoed | lib/mcp/JsonRpcHandler.js:54-62 | An `id` of `null`, `0` or `""` still gets a result response echoing it. |
| JsonRpcHandler.UnknownMethodsReported | lib/mcp/JsonRpcHandler.js:47-50 | A method name outside the table gets -32601 (own-key lookup; as written, see HandleSingleAsWritten). |
| JsonRpcHandler.HandleEntry | lib/mcp/JsonRpcHandler.js:83-88 | A batch entry that is not an object gets its own -32600 "Batch entries must be objects." error. An object is handled as a single request. |
| JsonRpcHandler.HandleEntries | lib/mcp/JsonRpcHandler.js:83-88 | One outcome per entry, in order, each independent of the others. |
| JsonRpcHandler.Present | lib/mcp/JsonRpcHandler.js:90 | The filter keeps at most as many responses as entries, and it is empty exactly when every entry gave none. |
| JsonRpcHandler.PresentAppend | lib/mcp/JsonRpcHandler.js:90 | Filtering distributes over concatenation, so the responses keep the input order. |
| JsonRpcHandler.HandleRequest | lib/mcp/JsonRpcHandler.js:77-99 | An empty array gives one -32600 error with `id` null, whatever the handlers. A batch gives `null` exactly when no entry produced a response, and otherwise the present responses in order. A non-object body gives -32600 "Request body must be a JSON object or array.". An object is handled as a single request. |
| JsonRpcHandler.SingletonBatch | lib/mcp/JsonRpcHandler.js:83-91 | A one-entry batch answers as the single request would, wrapped in an array. |
| JsonRpcHandler.BatchExtends | lib/mcp/JsonRpcHandler.js:83-91 | Adding entries to a batch keeps the earlier entries' responses and appends the new ones. |
| JsonRpcHandler.MixedBatch | lib/mcp/JsonRpcHandler.js:77-99 | A successful request, a request for an unknown method and a successful notification give exactly two responses, in order: the result, then the -32601 error. |
| JsonRpcHandler.DispatchTable | lib/mcp/JsonRpcHandler.js:11-17 | The table has exactly the method `tools/call`, served by `CallTool`, which always returns. |
| JsonRpcHandler.PresentNoInternalError | lib/mcp/JsonRpcHandler.js:90 | Filtering introduces no response that was not there. |
| JsonRpcHandler.SingleNeverInternalError | lib/mcp/JsonRpcHandler.js:52-69 | With the application's table, the service's production flag (both layers read the same `NODE_ENV`) and the own-key lookup of the corrected handler, no single request gets -32603. The as-written lookup does give -32603 (see Findings). |
| JsonRpcHandler.NeverInternalError | lib/mcp/JsonRpcHandler.js:77-99 | With the application's table and the own-key lookup of the corrected handler, no reply, single or batch, contains a -32603 error: tool failures are results. |
| JsonRpcHandler.InheritedCall | lib/mcp/JsonRpcHandler.js:53 | Calling an inherited member without a receiver: `toString` returns "[object Undefined]", `constructor` returns its argument, `isPrototypeOf` returns false for a primitive argument and throws otherwise, and every other inherited name throws a TypeError. |
| JsonRpcHandler.HandleSingleAsWritten | lib/mcp/JsonRpcHandler.js:37-70 | With the lookup `this.dispatch[method]` as written: away from inherited names it answers exactly as `HandleSingle`. An inherited name is never reported missing: its call's value is answered as a result, or its TypeError as -32603. |
| JsonRpcHandler.InheritedNameSkipsNotFound | lib/mcp/JsonRpcHandler.js:47-53 | As written, a request for "toString" with an `id` is answered with the result "[object Undefined]". The corrected own-key lookup answers -32601 for it. |
| JsonRpcHandler.InheritedNamesInternalError | lib/mcp/JsonRpcHandler.js:47-69 | As written, the application's handler answers `valueOf`, `hasOwnProperty`, `propertyIsEnumerable`, `toLocaleString`, `__proto__` and the `__define…__`/`__lookup…__` names with -32603 "Internal error" and the TypeError message outside production. The corrected lookup answers -32601. |

## Left out

- HTTP and axios are not modelled. This covers URLs, headers, form and query encoding and the request timeout. The qBittorrent server is an oracle that answers each login and each request, and the client only records the timeout value.
- The username and password are stored but are not recorded in the login log.
- zod internals are not modelled. The `.url()` check is a parameter `isUrl`, and `error.format()` data is opaque (`Issues`).
- Logging (`console.*`) is not modelled.
- Async execution and `Promise.all` are not modelled: a batch is handled entry by entry in order.
- Concurrent callers racing on `cookie` are not modelled. The code does no login serialisation.
- The handlers of a batch are pure functions of `params`. State carried from one batch entry to the next through the qBittorrent session is not modelled.
- The service's `execute` function stands for the tools' `execute` methods (`McpTool.Execute`). The composition of the pure service with the stateful tools is not proved as one method.
- `McpTool` is a closed datatype of the two tools rather than an abstract class. The runtime "must be implemented" guards and the `description` getters have no counterpart.
- JSON numbers are reals. NaN and infinities do not occur.
- Inherited `Object.prototype` names are not modelled on parsed objects: a property read sees own keys only. The one place where this matters is the dispatch lookup. It is modelled in `HandleSingleAsWritten` and recorded under Findings.
- InheritedCall: the TypeError message an inherited member throws is the parameter `typeError`, because its text depends on the JavaScript engine.
- Notifications deviate from section 4.1 of the JSON-RPC 2.0 specification, which says a server never replies to a notification. The model follows the code, which replies with an error when a notification fails the version, method or lookup check, or when its handler throws. Only a notification whose handler returns gets no reply.
- `app.js` is not part of this model, except for the tool registrations that `ToolRegistry.Default` follows. That leaves out Express wiring, security headers, the body-size limit, the 204 for a `null` reply and -32700 for parse errors.
- `config.js` and `server.js` are not part of this model.
- A body such as " Ok.\n" counts as an acknowledgement, because the code trims the body before comparing it with "Ok.". The model follows the code here rather than an exact-literal reading.

## Findings

| source | as written | input that shows it | evidently intended | confidence | as-written member | corrected member |
|---|---|---|---|---|---|---|
| lib/mcp/JsonRpcHandler.js:47-50 | `this.dispatch[method]` reads a property of an object literal, so names inherited from `Object.prototype` pass the `!handlerMethod` check and are called. | `{"jsonrpc":"2.0","id":1,"method":"toString"}` is answered with the result "[object Undefined]" instead of -32601. `{"jsonrpc":"2.0","id":1,"method":"valueOf"}` (likewise `hasOwnProperty`, `isPrototypeOf` with object params, `__proto__`) gets -32603, an error the own-key table never produces. | Only the table's own keys are methods; every other name gets -32601. | not executed | JsonRpcHandler.HandleSingleAsWritten | JsonRpcHandler.HandleSingle |
