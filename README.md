# yukari-engine control server, modelled in Dafny

yukari-engine is a small local HTTP server behind a desktop-style front end.
It does three things. At start-up it picks a loopback port. It stores an
OpenAI API key in the process environment and in a `.env` file. It serves
the front end's static files from one of two directories. This project
models the decision logic of those three jobs. The operating system is
replaced by parameters, and the model proves what each job guarantees.

- `http.dfy`, module `Http`: the response value. It holds a status, a body
  (empty, text or file bytes) and whether the header
  `Access-Control-Allow-Origin: *` is present. It also defines `Option` and
  `byte`.
- `port_scan.dfy`, module `PortScan`: the port loop in `main`. The method
  `ChoosePort` keeps the source's loop. `occupied(p)` says whether binding
  `127.0.0.1:p` fails. The method returns the chosen port and the lines the
  loop prints. `FirstFree` is the reference definition it is proved against.
- `key_store.dfy`, module `KeyStore`: the class `ApiKeyStore`. Its two fields
  are the environment variable `OPENAI_API_KEY` and the `.env` file contents.
  Its methods are `write_api_key_to_env`, `set_apikey` and `get_apikey`. The
  file write's outcome is a `FileFault` parameter with three cases. The open
  fails and the file is untouched. The write fails after part of the line
  reached the truncated file. Or the write succeeds. `AfterSet` and
  `ApplySets` are the same state changes as values, so lemmas can reason about
  sequences of requests.
- `handlers.dfy`, module `Handlers`: `get_version` and `get_file` as pure
  functions. `primaryExists` stands for `fs::metadata` on the packaged-build
  directory. A map from path to bytes stands for what `fs::read` can read.

Three behaviours of the code are easy to miss:
- Only the 200 responses of `get_apikey`, `set_apikey` and `get_version`
  carry the CORS header. The 404 of `get_apikey` has none. No response of
  `get_file` has one, not even its 200 or 204.
- `get_file` does not strip a query component.
- A failed `.env` write is ignored. `set_apikey` still answers 200 with its
  usual body.

## Model

| member | source | states |
|---|---|---|
| PortScan.ChoosePort | src/main.rs:82-102 | The scan ends on a port in [50027, 50050]. Every port below it was occupied. The chosen port is free unless it is 50050. It equals the reference `FirstFree`. The log has one line per probed port, in increasing order, each port once. The last line says "starting" exactly when that port bound. |
| PortScan.FirstFreeIsFirst | src/main.rs:86-101 | For any occupancy, the reference port lies in range. All ports before it are occupied. It is free or it is 50050. |
| PortScan.FirstFreeUnique | src/main.rs:86-101 | Any port in range that is the first free one, or 50050 when all before it are taken, is the reference port. So the scan's result is determined. |
| PortScan.AllOccupiedGivesLastPort | src/main.rs:94-98 | With every port in range occupied, the scan still ends, on 50050. |
| Handlers.GetVersion | src/main.rs:47-50 | Always 200, body "yukari-engine: 0.1.0", with the CORS header. |
| Handlers.ResolvePath | src/main.rs:62-65 | The path read is the filename under "../yukari/build/yukari-ui/" when that directory exists, else under "../yukari-ui/". |
| Handlers.ResolvedPathsDiffer | src/main.rs:62-65 | The two roots give different paths for the same filename. |
| Handlers.GetFile | src/main.rs:53-76 | A filename starting with "api/" gives 204 with an empty body. Otherwise the result is 200 exactly when the resolved path is readable, with exactly its bytes. If not, it is 404 "File not found". No CORS header in any case. |
| Handlers.ApiPrefixIgnoresFilesystem | src/main.rs:57-60 | For an "api/" filename, the response does not depend on the root check or on any file. It is always 204 with an empty body. |
| Handlers.OnlyResolvedPathMatters | src/main.rs:66-75 | For any other filename, only the one resolved path's contents affect the response. |
| Handlers.OtherRootIgnored | src/main.rs:62-75 | As path text, a file under the root not chosen never changes the response (filenames with `..` segments excepted, see Left out). A file missing from the chosen root is a 404 even when the other root has it. |
| Handlers.IndexFromChosenRoot | src/main.rs:62-69 | `index.html` is served from the packaged build when it exists, and from the UI source tree otherwise. |
| KeyStore.EnvLineRoundTrip | src/main.rs:26 | Reading the written line back gives exactly the key it was written with. |
| KeyStore.EnvLineInjective | src/main.rs:26 | Different keys never write the same line. |
| KeyStore.WrittenFile | src/main.rs:16-28 | A successful write leaves exactly `OPENAI_API_KEY=<key>\n`, whatever was there before. A failed open leaves the file as it was. A failed write leaves a strict prefix of that line. |
| KeyStore.AfterSet | src/main.rs:30-36 | A set always puts the request's key in the environment, whatever the file write did. The file changes as `WrittenFile` says. |
| KeyStore.SetApiKeyResponse | src/main.rs:35 | The set response is 200 "API key set successfully" with the CORS header. |
| KeyStore.ApiKeyResponse | src/main.rs:41-44 | The response is 200 exactly when the key is present, with the value as body and the CORS header. Otherwise it is 404 "API key not found" without the header. |
| KeyStore.SetThenGet | src/main.rs:33-43 | After any set, a get answers 200 with exactly that key and the CORS header. |
| KeyStore.SuccessfulSetTruncates | src/main.rs:19-26 | After a successful set, the file contents do not depend on the previous state. The file's line carries the same key as the environment. |
| KeyStore.LastSetWins | src/main.rs:30-36 | After any non-empty sequence of sets, the environment holds the last key. The file holds that key's line when the last write succeeded. |
| KeyStore.FailedOpensKeepFile | src/main.rs:19-23 | Sets whose file open fails never change the file. |
| KeyStore.ApiKeyStore.constructor | src/main.rs:80 | The store starts from whatever environment value and file the process starts with. |
| KeyStore.ApiKeyStore.WriteApiKeyToEnv | src/main.rs:16-28 | Returns success exactly when there is no fault. The file becomes `WrittenFile` of its old contents. The environment is untouched. |
| KeyStore.ApiKeyStore.SetApiKey | src/main.rs:30-36 | The new state is `AfterSet` of the old one. The key is always set. The response is the fixed 200 with CORS. |
| KeyStore.ApiKeyStore.GetApiKey | src/main.rs:38-45 | The response is `ApiKeyResponse` of the current environment value. It is 200 with that value exactly when one is present. |
| KeyStore.SetThenGetOnStore | src/main.rs:30-45 | On a store with no key, a get answers 404. After setting "secret123", a get answers 200 "secret123", whether or not the file write failed. |

## Left out

- Route registration, the async runtime and `HttpServer::new(...).bind(...).run()` (src/main.rs:78-79, 104-113) are framework plumbing. Which handler a request reaches is decided inside actix-web, so `get_file` is modelled on the filename it receives.
- The rebind of the chosen port (src/main.rs:111) is not modelled. It can fail, or lose a race with another process after the probe listener is dropped. Both depend on the operating system. Only the loop's result is modelled.
- The port's text address `127.0.0.1:<port>` and the OS error text in the log lines are not modelled. A log line carries only the port number.
- `dotenv()` (src/main.rs:80) is a library whose parsing is not visible here. The store's constructor takes the start-up state as given, and no reload round trip through it is claimed. `LineKey` reads back only the exact line shape written, not a dotenv parser.
- Deserialisation of `SetApiKeyRequest` (src/main.rs:10-13, 31) is done by actix-web and serde before the handler runs. The model takes the key as a given string.
- The environment is shared by all worker threads, and concurrent requests are not modelled. The variable is a single field.
- KeyStore.ApiKeyStore.SetApiKey: does not model that `env::set_var` panics on a value that contains a NUL character. That behaviour belongs to the Rust standard library, not to this code. On such a key the program rewrites the file, keeps the old environment value and sends no 200 response.
- KeyStore.AfterSet: the same NUL-character panic is not modelled, so its promise that the key always reaches the environment holds only for keys without a NUL character. The same applies to KeyStore.LastSetWins and KeyStore.SetThenGet.
- KeyStore.WrittenFile: a partial write is cut at a character, not at a byte inside a multi-byte character. File contents are modelled as text.
- Handlers.OtherRootIgnored: holds only for filenames without `..` segments. The program appends the filename unchecked, so a `..` path such as `../../../yukari-ui/index.html` under the packaged root reaches a file under the other root, and the program serves whatever file a `..` path reaches.
- Handlers.GetFile: paths are map keys, compared as text. The operating system's path resolution (`..` segments, symbolic links, directories) is not modelled. `primaryExists` stands for any entry at the packaged-build path, because `fs::metadata` succeeds for files as well as directories.
- Text bodies are kept as text and file bodies as bytes. Their UTF-8 encoding on the wire is not modelled.
