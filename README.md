# A model of the ST-JS end-to-end test harness

The test class `RunGeneratorTest` checks the output of the ST-JS Java-to-JavaScript
generator. It starts an embedded Jetty server, which is also its own request handler, and
has a headless browser load the server's root page. That page loads the generated scripts
in a fixed order. The test passes when the scripts raise the alert `"test log alert"`,
which counts down a `CountDownLatch` of count 1 before the test's bounded `await`.

This project models the four pieces of sequential logic in that class:

- **Artifact registry** (`Harness.RunGeneratorTest.Before`): the list of script names is
  cleared and then refilled, in order, with `stjs.js`, `a/b/c/Global2.js`, `a/b/c/DTO.js`
  and `a/b/c/Main.js`.
- **Request handling** (`Harness.RunGeneratorTest.Handle`, specified by `Routing.Respond`):
  - For the target `/`, the response gets status 200, content type `text/html` and a
    bootstrap page. The page is printed piece by piece in a loop, with one
    `<script type="text/javascript" src="NAME"></script>` element per registered name, in
    order, and names are inserted verbatim.
  - For any other target, the first character is dropped. The rest is looked up in the
    generation folder, modelled as a `map<string, string>` from relative path to file text.
    A stored file is served with 200, `application/javascript` and its text. A missing file
    gives 404, `text/html` and an empty body, and the handler returns normally.
  - In every case that returns, the request is marked handled.
  - `Bootstrap.ParsePage` reads a bootstrap page back into the names it loads. It is the
    independent partner of `Bootstrap.Page`.
- **Success signal** (`Signal`): the latch has two states, PENDING (count 1) and FIRED
  (count 0). Only the exact sentinel string counts it down, and once FIRED it stays FIRED.
  `Harness.RunGeneratorTest.Test` feeds the alerts the browser delivered, in order, to the
  alert handler. It returns the answer of `await`, modelled as "has the count reached zero".
- **Root URL** (`Url.GetUrl`): `"http://" + host + ":" + decimal(port) + path`. Its partner
  `Url.ParseUrl` reads the host, port and path back.

The servlet response is a class (`Http.Response`) with a status, a content type and a body
buffer that `Print` appends to. The server's request record is `Http.Request`, which has
only its "handled" flag. The host address and the bound port are plain inputs to `GetUrl`.
The alerts the browser raises are an input sequence to `Test`.

An empty target is a special case. Java's `"".substring(1)` throws
`StringIndexOutOfBoundsException`, which is not an `IOException`, so it is not turned into a
404. The exception leaves the handler, and neither the response nor the request is touched
(`Routing.Outcome.IndexOutOfBounds`).

## Model

| member | source | states |
|---|---|---|
| Harness.RunGeneratorTest.constructor | stjs-example/src/test/java/tests/RunGeneratorTest.java:66 | the registry list starts empty |
| Harness.RunGeneratorTest.Before | stjs-example/src/test/java/tests/RunGeneratorTest.java:81-85 | afterwards the registry is exactly the four names in the fixed order, whatever it held before |
| Harness.RunGeneratorTest.Handle | stjs-example/src/test/java/tests/RunGeneratorTest.java:159-186 | the outcome is `Respond` of the registry, the files and the target. On a returning call, the response's status and content type are the reply's, its body is the old body followed by the reply body, and the request is handled. On an empty target, response and request are unchanged |
| Harness.RunGeneratorTest.WritePage | stjs-example/src/test/java/tests/RunGeneratorTest.java:167-171 | the printing loop appends exactly the bootstrap page of the registry and leaves status and content type alone |
| Harness.RunGeneratorTest.Test | stjs-example/src/test/java/tests/RunGeneratorTest.java:129-149 | a fresh latch, the handler run over the alerts in order and the final `await` pass exactly when some alert equals `"test log alert"` |
| Harness.RegistryQuoteFree | stjs-example/src/test/java/tests/RunGeneratorTest.java:81-85 | no registered name contains a double quote |
| Harness.RootPageAfterSetUp | stjs-example/src/test/java/tests/RunGeneratorTest.java:164-171 | after set-up, the root answer is 200 and its page loads stjs.js, Global2, DTO, Main in that order, whatever files exist |
| Routing.Respond | stjs-example/src/test/java/tests/RunGeneratorTest.java:164-184 | the handler throws exactly on the empty target; every reply it returns has status 200 or 404 |
| Routing.FileKey | stjs-example/src/test/java/tests/RunGeneratorTest.java:174 | the file key is the target with its first character removed: that character followed by the key gives back the target |
| Routing.RootLoadsRegistry | stjs-example/src/test/java/tests/RunGeneratorTest.java:164-171 | for quote-free names the root reply is 200 `text/html`, and its body reads back as exactly the registry, once each, in order |
| Routing.RootIgnoresFiles | stjs-example/src/test/java/tests/RunGeneratorTest.java:164-171 | the root reply is the same for any two generation folders |
| Routing.ServesStoredFile | stjs-example/src/test/java/tests/RunGeneratorTest.java:174-179 | every stored path P other than the folder itself is served at `/P` with 200, `application/javascript` and exactly its stored text |
| Routing.MissingFileIsNotFound | stjs-example/src/test/java/tests/RunGeneratorTest.java:180-183 | every absent path P gives 404, `text/html`, an empty body and a normal return |
| Routing.NotFoundExactlyWhenMissing | stjs-example/src/test/java/tests/RunGeneratorTest.java:172-183 | a non-empty target is answered 404 if and only if it is not the root and its file key is absent |
| Bootstrap.ScriptTagVerbatim | stjs-example/src/test/java/tests/RunGeneratorTest.java:169 | a script element is `<script type="text/javascript" src="`, then the name unchanged and unescaped, then `"></script>` |
| Bootstrap.PageFraming | stjs-example/src/test/java/tests/RunGeneratorTest.java:167-171 | the root body is `<!DOCTYPE html><html><head>`, then exactly the registry's script elements, then `</head><body></body></html>` |
| Bootstrap.PageLayout | stjs-example/src/test/java/tests/RunGeneratorTest.java:168-170 | the element of the i-th name comes after the elements of all earlier names and before those of all later ones |
| Bootstrap.ScriptTagsAppend | stjs-example/src/test/java/tests/RunGeneratorTest.java:168-170 | the script elements of a concatenation of registries are the concatenation of their script elements |
| Bootstrap.ScriptTagsPrefix | stjs-example/src/test/java/tests/RunGeneratorTest.java:168-170 | each loop turn appends the element of the next name after those already printed |
| Bootstrap.ScriptTagsCons | stjs-example/src/test/java/tests/RunGeneratorTest.java:168-170 | the first name's element comes first in the printed run |
| Bootstrap.ParseTagsStep | stjs-example/src/test/java/tests/RunGeneratorTest.java:169 | a script element of a quote-free name reads back as that name, before whatever follows |
| Bootstrap.ParseTagsRoundTrip | stjs-example/src/test/java/tests/RunGeneratorTest.java:168-170 | the script elements of quote-free names read back as exactly those names, in order |
| Bootstrap.PageRoundTrip | stjs-example/src/test/java/tests/RunGeneratorTest.java:167-171 | the whole page (head, elements, tail) of quote-free names reads back as exactly those names |
| Bootstrap.VerbatimNamesForgeTags | stjs-example/src/test/java/tests/RunGeneratorTest.java:169 | because names are not escaped, a one-name registry can produce the same page as the registry ["a", "b"] |
| Signal.CountedDown | stjs-example/src/test/java/tests/RunGeneratorTest.java:140 | counting down lowers a positive count by one and leaves zero at zero |
| Signal.FiredIsFinal | stjs-example/src/test/java/tests/RunGeneratorTest.java:137-141 | once FIRED, the latch stays FIRED whatever alerts follow |
| Signal.OtherAlertsIgnored | stjs-example/src/test/java/tests/RunGeneratorTest.java:139 | alerts other than the sentinel never change the latch |
| Signal.OnAlert | stjs-example/src/test/java/tests/RunGeneratorTest.java:139-140 | the exact sentinel brings the count to zero; any other message leaves the latch as it was |
| Signal.FiresIffSentinelSeen | stjs-example/src/test/java/tests/RunGeneratorTest.java:137-141 | a fresh latch ends FIRED if and only if some alert equals the sentinel exactly |
| Signal.CountDownLatch.constructor | stjs-example/src/test/java/tests/RunGeneratorTest.java:129 | a new latch is PENDING with count 1 |
| Signal.CountDownLatch.CountDown | stjs-example/src/test/java/tests/RunGeneratorTest.java:140 | the new state is the counted-down old state |
| Signal.CountDownLatch.Await | stjs-example/src/test/java/tests/RunGeneratorTest.java:149 | the answer is true exactly when the count is zero |
| Signal.AlertHandler.constructor | stjs-example/src/test/java/tests/RunGeneratorTest.java:134-143 | the handler holds the test's latch |
| Signal.AlertHandler.HandleAlert | stjs-example/src/test/java/tests/RunGeneratorTest.java:137-141 | the latch moves by one sentinel-or-not step, and nothing else changes |
| Url.GetUrl | stjs-example/src/test/java/tests/RunGeneratorTest.java:152-157 | the URL starts with the scheme `http://` |
| Url.Digits | stjs-example/src/test/java/tests/RunGeneratorTest.java:155 | `%d` of a non-negative number is a non-empty run of ASCII digits |
| Url.DecimalFormat | stjs-example/src/test/java/tests/RunGeneratorTest.java:155 | `%d` text starts with a minus sign exactly for negative numbers, and the rest is a non-empty run of ASCII digits |
| Url.DigitsRoundTrip | stjs-example/src/test/java/tests/RunGeneratorTest.java:155 | reading the digits back gives the number |
| Url.DecimalRoundTrip | stjs-example/src/test/java/tests/RunGeneratorTest.java:155 | reading `%d` of any integer back, sign included, gives the integer |
| Url.UrlRoundTrip | stjs-example/src/test/java/tests/RunGeneratorTest.java:155-156 | for a host without a colon and a path starting with `/`, the URL reads back as exactly that host, port and path |
| Http.Response.SetStatus | stjs-example/src/test/java/tests/RunGeneratorTest.java:165 | the status becomes the given code, and the content type and body are kept (also used at lines 177 and 181) |
| Http.Response.SetContentType | stjs-example/src/test/java/tests/RunGeneratorTest.java:166 | the content type becomes the given one, and the status and body are kept (also used at lines 178 and 182) |
| Http.Response.Print | stjs-example/src/test/java/tests/RunGeneratorTest.java:167 | printing appends to the body and changes nothing else |
| Http.Request.SetHandled | stjs-example/src/test/java/tests/RunGeneratorTest.java:185 | the request's handled flag is set as asked |

## Left out

- Bootstrap.PageRoundTrip: proved only for names without a double quote. The page inserts
  names verbatim, so a quote can forge further elements (`Bootstrap.VerbatimNamesForgeTags`).
- Routing.RootLoadsRegistry: proved only for quote-free names, for the same reason.
- Url.GetUrl: models only the formatted text. The `java.net.URL` object built from it is not
  modelled, and neither is the `MalformedURLException` that its parse can throw.
- Url.UrlRoundTrip: proved only for hosts without a colon. An IPv6 host address is
  formatted without brackets. `new URL` then splits the authority at the host's first colon,
  the rest is not a number, and `getUrl` throws.
- Routing.Respond: the file key is `target[1..]` used verbatim as a map key.
  `java.io.File` path normalisation is not modelled: doubled separators, `..` escaping the
  folder, and the empty key naming the folder itself. A file-system directory is not told
  apart from a file either. Reading a directory such as `a/b/c` through its `file:` URL
  returns its listing, and the handler answers 200 `application/javascript` with that text.
  The model covers this only when the map holds the directory's path with its listing. Reading the file as UTF-8 is not
  modelled either; file text is already a string.
- Harness.RunGeneratorTest.Test: the 10-second bound and the cross-thread wake-up of
  `await` are not modelled. Its answer is the final latch state after the alerts the
  browser delivered.
- Starting and stopping the Jetty server (`before`'s `setHandler`/`start`, `after`), its
  connectors, port binding and worker threads: network I/O and lifecycle. The port is an
  input to `Url.GetUrl`.
- The HtmlUnit browser: its options, page navigation and script execution belong to an
  external engine. Only the sequence of alerts it delivers is an input.
- The ST-JS generator: its configuration, `generateJavascript`, `copyJavascriptSupport`
  and the `outputFiles` list. The list is built from the generated classes but never used.
- The `currentTimeMillis` timing of the second generation call: diagnostic only.
- The `ScriptEngineManager` lookup: it has no effect.
- `mkdirs` and `cleanDirectory` on the temporary folder, and locating the Maven base
  directory: filesystem plumbing. The generation folder is an input map.
- Logging of requests, served files, alerts and the final page.
- `InetAddress.getLocalHost`: a foreign call. The host address is an input string.
