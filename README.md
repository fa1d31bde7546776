# Bookstore SE bootstrap, modelled in Dafny

This project models the start-up logic of Helidon's bookstore SE test
application (`Main.java`). Start-up makes three decisions, and the model
proves what each one promises:

- **JSON library.** The `app.json-library` setting picks one of `JSONP`, `JSONB`
  or `JACKSON`. A missing node gives `JSONP`. A present value is upper-cased
  and looked up by exact constant name. A value that names no constant is an
  error; it never falls back to the default.
- **Routing.** The routing table is an ordered sequence of bindings: the
  codec for the chosen library, then health, then metrics, then the book
  service under `/books`.
- **Transport.** The `ssl` and `http2` flags decide, each on its own, whether
  an SSL context (keystore `certificate.p12`, passphrase `helidon`) is
  attached and whether HTTP/2 is enabled. `startServer()` is
  `startServer(false, false)`.

The model also covers the URL announced when the server comes up.

Modules, one per concern of `Main.java`:

- `JsonLibraries` (`json_library.dfy`): the enum, ASCII upper-casing, `Enum.valueOf` and `getJsonLibrary`.
- `Routes` (`routing.dfy`): the handlers, a `RoutingBuilder` class that appends registrations, and the `CreateRouting` method, proved against the `StandardRouting` function.
- `Bootstrap` (`bootstrap.dfy`): a `ServerConfigurationBuilder` class, and the `StartServer` and `StartServerDefault` methods, proved against the `StartUp` function. Also the banner URL and a parser that reads it back.
- `Numerals` (`decimal.dfy`): the decimal spelling of the port, and reading it back.
- `Wrappers` (`wrappers.dfy`): `Option` and `Result`.

The inputs that the real program gets from I/O are parameters here:
- The loaded configuration is an `AppConfig`: the settings of the `server` node, plus what a lookup sees at `app.json-library`.
- The port the running server reports is a `nat`.

A node at `app.json-library` is `Missing` or `Present(v)`. In `Present(None)` the node exists but has no string value. For that case the model takes Helidon's `asString().get()` to throw a missing-value error.

Two facts about the code that the model keeps:
- The keystore passphrase is the literal `helidon` (line 100), not a configuration value.
- Nothing checks the order of the routing registrations at run time. The order is simply the order of the `register` calls (lines 141-155).

## Model

| member | source | states |
|---|---|---|
| JsonLibraries.Name | tests/apps/bookstore/bookstore-se/src/main/java/io/helidon/tests/apps/bookstore/se/Main.java:45-49 | every constant's name is non-empty and all upper-case letters, so upper-casing it is the identity |
| JsonLibraries.ToUpper | tests/apps/bookstore/bookstore-se/src/main/java/io/helidon/tests/apps/bookstore/se/Main.java:162 | `toUpperCase` (ASCII): same length, each character upper-cased on its own |
| JsonLibraries.ValueOf | tests/apps/bookstore/bookstore-se/src/main/java/io/helidon/tests/apps/bookstore/se/Main.java:162 | `Enum.valueOf` succeeds exactly when some constant has exactly that name, returns that constant, and otherwise fails with a no-such-constant error carrying the name |
| JsonLibraries.GetJsonLibrary | tests/apps/bookstore/bookstore-se/src/main/java/io/helidon/tests/apps/bookstore/se/Main.java:159-163 | a missing node gives JSONP; a node without a value is a missing-value error; a success from a present value means the upper-cased value is that constant's name |
| JsonLibraries.ValueOfName | tests/apps/bookstore/bookstore-se/src/main/java/io/helidon/tests/apps/bookstore/se/Main.java:45-49 | looking a constant up by its own name gives it back (round trip of name and valueOf) |
| JsonLibraries.ResolveIgnoresCase | tests/apps/bookstore/bookstore-se/src/main/java/io/helidon/tests/apps/bookstore/se/Main.java:161-162 | a present value selects a library if and only if it equals that library's name ignoring ASCII case |
| JsonLibraries.ResolveRejectsUnknown | tests/apps/bookstore/bookstore-se/src/main/java/io/helidon/tests/apps/bookstore/se/Main.java:162 | a present value fails if and only if it matches no name ignoring case, and the error carries the upper-cased value |
| JsonLibraries.PresentValueNeverDefaults | tests/apps/bookstore/bookstore-se/src/main/java/io/helidon/tests/apps/bookstore/se/Main.java:161-162 | a present value that does not spell "jsonp" never yields the default JSONP |
| JsonLibraries.JacksonInAnyCase | tests/apps/bookstore/bookstore-se/src/main/java/io/helidon/tests/apps/bookstore/se/Main.java:162 | "jackson", "Jackson" and "JACKSON" all select JACKSON |
| JsonLibraries.XmlIsRejected | tests/apps/bookstore/bookstore-se/src/main/java/io/helidon/tests/apps/bookstore/se/Main.java:162 | "xml" is an error naming "XML", not a fallback |
| Routes.CodecFor | tests/apps/bookstore/bookstore-se/src/main/java/io/helidon/tests/apps/bookstore/se/Main.java:139-151 | the switch registers a media support, and it is the one that serves the chosen library |
| Routes.StandardRouting | tests/apps/bookstore/bookstore-se/src/main/java/io/helidon/tests/apps/bookstore/se/Main.java:138-156 | four bindings: only the first is a codec and it serves the library; then health, metrics, book service; only the book service is path-scoped, under "/books" |
| Routes.StandardRoutingHasOneCodec | tests/apps/bookstore/bookstore-se/src/main/java/io/helidon/tests/apps/bookstore/se/Main.java:139-151 | the routing holds exactly one codec registration |
| Routes.RoutingDiffersOnlyInCodec | tests/apps/bookstore/bookstore-se/src/main/java/io/helidon/tests/apps/bookstore/se/Main.java:153-156 | the registrations after the codec are the same for every library, and different libraries give different routings |
| Routes.RoutingBuilder.constructor | tests/apps/bookstore/bookstore-se/src/main/java/io/helidon/tests/apps/bookstore/se/Main.java:138 | a new builder holds no registrations |
| Routes.RoutingBuilder.Register | tests/apps/bookstore/bookstore-se/src/main/java/io/helidon/tests/apps/bookstore/se/Main.java:153-154 | `register(service)` appends one global binding and changes nothing else |
| Routes.RoutingBuilder.RegisterAt | tests/apps/bookstore/bookstore-se/src/main/java/io/helidon/tests/apps/bookstore/se/Main.java:155 | `register(path, service)` appends one binding scoped under the path |
| Routes.CreateRouting | tests/apps/bookstore/bookstore-se/src/main/java/io/helidon/tests/apps/bookstore/se/Main.java:131-157 | the builder calls produce exactly the standard routing for the resolved library, and abort with the resolution error when the library cannot be resolved |
| Bootstrap.ServerConfigurationBuilder.constructor | tests/apps/bookstore/bookstore-se/src/main/java/io/helidon/tests/apps/bookstore/se/Main.java:94 | the builder starts from the `server` settings, without SSL and without HTTP/2 |
| Bootstrap.ServerConfigurationBuilder.Ssl | tests/apps/bookstore/bookstore-se/src/main/java/io/helidon/tests/apps/bookstore/se/Main.java:96-102 | attaches the SSL context and leaves the other settings alone |
| Bootstrap.ServerConfigurationBuilder.Experimental | tests/apps/bookstore/bookstore-se/src/main/java/io/helidon/tests/apps/bookstore/se/Main.java:105-107 | sets the HTTP/2 switch and leaves the other settings alone |
| Bootstrap.ServerConfigurationBuilder.Build | tests/apps/bookstore/bookstore-se/src/main/java/io/helidon/tests/apps/bookstore/se/Main.java:110 | `configBuilder.build()` yields a configuration carrying exactly the builder's settings |
| Bootstrap.TransportOptions | tests/apps/bookstore/bookstore-se/src/main/java/io/helidon/tests/apps/bookstore/se/Main.java:94-108 | an SSL context is present if and only if `ssl`, and is built from "certificate.p12" and "helidon"; HTTP/2 is on if and only if `http2`; the `server` settings are kept |
| Bootstrap.TransportFlagsDistinct | tests/apps/bookstore/bookstore-se/src/main/java/io/helidon/tests/apps/bookstore/se/Main.java:95-108 | two flag pairs give the same configuration if and only if they are equal, so the four combinations are distinct |
| Bootstrap.BuildServerConfiguration | tests/apps/bookstore/bookstore-se/src/main/java/io/helidon/tests/apps/bookstore/se/Main.java:93-108 | the conditional builder steps produce exactly the transport options of the flags |
| Bootstrap.StartUp | tests/apps/bookstore/bookstore-se/src/main/java/io/helidon/tests/apps/bookstore/se/Main.java:85-123 | start-up gives a server if and only if the library resolves, and otherwise that resolution error; the server's configuration is exactly the transport options of the flags (TLS from "certificate.p12"/"helidon" if and only if `ssl`, HTTP/2 if and only if `http2`, `server` settings kept) and its routing is exactly the standard routing for the library, codec first |
| Bootstrap.FailureIgnoresFlags | tests/apps/bookstore/bookstore-se/src/main/java/io/helidon/tests/apps/bookstore/se/Main.java:94-110 | the library lookup, the only start-up failure modelled, fails or succeeds, and with which error, independently of the flags |
| Bootstrap.ServersDifferOnlyByFlags | tests/apps/bookstore/bookstore-se/src/main/java/io/helidon/tests/apps/bookstore/se/Main.java:94-110 | the routing does not depend on the flags, and two servers are equal if and only if their flags are |
| Bootstrap.StartServer | tests/apps/bookstore/bookstore-se/src/main/java/io/helidon/tests/apps/bookstore/se/Main.java:85-123 | `startServer(ssl, http2)` yields exactly the server, or the error, that `StartUp` describes |
| Bootstrap.StartServerDefault | tests/apps/bookstore/bookstore-se/src/main/java/io/helidon/tests/apps/bookstore/se/Main.java:73-75 | `startServer()` yields exactly what `startServer(false, false)` does |
| Numerals.Decimal | tests/apps/bookstore/bookstore-se/src/main/java/io/helidon/tests/apps/bookstore/se/Main.java:114 | the port is written as at least one decimal digit, without a leading zero |
| Numerals.ParseDecimalOfDecimal | tests/apps/bookstore/bookstore-se/src/main/java/io/helidon/tests/apps/bookstore/se/Main.java:114 | reading back the decimal spelling of a port gives the port |
| Numerals.DecimalInjective | tests/apps/bookstore/bookstore-se/src/main/java/io/helidon/tests/apps/bookstore/se/Main.java:114 | different ports are spelled differently |
| Bootstrap.Scheme | tests/apps/bookstore/bookstore-se/src/main/java/io/helidon/tests/apps/bookstore/se/Main.java:114 | the scheme is "https" if and only if `ssl`, and "http" otherwise |
| Bootstrap.BannerUrl | tests/apps/bookstore/bookstore-se/src/main/java/io/helidon/tests/apps/bookstore/se/Main.java:114 | the URL is the scheme, then "://localhost:", then the decimal port, then "/books", each at its place |
| Bootstrap.BannerUrlRoundTrip | tests/apps/bookstore/bookstore-se/src/main/java/io/helidon/tests/apps/bookstore/se/Main.java:114 | parsing the banner URL gives back the `ssl` flag and the port |
| Bootstrap.BannerUrlInjective | tests/apps/bookstore/bookstore-se/src/main/java/io/helidon/tests/apps/bookstore/se/Main.java:114 | different flags or ports give different banner URLs |
| Bootstrap.BannerUrlShape | tests/apps/bookstore/bookstore-se/src/main/java/io/helidon/tests/apps/bookstore/se/Main.java:114 | the URL starts with "https" if and only if `ssl`, and ends with "/books" |

## Left out

- Logging set-up from `/logging.properties` (lines 87-88): I/O on a classpath resource.
- `Config.create()` (line 91): the file discovery and YAML parsing are not modelled. Its result is the `AppConfig` input.
- Keystore loading and SSL context construction (lines 97-102): foreign library calls. Only the resource name and passphrase are kept, in `TlsContext`. So a bad keystore, which would fail before the routing is built, is not modelled.
- FailureIgnoresFlags: holds only because keystore loading cannot fail in the model. In the code, `ssl=true` with a missing or undecryptable `certificate.p12` fails (lines 96-102), while `ssl=false` starts.
- The `server` node (line 94): how `ServerConfiguration.builder` reads it is not shown. The model takes it to attach no TLS context and no HTTP/2 setting of its own, so the "TLS if and only if `ssl`" and "HTTP/2 if and only if `http2`" results hold under that assumption.
- `WebServer.create`, `start()`, `whenShutdown()` and their callbacks (lines 110-120): networking and futures. The bound port is a parameter of `BannerUrl`.
- The two console lines (lines 115 and 120): printing to stdout. Only the URL inside the first one is modelled.
- A start/stop state machine for the running server: the code only reacts to two futures, which are left out above.
- The internals of `BookService`, `HealthChecks.healthChecks()`, `HealthSupport` and `MetricsSupport` (lines 132-134, 154-155): they are not part of this model. Each is an opaque `Handler`. That includes the "worst status wins" rule for health checks, which lives in the health library.
- The `/health` and `/metrics` paths: health and metrics choose these inside their own libraries. In the routing they are global registrations.
- ToUpper: models ASCII upper-casing only. Java's `toUpperCase()` also maps non-ASCII letters, depends on the locale (Turkish dotted i), and can change the length (ß becomes SS).
- The `default:` branch of the switch (lines 149-150): it cannot be reached, because the enum is closed. The Dafny `match` is exhaustive.
- Composing twice gives the same routing: this is not a separate lemma. `CreateRouting`'s postcondition determines its result uniquely from the configuration.
- The port is a `nat`. The 16-bit range of TCP ports is not enforced.
