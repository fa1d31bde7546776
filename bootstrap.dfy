/** Server start-up (Main.java, startServer): the listener configuration
    built from the ssl and http2 flags, the routing, and the URL announced
    once the server is up. */
module Bootstrap {
  import opened Wrappers
  import opened JsonLibraries
  import opened Numerals
  import opened Routes

  /** The keystore resource and passphrase the TLS context is built from. */
  const KeystoreResource := "certificate.p12"
  const KeystorePassphrase := "helidon"

  /** What start-up keeps of the SSL context: the key material it names.
      Loading and decrypting the keystore is not part of this model. */
  datatype TlsContext = TlsContext(keystore: string, passphrase: string)

  const ServerTls := TlsContext(KeystoreResource, KeystorePassphrase)

  /** The listener settings the configuration's `server` node yields; they
      are passed through unchanged. They are taken to hold no TLS or HTTP/2
      settings of their own, so those come from the two flags alone. */
  datatype ServerSection = ServerSection(port: nat, host: string)

  /** The configuration start-up reads: the `server` node and the node at
      `app.json-library`. */
  datatype AppConfig = AppConfig(server: ServerSection, jsonLibrary: ConfigNode)

  /** The built listener configuration: an SSL context when TLS is on, and
      whether the experimental HTTP/2 support is enabled. */
  datatype ServerConfiguration = ServerConfiguration(
    listener: ServerSection,
    ssl: Option<TlsContext>,
    http2: bool)

  /** The server handed back by startServer. It has been asked to start,
      but its start-up has not necessarily completed. */
  datatype WebServer = WebServer(configuration: ServerConfiguration, routing: seq<Binding>)

  /** ServerConfiguration.Builder: seeded from the `server` node, without
      SSL and without HTTP/2. */
  class ServerConfigurationBuilder {
    var listener: ServerSection
    var ssl: Option<TlsContext>
    var http2: bool

    constructor (section: ServerSection)
      ensures listener == section && ssl == None && !http2
    {
      listener := section;
      ssl := None;
      http2 := false;
    }

    /** ssl(context): attach an SSL context. */
    method Ssl(context: TlsContext)
      modifies this
      ensures ssl == Some(context)
      ensures listener == old(listener) && http2 == old(http2)
    {
      ssl := Some(context);
    }

    /** experimental(...): the experimental settings, here their HTTP/2 switch. */
    method Experimental(enableHttp2: bool)
      modifies this
      ensures http2 == enableHttp2
      ensures listener == old(listener) && ssl == old(ssl)
    {
      http2 := enableHttp2;
    }

    /** build(): the configuration carrying exactly the builder's settings. */
    function Build(): (c: ServerConfiguration)
      reads this
      ensures c.listener == listener && c.ssl == ssl && c.http2 == http2
    {
      ServerConfiguration(listener, ssl, http2)
    }
  }

  /** The listener configuration for the two flags: an SSL context from
      "certificate.p12" and "helidon" exactly when `ssl`, HTTP/2 exactly when
      `http2`, and the `server` settings untouched. */
  function TransportOptions(section: ServerSection, ssl: bool, http2: bool): (c: ServerConfiguration)
    ensures c.listener == section
    ensures c.ssl.Some? <==> ssl
    ensures c.ssl.Some? ==> c.ssl.value == TlsContext("certificate.p12", "helidon")
    ensures c.http2 == http2
  {
    ServerConfiguration(section, if ssl then Some(ServerTls) else None, http2)
  }

  /** The two flags act independently: the four combinations give four
      different configurations. */
  lemma TransportFlagsDistinct(section: ServerSection, ssl1: bool, http21: bool, ssl2: bool, http22: bool)
    ensures TransportOptions(section, ssl1, http21) == TransportOptions(section, ssl2, http22)
            <==> ssl1 == ssl2 && http21 == http22
  {
  }

  /** The builder steps of startServer: SSL under `if (ssl)`, HTTP/2 under
      `if (http2)`. */
  method BuildServerConfiguration(section: ServerSection, ssl: bool, http2: bool) returns (c: ServerConfiguration)
    ensures c == TransportOptions(section, ssl, http2)
  {
    var builder := new ServerConfigurationBuilder(section);
    if ssl {
      builder.Ssl(TlsContext(KeystoreResource, KeystorePassphrase));
    }
    if http2 {
      builder.Experimental(true);
    }
    c := builder.Build();
  }

  /** What startServer(ssl, http2) produces from the configuration: a server
      with the transport options of the flags and the standard routing for
      the resolved library, or the resolution error, in which case no server
      is created. */
  function StartUp(ssl: bool, http2: bool, config: AppConfig): (r: Result<WebServer, ConfigError>)
    ensures r.Ok? <==> GetJsonLibrary(config.jsonLibrary).Ok?
    ensures r.Err? ==> r.error == GetJsonLibrary(config.jsonLibrary).error
    ensures r.Ok? ==> (r.value.configuration.ssl.Some? <==> ssl)
    ensures r.Ok? ==> r.value.configuration.http2 == http2
    ensures r.Ok? ==> r.value.configuration.listener == config.server
    ensures r.Ok? ==> r.value.routing != [] && r.value.routing[0].handler == CodecFor(GetJsonLibrary(config.jsonLibrary).value)
    ensures r.Ok? ==> r.value.configuration == TransportOptions(config.server, ssl, http2)
    ensures r.Ok? ==> r.value.routing == StandardRouting(GetJsonLibrary(config.jsonLibrary).value)
  {
    match GetJsonLibrary(config.jsonLibrary)
    case Ok(lib) => Ok(WebServer(TransportOptions(config.server, ssl, http2), StandardRouting(lib)))
    case Err(e) => Err(e)
  }

  /** The library lookup, the only start-up failure this model has, does
      not depend on the flags: whether it fails, and with which error, is
      decided by the configuration alone. */
  lemma FailureIgnoresFlags(config: AppConfig, ssl1: bool, http21: bool, ssl2: bool, http22: bool)
    ensures StartUp(ssl1, http21, config).Err? == StartUp(ssl2, http22, config).Err?
    ensures StartUp(ssl1, http21, config).Err? ==>
              StartUp(ssl1, http21, config).error == StartUp(ssl2, http22, config).error
  {
  }

  /** With the same configuration, the routing is the same whatever the
      flags, and the server differs exactly when a flag does. */
  lemma ServersDifferOnlyByFlags(config: AppConfig, ssl1: bool, http21: bool, ssl2: bool, http22: bool)
    requires GetJsonLibrary(config.jsonLibrary).Ok?
    ensures StartUp(ssl1, http21, config).value.routing == StartUp(ssl2, http22, config).value.routing
    ensures StartUp(ssl1, http21, config) == StartUp(ssl2, http22, config) <==> ssl1 == ssl2 && http21 == http22
  {
    TransportFlagsDistinct(config.server, ssl1, http21, ssl2, http22);
  }

  /** startServer(ssl, http2): build the listener configuration, then the
      routing (whose library lookup may abort start-up). */
  method StartServer(ssl: bool, http2: bool, config: AppConfig) returns (r: Result<WebServer, ConfigError>)
    ensures r == StartUp(ssl, http2, config)
  {
    var configuration := BuildServerConfiguration(config.server, ssl, http2);
    var routing := CreateRouting(config.jsonLibrary);
    if routing.Err? {
      return Err(routing.error);
    }
    r := Ok(WebServer(configuration, routing.value));
  }

  /** startServer(): the same as startServer(false, false). */
  method StartServerDefault(config: AppConfig) returns (r: Result<WebServer, ConfigError>)
    ensures r == StartUp(false, false, config)
  {
    r := StartServer(false, false, config);
  }

  /** The scheme of the announced URL. */
  function Scheme(ssl: bool): (r: string)
    ensures r == "https" <==> ssl
    ensures r == "http" <==> !ssl
  {
    if ssl then "https" else "http"
  }

  /** The URL announced once the server is up, for the port it is bound to. */
  function BannerUrl(ssl: bool, port: nat): (r: string)
    ensures |r| == |Scheme(ssl)| + 13 + |Decimal(port)| + |ServicePath|
    ensures r[..|Scheme(ssl)|] == Scheme(ssl)
    ensures r[|Scheme(ssl)|..|Scheme(ssl)| + 13] == "://localhost:"
    ensures r[|Scheme(ssl)| + 13..|r| - |ServicePath|] == Decimal(port)
    ensures r[|r| - |ServicePath|..] == ServicePath
  {
    Scheme(ssl) + "://localhost:" + Decimal(port) + ServicePath
  }

  const HttpsPrefix := "https://localhost:"
  const HttpPrefix := "http://localhost:"

  /** Reads the scheme and the port back out of an announced URL. */
  function ParseBannerUrl(url: string): Option<(bool, nat)>
  {
    if |url| >= |HttpsPrefix| && url[..|HttpsPrefix|] == HttpsPrefix then
      ParsePortAndPath(true, url[|HttpsPrefix|..])
    else if |url| >= |HttpPrefix| && url[..|HttpPrefix|] == HttpPrefix then
      ParsePortAndPath(false, url[|HttpPrefix|..])
    else
      None
  }

  /** The part after "localhost:": digits followed by the service path. */
  function ParsePortAndPath(ssl: bool, rest: string): Option<(bool, nat)>
  {
    var k := |rest| - |ServicePath|;
    if k > 0 && rest[k..] == ServicePath && AllDigits(rest[..k]) then
      Some((ssl, ParseDecimal(rest[..k])))
    else
      None
  }

  lemma ParsePortAndPathOf(ssl: bool, port: nat)
    ensures ParsePortAndPath(ssl, Decimal(port) + ServicePath) == Some((ssl, port))
  {
    var d := Decimal(port);
    var rest := d + ServicePath;
    assert rest[..|d|] == d;
    assert rest[|d|..] == ServicePath;
    ParseDecimalOfDecimal(port);
  }

  lemma ParseHttpsUrl(tail: string)
    ensures ParseBannerUrl(HttpsPrefix + tail) == ParsePortAndPath(true, tail)
  {
    var url := HttpsPrefix + tail;
    assert url[..|HttpsPrefix|] == HttpsPrefix;
    assert url[|HttpsPrefix|..] == tail;
  }

  lemma ParseHttpUrl(tail: string)
    requires tail != []
    ensures ParseBannerUrl(HttpPrefix + tail) == ParsePortAndPath(false, tail)
  {
    var url := HttpPrefix + tail;
    assert url[..|HttpsPrefix|] != HttpsPrefix by {
      assert url[..|HttpsPrefix|][4] == ':';
    }
    assert url[..|HttpPrefix|] == HttpPrefix;
    assert url[|HttpPrefix|..] == tail;
  }

  lemma BannerUrlSplit(ssl: bool, port: nat)
    ensures BannerUrl(ssl, port) == (if ssl then HttpsPrefix else HttpPrefix) + (Decimal(port) + ServicePath)
  {
  }

  /** The announced URL determines whether TLS is on and the bound port. */
  lemma BannerUrlRoundTrip(ssl: bool, port: nat)
    ensures ParseBannerUrl(BannerUrl(ssl, port)) == Some((ssl, port))
  {
    var tail := Decimal(port) + ServicePath;
    ParsePortAndPathOf(ssl, port);
    BannerUrlSplit(ssl, port);
    if ssl {
      ParseHttpsUrl(tail);
    } else {
      ParseHttpUrl(tail);
    }
  }

  /** Different schemes or ports are announced as different URLs. */
  lemma BannerUrlInjective(ssl1: bool, port1: nat, ssl2: bool, port2: nat)
    requires BannerUrl(ssl1, port1) == BannerUrl(ssl2, port2)
    ensures ssl1 == ssl2 && port1 == port2
  {
    BannerUrlRoundTrip(ssl1, port1);
    BannerUrlRoundTrip(ssl2, port2);
  }

  /** The scheme is "https" exactly when TLS is on, and the URL ends with
      the book service's path. */
  lemma BannerUrlShape(ssl: bool, port: nat)
    ensures ssl <==> BannerUrl(ssl, port)[..5] == "https"
    ensures BannerUrl(ssl, port)[|BannerUrl(ssl, port)| - 6..] == "/books"
  {
    var url := BannerUrl(ssl, port);
    if !ssl {
      assert url[..5][4] == ':';
    }
  }
}
