/** The routing table of the bookstore service (Main.java, createRouting):
    one JSON codec chosen by configuration, then health, metrics and the
    book service under "/books". */
module Routes {
  import opened Wrappers
  import opened JsonLibraries

  /** The path the book service is registered under. */
  const ServicePath := "/books"

  /** The services registered on the routing. Health and metrics choose
      their own paths ("/health", "/metrics") inside their libraries; the
      book service's handlers are not part of this model. */
  datatype Handler =
    | JsonSupport        // JSON-P media support
    | JsonBindingSupport // JSON-B media support
    | JacksonSupport     // Jackson media support
    | HealthSupport
    | MetricsSupport
    | BookService

  /** One registration: global (no path) or scoped under a path prefix. */
  datatype Binding = Binding(path: Option<string>, handler: Handler)

  /** The media supports, one per JSON library. */
  predicate IsCodec(h: Handler)
  {
    h.JsonSupport? || h.JsonBindingSupport? || h.JacksonSupport?
  }

  /** The library a media support serves. */
  function CodecLibrary(h: Handler): JsonLibrary
    requires IsCodec(h)
  {
    match h
    case JsonSupport => JSONP
    case JsonBindingSupport => JSONB
    case JacksonSupport => JACKSON
  }

  /** The switch over the library: the media support registered for it,
      which serves that library and no other. */
  function CodecFor(lib: JsonLibrary): (h: Handler)
    ensures IsCodec(h) && CodecLibrary(h) == lib
  {
    match lib
    case JSONP => JsonSupport
    case JSONB => JsonBindingSupport
    case JACKSON => JacksonSupport
  }

  /** Number of media-support registrations in a routing table. */
  function CodecCount(r: seq<Binding>): nat
  {
    if r == [] then 0 else (if IsCodec(r[0].handler) then 1 else 0) + CodecCount(r[1..])
  }

  /** The routing composed for `lib`: the codec for `lib` comes first and is
      the only codec; health, metrics and the book service follow in that
      order; only the book service is path-scoped, under "/books". */
  function StandardRouting(lib: JsonLibrary): (r: seq<Binding>)
    ensures |r| == 4
    ensures forall i :: 0 <= i < |r| ==> (IsCodec(r[i].handler) <==> i == 0)
    ensures CodecLibrary(r[0].handler) == lib
    ensures r[1].handler == HealthSupport && r[2].handler == MetricsSupport && r[3].handler == BookService
    ensures forall i :: 0 <= i < |r| ==> (r[i].path.Some? <==> r[i].handler == BookService)
    ensures r[3].path == Some(ServicePath)
  {
    [ Binding(None, CodecFor(lib)),
      Binding(None, HealthSupport),
      Binding(None, MetricsSupport),
      Binding(Some(ServicePath), BookService) ]
  }

  /** A table none of whose registrations is a codec counts no codec. */
  lemma {:induction false} CodecCountNone(r: seq<Binding>)
    requires forall i :: 0 <= i < |r| ==> !IsCodec(r[i].handler)
    ensures CodecCount(r) == 0
    decreases |r|
  {
    if r != [] {
      assert forall i :: 0 <= i < |r[1..]| ==> r[1..][i] == r[i + 1];
      CodecCountNone(r[1..]);
    }
  }

  /** The routing holds exactly one codec registration. */
  lemma StandardRoutingHasOneCodec(lib: JsonLibrary)
    ensures CodecCount(StandardRouting(lib)) == 1
  {
    var r := StandardRouting(lib);
    CodecCountNone(r[1..]);
  }

  /** Whatever the library, everything after the codec is the same, and
      different libraries give different routings. */
  lemma RoutingDiffersOnlyInCodec(l1: JsonLibrary, l2: JsonLibrary)
    ensures StandardRouting(l1)[1..] == StandardRouting(l2)[1..]
    ensures StandardRouting(l1) == StandardRouting(l2) <==> l1 == l2
  {
    if StandardRouting(l1) == StandardRouting(l2) {
      assert CodecLibrary(StandardRouting(l1)[0].handler) == CodecLibrary(StandardRouting(l2)[0].handler);
    }
  }

  /** Routing.Builder: registrations are appended in call order. */
  class RoutingBuilder {
    var bindings: seq<Binding>

    constructor ()
      ensures bindings == []
    {
      bindings := [];
    }

    /** register(service): a global registration. */
    method Register(h: Handler)
      modifies this
      ensures bindings == old(bindings) + [Binding(None, h)]
    {
      bindings := bindings + [Binding(None, h)];
    }

    /** register(path, service): a registration scoped under `path`. */
    method RegisterAt(path: string, h: Handler)
      modifies this
      ensures bindings == old(bindings) + [Binding(Some(path), h)]
    {
      bindings := bindings + [Binding(Some(path), h)];
    }
  }

  /** createRouting: resolve the library, register its codec, then health,
      metrics and the book service. A library that cannot be resolved aborts
      the composition with that error. */
  method CreateRouting(node: ConfigNode) returns (r: Result<seq<Binding>, ConfigError>)
    ensures r.Ok? <==> GetJsonLibrary(node).Ok?
    ensures r.Ok? ==> r.value == StandardRouting(GetJsonLibrary(node).value)
    ensures r.Err? ==> r.error == GetJsonLibrary(node).error
  {
    var resolved := GetJsonLibrary(node);
    if resolved.Err? {
      return Err(resolved.error);
    }
    var builder := new RoutingBuilder();
    match resolved.value {
      case JSONP => builder.Register(JsonSupport);
      case JSONB => builder.Register(JsonBindingSupport);
      case JACKSON => builder.Register(JacksonSupport);
    }
    builder.Register(HealthSupport);
    builder.Register(MetricsSupport);
    builder.RegisterAt(ServicePath, BookService);
    r := Ok(builder.bindings);
  }
}
