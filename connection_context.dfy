/**
 * The connection context: how a connection to a datacenter is assembled.
 * It holds the addressing and security flags and a LIFO stack of stream
 * descriptors with a cursor. Streams are pushed innermost first and popped
 * outermost first, each decorator popping the one it wraps.
 */
module Connection {
  import opened Wrappers
  import opened PhpStrings
  import DcId

  /** Fully qualified class names the context treats specially. */
  const ObfuscatedStream: string := "danog\\MadelineProto\\Stream\\MTProtoTransport\\ObfuscatedStream"
  const DefaultStream: string := "danog\\MadelineProto\\Stream\\Transport\\DefaultStream"
  const ProxyTag: string := "inputClientProxy"
  const Separator: string := " => "

  /** A scalar stored in a stream's parameter array. */
  datatype Value = Null | Bool(b: bool) | Int(i: int) | Str(s: string)

  /** The `extra` parameter of a stream: `null` or an array of named parameters. */
  datatype Extra = NullExtra | ArrayExtra(fields: map<string, Value>)

  /** One entry of the stream chain: a stream class name and its extra parameter. */
  datatype StreamEntry = StreamEntry(name: string, extra: Extra)

  /**
   * A stream as `getStream` builds it: its class, and the extra it was given
   * through `setExtra` when the class is a proxy stream (None otherwise).
   */
  datatype Layer = Layer(name: string, configured: Option<Extra>)

  /** Opaque handles the context only stores and hands back. */
  datatype SocketContext = SocketContext(handle: nat)
  datatype CancellationToken = CancellationToken(handle: nat)
  datatype ReadCallback = ReadCallback(handle: nat)

  datatype ChainError = ChainExhausted
  datatype DcError = InvalidDc(message: string)

  /** The message of the exception `setDc` throws for a refused id. */
  function InvalidDcMessage(s: string): string
  {
    "Invalid DC id provided: " + s
  }

  /** PHP truthiness of an extra parameter: a non-empty array. */
  predicate Truthy(e: Extra)
  {
    e.ArrayExtra? && |e.fields| > 0
  }

  /** An obfuscated stream whose extra sets `address` to something other than null. */
  predicate CarriesProxy(e: StreamEntry)
  {
    && e.name == ObfuscatedStream
    && e.extra.ArrayExtra?
    && "address" in e.extra.fields
    && e.extra.fields["address"] != Null
  }

  /** The stream `getStream` builds for an entry; `isProxy` says which classes implement the proxy interface. */
  function Instantiate(e: StreamEntry, isProxy: string -> bool): Layer
  {
    Layer(e.name, if isProxy(e.name) then Some(e.extra) else None)
  }

  /** How `getName` renders one stream; `json` stands for `json_encode`. */
  function Render(e: StreamEntry, json: map<string, Value> -> string): string
  {
    ShortName(e.name) + (if Truthy(e.extra) && e.name != DefaultStream then " (" + json(e.extra.fields) + ")" else "")
  }

  /** `parts` joined by `sep`. */
  function Join(parts: seq<string>, sep: string): string
  {
    if |parts| == 0 then ""
    else if |parts| == 1 then parts[0]
    else Join(parts[..|parts| - 1], sep) + sep + parts[|parts| - 1]
  }

  lemma {:induction false} JoinPrepend(p: string, parts: seq<string>, sep: string)
    ensures Join([p] + parts, sep) == p + (if parts == [] then "" else sep + Join(parts, sep))
  {
    if |parts| > 1 {
      var last := parts[|parts| - 1];
      assert ([p] + parts)[..|parts|] == [p] + parts[..|parts| - 1];
      JoinPrepend(p, parts[..|parts| - 1], sep);
    } else if |parts| == 1 {
      assert ([p] + parts)[..1] == [p];
    }
  }

  /** `f` applied to every element of `s`, last element first. */
  function TopFirst<T, U>(s: seq<T>, f: T -> U): (r: seq<U>)
    ensures |r| == |s|
  {
    if s == [] then [] else [f(s[|s| - 1])] + TopFirst(s[..|s| - 1], f)
  }

  lemma {:induction false} TopFirstAt<T, U>(s: seq<T>, f: T -> U, k: int)
    requires 0 <= k < |s|
    ensures TopFirst(s, f)[k] == f(s[|s| - 1 - k])
  {
    if k > 0 {
      TopFirstAt(s[..|s| - 1], f, k - 1);
    }
  }

  /** Joining one more part appends the separator, unless it is the first, and the part. */
  lemma JoinStep(parts: seq<string>, k: nat, sep: string)
    requires k < |parts|
    ensures Join(parts[..k + 1], sep) == Join(parts[..k], sep) + (if k > 0 then sep else "") + parts[k]
  {
    assert parts[..k + 1][..k] == parts[..k];
  }

  /** One step of the loop in `getName`: the text so far followed by the next part. */
  lemma NameStep(header: string, parts: seq<string>, k: nat, str: string)
    requires k < |parts|
    requires str == header + Join(parts[..k], Separator)
    ensures k > 0 ==> str + Separator + parts[k] == header + Join(parts[..k + 1], Separator)
    ensures k == 0 ==> str + parts[k] == header + Join(parts[..k + 1], Separator)
  {
    JoinStep(parts, k, Separator);
    assert (header + Join(parts[..k], Separator)) + Separator + parts[k]
        == header + (Join(parts[..k], Separator) + Separator + parts[k]);
    assert k == 0 ==> Join(parts[..k], Separator) == "";
  }

  /** The streams as `getName` renders them, top of the stack first. */
  function RenderedTopFirst(s: seq<StreamEntry>, json: map<string, Value> -> string): seq<string>
  {
    TopFirst(s, e => Render(e, json))
  }

  /** The k-th stream `getName` lists is the one k places below the top. */
  lemma RenderedAt(s: seq<StreamEntry>, json: map<string, Value> -> string, k: int)
    requires 0 <= k < |s|
    ensures RenderedTopFirst(s, json)[k] == Render(s[|s| - 1 - k], json)
  {
    TopFirstAt(s, e => Render(e, json), k);
  }

  /** The stream part of `getName`: the rendered streams, top of the stack first, joined by " => ". */
  function Using(s: seq<StreamEntry>, json: map<string, Value> -> string): string
  {
    Join(RenderedTopFirst(s, json), Separator)
  }

  /**
   * The stream most recently pushed is the first one `getName` lists; the
   * streams pushed before it follow in the order they were listed before.
   */
  lemma UsingAfterPush(s: seq<StreamEntry>, e: StreamEntry, json: map<string, Value> -> string)
    ensures Using(s + [e], json) == Render(e, json) + (if s == [] then "" else Separator + Using(s, json))
  {
    assert (s + [e])[..|s|] == s;
    assert TopFirst(s + [e], e => Render(e, json)) == [Render(e, json)] + TopFirst(s, e => Render(e, json));
    JoinPrepend(Render(e, json), RenderedTopFirst(s, json), Separator);
  }

  /** Pushing any sequence of streams in order makes `getName` list them last pushed first. */
  lemma UsingListsReverse(s: seq<StreamEntry>, json: map<string, Value> -> string)
    requires s != []
    ensures Using(s, json) == Render(s[|s| - 1], json) + (if |s| == 1 then "" else Separator + Using(s[..|s| - 1], json))
  {
    assert s == s[..|s| - 1] + [s[|s| - 1]];
    UsingAfterPush(s[..|s| - 1], s[|s| - 1], json);
  }

  /**
   * The loop of `getName`: appends the rendered streams to `prefix`, top of
   * the stack first, with " => " between two streams.
   */
  method AppendStreams(prefix: string, s: seq<StreamEntry>, json: map<string, Value> -> string) returns (str: string)
    ensures str == prefix + Using(s, json)
  {
    str := prefix;
    var n := |s|;
    ghost var parts := RenderedTopFirst(s, json);
    var k := 0;
    while k < n
      invariant 0 <= k <= n
      invariant str == prefix + Join(parts[..k], Separator)
    {
      var piece := Render(s[n - 1 - k], json);
      assert piece == parts[k] by { RenderedAt(s, json, k); }
      var next := if k > 0 then str + Separator + piece else str + piece;
      assert next == prefix + Join(parts[..k + 1], Separator) by { NameStep(prefix, parts, k, str); }
      str := next;
      k := k + 1;
    }
    assert parts[..n] == parts;
  }

  /** Every field of a context, so that a method can say exactly what it changes. */
  datatype ContextState = ContextState(
    secure: bool,
    test: bool,
    media: bool,
    cdn: bool,
    uri: Option<string>,
    isDns: bool,
    socketContext: Option<SocketContext>,
    cancellationToken: Option<CancellationToken>,
    dc: string,
    ipv6: bool,
    nextStreams: seq<StreamEntry>,
    key: int,
    readCallback: Option<ReadCallback>)

  /**
   * What one connection attempt pops when it starts with the cursor at `k`:
   * the stream at the cursor, and, while the stream popped last is a
   * decorator (`wraps`), the one below it. It fails when a pop finds the
   * cursor outside the stack.
   */
  function Assembly(s: seq<StreamEntry>, k: int, wraps: string -> bool, isProxy: string -> bool): Result<seq<Layer>, ChainError>
    decreases if k < 0 then 0 else k + 1
  {
    if !(0 <= k < |s|) then Err(ChainExhausted)
    else if !wraps(s[k].name) then Ok([Instantiate(s[k], isProxy)])
    else match Assembly(s, k - 1, wraps, isProxy)
      case Ok(inner) => Ok([Instantiate(s[k], isProxy)] + inner)
      case Err(e) => Err(e)
  }

  /**
   * An attempt from cursor k succeeds exactly when k is inside the stack and
   * some stream at or below it wraps nothing. It then yields the streams
   * from k down to the first such stream, in popping order, each built from
   * its descriptor, and every stream above that one is a decorator.
   */
  lemma {:induction false} AssemblyPopsDownToBase(s: seq<StreamEntry>, k: int, wraps: string -> bool, isProxy: string -> bool)
    decreases if k < 0 then 0 else k + 1
    ensures var r := Assembly(s, k, wraps, isProxy);
      && (r.Ok? <==> k < |s| && exists i :: 0 <= i <= k && !wraps(s[i].name))
      && (r.Ok? ==> 1 <= |r.value| <= k + 1)
      && (r.Ok? ==> forall i :: 0 <= i < |r.value| ==> r.value[i] == Instantiate(s[k - i], isProxy))
      && (r.Ok? ==> !wraps(s[k + 1 - |r.value|].name))
      && (r.Ok? ==> forall i :: k + 1 - |r.value| < i <= k ==> wraps(s[i].name))
  {
    if !(0 <= k < |s|) {
    } else if !wraps(s[k].name) {
      assert 0 <= k <= k && !wraps(s[k].name);
    } else {
      AssemblyPopsDownToBase(s, k - 1, wraps, isProxy);
      var r := Assembly(s, k, wraps, isProxy);
      if exists i :: 0 <= i <= k && !wraps(s[i].name) {
        var i :| 0 <= i <= k && !wraps(s[i].name);
        assert i <= k - 1;
      }
      if r.Ok? {
        var inner := Assembly(s, k - 1, wraps, isProxy).value;
        assert r.value == [Instantiate(s[k], isProxy)] + inner;
        forall i | 0 <= i < |r.value|
          ensures r.value[i] == Instantiate(s[k - i], isProxy)
        {
          if i > 0 {
            assert r.value[i] == inner[i - 1];
          }
        }
      }
    }
  }

  /** Where the cursor stands after the attempt that Assembly describes. */
  function CursorAfter(s: seq<StreamEntry>, k: int, wraps: string -> bool): (c: int)
    decreases if k < 0 then 0 else k + 1
    ensures c < k
  {
    if !(0 <= k < |s|) || !wraps(s[k].name) then k - 1 else CursorAfter(s, k - 1, wraps)
  }

  /**
   * Each pop lowers the cursor by exactly one: a successful attempt leaves
   * it one below the innermost stream it popped; a failed one leaves it at
   * -2 after draining the stack, or one below a cursor that started outside it.
   */
  lemma {:induction false} CursorAfterCountsPops(s: seq<StreamEntry>, k: int, wraps: string -> bool, isProxy: string -> bool)
    decreases if k < 0 then 0 else k + 1
    ensures Assembly(s, k, wraps, isProxy).Ok? ==> CursorAfter(s, k, wraps) == k - |Assembly(s, k, wraps, isProxy).value|
    ensures Assembly(s, k, wraps, isProxy).Err? ==> CursorAfter(s, k, wraps) == if 0 <= k < |s| then -2 else k - 1
  {
    if 0 <= k < |s| && wraps(s[k].name) {
      CursorAfterCountsPops(s, k - 1, wraps, isProxy);
    }
  }

  /** `layers` in front of the layers of a result, or the result's error. */
  function Prepend(layers: seq<Layer>, r: Result<seq<Layer>, ChainError>): Result<seq<Layer>, ChainError>
  {
    match r
    case Ok(inner) => Ok(layers + inner)
    case Err(e) => Err(e)
  }

  /** A pop with the cursor outside the stack ends the attempt with an error. */
  lemma ExhaustedStep(s: seq<StreamEntry>, k: int, wraps: string -> bool, isProxy: string -> bool, layers: seq<Layer>)
    requires !(0 <= k < |s|)
    ensures Prepend(layers, Assembly(s, k, wraps, isProxy)) == Err(ChainExhausted)
    ensures CursorAfter(s, k, wraps) == k - 1
  {
  }

  /** Popping a stream that wraps nothing ends the attempt with that stream innermost. */
  lemma BaseStep(s: seq<StreamEntry>, k: int, wraps: string -> bool, isProxy: string -> bool, layers: seq<Layer>)
    requires 0 <= k < |s| && !wraps(s[k].name)
    ensures Prepend(layers, Assembly(s, k, wraps, isProxy)) == Ok(layers + [Instantiate(s[k], isProxy)])
    ensures CursorAfter(s, k, wraps) == k - 1
  {
  }

  /** Popping a decorator adds it to the layers and goes on one stream lower. */
  lemma DecoratorStep(s: seq<StreamEntry>, k: int, wraps: string -> bool, isProxy: string -> bool, layers: seq<Layer>)
    requires 0 <= k < |s| && wraps(s[k].name)
    ensures Prepend(layers, Assembly(s, k, wraps, isProxy)) == Prepend(layers + [Instantiate(s[k], isProxy)], Assembly(s, k - 1, wraps, isProxy))
    ensures CursorAfter(s, k, wraps) == CursorAfter(s, k - 1, wraps)
  {
    match Assembly(s, k - 1, wraps, isProxy) {
      case Ok(inner) =>
        assert layers + ([Instantiate(s[k], isProxy)] + inner) == (layers + [Instantiate(s[k], isProxy)]) + inner;
      case Err(_) =>
    }
  }

  class ConnectionContext {
    var secure: bool
    var test: bool
    var media: bool
    var cdn: bool
    /** The connection URI as a string; None until `setUri` (PHP leaves the typed property uninitialised). */
    var uri: Option<string>
    var isDns: bool
    var socketContext: Option<SocketContext>
    var cancellationToken: Option<CancellationToken>
    /** The DC id as given to `setDc`; "0" before that. */
    var dc: string
    var ipv6: bool
    /** The stream chain, innermost stream first. */
    var nextStreams: seq<StreamEntry>
    /** The cursor: the index of the next stream `getStream` pops. */
    var key: int
    var readCallback: Option<ReadCallback>

    function State(): ContextState
      reads this
    {
      ContextState(secure, test, media, cdn, uri, isDns, socketContext, cancellationToken, dc, ipv6, nextStreams, key, readCallback)
    }

    /** The cursor never points above the top of the stack, except on a fresh context. */
    predicate Valid()
      reads this
    {
      key < |nextStreams| || (key == 0 && nextStreams == [])
    }

    /** A context with every property at its declared default. */
    constructor ()
      ensures Valid()
      ensures !secure && !test && !media && !cdn && !isDns && !ipv6
      ensures uri == None && socketContext == None && cancellationToken == None && readCallback == None
      ensures dc == "0" && nextStreams == [] && key == 0
    {
      secure, test, media, cdn := false, false, false, false;
      uri, isDns, socketContext, cancellationToken := None, false, None, None;
      dc, ipv6, nextStreams, key, readCallback := "0", false, [], 0, None;
    }

    /** PHP's `clone`: every property copied; the stack is an array, so the copy owns its own. */
    constructor Clone(other: ConnectionContext)
      ensures State() == other.State()
    {
      secure, test, media, cdn := other.secure, other.test, other.media, other.cdn;
      uri, isDns, socketContext, cancellationToken := other.uri, other.isDns, other.socketContext, other.cancellationToken;
      dc, ipv6, nextStreams, key, readCallback := other.dc, other.ipv6, other.nextStreams, other.key, other.readCallback;
    }

    method SetSocketContext(c: SocketContext)
      modifies this`socketContext
      ensures socketContext == Some(c)
    {
      socketContext := Some(c);
    }

    /** Stores the URI; parsing it is left to the URI library, so it is kept as given. */
    method SetUri(u: string)
      modifies this`uri
      ensures uri == Some(u)
    {
      uri := Some(u);
    }

    method SetCancellationToken(t: CancellationToken)
      modifies this`cancellationToken
      ensures cancellationToken == Some(t)
    {
      cancellationToken := Some(t);
    }

    method SetTest(b: bool)
      modifies this`test
      ensures test == b
    {
      test := b;
    }

    method SetIsDns(b: bool)
      modifies this`isDns
      ensures isDns == b
    {
      isDns := b;
    }

    /** `secure`: whether to use TLS with socket connections. */
    method Secure(b: bool)
      modifies this`secure
      ensures secure == b
    {
      secure := b;
    }

    method SetIpv6(b: bool)
      modifies this`ipv6
      ensures ipv6 == b
    {
      ipv6 := b;
    }

    method SetReadCallback(c: ReadCallback)
      modifies this`readCallback
      ensures readCallback == Some(c)
    {
      readCallback := Some(c);
    }

    /**
     * `setDc`: refuses an id whose `intval` is outside [1, 1000] and then
     * changes nothing; otherwise stores the id and sets the media and CDN
     * flags from whether it contains "_media" and "_cdn".
     */
    method SetDc(s: string) returns (r: Outcome<DcError>)
      modifies this`dc, this`media, this`cdn
      ensures r.Fail? <==> !DcId.ValidDc(s)
      ensures r.Fail? ==> r.error == InvalidDc(InvalidDcMessage(s))
      ensures r.Fail? ==> dc == old(dc) && media == old(media) && cdn == old(cdn)
      ensures r.Pass? ==> dc == s && media == Contains(s, DcId.MediaSuffix) && cdn == Contains(s, DcId.CdnSuffix)
    {
      if !DcId.ValidDc(s) {
        return Fail(InvalidDc(InvalidDcMessage(s)));
      }
      dc := s;
      media := Contains(s, DcId.MediaSuffix);
      cdn := Contains(s, DcId.CdnSuffix);
      r := Pass;
    }

    /**
     * `getIntDc`: for an accepted id, Decode recovers the numeric id and the
     * test and media flags, and the result is never 0.
     */
    function GetIntDc(): (r: int)
      reads this
      ensures DcId.ValidDc(dc) ==> DcId.Decode(r) == DcId.Decoded(IntVal(dc), test, media) && r != 0
      ensures DcId.ValidDc(dc) ==> (r < 0 <==> media)
    {
      DcId.Encode(IntVal(dc), test, media)
    }

    /** `addStream`: pushes one descriptor and moves the cursor to it. */
    method AddStream(name: string, extra: Extra)
      requires Valid()
      modifies this`nextStreams, this`key
      ensures Valid()
      ensures nextStreams == old(nextStreams) + [StreamEntry(name, extra)]
      ensures key == |nextStreams| - 1
    {
      nextStreams := nextStreams + [StreamEntry(name, extra)];
      key := |nextStreams| - 1;
    }

    /** `getStreamName`: the class name at the cursor, or None when the cursor is outside the stack. */
    function GetStreamName(): (r: Option<string>)
      reads this
      ensures r.Some? <==> 0 <= key < |nextStreams|
      ensures r.Some? ==> r.value == nextStreams[key].name
    {
      if 0 <= key < |nextStreams| then Some(nextStreams[key].name) else None
    }

    /** `hasStreamName`: whether any stream of the whole chain has this class name, wherever the cursor is. */
    method HasStreamName(n: string) returns (b: bool)
      ensures b <==> exists i :: 0 <= i < |nextStreams| && nextStreams[i].name == n
    {
      var i := 0;
      while i < |nextStreams|
        invariant 0 <= i <= |nextStreams|
        invariant forall j :: 0 <= j < i ==> nextStreams[j].name != n
      {
        if nextStreams[i].name == n {
          return true;
        }
        i := i + 1;
      }
      return false;
    }

    /**
     * `getStream`: pops the stream at the cursor, whose name `getStreamName`
     * reported, and builds it. The cursor moves down by one even when it
     * was outside the stack, in which case the pop fails.
     */
    method GetStream(isProxy: string -> bool) returns (r: Result<Layer, ChainError>)
      requires Valid()
      modifies this`key
      ensures Valid()
      ensures key == old(key) - 1
      ensures r.Ok? <==> 0 <= old(key) < |nextStreams|
      ensures r.Ok? ==> r.value == Instantiate(nextStreams[old(key)], isProxy)
      ensures r.Ok? ==> r.value.name == nextStreams[old(key)].name
      ensures r.Err? ==> r.error == ChainExhausted
      ensures nextStreams != [] ==> (r.Err? <==> old(key) < 0)
    {
      var k := key;
      key := key - 1;
      if !(0 <= k < |nextStreams|) {
        return Err(ChainExhausted);
      }
      r := Ok(Instantiate(nextStreams[k], isProxy));
    }

    /**
     * A connection attempt: pops streams from the cursor down, each
     * decorator popping the stream it wraps, until a stream that wraps
     * nothing has been built; fails as soon as a pop fails.
     */
    method ConnectChain(wraps: string -> bool, isProxy: string -> bool) returns (r: Result<seq<Layer>, ChainError>)
      requires Valid()
      modifies this`key
      ensures Valid()
      ensures r == Assembly(nextStreams, old(key), wraps, isProxy)
      ensures key == CursorAfter(nextStreams, old(key), wraps)
      ensures r.Ok? ==> key == old(key) - |r.value|
      ensures r.Err? ==> key == if 0 <= old(key) < |nextStreams| then -2 else old(key) - 1
    {
      ghost var whole := Assembly(nextStreams, key, wraps, isProxy);
      ghost var last := CursorAfter(nextStreams, key, wraps);
      var layers: seq<Layer> := [];
      match whole {
        case Ok(inner) => assert layers + inner == inner;
        case Err(_) =>
      }
      while true
        invariant Valid()
        invariant whole == Prepend(layers, Assembly(nextStreams, key, wraps, isProxy))
        invariant last == CursorAfter(nextStreams, key, wraps)
        decreases if key < 0 then 0 else key + 1
      {
        ghost var k := key;
        var popped := GetStream(isProxy);
        if popped.Err? {
          ExhaustedStep(nextStreams, k, wraps, isProxy, layers);
          CursorAfterCountsPops(nextStreams, old(key), wraps, isProxy);
          return Err(popped.error);
        }
        if !wraps(popped.value.name) {
          BaseStep(nextStreams, k, wraps, isProxy, layers);
          CursorAfterCountsPops(nextStreams, old(key), wraps, isProxy);
          return Ok(layers + [popped.value]);
        }
        DecoratorStep(nextStreams, k, wraps, isProxy, layers);
        layers := layers + [popped.value];
      }
    }

    /**
     * `getCtx`: a copy with the same configuration. The copy owns its stack
     * and cursor, so consuming it leaves this context as it was.
     */
    method GetCtx() returns (c: ConnectionContext)
      ensures fresh(c)
      ensures c.State() == State()
    {
      c := new ConnectionContext.Clone(this);
    }

    /**
     * A connection attempt on a fork of this context, as callers make one
     * before each physical connection: it pops what ConnectChain would pop,
     * and this context, which it may not modify, keeps its stack and cursor.
     */
    method ForkAndConnect(wraps: string -> bool, isProxy: string -> bool) returns (r: Result<seq<Layer>, ChainError>)
      requires Valid()
      ensures r == Assembly(nextStreams, key, wraps, isProxy)
    {
      var c := GetCtx();
      r := c.ConnectChain(wraps, isProxy);
    }

    /**
     * `getInputClientProxy`: the extra of the first obfuscated stream, in
     * push order over the whole stack, whose extra has an address, with
     * `_` set to "inputClientProxy"; None when there is no such stream.
     */
    method GetInputClientProxy() returns (r: Option<map<string, Value>>)
      ensures r.None? <==> forall i :: 0 <= i < |nextStreams| ==> !CarriesProxy(nextStreams[i])
      ensures r.Some? ==> exists i :: && 0 <= i < |nextStreams| && CarriesProxy(nextStreams[i])
                                     && (forall j :: 0 <= j < i ==> !CarriesProxy(nextStreams[j]))
                                     && r.value == nextStreams[i].extra.fields["_" := Str(ProxyTag)]
    {
      var i := 0;
      while i < |nextStreams|
        invariant 0 <= i <= |nextStreams|
        invariant forall j :: 0 <= j < i ==> !CarriesProxy(nextStreams[j])
      {
        var e := nextStreams[i];
        if CarriesProxy(e) {
          return Some(e.extra.fields["_" := Str(ProxyTag)]);
        }
        i := i + 1;
      }
      return None;
    }

    /** The fixed part of `getName`, ending in " using ". */
    function Header(u: string): string
      reads this
    {
      u + (if secure then " (TLS)" else "") + (if test then " test" else " main")
        + " DC " + dc + ", via " + (if ipv6 then "ipv6" else "ipv4") + " using "
    }

    /**
     * `getName`: the header followed by every stream of the chain, top of
     * the stack first, separated by " => "; None while no URI is set.
     */
    method GetName(json: map<string, Value> -> string) returns (r: Option<string>)
      ensures uri.None? ==> r.None?
      ensures uri.Some? ==> r == Some(Header(uri.value) + Using(nextStreams, json))
    {
      if uri.None? {
        return None;
      }
      var str := Header(uri.value);
      str := AppendStreams(str, nextStreams, json);
      r := Some(str);
    }
  }

  /**
   * The stack is consumed last-in first-out: after pushing A, B and C,
   * three pops yield C, B and A, and a fourth fails.
   */
  method PopOrderExample() returns (first: Result<Layer, ChainError>, second: Result<Layer, ChainError>,
                                    third: Result<Layer, ChainError>, fourth: Result<Layer, ChainError>)
    ensures first == Ok(Layer("C", None)) && second == Ok(Layer("B", None)) && third == Ok(Layer("A", None))
    ensures fourth == Err(ChainExhausted)
  {
    var plain := (n: string) => false;
    var ctx := new ConnectionContext();
    ctx.AddStream("A", NullExtra);
    ctx.AddStream("B", NullExtra);
    ctx.AddStream("C", NullExtra);
    first := ctx.GetStream(plain);
    second := ctx.GetStream(plain);
    third := ctx.GetStream(plain);
    fourth := ctx.GetStream(plain);
  }

  /**
   * A fork owns its cursor: after the fork of a two-stream context has
   * popped both streams, the original still pops its top stream first.
   */
  method ForkExample() returns (forkFirst: Result<Layer, ChainError>, forkSecond: Result<Layer, ChainError>,
                                original: Result<Layer, ChainError>)
    ensures forkFirst == Ok(Layer("B", None)) && forkSecond == Ok(Layer("A", None))
    ensures original == Ok(Layer("B", None))
  {
    var plain := (n: string) => false;
    var ctx := new ConnectionContext();
    ctx.AddStream("A", NullExtra);
    ctx.AddStream("B", NullExtra);
    var fork := ctx.GetCtx();
    forkFirst := fork.GetStream(plain);
    forkSecond := fork.GetStream(plain);
    original := ctx.GetStream(plain);
  }
}
