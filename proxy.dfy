/**
 * The client the construct trap returns: the wrapped client instance with a
 * `bucketName` field added once at construction, seen through the get trap.
 * The wrapped client is opaque; it is modelled as the log of the calls its
 * own methods received, and listing streams come from the caller.
 */
module Proxy {
  import Wrappers
  import MinioOptions
  import opened BucketBinding
  import StreamDrain

  /** A call the unwrapped client received: the property called and its arguments. */
  datatype Invocation = Invocation(key: Key, args: seq<Value>)

  /** The `bucket` option as a JavaScript value: a missing option is undefined. */
  function BucketValue(bucket: Wrappers.Option<string>): (v: Value)
    ensures v == Undefined <==> bucket.None?
    ensures bucket.Some? ==> v == Str(bucket.value)
  {
    match bucket
    case Some(b) => Str(b)
    case None => Undefined
  }

  /**
   * The single call listObjectsAsync makes, on the unwrapped client: it lists
   * the bound bucket from the root, recursively, whatever its caller passed.
   */
  function HookListing(bucket: Value, callerArgs: seq<Value>): (inv: Invocation)
    ensures inv.key == Name("listObjects")
    ensures inv.args == [bucket, Str(""), Bool(true)]
  {
    Invocation(Name("listObjects"), [bucket, Str(""), Bool(true)])
  }

  /**
   * What the unwrapped client receives when a call is carried out on a client
   * bound to `bucket`. Calling the helper runs its listing at once.
   */
  function Received(bucket: Value, o: CallOutcome): seq<Invocation>
  {
    match o
    case Forward(n, args) => [Invocation(Name(n), args)]
    case Hook(_) => [HookListing(bucket, [])]
    case PassThrough(k, args) => [Invocation(k, args)]
  }

  /**
   * The helper's listing ignores its caller's arguments, carries the bucket
   * once (it bypasses the proxy, which would have added it a second time),
   * and is the very call a proxied `listObjects('', true)` makes.
   */
  lemma HookListingBypassesProxy(bucket: Value, a1: seq<Value>, a2: seq<Value>)
    ensures HookListing(bucket, a1) == HookListing(bucket, a2)
    ensures Received(bucket, Call(bucket, Name("listObjects"), [Str(""), Bool(true)])) == [HookListing(bucket, a1)]
    ensures Call(bucket, Name("listObjects"), HookListing(bucket, a1).args)
         == Forward("listObjects", [bucket, bucket, Str(""), Bool(true)])
  {
    assert "listObjects" in BucketMethods && "listObjects" != PresignedUrl;
    assert [bucket] + [Str(""), Bool(true)] == [bucket, Str(""), Bool(true)];
  }

  /**
   * Calling the helper through the bound client reaches the unwrapped client
   * at once with the helper's listing, whatever the caller passed.
   */
  lemma HookCallLogsListing(bucket: Value, args: seq<Value>)
    ensures Received(bucket, Call(bucket, Name(ListObjectsAsync), args)) == [HookListing(bucket, args)]
  {
    ListObjectsAsyncIsHook(bucket, args);
  }

  class BoundClient {
    /** The bucket bound at construction; no operation assigns it afterwards. */
    var bucketName: Value
    /** The calls the unwrapped client has received, oldest first. */
    var received: seq<Invocation>

    /** The construct trap: build the client and set `bucketName` from the options. */
    constructor (options: MinioOptions.Options)
      ensures bucketName == BucketValue(options.bucket)
      ensures received == []
    {
      bucketName := BucketValue(options.bucket);
      received := [];
    }

    /**
     * `client[key](...args)`: resolve through the get trap, then call. A call
     * of the helper logs its listing here; the promise it returns settles as
     * `ListObjectsAsync` says for the listing's stream.
     */
    method Invoke(key: Key, args: seq<Value>) returns (o: CallOutcome)
      modifies this`received
      ensures o == Call(bucketName, key, args)
      ensures received == old(received) + Received(bucketName, o)
      ensures o.Hook? ==> received == old(received) + [HookListing(bucketName, args)]
      ensures bucketName == old(bucketName)
    {
      o := Call(bucketName, key, args);
      received := received + Received(bucketName, o);
    }

    /**
     * The listObjectsAsync helper, bound to the unwrapped client: it lists the
     * bound bucket and drains the `stream` that listing returns.
     */
    method ListObjectsAsync<T, E>(callerArgs: seq<Value>, stream: seq<StreamDrain.Event<T, E>>)
      returns (r: StreamDrain.Settled<T, E>)
      modifies this`received
      ensures received == old(received) + [HookListing(bucketName, callerArgs)]
      ensures r == StreamDrain.Settle(stream)
      ensures bucketName == old(bucketName)
    {
      received := received + [HookListing(bucketName, callerArgs)];
      r := StreamDrain.Drain(stream);
    }
  }
}
