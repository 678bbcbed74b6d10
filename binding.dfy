/**
 * The decision the bucket-binding proxy makes when a property is read from a
 * bound client, and the argument lists it then hands to the wrapped client.
 * Classification looks only at the property key; argument values are never
 * inspected, only their positions.
 */
module BucketBinding {

  /** A JavaScript value passed as an argument; only its position matters here. */
  datatype Value = Undefined | Str(s: string) | Bool(b: bool) | Num(n: int) | Obj(id: nat)

  /** A property key: a string name or a symbol. */
  datatype Key = Name(name: string) | Symbol(id: nat)

  /**
   * The operations that take the bucket name from the bound client, in the
   * order of the source table; written as three literals (bucket settings,
   * object operations, presigned URLs with notifications and policy) joined.
   */
  const BucketMethods: seq<string> := [
    "listObjects", "listObjectsV2", "listIncompleteUploads", "setBucketVersioning",
    "getBucketVersioning", "setBucketReplication", "getBucketReplication",
    "removeBucketReplication", "setBucketTagging", "removeBucketTagging",
    "getBucketTagging", "setBucketLifecycle", "getBucketLifecycle", "removeBucketLifecycle",
    "setObjectLockConfig", "getObjectLockConfig", "setBucketEncryption",
    "getBucketEncryption", "removeBucketEncryption"
  ] + [
    "getObject", "getPartialObject", "fGetObject", "putObject", "fPutObject", "statObject",
    "removeObject", "removeObjects", "removeIncompleteUpload", "putObjectRetention",
    "getObjectRetention", "setObjectTagging", "removeObjectTagging", "getObjectTagging",
    "getObjectLegalHold", "setObjectLegalHold", "selectObjectContent"
  ] + [
    "presignedUrl", "presignedGetObject", "presignedPutObject", "getBucketNotification",
    "setBucketNotification", "removeAllBucketNotification", "listenBucketNotification",
    "getBucketPolicy", "setBucketPolicy"
  ]

  /** The one operation whose first parameter is an HTTP method, not the bucket. */
  const PresignedUrl: string := "presignedUrl"

  /** The helper methods added on top of the wrapped client. */
  const ListObjectsAsync: string := "listObjectsAsync"
  const Hooks: seq<string> := [ListObjectsAsync]

  /** What a property read on the bound client yields. */
  datatype Property =
    | BucketFirst(name: string)      // a wrapper that puts the bucket before the caller's arguments
    | BucketAfterMethod(name: string) // the presignedUrl wrapper: bucket after the first argument
    | HookFn(name: string)           // a helper bound to the unwrapped client
    | Own(key: Key)                  // the client's own property, untouched

  /** The get trap: which kind of property a key resolves to. */
  function Resolve(key: Key): (p: Property)
    ensures p.BucketAfterMethod? <==> key == Name(PresignedUrl)
    ensures p.BucketFirst? <==> key.Name? && key.name in BucketMethods && key.name != PresignedUrl
    ensures p.HookFn? <==> key.Name? && key.name !in BucketMethods && key.name in Hooks
    ensures p.Own? <==> key.Symbol? || (key.name !in BucketMethods && key.name !in Hooks)
    ensures p.Own? ==> p.key == key
    ensures !p.Own? ==> key == Name(p.name)
  {
    match key
    case Symbol(_) => Own(key)
    case Name(n) =>
      if n in BucketMethods then
        if n == PresignedUrl then BucketAfterMethod(n) else BucketFirst(n)
      else if n in Hooks then HookFn(n)
      else Own(key)
  }

  /** The argument list a bucket-first wrapper hands on. */
  function PrependBucket(bucket: Value, args: seq<Value>): (r: seq<Value>)
    ensures |r| == |args| + 1
    ensures r[0] == bucket
    ensures forall i :: 0 <= i < |args| ==> r[i + 1] == args[i]
  {
    [bucket] + args
  }

  /**
   * The argument list the presignedUrl wrapper hands on. The caller's list is
   * destructured as `[method, ...rest]`, so an empty list yields an undefined
   * method and an empty rest.
   */
  function InsertBucketAfterMethod(bucket: Value, args: seq<Value>): (r: seq<Value>)
    ensures |r| == if args == [] then 2 else |args| + 1
    ensures r[0] == (if args == [] then Undefined else args[0])
    ensures r[1] == bucket
    ensures forall i :: 1 <= i < |args| ==> r[i + 1] == args[i]
  {
    var httpMethod := if args == [] then Undefined else args[0];
    var rest := if args == [] then [] else args[1..];
    [httpMethod, bucket] + rest
  }

  /** Where a forwarded argument list carries the bucket, by operation name. */
  function BucketIndex(name: string): (i: nat)
    ensures i <= 1
    ensures i == 1 <==> name == PresignedUrl
  {
    if name == PresignedUrl then 1 else 0
  }

  /** The result of calling a property with some arguments. */
  datatype CallOutcome =
    | Forward(name: string, args: seq<Value>)   // the wrapped client's own method received these arguments
    | Hook(name: string)                        // a helper ran on the unwrapped client; it ignores the arguments
    | PassThrough(key: Key, args: seq<Value>)   // the client's own property was called unchanged

  /** Calling the property `p` with `args` on a client bound to `bucket`. */
  function Apply(bucket: Value, p: Property, args: seq<Value>): CallOutcome
  {
    match p
    case BucketFirst(n) => Forward(n, PrependBucket(bucket, args))
    case BucketAfterMethod(n) => Forward(n, InsertBucketAfterMethod(bucket, args))
    case HookFn(n) => Hook(n)
    case Own(k) => PassThrough(k, args)
  }

  /** `client[key](...args)` on a client bound to `bucket`. */
  function Call(bucket: Value, key: Key, args: seq<Value>): CallOutcome
  {
    Apply(bucket, Resolve(key), args)
  }

  /**
   * The caller's arguments recovered from a forwarded list: the inverse of the
   * rewriting, removing the bucket from the position it was put in.
   */
  function Unbind(name: string, forwarded: seq<Value>): (args: seq<Value>)
    requires |forwarded| > BucketIndex(name)
    ensures |args| + 1 == |forwarded|
  {
    forwarded[..BucketIndex(name)] + forwarded[BucketIndex(name) + 1..]
  }

  /** The table and the hook list share no name, so the table never hides a hook. */
  lemma HooksOutsideTable()
    ensures forall n :: n in Hooks ==> n !in BucketMethods
    ensures |BucketMethods| == 45
  {
  }

  /** The helper's name is none of the 45 table names. */
  lemma ListObjectsAsyncOutsideTable()
    ensures ListObjectsAsync !in BucketMethods
  {
  }

  /** Every table name but presignedUrl forwards the bucket followed by the caller's arguments. */
  lemma CallBucketFirst(bucket: Value, name: string, args: seq<Value>)
    requires name in BucketMethods && name != PresignedUrl
    ensures Call(bucket, Name(name), args) == Forward(name, [bucket] + args)
    ensures |Call(bucket, Name(name), args).args| == |args| + 1
    ensures Call(bucket, Name(name), args).args[1..] == args
  {
  }

  /**
   * presignedUrl is in the table, yet its special case is decided first: the
   * caller's first argument stays first and the bucket goes second.
   */
  lemma CallPresignedUrl(bucket: Value, httpMethod: Value, rest: seq<Value>)
    ensures PresignedUrl in BucketMethods
    ensures Resolve(Name(PresignedUrl)) == BucketAfterMethod(PresignedUrl)
    ensures Call(bucket, Name(PresignedUrl), [httpMethod] + rest)
         == Forward(PresignedUrl, [httpMethod, bucket] + rest)
    ensures Call(bucket, Name(PresignedUrl), []) == Forward(PresignedUrl, [Undefined, bucket])
  {
  }

  /** A name outside the table and the hooks, or any symbol, reaches the client unchanged. */
  lemma CallPassThrough(bucket: Value, key: Key, args: seq<Value>)
    requires key.Symbol? || (key.name !in BucketMethods && key.name !in Hooks)
    ensures Call(bucket, key, args) == PassThrough(key, args)
  {
  }

  /** Reading `bucketName` from a bound client yields the client's own field. */
  lemma BucketNameNotIntercepted()
    ensures Resolve(Name("bucketName")) == Own(Name("bucketName"))
  {
  }

  /** listObjectsAsync is not in the table, so it resolves to the helper. */
  lemma ListObjectsAsyncIsHook(bucket: Value, args: seq<Value>)
    ensures ListObjectsAsync !in BucketMethods
    ensures Resolve(Name(ListObjectsAsync)) == HookFn(ListObjectsAsync)
    ensures Call(bucket, Name(ListObjectsAsync), args) == Hook(ListObjectsAsync)
  {
  }

  /**
   * Every forwarded list carries the bound bucket at the operation's bucket
   * position, and removing it there gives back the caller's arguments (an
   * empty presignedUrl call comes back as one undefined method argument).
   */
  lemma ForwardRoundTrip(bucket: Value, key: Key, args: seq<Value>)
    requires Call(bucket, key, args).Forward?
    ensures var o := Call(bucket, key, args);
      && |o.args| > BucketIndex(o.name)
      && o.args[BucketIndex(o.name)] == bucket
      && Unbind(o.name, o.args) == (if o.name == PresignedUrl && args == [] then [Undefined] else args)
  {
    var o := Call(bucket, key, args);
    if o.name == PresignedUrl {
      if args != [] {
        assert o.args == [args[0], bucket] + args[1..];
        assert o.args[..1] + o.args[2..] == [args[0]] + args[1..] == args;
      }
    } else {
      assert o.args == [bucket] + args;
      assert o.args[1..] == args;
    }
  }

  /**
   * The outcome's kind and operation do not depend on the argument values:
   * two calls of the same key behave alike whatever they pass.
   */
  lemma ClassificationIgnoresArguments(bucket: Value, key: Key, a1: seq<Value>, a2: seq<Value>)
    ensures Call(bucket, key, a1).Forward? <==> Call(bucket, key, a2).Forward?
    ensures Call(bucket, key, a1).Hook? <==> Call(bucket, key, a2).Hook?
    ensures Call(bucket, key, a1).Forward? ==> Call(bucket, key, a1).name == Call(bucket, key, a2).name
    ensures !Call(bucket, key, a1).Hook? && |a1| == |a2| ==> |Call(bucket, key, a1).args| == |Call(bucket, key, a2).args|
  {
  }
}
