/**
 * The factory that validates a configuration entry and builds its bound
 * client, and the service that picks the default client at start-up.
 */
module Manager {
  import opened Wrappers
  import opened MinioOptions
  import BucketBinding
  import Proxy

  /** The configuration key the factory reads its entries from. */
  const ConfigKey: string := "minio"

  /** The messages of the two assertions of the configuration check. */
  const EndPointMessage: string := "[midway:minio] Must set `endPoint` in minio's config"
  const KeysMessage: string := "[midway:minio] Must set `accessKey` and `secretKey` in minio's config"

  /**
   * checkBucketConfig: the endpoint is checked first, then both keys; the
   * first failing check throws its message. The bucket is not checked.
   */
  function CheckBucketConfig(config: Options): (r: Outcome<string>)
    ensures r.Pass? <==> Truthy(config.endPoint) && Truthy(config.accessKey) && Truthy(config.secretKey)
    ensures r == Fail(EndPointMessage) <==> !Truthy(config.endPoint)
    ensures r == Fail(KeysMessage)
        <==> Truthy(config.endPoint) && !(Truthy(config.accessKey) && Truthy(config.secretKey))
  {
    if !Truthy(config.endPoint) then Fail(EndPointMessage)
    else if !(Truthy(config.accessKey) && Truthy(config.secretKey)) then Fail(KeysMessage)
    else Pass
  }

  /** Whatever the bucket option holds, even nothing, the check's verdict is the same. */
  lemma BucketNotChecked(config: Options, bucket: Option<string>)
    ensures CheckBucketConfig(config.(bucket := bucket)) == CheckBucketConfig(config)
  {
  }

  /**
   * createClient: check the entry, and only if it passes construct the bound
   * client; a failing check throws before anything is constructed.
   */
  method CreateClient(config: Options) returns (r: Result<Proxy.BoundClient, string>)
    ensures r.Failure? <==> CheckBucketConfig(config).Fail?
    ensures r.Failure? ==> r.error == CheckBucketConfig(config).error
    ensures r.Success? ==> fresh(r.value)
    ensures r.Success? ==> r.value.bucketName == Proxy.BucketValue(config.bucket) && r.value.received == []
  {
    var check := CheckBucketConfig(config);
    if check.Fail? {
      return Failure(check.error);
    }
    var client := new Proxy.BoundClient(config);
    return Success(client);
  }

  /** getName: the factory's name is the configuration key it reads. */
  function GetName(): (name: string)
    ensures name == ConfigKey
  {
    "minio"
  }

  /** The name used when the factory reports no default client name. */
  const FallbackName: string := "default"

  /**
   * `getDefaultClientName?.() || 'default'`: the factory's answer when it has
   * the method and the answer is truthy, the fallback otherwise. `reported` is
   * None when the method is absent or returns undefined.
   */
  function DefaultClientName(reported: Option<string>): (name: string)
    ensures name != ""
    ensures Truthy(reported) ==> name == reported.value
    ensures !Truthy(reported) ==> name == FallbackName
  {
    if Truthy(reported) then reported.value else FallbackName
  }

  /** What `MinioService.init` can throw. */
  datatype InitError =
    | InstanceUndefined        // reading `bucketName` of an undefined instance
    | NotFound(message: string) // the explicit not-found error

  const NotFoundMessage: string := "minio default instance not found."

  class MinioService {
    /** The default bound client, undefined until `Init` finds one. */
    var instance: Option<Proxy.BoundClient>
    var bucketName: BucketBinding.Value

    constructor ()
      ensures instance == None && bucketName == BucketBinding.Undefined
    {
      instance := None;
      bucketName := BucketBinding.Undefined;
    }

    /**
     * init: look the default name up among the factory's clients, copy the
     * client's bucket name, and only then test that a client was found. An
     * absent client makes the copy throw first, so the not-found error is
     * never the one raised. `clients` and `reported` are the factory's client
     * table and its default-name answer.
     */
    method Init(clients: map<string, Proxy.BoundClient>, reported: Option<string>)
      returns (r: Outcome<InitError>)
      modifies this
      ensures var name := DefaultClientName(reported);
        && (name in clients ==>
              instance == Some(clients[name]) && bucketName == clients[name].bucketName && r == Pass)
        && (name !in clients ==>
              instance == None && bucketName == old(bucketName) && r == Fail(InstanceUndefined))
      ensures r != Fail(NotFound(NotFoundMessage))
    {
      var name := DefaultClientName(reported);
      instance := if name in clients then Some(clients[name]) else None;
      if instance.None? {
        return Fail(InstanceUndefined);
      }
      bucketName := instance.value.bucketName;
      r := if instance.None? then Fail(NotFound(NotFoundMessage)) else Pass;
    }

    /**
     * init with the not-found test moved before the bucket name is read, so
     * that a missing default client raises the intended not-found error.
     */
    method InitCheckedFirst(clients: map<string, Proxy.BoundClient>, reported: Option<string>)
      returns (r: Outcome<InitError>)
      modifies this
      ensures var name := DefaultClientName(reported);
        && (name in clients ==>
              instance == Some(clients[name]) && bucketName == clients[name].bucketName && r == Pass)
        && (name !in clients ==>
              instance == None && bucketName == old(bucketName) && r == Fail(NotFound(NotFoundMessage)))
    {
      var name := DefaultClientName(reported);
      instance := if name in clients then Some(clients[name]) else None;
      if instance.None? {
        return Fail(NotFound(NotFoundMessage));
      }
      bucketName := instance.value.bucketName;
      r := Pass;
    }
  }
}
