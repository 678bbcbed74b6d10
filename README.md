# midway-minio bucket binding, modelled in Dafny

This project models the core of the midway-minio integration module: the
proxy that binds a MinIO client to one bucket, and the factory code that
validates a configuration entry and picks the default client.

- **Call rewriting** (`binding.dfy`, module `BucketBinding`). A property read on a
  bound client is classified by its key alone. The key is checked against a fixed
  table of 45 operation names. `presignedUrl` gets the bucket after the caller's first
  argument (the HTTP method). Every other table name gets the bucket in front of the
  caller's arguments. The `listObjectsAsync` helper resolves to the helper. Every other
  key, symbols included, reaches the client's own property unchanged.
- **Stream drain** (`drain.dfy`, module `StreamDrain`). `listObjectsAsync` turns a
  listing stream into one promise. The stream is a finite sequence of `Data`, `End` and
  `Error` events. The loop is specified by `Settle`, and lemmas characterise `Settle`:
  resolve with the data items in order, reject on an earlier error, the first settling
  event wins, stay pending when neither comes.
- **Bound client** (`proxy.dfy`, module `Proxy`). The construct trap returns a class
  `BoundClient`. Its `bucketName` field is set once from the `bucket` option. The wrapped
  MinIO client is opaque and appears only as the log `received` of the calls its own
  methods got. The helper lists `(bucketName, '', true)` on the unwrapped client,
  whatever its caller passed.
- **Factory and service** (`manager.dfy`, module `Manager`). `checkBucketConfig` uses
  JavaScript truthiness over optional strings. `createClient` checks before it
  constructs. `getName` is the configuration key. `getDefaultClientName?.() || 'default'`
  picks the default name. `MinioService.init` assigns its fields in the source's order.
- `options.dfy` (module `MinioOptions`) holds the option record and truthiness.
  `wrappers.dfy` holds `Option`, `Result` and `Outcome`.

The bucket option is never validated, so a client can be bound to `undefined`
(`Value.Undefined`); the model keeps that.

## Model

| member | source | states |
|---|---|---|
| BucketBinding.Resolve | src/proxy.ts:86-121 | presignedUrl resolves to the bucket-after-method wrapper and only it; other table names to the bucket-first wrapper; a string outside the table that names a hook to the hook; every other key, symbols included, to the client's own property under the same key |
| BucketBinding.PrependBucket | src/proxy.ts:105-111 | the forwarded list is one longer, starts with the bucket, and holds the caller's arguments unchanged from offset 1 |
| BucketBinding.InsertBucketAfterMethod | src/proxy.ts:94-103 | the caller's first argument stays first, the bucket is second and the rest follow unchanged; an empty call forwards an undefined method and the bucket |
| BucketBinding.ListObjectsAsyncOutsideTable | src/proxy.ts:8-57 | the helper's name is not one of the table names |
| BucketBinding.HooksOutsideTable | src/proxy.ts:8-57 | no hook name is in the table, and the table has 45 names |
| BucketBinding.CallBucketFirst | src/proxy.ts:92-111 | a call of any table name other than presignedUrl forwards `[bucket] + args`: one longer, the caller's list unchanged at offset 1 |
| BucketBinding.CallPresignedUrl | src/proxy.ts:45-103 | presignedUrl is in the table yet resolves to its special case; `[m] + r` is forwarded as `[m, bucket] + r`, and `[]` as `[undefined, bucket]` |
| BucketBinding.CallPassThrough | src/proxy.ts:90-120 | a symbol, or a name in neither the table nor the hooks, reaches the client with the key and arguments unchanged |
| BucketBinding.BucketNameNotIntercepted | src/proxy.ts:82-120 | reading `bucketName` through the proxy gives the client's own property |
| BucketBinding.ListObjectsAsyncIsHook | src/proxy.ts:83-116 | listObjectsAsync is outside the table and resolves to the helper, whatever the arguments |
| BucketBinding.ForwardRoundTrip | src/proxy.ts:94-111 | every forwarded list carries the bound bucket at the operation's bucket position, and removing it there gives back the caller's arguments (an empty presignedUrl call gives back one undefined argument) |
| BucketBinding.ClassificationIgnoresArguments | src/proxy.ts:86-121 | two calls of the same key have the same kind and operation whatever arguments they pass, and equally long argument lists are forwarded equally long |
| StreamDrain.Drain | src/proxy.ts:58-71 | the event loop ends in exactly the state `Settle` gives for the event sequence |
| StreamDrain.QuietItems | src/proxy.ts:61-64 | over data events only, the gathered items are exactly their payloads in emission order |
| StreamDrain.SettleFromAt | src/proxy.ts:61-70 | with only data before the first settling event, an end resolves with the gathered items followed by those data items, and an error rejects with that error |
| StreamDrain.SettleResolves | src/proxy.ts:65-67 | data events then end resolve with exactly those items in order, possibly none |
| StreamDrain.SettleRejects | src/proxy.ts:68-70 | data events then an error reject with that error and return no items |
| StreamDrain.SettlePending | src/proxy.ts:58-71 | a stream that neither ends nor fails leaves the promise unsettled |
| StreamDrain.FirstSettlingEventWins | src/proxy.ts:58-71 | events after the first end or error do not change the result |
| StreamDrain.DrainMatchesManualCollect | test/index.test.ts:16-30 | for a stream without errors, the helper resolves exactly when collecting by hand with data and end listeners finds an end, and then with the same items |
| Proxy.BucketValue | src/proxy.ts:82 | the bound bucket is the `bucket` option's string, or undefined when the option is missing |
| Proxy.HookListing | src/proxy.ts:57-60 | the helper lists the bound bucket with prefix `''` and recursive `true` |
| Proxy.HookCallLogsListing | src/proxy.ts:57-116 | calling `listObjectsAsync` through the bound client makes the wrapped client receive the helper's listing, whatever the caller passed |
| Proxy.HookListingBypassesProxy | src/proxy.ts:57-115 | the helper's listing ignores the caller's arguments, is the call a proxied `listObjects('', true)` makes, and sending it through the proxy would have put the bucket in twice |
| Proxy.BoundClient.constructor | src/proxy.ts:76-82 | a new client is bound to the `bucket` option and its wrapped client has received nothing |
| Proxy.BoundClient.Invoke | src/proxy.ts:86-121 | a call returns the outcome `Call` gives for the bound bucket and leaves `bucketName` unchanged; the wrapped client's log grows by the forwarded or passed-through call, and a call of the helper logs its listing `(bucketName, '', true)` at once |
| Proxy.BoundClient.ListObjectsAsync | src/proxy.ts:57-72 | the helper makes one listing call on the wrapped client and resolves, rejects or stays pending as `Settle` says for the stream that listing returns |
| Manager.CheckBucketConfig | src/manager.ts:22-31 | passes exactly when endPoint, accessKey and secretKey are all present and non-empty; fails with the endpoint message exactly when endPoint is missing or empty, else with the keys message exactly when a key is missing or empty |
| Manager.BucketNotChecked | src/manager.ts:22-31 | the check's verdict does not depend on the bucket option |
| Manager.CreateClient | src/manager.ts:49-58 | fails, with the check's message, exactly when the check fails, constructing nothing; otherwise returns a fresh client bound to the `bucket` option |
| Manager.GetName | src/manager.ts:38-62 | the factory's name is the configuration key `minio` it reads its entries from |
| Manager.DefaultClientName | src/manager.ts:77-79 | the default name is the factory's answer when that is present and non-empty, else `default`; it is never empty |
| Manager.MinioService.constructor | src/manager.ts:71-73 | before init the instance and the bucket name are undefined |
| Manager.MinioService.Init | src/manager.ts:76-84 | with a client under the default name, the instance is that client and the bucket name is its bucket; without one, reading the bucket name throws first, nothing is copied, and the not-found error is never raised |
| Manager.MinioService.InitCheckedFirst | src/manager.ts:76-84 | as Init with the not-found test made before the read: a missing default client raises the not-found error |

## Findings

| source | as written | input that shows it | evidently intended | confidence | as-written member | corrected member |
|---|---|---|---|---|---|---|
| src/manager.ts:80-83 | `this.instance.bucketName` is read before `if (!this.instance)` tests for a missing instance | a factory with no client under the default name: the read of `bucketName` from `undefined` throws a TypeError | throw `MidwayCommonError('minio default instance not found.')` | high; not executed | Manager.MinioService.Init | Manager.MinioService.InitCheckedFirst |

## Left out

- The MinIO `Client` and its network operations are opaque. Only the calls its methods receive are recorded. A listing's stream is a parameter.
- Calls the wrapped client makes to its own methods through the proxy receiver are not modelled. These are pass-through calls whose `this` is the proxy.
- Node streams, event emitters and promises become a finite event sequence and the `Settled` result. Asynchrony and interleaving are not modelled.
- The helper's resolved array is aliased with its local array. Pushes after `end` would show in it. A readable stream emits nothing after `end`, so the drain stops at the first settling event.
- Reading a non-function own property such as `bucketName` is not an `Invoke` call. `BucketNameNotIntercepted` and the `bucketName` field cover it.
- The get trap takes `originalMethod` from the prototype. The model names the operation instead and does not model JavaScript reflection.
- Port, TLS flag, region and the Client constructor's own validation are not modelled. They are handed to the wrapped library unread.
- Manager.MinioService.Init takes the factory's client table and its `getDefaultClientName` answer as parameters. `ServiceFactory.get`, client caching and `initClients` belong to the host framework and are not visible.
- The registry's one-client-per-name caching is not modelled, because it is host-framework code.
- DI decorators, logger calls, `delegateTargetPrototypeMethod`, the configuration class and the type declarations have no behaviour to model.
- `listObjectsV2Async` is declared in src/type.ts:171 but has no implementation, so it is not modelled.
