/**
 * The options a MinIO client is built from (`MWMinioOptions`): the client
 * options of the wrapped library plus the bucket the client is bound to.
 */
module MinioOptions {
  import opened Wrappers

  /**
   * The fields the binding layer reads. Every field may be missing from the
   * configuration object; port, TLS flag and region are handed to the wrapped
   * client unread and are not part of this model.
   */
  datatype Options = Options(
    endPoint: Option<string>,
    accessKey: Option<string>,
    secretKey: Option<string>,
    bucket: Option<string>)

  /** JavaScript truthiness of an optional string: present and non-empty. */
  predicate Truthy(s: Option<string>)
  {
    s.Some? && s.value != ""
  }
}
