/** The constants of `Config` that the request pipeline reads.  The
    configurable values (server URL, app key, device id) are fields of the
    client object instead. */
module Config {

  const SDK_NAME: string := "countly-sdk-java"
  const SDK_VERSION: string := "1.0.0"

  const TYPE_HTTP_CONSUMER: int := 100
  const TYPE_LOG_CONSUMER: int := 101
  const TYPE_SEND_EVENT: int := 200
  const TYPE_SEND_USER_DATA: int := 201
}
