/** The message and channel paths, and the extras keys, shared by both sides. */
module Constants {
  const PATH_FILE_TRANSFER := "/com.google.devrel.wcl/transfer/file/"
  const PATH_STREAM_TRANSFER := "/com.google.devrel.wcl/transfer/stream/"
  const PATH_LAUNCH_APP := "/com.google.devrel.wcl/launch-app"
  const PATH_HTTP_REQUEST := "/com.google.devrel.wcl/PATH_HTTP_REQUEST"
  const PATH_HTTP_RESPONSE := "/com.google.devrel.wcl/PATH_HTTP_RESPONSE"

  const KEY_LIST_REQUEST_CODE := "com.google.devrel.wcl.widgets.KEY_LIST_REQUEST_CODE"
  const KEY_LIST_RESPONSE_POSITION := "com.google.devrel.wcl.widgets.KEY_LIST_RESPONSE_POSITION"
  const KEY_LIST_RESPONSE_VALUE := "com.google.devrel.wcl.widgets.KEY_LIST_RESPONSE_VALUE"
  const KEY_LIST_RESPONSE_HANDLED := "com.google.devrel.wcl.widgets.KEY_LIST_RESPONSE_HANDLED"
  const KEY_LIST_CONFIG := "com.google.devrel.wcl.widgets.KEY_LIST_CONFIG"
}
