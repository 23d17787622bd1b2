/**
 * JSON values as they reach the plugins: the arguments of a Cordova call
 * (org.json's JSONArray on Android, the bridged `command.arguments` on iOS)
 * and the objects the plugin sends back. Payloads are passed through
 * unopened; only the shape of an argument matters to the code modelled.
 */
module JsonValues {
  import opened Wrappers

  datatype Json =
    | JNull
    | JBool(b: bool)
    | JNum(n: int)
    | JStr(s: string)
    | JArr(items: seq<Json>)
    | JObj(fields: seq<(string, Json)>)

  /** JSONArray.getString(i): the string at position i, or None where org.json throws JSONException. */
  function GetString(args: seq<Json>, i: nat): Option<string>
  {
    if i < |args| && args[i].JStr? then Some(args[i].s) else None
  }

  /** JSONArray.getJSONObject(i): the object at position i, or None where org.json throws JSONException. */
  function GetJSONObject(args: seq<Json>, i: nat): Option<Json>
  {
    if i < |args| && args[i].JObj? then Some(args[i]) else None
  }
}
