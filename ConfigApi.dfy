/**
 * The serverless `/api/config` endpoint (api/config.js): it returns the public
 * configuration read from three environment variables, and flags a missing
 * required one with an `error` field rather than an error status.
 */
module ConfigApi {
  import opened JsText

  /** The environment variables; None when unset. */
  datatype Env = Env(supabaseUrl: Option<string>, anonKey: Option<string>, webhookUrl: Option<string>)

  /** The JSON body: the three values, and `error` only when a required one is missing. */
  datatype ConfigBody = ConfigBody(supabaseUrl: string, anonKey: string, webhookUrl: string, error: Option<string>)

  datatype ConfigResponse = ConfigResponse(status: nat, headers: seq<(string, string)>, body: ConfigBody)

  const CorsHeaders: seq<(string, string)> :=
    [("Access-Control-Allow-Origin", "*"), ("Access-Control-Allow-Methods", "GET"), ("Content-Type", "application/json")]

  const MissingEnvMessage: string :=
    "Missing environment variables. Please set SUPABASE_URL and SUPABASE_ANON_KEY in Vercel dashboard."

  /** `process.env.X || ''`: an unset variable reads as the empty string. */
  function EnvText(v: Option<string>): (s: string)
    ensures v.Some? ==> s == v.value
    ensures v.None? ==> s == ""
  {
    if v.Some? then v.value else ""
  }

  /** The handler: always 200, values passed through, `error` exactly when the URL or the key is empty. */
  function Handler(env: Env): (r: ConfigResponse)
    ensures r.status == 200 && r.headers == CorsHeaders
    ensures r.body.supabaseUrl == EnvText(env.supabaseUrl) && r.body.anonKey == EnvText(env.anonKey)
    ensures r.body.webhookUrl == EnvText(env.webhookUrl)
    ensures r.body.error.Some? <==> EnvText(env.supabaseUrl) == "" || EnvText(env.anonKey) == ""
    ensures r.body.error.Some? ==> r.body.error.value == MissingEnvMessage
  {
    var url := EnvText(env.supabaseUrl);
    var key := EnvText(env.anonKey);
    var hook := EnvText(env.webhookUrl);
    if url == "" || key == "" then ConfigResponse(200, CorsHeaders, ConfigBody(url, key, hook, Some(MissingEnvMessage)))
    else ConfigResponse(200, CorsHeaders, ConfigBody(url, key, hook, None))
  }

  /** The webhook URL is never checked: an unset one yields a successful response with an empty URL. */
  lemma WebhookUrlNotRequired(url: string, key: string)
    requires url != "" && key != ""
    ensures Handler(Env(Some(url), Some(key), None)).body == ConfigBody(url, key, "", None)
  {
  }
}
