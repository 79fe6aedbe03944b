/**
 * The browser's configuration loader (js/config.js): it fetches `/api/config`
 * once, accepts the values only from a complete reply, falls back to a
 * developer copy in localStorage on local pages, and lets callers wait until
 * loading is over. The fetch and localStorage are inputs.
 */
module ClientConfig {
  import opened JsText
  import opened Browser
  import ConfigApi

  /** The three values `getAll` returns; None stands for null or undefined. */
  datatype ConfigValues = ConfigValues(supabaseUrl: Option<string>, anonKey: Option<string>, webhookUrl: Option<string>)

  /** A parsed JSON object body of `/api/config`. */
  datatype ApiBody = ApiBody(supabaseUrl: Option<string>, anonKey: Option<string>, webhookUrl: Option<string>, error: Option<string>)

  /**
   * What the fetch gave: a rejection, a non-2xx status, or a 2xx whose body was
   * an object or failed to parse (or was not an object).
   */
  datatype ApiResult = FetchFailed | NotOk | OkBody(body: ApiBody) | OkUnreadable

  /** localStorage `dev_config`, as `JSON.parse` reads it; None when absent or empty. */
  datatype DevConfig = DevObject(values: ConfigValues) | DevNull | DevUnparseable

  /** The API's values are taken only from a 2xx object with no error and both required values non-empty. */
  predicate Accepts(r: ApiResult) {
    r.OkBody? && !NonEmpty(r.body.error) && NonEmpty(r.body.supabaseUrl) && NonEmpty(r.body.anonKey)
  }

  /** Local pages are the localhost and 127.0.0.1 hosts and file: pages. */
  predicate IsLocalPage(loc: Location) {
    IsLocalHostname(loc) || loc.protocol == "file:"
  }

  /** The values after `tryLocalFallback`: a developer copy on a local page, else the old ones. */
  function FallbackValues(loc: Location, dev: Option<DevConfig>, prior: ConfigValues): (v: ConfigValues)
    ensures !IsLocalPage(loc) ==> v == prior
    ensures IsLocalPage(loc) && dev.Some? && dev.value.DevObject? ==> v == dev.value.values
    ensures !(IsLocalPage(loc) && dev.Some? && dev.value.DevObject?) ==> v == prior
  {
    if IsLocalPage(loc) && dev.Some? && dev.value.DevObject? then dev.value.values else prior
  }

  /** The values after a finished load. */
  function LoadedValues(r: ApiResult, loc: Location, dev: Option<DevConfig>, prior: ConfigValues): (v: ConfigValues)
    ensures Accepts(r) ==> v == ConfigValues(r.body.supabaseUrl, r.body.anonKey, r.body.webhookUrl)
    ensures !Accepts(r) ==> v == FallbackValues(loc, dev, prior)
  {
    if Accepts(r) then ConfigValues(r.body.supabaseUrl, r.body.anonKey, r.body.webhookUrl)
    else FallbackValues(loc, dev, prior)
  }

  /** A deployed page never takes values from anywhere but an accepted API reply. */
  lemma DeployedPageKeepsValuesOnFailure(r: ApiResult, loc: Location, dev: Option<DevConfig>, prior: ConfigValues)
    requires !IsLocalPage(loc) && !Accepts(r)
    ensures LoadedValues(r, loc, dev, prior) == prior
  {
  }

  /** The reply the endpoint sends for an environment, as the loader receives it. */
  function ReceivedReply(env: ConfigApi.Env): ApiResult {
    var b := ConfigApi.Handler(env).body;
    OkBody(ApiBody(Some(b.supabaseUrl), Some(b.anonKey), Some(b.webhookUrl), b.error))
  }

  /**
   * The endpoint and the loader agree: the loader accepts a reply exactly when the
   * endpoint did not mark it with `error`, and then takes the environment's values,
   * an unset webhook URL included (as "").
   */
  lemma LoaderAcceptsExactlyErrorFreeReplies(env: ConfigApi.Env, loc: Location, dev: Option<DevConfig>, prior: ConfigValues)
    ensures Accepts(ReceivedReply(env)) <==> ConfigApi.Handler(env).body.error.None?
    ensures Accepts(ReceivedReply(env)) ==>
              LoadedValues(ReceivedReply(env), loc, dev, prior)
              == ConfigValues(env.supabaseUrl, env.anonKey, Some(ConfigApi.EnvText(env.webhookUrl)))
  {
  }

  class Config {
    var loading: bool
    var loaded: bool
    var supabaseUrl: Option<string>
    var anonKey: Option<string>
    var webhookUrl: Option<string>

    function Values(): ConfigValues
      reads this
    {
      ConfigValues(supabaseUrl, anonKey, webhookUrl)
    }

    /** All values null; the constructor's own `loadFromAPI` call is now waiting on the fetch. */
    constructor()
      ensures loading && !loaded && Values() == ConfigValues(None, None, None)
    {
      loading := true;
      loaded := false;
      supabaseUrl := None;
      anonKey := None;
      webhookUrl := None;
    }

    /** `getAll`: exactly the three current values. */
    method GetAll() returns (v: ConfigValues)
      ensures v.supabaseUrl == supabaseUrl && v.anonKey == anonKey && v.webhookUrl == webhookUrl
    {
      v := ConfigValues(supabaseUrl, anonKey, webhookUrl);
    }

    /** `tryLocalFallback`: always ends with `loaded` set. */
    method TryLocalFallback(loc: Location, dev: Option<DevConfig>)
      modifies this
      ensures loaded && loading == old(loading)
      ensures Values() == FallbackValues(loc, dev, old(Values()))
    {
      if !IsLocalPage(loc) {
        loaded := true;
        return;
      }
      if dev.Some? {
        match dev.value {
          case DevObject(v) =>
            supabaseUrl := v.supabaseUrl;
            anonKey := v.anonKey;
            webhookUrl := v.webhookUrl;
            loaded := true;
            return;
          case DevNull =>
          case DevUnparseable =>
        }
      }
      loaded := true;
    }

    /** The rest of a started `loadFromAPI`, once the fetch has answered. */
    method FinishLoad(r: ApiResult, loc: Location, dev: Option<DevConfig>)
      modifies this
      ensures loaded && !loading
      ensures Values() == LoadedValues(r, loc, dev, old(Values()))
    {
      if Accepts(r) {
        supabaseUrl := r.body.supabaseUrl;
        anonKey := r.body.anonKey;
        webhookUrl := r.body.webhookUrl;
        loaded := true;
      } else {
        TryLocalFallback(loc, dev);
      }
      loading := false;
    }

    /** `loadFromAPI`: a call made while another is loading has no effect. */
    method LoadFromApi(r: ApiResult, loc: Location, dev: Option<DevConfig>)
      modifies this
      ensures old(loading) ==> loading && loaded == old(loaded) && Values() == old(Values())
      ensures !old(loading) ==> loaded && !loading && Values() == LoadedValues(r, loc, dev, old(Values()))
    {
      if loading {
        return;
      }
      loading := true;
      FinishLoad(r, loc, dev);
    }

    /**
     * `waitForLoad`: polls while nothing is loaded and a load is running. The
     * running load answers with `r` after `polls` polls; the result is `loaded`.
     */
    method WaitForLoad(polls: nat, r: ApiResult, loc: Location, dev: Option<DevConfig>) returns (ready: bool)
      modifies this
      ensures ready == loaded
      ensures !old(loaded) && old(loading) ==>
                loaded && !loading && Values() == LoadedValues(r, loc, dev, old(Values()))
      ensures old(loaded) || !old(loading) ==>
                loaded == old(loaded) && loading == old(loading) && Values() == old(Values())
    {
      var left := polls;
      while !loaded && loading
        invariant old(loaded) || !old(loading) ==>
                    loaded == old(loaded) && loading == old(loading) && Values() == old(Values())
        invariant !old(loaded) && old(loading) ==>
                    (loading && !loaded && Values() == old(Values()))
                    || (loaded && !loading && Values() == LoadedValues(r, loc, dev, old(Values())))
        decreases left + (if loading then 1 else 0)
      {
        if left == 0 {
          FinishLoad(r, loc, dev);
        } else {
          left := left - 1;
        }
      }
      ready := loaded;
    }
  }
}
