/**
 * The system provider's state machine (`SystemProvider` without its React
 * wrapper): which apps have announced readiness, the error log, the loading
 * flag and the shared configuration, driven by APP_READY, ERROR and
 * CONFIG_UPDATED messages, the loading timeout, and two actions. Messages the
 * provider sends through its typed senders are appended to `outbox`.
 */
module SystemState {
  import opened Payloads
  import opened OrderedSet

  /** `setReadyApps(prev => prev.includes(id) ? prev : [...prev, id])`. */
  function MarkReady(apps: seq<string>, id: string): (r: seq<string>)
    ensures id in r
    ensures apps <= r && |r| <= |apps| + 1
    ensures id in apps ==> r == apps
    ensures NoDuplicates(apps) ==> NoDuplicates(r)
  {
    Add(apps, id)
  }

  /** `{...prev, ...incoming}`: a shallow merge in which the incoming keys win. */
  function MergeConfig(prev: map<string, Value>, incoming: map<string, Value>): (r: map<string, Value>)
    ensures r.Keys == prev.Keys + incoming.Keys
    ensures forall k :: k in incoming ==> r[k] == incoming[k]
    ensures forall k :: k in prev && k !in incoming ==> r[k] == prev[k]
  {
    prev + incoming
  }

  /** Merging the same update twice is merging it once. */
  lemma MergeIdempotent(prev: map<string, Value>, incoming: map<string, Value>)
    ensures MergeConfig(MergeConfig(prev, incoming), incoming) == MergeConfig(prev, incoming)
  {
  }

  class SystemProvider {
    const appId: string
    var errors: seq<ErrorPayload>
    var readyApps: seq<string>
    var isLoading: bool
    var config: map<string, Value>
    var outbox: seq<Outgoing>

    /** `readyApps` never holds an app twice. */
    ghost predicate Valid()
      reads this
    {
      NoDuplicates(readyApps)
    }

    constructor (appId: string, initialConfig: map<string, Value>)
      ensures Valid()
      ensures this.appId == appId
      ensures errors == [] && readyApps == [] && isLoading && config == initialConfig && outbox == []
    {
      this.appId := appId;
      errors := [];
      readyApps := [];
      isLoading := true;
      config := initialConfig;
      outbox := [];
    }

    /** An APP_READY message: records the app once, in first-arrival order, and ends loading. */
    method OnAppReady(payload: ReadyPayload)
      requires Valid()
      modifies this
      ensures Valid()
      ensures readyApps == MarkReady(old(readyApps), payload.appId)
      ensures !isLoading
      ensures errors == old(errors) && config == old(config) && outbox == old(outbox)
    {
      readyApps := MarkReady(readyApps, payload.appId);
      isLoading := false;
    }

    /** An ERROR message: appended to the log, duplicates and order kept. */
    method OnError(payload: ErrorPayload)
      requires Valid()
      modifies this
      ensures Valid()
      ensures errors == old(errors) + [payload]
      ensures readyApps == old(readyApps) && isLoading == old(isLoading) && config == old(config) && outbox == old(outbox)
    {
      errors := errors + [payload];
    }

    /** A CONFIG_UPDATED message: its `config` is merged over the current one. */
    method OnConfigUpdated(payload: ConfigPayload)
      requires Valid()
      modifies this
      ensures Valid()
      ensures config == MergeConfig(old(config), payload.config)
      ensures errors == old(errors) && readyApps == old(readyApps) && isLoading == old(isLoading) && outbox == old(outbox)
    {
      config := MergeConfig(config, payload.config);
    }

    /** The loading timeout fires: loading ends even if no app reported ready. */
    method OnLoadingTimeout()
      requires Valid()
      modifies this
      ensures Valid()
      ensures !isLoading
      ensures errors == old(errors) && readyApps == old(readyApps) && config == old(config) && outbox == old(outbox)
    {
      isLoading := false;
    }

    /** `clearErrors`. */
    method ClearErrors()
      requires Valid()
      modifies this
      ensures Valid()
      ensures errors == []
      ensures readyApps == old(readyApps) && isLoading == old(isLoading) && config == old(config) && outbox == old(outbox)
    {
      errors := [];
    }

    /**
     * `updateConfig(newConfig)`: merges locally and sends exactly one CONFIG_UPDATED
     * message whose `config` is `newConfig` itself, not the merged result.
     */
    method UpdateConfig(newConfig: map<string, Value>, now: int)
      requires Valid()
      modifies this
      ensures Valid()
      ensures config == MergeConfig(old(config), newConfig)
      ensures outbox == old(outbox) + [Outgoing(CONFIG_UPDATED, ConfigUpdate(ConfigPayload(newConfig, appId, now)))]
      ensures errors == old(errors) && readyApps == old(readyApps) && isLoading == old(isLoading)
    {
      config := MergeConfig(config, newConfig);
      outbox := outbox + [Outgoing(CONFIG_UPDATED, ConfigUpdate(ConfigPayload(newConfig, appId, now)))];
    }
  }
}
