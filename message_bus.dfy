/**
 * The cross-window message bus (`createMessageBus`): a subscription registry
 * from message type to an insertion-ordered set of callbacks, an inbound
 * pipeline (origin check, loop prevention, exact-type dispatch with per-handler
 * fault isolation), `send` to the parent window and every iframe, and
 * `broadcast` = `send` + local dispatch.
 *
 * Everything the browser supplies is a parameter: the window's origin and
 * position (`Environment`), the iframes in document order, `NODE_ENV`, the
 * clock, which iframe posts throw and which callbacks throw. What the browser
 * would observe is returned: the posts made and the callbacks invoked.
 */
module MessageBus {
  import opened Wrappers
  import opened Strings
  import opened OrderedSet

  /** The identity of a subscriber callback (JavaScript function identity). */
  type HandlerId = nat
  /** The identity of an `<iframe>` element of the document. */
  type FrameId = nat
  /** The identity of the window an inbound event came from (`event.source`). */
  type SourceId = nat

  /** The `subscriptions` map: message type to the callbacks registered under it, in insertion order. */
  type Registry = map<string, seq<HandlerId>>

  /** No type maps to an empty set, and no set holds a callback twice. */
  ghost predicate WellFormed(m: Registry) {
    forall t :: t in m ==> m[t] != [] && NoDuplicates(m[t])
  }

  /** `subscriptions.get(t)`, with a missing entry read as no callbacks. */
  function HandlersOf(m: Registry, t: string): seq<HandlerId> {
    if t in m then m[t] else []
  }

  /** The registry after `subscribe(t, h)`: the set for `t` is created if missing and `h` is added to it. */
  function WithHandler(m: Registry, t: string, h: HandlerId): (r: Registry)
    requires WellFormed(m)
    ensures WellFormed(r)
    ensures r.Keys == m.Keys + {t}
    ensures h in r[t]
    ensures HandlersOf(m, t) <= r[t] && |r[t]| <= |HandlersOf(m, t)| + 1
    ensures HandlersOf(r, t) == Add(HandlersOf(m, t), h)
    ensures h in HandlersOf(m, t) ==> r == m
    ensures forall u :: u != t ==> HandlersOf(r, u) == HandlersOf(m, u)
  {
    m[t := Add(HandlersOf(m, t), h)]
  }

  /**
   * The registry after the unsubscribe closure for `(t, h)` runs: `h` leaves the set
   * for `t`, the others keep their order, and the entry for `t` goes once it is empty.
   */
  function WithoutHandler(m: Registry, t: string, h: HandlerId): (r: Registry)
    requires WellFormed(m)
    ensures WellFormed(r)
    ensures r.Keys <= m.Keys
    ensures h !in HandlersOf(r, t)
    ensures HandlersOf(r, t) == Delete(HandlersOf(m, t), h)
    ensures forall g :: g != h ==> (g in HandlersOf(r, t) <==> g in HandlersOf(m, t))
    ensures forall u :: u != t ==> HandlersOf(r, u) == HandlersOf(m, u)
  {
    if t in m then
      var rest := Delete(m[t], h);
      if rest == [] then m - {t} else m[t := rest]
    else m
  }

  /** Subscribing the same callback twice stores it once. */
  lemma SubscribeTwiceStoresOnce(m: Registry, t: string, h: HandlerId)
    requires WellFormed(m)
    ensures WithHandler(WithHandler(m, t, h), t, h) == WithHandler(m, t, h)
  {
  }

  /** Calling an unsubscribe function a second time changes nothing. */
  lemma UnsubscribeTwiceIsNoOp(m: Registry, t: string, h: HandlerId)
    requires WellFormed(m)
    ensures WithoutHandler(WithoutHandler(m, t, h), t, h) == WithoutHandler(m, t, h)
  {
  }

  /** Unsubscribing a fresh subscription restores the registry exactly, including a deleted type key. */
  lemma {:induction false} UnsubscribeUndoesSubscribe(m: Registry, t: string, h: HandlerId)
    requires WellFormed(m)
    requires h !in HandlersOf(m, t)
    ensures WithoutHandler(WithHandler(m, t, h), t, h) == m
  {
    DeleteAdded(HandlersOf(m, t), h);
    var r := WithoutHandler(WithHandler(m, t, h), t, h);
    assert r.Keys == m.Keys;
    forall u | u in m ensures r[u] == m[u] {
      assert HandlersOf(r, u) == HandlersOf(m, u);
    }
  }

  // ---------------------------------------------------------------- origins

  /** `options.allowedOrigins.some(...)`: the list holds the wildcard `'*'` or exactly `origin`. */
  function AnyAllows(allowed: seq<string>, origin: string): (r: bool)
    ensures r <==> "*" in allowed || origin in allowed
  {
    if allowed == [] then false
    else allowed[0] == "*" || origin == allowed[0] || AnyAllows(allowed[1..], origin)
  }

  /**
   * `isValidOrigin`: the window's own origin is always accepted; in development any
   * origin that starts with `http://localhost:` or `https://localhost:`; otherwise the
   * origin must be listed or the list must hold `'*'`, and an absent list rejects.
   */
  function IsValidOrigin(origin: string, locationOrigin: string, development: bool, allowedOrigins: Option<seq<string>>): (r: bool)
    ensures r <==>
      || origin == locationOrigin
      || (development && (StartsWith(origin, "http://localhost:") || StartsWith(origin, "https://localhost:")))
      || (allowedOrigins.Some? && ("*" in allowedOrigins.value || origin in allowedOrigins.value))
  {
    if origin == locationOrigin then true
    else if development && (StartsWith(origin, "http://localhost:") || StartsWith(origin, "https://localhost:")) then true
    else
      match allowedOrigins
      case None => false
      case Some(allowed) => AnyAllows(allowed, origin)
  }

  /** In development the localhost rule is a prefix test only: any host text may follow the colon. */
  lemma DevelopmentLocalhostIsPrefixOnly(locationOrigin: string)
    requires locationOrigin != "http://localhost:1.example.com"
    ensures IsValidOrigin("http://localhost:1.example.com", locationOrigin, true, None)
    ensures !IsValidOrigin("http://localhost:1.example.com", locationOrigin, false, None)
  {
    assert StartsWith("http://localhost:1.example.com", "http://localhost:");
  }

  // ---------------------------------------------------------------- the window

  /** An `<iframe>` of the document; `hasWindow` is false while its `contentWindow` is null. */
  datatype Frame = Frame(id: FrameId, hasWindow: bool)

  /** What the bus reads from its window: its origin, `NODE_ENV === 'development'`, `window.parent !== window`, the iframes in document order, and `Date.now()`. */
  datatype Environment = Environment(locationOrigin: string, development: bool, isChild: bool, frames: seq<Frame>, now: int)

  /** The envelope `send` posts: `{type, data, sourceAppId, timestamp}`. */
  datatype PostedMessage<D> = PostedMessage(typ: string, data: D, sourceAppId: string, timestamp: int)

  datatype Target = ToParent | ToFrame(frame: FrameId)

  datatype Post<D> = Post(to: Target, message: PostedMessage<D>)

  /** The posts `send` made, in order, and the iframes whose `postMessage` threw (caught and logged). */
  datatype SendReport<D> = SendReport(posts: seq<Post<D>>, failed: seq<FrameId>)

  /** The iframes a send reaches, in document order: those with a window whose post does not throw. */
  function FrameTargets(frames: seq<Frame>, failing: set<FrameId>): seq<Target>
    decreases |frames|
  {
    if frames == [] then []
    else
      var f := frames[|frames| - 1];
      FrameTargets(frames[..|frames| - 1], failing) + (if f.hasWindow && f.id !in failing then [ToFrame(f.id)] else [])
  }

  /** The iframes whose post throws, in document order. */
  function FailedFrames(frames: seq<Frame>, failing: set<FrameId>): seq<FrameId>
    decreases |frames|
  {
    if frames == [] then []
    else
      var f := frames[|frames| - 1];
      FailedFrames(frames[..|frames| - 1], failing) + (if f.hasWindow && f.id in failing then [f.id] else [])
  }

  /** Every post of a send: the parent first when the window is a child, then the iframes. */
  function ExpectedTargets(env: Environment, failing: set<FrameId>): seq<Target> {
    (if env.isChild then [ToParent] else []) + FrameTargets(env.frames, failing)
  }

  /**
   * An iframe is reached exactly when it has a window and its own post does not throw:
   * a throwing post never stops the posts to later iframes.
   */
  lemma {:induction false} FrameTargetsExactly(frames: seq<Frame>, failing: set<FrameId>, x: FrameId)
    ensures ToFrame(x) in FrameTargets(frames, failing) <==>
      x !in failing && exists i :: 0 <= i < |frames| && frames[i].id == x && frames[i].hasWindow
    ensures ToParent !in FrameTargets(frames, failing)
    decreases |frames|
  {
    if frames != [] {
      var init := frames[..|frames| - 1];
      FrameTargetsExactly(init, failing, x);
      if x !in failing && exists i :: 0 <= i < |frames| && frames[i].id == x && frames[i].hasWindow {
        var i :| 0 <= i < |frames| && frames[i].id == x && frames[i].hasWindow;
        if i < |frames| - 1 {
          assert init[i] == frames[i];
        }
      }
    }
  }

  /** An iframe is reported as failed exactly when it has a window and its own post throws. */
  lemma {:induction false} FailedFramesExactly(frames: seq<Frame>, failing: set<FrameId>, x: FrameId)
    ensures x in FailedFrames(frames, failing) <==>
      x in failing && exists i :: 0 <= i < |frames| && frames[i].id == x && frames[i].hasWindow
    decreases |frames|
  {
    if frames != [] {
      var init := frames[..|frames| - 1];
      FailedFramesExactly(init, failing, x);
      if x in failing && exists i :: 0 <= i < |frames| && frames[i].id == x && frames[i].hasWindow {
        var i :| 0 <= i < |frames| && frames[i].id == x && frames[i].hasWindow;
        if i < |frames| - 1 {
          assert init[i] == frames[i];
        }
      }
    }
  }

  /**
   * Every frame with a window gets exactly one attempt: the reached and the failed
   * frames add up to the windowed ones, and no frame is both reached and failed.
   */
  lemma {:induction false} EveryWindowAttemptedOnce(frames: seq<Frame>, failing: set<FrameId>)
    ensures |FrameTargets(frames, failing)| + |FailedFrames(frames, failing)| == |WindowedFrames(frames)|
    ensures forall x :: ToFrame(x) in FrameTargets(frames, failing) ==> x !in FailedFrames(frames, failing)
    decreases |frames|
  {
    if frames != [] {
      EveryWindowAttemptedOnce(frames[..|frames| - 1], failing);
    }
    forall x | ToFrame(x) in FrameTargets(frames, failing)
      ensures x !in FailedFrames(frames, failing)
    {
      FrameTargetsExactly(frames, failing, x);
      FailedFramesExactly(frames, failing, x);
    }
  }

  /** The iframes whose `contentWindow` is not null. */
  function WindowedFrames(frames: seq<Frame>): seq<FrameId>
    decreases |frames|
  {
    if frames == [] then []
    else
      var f := frames[|frames| - 1];
      WindowedFrames(frames[..|frames| - 1]) + (if f.hasWindow then [f.id] else [])
  }

  /** `posts` carries `message` to each of `targets`, in that order. */
  ghost predicate Posted<D>(posts: seq<Post<D>>, targets: seq<Target>, message: PostedMessage<D>) {
    |posts| == |targets| && forall i :: 0 <= i < |posts| ==> posts[i] == Post(targets[i], message)
  }

  // ---------------------------------------------------------------- dispatch

  /** The data of an inbound event, destructured: fields that are missing (or not strings) read as `None`. */
  datatype InboundFields<D> = InboundFields(typ: Option<string>, data: Option<D>, sourceAppId: Option<string>)

  /** A `message` event; `data` is `None` when it is `null` or `undefined`, whose destructuring throws. */
  datatype InboundEvent<D> = InboundEvent(origin: string, data: Option<InboundFields<D>>, source: Option<SourceId>)

  /** One callback invocation `callback(data, source)`. */
  datatype Call<D> = Call(handler: HandlerId, data: Option<D>, source: Option<SourceId>)

  /** The callbacks invoked, in order, and those among them that threw (caught and logged). */
  datatype Delivery<D> = Delivery(calls: seq<Call<D>>, faults: seq<HandlerId>)

  /** The callbacks among `hs` that throw, in order. */
  function Faulted(hs: seq<HandlerId>, throws: set<HandlerId>): seq<HandlerId>
    decreases |hs|
  {
    if hs == [] then []
    else Faulted(hs[..|hs| - 1], throws) + (if hs[|hs| - 1] in throws then [hs[|hs| - 1]] else [])
  }

  /** The faults reported are exactly the invoked callbacks that throw. */
  lemma {:induction false} FaultedExactly(hs: seq<HandlerId>, throws: set<HandlerId>, h: HandlerId)
    ensures h in Faulted(hs, throws) <==> h in hs && h in throws
    decreases |hs|
  {
    if hs != [] {
      var init := hs[..|hs| - 1];
      FaultedExactly(init, throws, h);
      assert hs == init + [hs[|hs| - 1]];
    }
  }

  /** `d` calls every callback of `hs` once, in order, with the same arguments, whatever throws. */
  ghost predicate Delivers<D>(d: Delivery<D>, hs: seq<HandlerId>, data: Option<D>, source: Option<SourceId>, throws: set<HandlerId>) {
    && |d.calls| == |hs|
    && (forall i :: 0 <= i < |hs| ==> d.calls[i] == Call(hs[i], data, source))
    && d.faults == Faulted(hs, throws)
  }

  /** The `handlers.forEach` loop with its `try`/`catch` around each callback. */
  method Dispatch<D>(hs: seq<HandlerId>, data: Option<D>, source: Option<SourceId>, throws: set<HandlerId>) returns (d: Delivery<D>)
    ensures Delivers(d, hs, data, source, throws)
  {
    var calls: seq<Call<D>> := [];
    var faults: seq<HandlerId> := [];
    for i := 0 to |hs|
      invariant |calls| == i
      invariant forall k :: 0 <= k < i ==> calls[k] == Call(hs[k], data, source)
      invariant faults == Faulted(hs[..i], throws)
    {
      calls := calls + [Call(hs[i], data, source)];
      if hs[i] in throws {
        faults := faults + [hs[i]];
      }
      assert hs[..i + 1][..i] == hs[..i];
    }
    assert hs[..|hs|] == hs;
    d := Delivery(calls, faults);
  }

  /** A no-op unsubscribe (server side) or the closure that removes `handler` from `typ`. */
  datatype Subscription = NoOpSubscription | Subscription(typ: string, handler: HandlerId)

  /** One bus instance. On the server (`typeof window === 'undefined'`) every operation is a no-op. */
  class Bus<D> {
    const appId: string
    const allowedOrigins: Option<seq<string>>
    const onServer: bool
    var subscriptions: Registry

    ghost predicate Valid()
      reads this
    {
      WellFormed(subscriptions)
    }

    constructor (appId: string, allowedOrigins: Option<seq<string>>, onServer: bool)
      ensures Valid()
      ensures this.appId == appId && this.allowedOrigins == allowedOrigins && this.onServer == onServer
      ensures subscriptions == map[]
    {
      this.appId := appId;
      this.allowedOrigins := allowedOrigins;
      this.onServer := onServer;
      subscriptions := map[];
    }

    /** The callbacks an inbound message of type `typ` reaches; a missing or non-string type reaches none. */
    function Registered(typ: Option<string>): seq<HandlerId>
      reads this
    {
      if typ.Some? then HandlersOf(subscriptions, typ.value) else []
    }

    /** `subscribe(typ, callback)`; the result is the unsubscribe function. */
    method Subscribe(typ: string, callback: HandlerId) returns (s: Subscription)
      requires Valid()
      modifies this
      ensures Valid()
      ensures onServer ==> s == NoOpSubscription && subscriptions == old(subscriptions)
      ensures !onServer ==> s == Subscription(typ, callback) && subscriptions == WithHandler(old(subscriptions), typ, callback)
    {
      if onServer {
        return NoOpSubscription;
      }
      if typ !in subscriptions {
        subscriptions := subscriptions[typ := []];
      }
      var handlers := subscriptions[typ];
      subscriptions := subscriptions[typ := Add(handlers, callback)];
      s := Subscription(typ, callback);
    }

    /** Calls the unsubscribe function `s`. */
    method Unsubscribe(s: Subscription)
      requires Valid()
      modifies this
      ensures Valid()
      ensures s.NoOpSubscription? ==> subscriptions == old(subscriptions)
      ensures s.Subscription? ==> subscriptions == WithoutHandler(old(subscriptions), s.typ, s.handler)
    {
      if s.Subscription? && s.typ in subscriptions {
        var handlers := Delete(subscriptions[s.typ], s.handler);
        if handlers == [] {
          subscriptions := subscriptions - {s.typ};
        } else {
          subscriptions := subscriptions[s.typ := handlers];
        }
      }
    }

    /** An inbound event passes the pipeline: origin accepted, data destructurable, and not sent by this app. */
    predicate Admitted(ev: InboundEvent<D>, env: Environment) {
      && !onServer
      && IsValidOrigin(ev.origin, env.locationOrigin, env.development, allowedOrigins)
      && ev.data.Some?
      && ev.data.value.sourceAppId != Some(appId)
    }

    /**
     * `handleMessage`: a rejected event reaches no callback; an admitted one calls each
     * callback registered under exactly its type once, in insertion order, with
     * `(data, source)`, and a throwing callback does not stop the rest.
     */
    method HandleMessage(ev: InboundEvent<D>, env: Environment, throws: set<HandlerId>) returns (d: Delivery<D>)
      ensures !Admitted(ev, env) ==> d == Delivery([], [])
      ensures Admitted(ev, env) ==> Delivers(d, Registered(ev.data.value.typ), ev.data.value.data, ev.source, throws)
    {
      if onServer || !IsValidOrigin(ev.origin, env.locationOrigin, env.development, allowedOrigins) {
        return Delivery([], []);
      }
      match ev.data
      case None =>
        d := Delivery([], []);
      case Some(fields) =>
        if fields.sourceAppId == Some(appId) {
          return Delivery([], []);
        }
        var handlers := Registered(fields.typ);
        d := Dispatch(handlers, fields.data, ev.source, throws);
    }

    /** What `send(typ, data)` does: one envelope, posted to the parent if any, then to every iframe. */
    ghost predicate Sent(r: SendReport<D>, typ: string, data: D, env: Environment, failing: set<FrameId>) {
      if onServer then r == SendReport([], [])
      else
        && Posted(r.posts, ExpectedTargets(env, failing), PostedMessage(typ, data, appId, env.now))
        && r.failed == FailedFrames(env.frames, failing)
    }

    /** `send(typ, data)`. */
    method Send(typ: string, data: D, env: Environment, failing: set<FrameId>) returns (r: SendReport<D>)
      ensures Sent(r, typ, data, env, failing)
    {
      if onServer {
        return SendReport([], []);
      }
      var message := PostedMessage(typ, data, appId, env.now);
      var posts: seq<Post<D>> := [];
      var parent: seq<Target> := [];
      if env.isChild {
        posts := [Post(ToParent, message)];
        parent := [ToParent];
      }
      var failed: seq<FrameId> := [];
      var frames := env.frames;
      for i := 0 to |frames|
        invariant Posted(posts, parent + FrameTargets(frames[..i], failing), message)
        invariant failed == FailedFrames(frames[..i], failing)
      {
        assert frames[..i + 1][..i] == frames[..i];
        var f := frames[i];
        if f.hasWindow {
          if f.id in failing {
            failed := failed + [f.id];
          } else {
            posts := posts + [Post(ToFrame(f.id), message)];
          }
        }
      }
      assert frames[..|frames|] == frames;
      r := SendReport(posts, failed);
    }

    /** `broadcast(typ, data)`: the posts of `send`, then each local callback of `typ` once with `(data)`. */
    method Broadcast(typ: string, data: D, env: Environment, failing: set<FrameId>, throws: set<HandlerId>)
      returns (r: SendReport<D>, d: Delivery<D>)
      ensures Sent(r, typ, data, env, failing)
      ensures onServer ==> d == Delivery([], [])
      ensures !onServer ==> Delivers(d, HandlersOf(subscriptions, typ), Some(data), None, throws)
    {
      r := Send(typ, data, env, failing);
      if onServer {
        return r, Delivery([], []);
      }
      d := Dispatch(HandlersOf(subscriptions, typ), Some(data), None, throws);
    }

    /** `createTypedMessageSender(bus, messageType)(payload)`: forwards to `send(messageType, payload)`. */
    method SendTyped(messageType: string, payload: D, env: Environment, failing: set<FrameId>) returns (r: SendReport<D>)
      ensures Sent(r, messageType, payload, env, failing)
    {
      r := Send(messageType, payload, env, failing);
    }

    /**
     * `createTypedMessageSubscriber(bus, messageType)(callback)`: subscribes a new
     * wrapper closure `wrapper` (which forwards only `data` to the callback), so every
     * call adds one more entry, and returns that subscription's unsubscribe.
     */
    method SubscribeTyped(messageType: string, wrapper: HandlerId) returns (s: Subscription)
      requires Valid()
      requires forall t :: t in subscriptions ==> wrapper !in subscriptions[t]
      modifies this
      ensures Valid()
      ensures onServer ==> s == NoOpSubscription && subscriptions == old(subscriptions)
      ensures !onServer ==> s == Subscription(messageType, wrapper)
      ensures !onServer ==> subscriptions == old(subscriptions)[messageType := old(HandlersOf(subscriptions, messageType)) + [wrapper]]
    {
      s := Subscribe(messageType, wrapper);
    }
  }
}
