/** Event routers: nested dictionaries of callbacks, against the flat log of registrations. Callbacks are kept
    alive, so a weak reference is as good as a strong one. */
module Dispatchers {
  import opened Json

  type Func = nat

  type Event = string

  const ALL := "all"

  /** Callbacks held weakly and strongly. */
  datatype Container = Container(weak: set<Func>, strong: set<Func>)

  const NOBODY := Container({}, {})

  function Add(c: Container, func: Func, weak: bool): Container
  {
    if weak then c.(weak := c.weak + {func}) else c.(strong := c.strong + {func})
  }

  predicate Holds(c: Container, func: Func, weak: bool)
  {
    func in if weak then c.weak else c.strong
  }

  /** Two levels of routing; a missing level holds nobody. */
  type Router = map<string, map<string, Container>>

  function Get(r: Router, a: string, b: string): Container
  {
    if a in r && b in r[a] then r[a][b] else NOBODY
  }

  predicate Routed(r: Router, a: string, b: string, func: Func, weak: bool)
  {
    Holds(Get(r, a, b), func, weak)
  }

  /** Registers one callback under a pair of keys, making the levels that are missing. */
  function Insert(r: Router, a: string, b: string, func: Func, weak: bool): (s: Router)
    ensures forall x, y, f, w :: Routed(s, x, y, f, w) <==>
            Routed(r, x, y, f, w) || (x == a && y == b && f == func && w == weak)
  {
    var inner := if a in r then r[a] else map[];
    r[a := inner[b := Add(Get(r, a, b), func, weak)]]
  }

  // ---------------------------------------------------------------- generic events

  /** One call of register_events. */
  datatype Registration = Registration(func: Func, events: set<Event>, entries: set<string>, weak: bool)

  /** Whether a registration is for an event from some entry: without sender ids and names it is for all. */
  predicate Covers(r: Registration, event: Event, entry: string)
  {
    event in r.events && entry in (if r.entries == {} then {ALL} else r.entries)
  }

  ghost predicate Logged(log: seq<Registration>, event: Event, entry: string, func: Func, weak: bool)
  {
    exists r :: r in log && r.func == func && r.weak == weak && Covers(r, event, entry)
  }

  lemma LoggedSnoc(log: seq<Registration>, r: Registration, event: Event, entry: string, func: Func, weak: bool)
    ensures Logged(log + [r], event, entry, func, weak) <==>
              Logged(log, event, entry, func, weak) || (r.func == func && r.weak == weak && Covers(r, event, entry))
  {
    assert forall x :: x in log + [r] <==> x in log || x == r;
  }

  class EventDispatcher {
    var router: Router
    ghost var log: seq<Registration>

    ghost predicate Valid()
      reads this
    {
      forall entry, event, func, weak :: Routed(router, entry, event, func, weak) <==>
          Logged(log, event, entry, func, weak)
    }

    constructor ()
      ensures Valid() && log == []
    {
      router, log := map[], [];
    }

    method RegisterEntry(entry: string, events: seq<Event>, func: Func, weak: bool)
      modifies this`router
      ensures forall x, e, f, w :: Routed(router, x, e, f, w) <==>
                old(Routed(router, x, e, f, w)) || (x == entry && e in events && f == func && w == weak)
    {
      hide Routed;
      for i := 0 to |events|
        invariant forall x, e, f, w :: Routed(router, x, e, f, w) <==>
                    old(Routed(router, x, e, f, w)) || (x == entry && e in events[..i] && f == func && w == weak)
      {
        assert events[..i+1] == events[..i] + [events[i]];
        router := Insert(router, entry, events[i], func, weak);
      }
      assert events[..|events|] == events;
    }

    method RegisterEvents(func: Func, events: seq<Event>, senderIds: set<string>, names: set<string>, weak: bool)
      requires Valid()
      modifies this
      ensures Valid()
      ensures log == old(log) + [Registration(func, (set e | e in events), senderIds + names, weak)]
    {
      hide Routed, Logged;
      var entries := if senderIds + names == {} then {ALL} else senderIds + names;
      var left := entries;
      while left != {}
        invariant left <= entries && log == old(log)
        invariant forall x, e, f, w :: Routed(router, x, e, f, w) <==>
                    old(Routed(router, x, e, f, w)) || (x in entries - left && e in events && f == func && w == weak)
        decreases |left|
      {
        var entry :| entry in left;
        RegisterEntry(entry, events, func, weak);
        left := left - {entry};
      }
      ghost var r := Registration(func, (set e | e in events), senderIds + names, weak);
      log := log + [r];
      forall x, e, f, w ensures Routed(router, x, e, f, w) <==> Logged(log, e, x, f, w) {
        LoggedSnoc(old(log), r, e, x, f, w);
        assert old(Routed(router, x, e, f, w)) <==> Logged(old(log), e, x, f, w);
      }
    }

    /** The callbacks called for an event: each once, whatever number of registrations it has. */
    method GetCallbacks(senderId: string, senderName: Option<string>, event: Event) returns (called: set<Func>)
      requires Valid()
      ensures forall func :: func in called <==>
                exists r :: r in log && r.func == func
                  && (Covers(r, event, ALL) || Covers(r, event, senderId)
                      || (senderName.Some? && Covers(r, event, senderName.value)))
    {
      hide Covers;
      called := From(ALL, event) + From(senderId, event) + if senderName.Some? then From(senderName.value, event)
          else {};
    }

    function From(entry: string, event: Event): (called: set<Func>)
      requires Valid()
      reads this
      ensures forall func :: func in called <==> exists r :: r in log && r.func == func && Covers(r, event, entry)
    {
      hide Covers;
      var c := Get(router, entry, event);
      assert forall func :: func in c.weak + c.strong <==>
             Routed(router, entry, event, func, true) || Routed(router, entry, event, func, false);
      c.weak + c.strong
    }

    predicate IsRegistered(entry: string, event: Event, func: Func)
      requires Valid()
      reads this
      ensures IsRegistered(entry, event, func) <==> exists r :: r in log && r.func == func && Covers(r, event, entry)
    {
      hide Covers;
      assert func in From(entry, event) <==> exists r :: r in log && r.func == func && Covers(r, event, entry);
      entry in router && event in router[entry]
          && (func in router[entry][event].weak || func in router[entry][event].strong)
    }
  }

  // ---------------------------------------------------------------- app actions

  /** The actions, events or devices asked for: all of them, or a list. */
  datatype Choice = Every | These(names: set<string>)

  datatype AppRegistration = AppRegistration(func: Func, app: string, events: set<Event>, actions: set<string>,
                                             devices: Choice, weak: bool)

  function DeviceKeys(devices: Choice): set<string>
  {
    match devices case Every => {ALL} case These(ids) => ids
  }

  /** Whether a registration is under a device key; ALL is the key of registrations for every device. */
  predicate UnderKey(r: AppRegistration, app: string, action: string, event: Event, key: string)
  {
    r.app == app && action in r.actions && event in r.events && key in DeviceKeys(r.devices)
  }

  ghost predicate AppLogged(log: seq<AppRegistration>, app: string, action: string, event: Event, key: string,
                            func: Func, weak: bool)
  {
    exists r :: r in log && r.func == func && r.weak == weak && UnderKey(r, app, action, event, key)
  }

  lemma AppLoggedSnoc(log: seq<AppRegistration>, r: AppRegistration, app: string, action: string, event: Event,
                      key: string,
                      func: Func, weak: bool)
    ensures AppLogged(log + [r], app, action, event, key, func, weak) <==>
              AppLogged(log, app, action, event, key, func, weak)
              || (r.func == func && r.weak == weak && UnderKey(r, app, action, event, key))
  {
    assert forall x :: x in log + [r] <==> x in log || x == r;
  }

  /** Registers a callback for one event in the router of an app and action. */
  method RegisterEvent(r: Router, event: Event, keys: set<string>, func: Func, weak: bool) returns (s: Router)
    ensures forall e, k, f, w :: Routed(s, e, k, f, w) <==>
              Routed(r, e, k, f, w) || (e == event && k in keys && f == func && w == weak)
  {
    hide Routed;
    s := r;
    var left := keys;
    while left != {}
      invariant left <= keys
      invariant forall e, k, f, w :: Routed(s, e, k, f, w) <==>
                  Routed(r, e, k, f, w) || (e == event && k in keys - left && f == func && w == weak)
      decreases |left|
    {
      var key :| key in left;
      s := Insert(s, event, key, func, weak);
      left := left - {key};
    }
  }

  type Routers = map<string, map<string, Router>>

  function RouterOf(rs: Routers, app: string, action: string): Router
  {
    if app in rs && action in rs[app] then rs[app][action] else map[]
  }

  predicate AppRouted(rs: Routers, app: string, action: string, event: Event, key: string, func: Func, weak: bool)
  {
    Routed(RouterOf(rs, app, action), event, key, func, weak)
  }

  class AppEventDispatcher {
    const apis: map<string, set<string>>         // the actions of each known app
    var routers: Routers
    ghost var log: seq<AppRegistration>

    ghost predicate Valid()
      reads this
    {
      forall app, action, event, key, func, weak ::
        AppRouted(routers, app, action, event, key, func, weak) <==> AppLogged(log, app, action, event, key, func, weak)
    }

    constructor (apis: map<string, set<string>>)
      ensures Valid() && log == [] && this.apis == apis
    {
      this.apis := apis;
      routers, log := map[], [];
    }

    /** The actions meant; None is an unknown app or action. */
    function ValidateAppActions(app: string, actions: Choice): (r: Option<set<string>>)
      ensures r.Some? <==> app in apis && (actions.These? ==> actions.names <= apis[app])
      ensures r.Some? ==> r.value == if actions.Every? then apis[app] else actions.names
    {
      if app !in apis then None
      else match actions
        case Every => Some(apis[app])
        case These(names) =>
          assert names - apis[app] == {} <==> names <= apis[app] by {
            forall n | n in names && names - apis[app] == {} ensures n in apis[app] {
              assert n !in names - apis[app];
            }
          }
          if names - apis[app] != {} then None else Some(names)
    }

    /** All events of one action's router. */
    method RegisterAction(app: string, action: string, events: seq<Event>, keys: set<string>, func: Func, weak: bool)
      modifies this`routers
      ensures forall a, x, e, k, f, w :: AppRouted(routers, a, x, e, k, f, w) <==>
                old(AppRouted(routers, a, x, e, k, f, w))
                || (a == app && x == action && e in events && k in keys && f == func && w == weak)
    {
      hide Routed;
      var router := RouterOf(routers, app, action);
      ghost var before := router;
      for i := 0 to |events|
        invariant routers == old(routers)
        invariant forall e, k, f, w :: Routed(router, e, k, f, w) <==>
                    Routed(before, e, k, f, w) || (e in events[..i] && k in keys && f == func && w == weak)
      {
        assert events[..i+1] == events[..i] + [events[i]];
        router := RegisterEvent(router, events[i], keys, func, weak);
      }
      assert events[..|events|] == events;
      ghost var was := routers;
      var inner := if app in routers then routers[app] else map[];
      routers := routers[app := inner[action := router]];
      forall a, x ensures RouterOf(routers, a, x) == if a == app && x == action then router else RouterOf(was, a, x) {
      }
    }

    method RegisterAppActions(func: Func, app: string, events: seq<Event>, actions: Choice, devices: Choice, weak: bool)
      returns (ok: bool)
      requires Valid()
      modifies this
      ensures Valid()
      ensures ok <==> ValidateAppActions(app, actions).Some?
      ensures log == if ok then old(log)
              + [AppRegistration(func, app, (set e | e in events), ValidateAppActions(app, actions).value, devices,
                                 weak)]
                     else old(log)
    {
      hide AppRouted, AppLogged;
      var known := ValidateAppActions(app, actions);
      if known.None? {
        return false;
      }
      var keys := DeviceKeys(devices);
      var left := known.value;
      while left != {}
        invariant left <= known.value && log == old(log)
        invariant forall a, x, e, k, f, w :: AppRouted(routers, a, x, e, k, f, w) <==>
                    old(AppRouted(routers, a, x, e, k, f, w))
                    || (a == app && x in known.value - left && e in events && k in keys && f == func && w == weak)
        decreases |left|
      {
        var action :| action in left;
        RegisterAction(app, action, events, keys, func, weak);
        left := left - {action};
      }
      ghost var r := AppRegistration(func, app, (set e | e in events), known.value, devices, weak);
      log := log + [r];
      forall a, x, e, k, f, w ensures AppRouted(routers, a, x, e, k, f, w) <==> AppLogged(log, a, x, e, k, f, w) {
        AppLoggedSnoc(old(log), r, a, x, e, k, f, w);
        assert old(AppRouted(routers, a, x, e, k, f, w)) <==> AppLogged(old(log), a, x, e, k, f, w);
      }
      ok := true;
    }

    /** What a dispatch yields, with multiplicity: the callbacks for all devices, then those for the one. */
    function GetCallbacks(app: string, action: string, event: Event, device: string): multiset<Func>
      reads this
    {
      var router := RouterOf(routers, app, action);
      Yield(Get(router, event, ALL)) + if device == ALL then multiset{} else Yield(Get(router, event, device))
    }

    predicate IsRegistered(app: string, action: string, event: Event, device: string, func: Func)
      reads this
    {
      var router := RouterOf(routers, app, action);
      || Routed(router, event, ALL, func, true) || Routed(router, event, ALL, func, false)
      || (device != ALL && (Routed(router, event, device, func, true) || Routed(router, event, device, func, false)))
    }

    /** The callbacks yielded are exactly those registered, and these are exactly the ones that the log has for
        the app, the action and the event, and for every device or this one. */
    lemma YieldsExactly(app: string, action: string, event: Event, device: string, func: Func)
      requires Valid()
      ensures func in GetCallbacks(app, action, event, device) <==> IsRegistered(app, action, event, device, func)
      ensures IsRegistered(app, action, event, device, func) <==>
                exists r :: r in log && r.func == func
                    && (UnderKey(r, app, action, event, ALL) || UnderKey(r, app, action, event, device))
    {
      hide UnderKey;
      forall key, weak
        ensures Routed(RouterOf(routers, app, action), event, key, func, weak) <==>
                AppLogged(log, app, action, event, key, func, weak)
      {
        assert AppRouted(routers, app, action, event, key, func, weak) <==>
               AppLogged(log, app, action, event, key, func, weak);
      }
    }

    /** A callback is yielded once for every combination of device key and strength it is registered under: up
        to four times, not once. */
    lemma YieldsCount(app: string, action: string, event: Event, device: string, func: Func)
      requires Valid() && device != ALL
      ensures GetCallbacks(app, action, event, device)[func] ==
                (if AppLogged(log, app, action, event, ALL, func, true) then 1 else 0)
                + (if AppLogged(log, app, action, event, ALL, func, false) then 1 else 0)
                + (if AppLogged(log, app, action, event, device, func, true) then 1 else 0)
                + (if AppLogged(log, app, action, event, device, func, false) then 1 else 0)
    {
      hide AppLogged;
      forall key, weak
        ensures Routed(RouterOf(routers, app, action), event, key, func, weak) <==>
                AppLogged(log, app, action, event, key, func, weak)
      {
        assert AppRouted(routers, app, action, event, key, func, weak) <==>
               AppLogged(log, app, action, event, key, func, weak);
      }
    }
  }

  function Yield(c: Container): multiset<Func>
  {
    multiset(c.weak) + multiset(c.strong)
  }
}
