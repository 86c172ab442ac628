// Thread-scoped notification routing (crates/arky-codex/src/notification.rs).
//
// The router keeps two indexes, threads and scopes. What a receiver sees, though, should
// depend only on its own registration and on the calls made since. `Endpoints` below says
// that without any index; the router's methods are proved to agree with it.

module RoutingRules {
  import opened Prelude
  import opened JsonValues
  import opened Notifications

  /** First of `keys` that holds a non-empty string. */
  function FirstText(entries: seq<Entry>, keys: seq<string>): Option<string> {
    if keys == [] then None
    else
      match Lookup(entries, keys[0])
      case Some(JString(s)) => if s != "" then Some(s) else FirstText(entries, keys[1..])
      case _ => FirstText(entries, keys[1..])
  }

  const THREAD_KEYS: seq<string> :=
    ["threadId", "thread_id", "sessionId", "session_id", "conversationId", "conversation_id", "id"]
  const NESTED_THREAD_KEYS: seq<string> := ["id", "threadId", "thread_id"]
  const SCOPE_KEYS: seq<string> := ["scopeId", "scope_id"]

  function ExtractThreadId(params: Json): Option<string> {
    if !params.JObject? then None
    else
      match FirstText(params.entries, THREAD_KEYS)
      case Some(id) => Some(id)
      case None =>
        match Lookup(params.entries, "thread")
        case Some(JObject(nested)) => FirstText(nested, NESTED_THREAD_KEYS)
        case _ => None
  }

  function ExtractScopeId(params: Json): Option<string> {
    if params.JObject? then FirstText(params.entries, SCOPE_KEYS) else None
  }

  datatype Target = Everyone | OneThread(threadId: string) | OneScope(scopeId: string) | Nobody

  /** Account notifications go to everyone, others by thread id, then by scope id. */
  function TargetOf(n: CodexNotification): Target {
    if "account/" <= n.method_ then Everyone
    else
      match ExtractThreadId(n.params)
      case Some(id) => OneThread(id)
      case None =>
        match ExtractScopeId(n.params)
        case Some(id) => OneScope(id)
        case None => Nobody
  }
}

/** What receivers see, as a function of the calls made on the router. */
module RoutingHistory {
  import opened Prelude
  import opened Counters
  import opened Notifications
  import opened RoutingRules

  datatype Item = Delivered(n: CodexNotification) | Failed(error: string)

  datatype Call =
    | Register(threadId: string, scopeId: string)
    | Unregister(threadId: string)
    | UnregisterIfMatches(threadId: string, id: nat)
    | Send(target: Target, n: CodexNotification)
    | ErrorAll(error: string)
    | DropReceiver(channel: nat)

  /** One registration: `live` while routing still points at it, `open` while its receiver exists. */
  datatype Endpoint = Endpoint(threadId: string, scopeId: string, id: nat, live: bool, open: bool, queue: seq<Item>)

  predicate Matches(target: Target, threadId: string, scopeId: string) {
    match target
    case Everyone => true
    case OneThread(t) => t == threadId
    case OneScope(s) => s == scopeId
    case Nobody => false
  }

  /** How one call changes the endpoint of channel `c`, with no regard to any other. */
  function After(e: Endpoint, c: nat, call: Call): Endpoint {
    match call
    case Register(t, _) => if t == e.threadId then e.(live := false) else e
    case Unregister(t) => if t == e.threadId then e.(live := false) else e
    case UnregisterIfMatches(t, id) => if t == e.threadId && id == e.id then e.(live := false) else e
    case Send(target, n) =>
      if !e.live || !Matches(target, e.threadId, e.scopeId) then e
      else if e.open then e.(queue := e.queue + [Delivered(n)])
      else e.(live := false)
    case ErrorAll(error) =>
      if !e.live then e
      else e.(live := false, queue := if e.open then e.queue + [Failed(error)] else e.queue)
    case DropReceiver(d) => if d == c then e.(open := false) else e
  }

  /** The registration id handed out when the counter stands at `counter`. */
  function IdFrom(counter: nat): nat {
    if counter + 1 < U64 then counter + 1 else U64 - 1
  }

  function RegistrationId(k: nat): nat {
    IdFrom(CounterAfter(k))
  }

  /** How one call changes every endpoint; a registration adds one. */
  function Step(es: seq<Endpoint>, call: Call): (now: seq<Endpoint>)
    ensures |now| == |es| + (if call.Register? then 1 else 0)
    ensures forall c | 0 <= c < |es| :: now[c] == After(es[c], c, call)
    ensures call.Register? ==>
              now[|es|] == Endpoint(call.threadId, call.scopeId, RegistrationId(|es|), true, true, [])
  {
    seq(|es|, c requires 0 <= c < |es| => After(es[c], c, call))
    + if call.Register? then [Endpoint(call.threadId, call.scopeId, RegistrationId(|es|), true, true, [])] else []
  }

  /** The endpoints after a run of calls. */
  function Endpoints(calls: seq<Call>): seq<Endpoint> {
    if calls == [] then [] else Step(Endpoints(calls[..|calls| - 1]), calls[|calls| - 1])
  }

  lemma {:induction false} EndpointsSnoc(calls: seq<Call>, call: Call)
    ensures Endpoints(calls + [call]) == Step(Endpoints(calls), call)
  {}

  lemma {:induction false} EndpointsOneMore(a: seq<Call>, b: seq<Call>)
    requires b != []
    ensures Endpoints(a + b) == Step(Endpoints(a + b[..|b| - 1]), b[|b| - 1])
  {
    assert (a + b)[..|a + b| - 1] == a + b[..|b| - 1];
  }

  /** The notifications of `calls` meant for a thread in a scope, in order. */
  function Meant(calls: seq<Call>, threadId: string, scopeId: string): seq<Item> {
    if calls == [] then []
    else
      var call := calls[|calls| - 1];
      Meant(calls[..|calls| - 1], threadId, scopeId)
      + if call.Send? && Matches(call.target, threadId, scopeId) then [Delivered(call.n)] else []
  }

  /** A live open receiver has exactly the matching notifications sent since its
      registration, in the order they were sent. */
  lemma {:induction false} LiveQueueIsExact(before: seq<Call>, t: string, s: string, since: seq<Call>)
    ensures var c, es := |Endpoints(before)|, Endpoints(before + [Register(t, s)] + since);
            && c < |es| && es[c].threadId == t && es[c].scopeId == s
            && (es[c].live && es[c].open ==> es[c].queue == Meant(since, t, s))
    decreases |since|
  {
    var c := |Endpoints(before)|;
    if since == [] {
      assert before + [Register(t, s)] + since == before + [Register(t, s)];
      EndpointsSnoc(before, Register(t, s));
    } else {
      var front, last := since[..|since| - 1], since[|since| - 1];
      var prefix := before + [Register(t, s)] + front;
      assert before + [Register(t, s)] + since == prefix + [last];
      LiveQueueIsExact(before, t, s, front);
      EndpointsSnoc(prefix, last);
      var e := Endpoints(prefix)[c];
      if After(e, c, last).live && After(e, c, last).open {
        AfterWhileLive(e, c, last);
      }
    }
  }

  lemma {:induction false} AfterWhileLive(e: Endpoint, c: nat, call: Call)
    requires After(e, c, call).live && After(e, c, call).open
    ensures e.live && e.open
    ensures After(e, c, call).threadId == e.threadId && After(e, c, call).scopeId == e.scopeId
    ensures After(e, c, call).queue
         == e.queue + if call.Send? && Matches(call.target, e.threadId, e.scopeId) then [Delivered(call.n)] else []
  {}

  /** Once removed, an open receiver keeps what was meant for it up to its removal, with one
      error at the end if that was the cause, whatever is called later. */
  lemma {:induction false} RemovedQueueIsExact(before: seq<Call>, t: string, s: string, since: seq<Call>,
          removal: Call, later: seq<Call>)
    requires var c, run := |Endpoints(before)|, before + [Register(t, s)] + since;
             && c < |Endpoints(run)| && Endpoints(run)[c].live && Endpoints(run)[c].open
             && !Endpoints(run + [removal])[c].live
    ensures var c, es := |Endpoints(before)|, Endpoints(before + [Register(t, s)] + since + [removal] + later);
            && c < |es| && !es[c].live
            && es[c].queue == Meant(since, t, s) + if removal.ErrorAll? then [Failed(removal.error)] else []
    decreases |later|
  {
    var run := before + [Register(t, s)] + since;
    if later == [] {
      assert run + [removal] + later == run + [removal];
      LiveQueueIsExact(before, t, s, since);
      EndpointsSnoc(run, removal);
      assert Meant(since, t, s) + [] == Meant(since, t, s);
    } else {
      RemovedQueueIsExact(before, t, s, since, removal, later[..|later| - 1]);
      EndpointsOneMore(run + [removal], later);
    }
  }

  // ------------------------------------------------ ids

  lemma {:induction false} CounterWraps(k: nat)
    ensures CounterAfter(k) == k % U64
  {
    if k > 0 {
      CounterWraps(k - 1);
      OneMoreModulo(k - 1);
    }
  }

  lemma {:induction false} OneMoreModulo(k: nat)
    ensures (k + 1) % U64 == if k % U64 + 1 == U64 then 0 else k % U64 + 1
  {
    var q, r := k / U64, k % U64;
    assert k == q * U64 + r;
    if r + 1 == U64 {
      assert k + 1 == (q + 1) * U64;
    } else {
      assert k + 1 == q * U64 + (r + 1);
    }
  }

  /** Two registrations get the same id exactly when as many were made before each of them
      modulo 2^64, or when both stand at one of the last two positions before the counter
      wraps. */
  lemma {:induction false} IdsCollideExactly(j: nat, k: nat)
    ensures RegistrationId(j) == RegistrationId(k)
            <==> j % U64 == k % U64 || (j % U64 >= U64 - 2 && k % U64 >= U64 - 2)
  {
    CounterWraps(j);
    CounterWraps(k);
  }

  /** The first 2^64 - 1 registrations have different ids; the next one does not. */
  lemma {:induction false} RegistrationIdsDistinct(j: nat, k: nat)
    requires j < k < U64
    ensures RegistrationId(j) == RegistrationId(k) <==> j == U64 - 2 && k == U64 - 1
  {
    IdsCollideExactly(j, k);
  }

  // ------------------------------------------------ late callers

  /** The threads registered by `calls`, in order. */
  function Registered(calls: seq<Call>): seq<string> {
    if calls == [] then []
    else
      var last := calls[|calls| - 1];
      Registered(calls[..|calls| - 1]) + if last.Register? then [last.threadId] else []
  }

  lemma {:induction false} EndpointsAreRegistered(calls: seq<Call>)
    ensures |Endpoints(calls)| == |Registered(calls)|
    ensures forall c | 0 <= c < |Endpoints(calls)| ::
              Endpoints(calls)[c].threadId == Registered(calls)[c] && Endpoints(calls)[c].id == RegistrationId(c)
  {
    if calls != [] {
      var front, last := calls[..|calls| - 1], calls[|calls| - 1];
      var es, now := Endpoints(front), Endpoints(calls);
      EndpointsAreRegistered(front);
      assert now == Step(es, last);
      forall c | 0 <= c < |now|
        ensures now[c].threadId == Registered(calls)[c] && now[c].id == RegistrationId(c)
      {
        if c < |es| {
          assert now[c] == After(es[c], c, last) && Registered(calls)[c] == Registered(front)[c];
        }
      }
    }
  }

  /** Of the registrations of one thread only the latest can be live. */
  lemma {:induction false} OnlyTheLatestIsLive(calls: seq<Call>, c: nat, d: nat)
    requires c < d < |Endpoints(calls)| && Endpoints(calls)[c].threadId == Endpoints(calls)[d].threadId
    ensures !Endpoints(calls)[c].live
    decreases |calls|
  {
    var front := calls[..|calls| - 1];
    EndpointsAreRegistered(calls);
    EndpointsAreRegistered(front);
    if d < |Endpoints(front)| {
      OnlyTheLatestIsLive(front, c, d);
    }
  }

  /** What a call with thread id `t`, and with id `id` if it names one, would silence. */
  predicate Silences(e: Endpoint, t: string, id: Option<nat>) {
    e.live && e.threadId == t && (id.Some? ==> id.value == e.id)
  }

  /** An unregister changes nothing exactly when nothing is live under its thread, and one
      with an id exactly when nothing is live under its thread and id. */
  lemma {:induction false} UnregisterIsHarmlessExactly(es: seq<Endpoint>, t: string, id: nat)
    ensures Step(es, Unregister(t)) == es <==> forall d | 0 <= d < |es| :: !Silences(es[d], t, None)
    ensures Step(es, UnregisterIfMatches(t, id)) == es <==> forall d | 0 <= d < |es| :: !Silences(es[d], t, Some(id))
  {
    var now, matched := Step(es, Unregister(t)), Step(es, UnregisterIfMatches(t, id));
    if d :| 0 <= d < |es| && Silences(es[d], t, None) {
      assert now[d] != es[d];
    }
    if d :| 0 <= d < |es| && Silences(es[d], t, Some(id)) {
      assert matched[d] != es[d];
    }
  }

  /** A later registration of the thread of `c` that is live. */
  predicate Succeeds(es: seq<Endpoint>, c: nat, d: nat)
    requires c < |es|
  {
    c < d < |es| && es[d].threadId == es[c].threadId && es[d].live
  }

  /** A holder whose registration is over, and who unregisters its thread only now, changes
      nothing exactly when no later registration of the thread is live. Otherwise it silences
      that one, and only that one. */
  lemma {:induction false} LateUnregisterHitsTheSuccessor(calls: seq<Call>, c: nat)
    requires c < |Endpoints(calls)| && !Endpoints(calls)[c].live
    ensures var es := Endpoints(calls);
            && (Step(es, Unregister(es[c].threadId)) == es <==> forall d | 0 <= d < |es| :: !Succeeds(es, c, d))
            && forall d | 0 <= d < |es| ::
                 Step(es, Unregister(es[c].threadId))[d] == if Succeeds(es, c, d) then es[d].(live := false) else es[d]
  {
    var es := Endpoints(calls);
    UnregisterIsHarmlessExactly(es, es[c].threadId, 0);
    forall d | 0 <= d < |es| ensures Silences(es[d], es[c].threadId, None) <==> Succeeds(es, c, d) {
      if d < c && es[d].threadId == es[c].threadId {
        OnlyTheLatestIsLive(calls, d, c);
      }
    }
  }

  /** A thread registered twice: the first holder's unregister silences the second, while its
      unregister with its own id does not. */
  lemma {:induction false} UnregisterSilencesSuccessor(calls: seq<Call>, t: string, s: string)
    requires |Endpoints(calls)| < U64 - 2
    ensures var c, now := |Endpoints(calls)|, Endpoints(calls + [Register(t, s)] + [Register(t, s)]);
            && |now| == c + 2 && Succeeds(now, c, c + 1)
            && !Step(now, Unregister(t))[c + 1].live && Step(now, UnregisterIfMatches(t, now[c].id))[c + 1].live
  {
    EndpointsSnoc(calls, Register(t, s));
    EndpointsSnoc(calls + [Register(t, s)], Register(t, s));
    RegistrationIdsDistinct(|Endpoints(calls)|, |Endpoints(calls)| + 1);
  }

  /** In particular it is harmless when the thread was not registered again since. */
  lemma {:induction false} HarmlessUnlessRegisteredAgain(before: seq<Call>, t: string, s: string, since: seq<Call>)
    requires var c, es := |Endpoints(before)|, Endpoints(before + [Register(t, s)] + since);
             c < |es| && !es[c].live
    requires t !in Registered(since)
    ensures var es := Endpoints(before + [Register(t, s)] + since); Step(es, Unregister(t)) == es
  {
    var calls := before + [Register(t, s)] + since;
    var es, c := Endpoints(calls), |Endpoints(before)|;
    EndpointsAreRegistered(calls);
    EndpointsAreRegistered(before);
    RegisteredConcat(before + [Register(t, s)], since);
    RegisteredConcat(before, [Register(t, s)]);
    assert Registered([Register(t, s)]) == [t] by {
      assert [Register(t, s)][..0] == [];
    }
    LateUnregisterHitsTheSuccessor(calls, c);
    forall d | c < d < |es| ensures es[d].threadId != t {
      assert Registered(calls)[d] == Registered(since)[d - c - 1];
    }
  }

  lemma {:induction false} RegisteredConcat(a: seq<Call>, b: seq<Call>)
    ensures Registered(a + b) == Registered(a) + Registered(b)
    decreases |b|
  {
    if b == [] {
      assert a + b == a;
    } else {
      RegisteredConcat(a, b[..|b| - 1]);
      assert (a + b)[..|a + b| - 1] == a + b[..|b| - 1];
    }
  }

  /** A holder whose registration is over, and who unregisters with its id only now, changes
      nothing exactly when no live registration of the thread has got the same id again. */
  lemma {:induction false} StaleUnregisterChangesNothing(calls: seq<Call>, c: nat)
    requires c < |Endpoints(calls)| && !Endpoints(calls)[c].live
    ensures var es := Endpoints(calls);
            Step(es, UnregisterIfMatches(es[c].threadId, es[c].id)) == es
            <==> forall d | 0 <= d < |es| :: Succeeds(es, c, d) ==> RegistrationId(d) != RegistrationId(c)
    ensures |Endpoints(calls)| < U64 ==>
              var es := Endpoints(calls); Step(es, UnregisterIfMatches(es[c].threadId, es[c].id)) == es
  {
    var es := Endpoints(calls);
    EndpointsAreRegistered(calls);
    UnregisterIsHarmlessExactly(es, es[c].threadId, es[c].id);
    forall d | 0 <= d < |es|
      ensures Silences(es[d], es[c].threadId, Some(es[c].id))
              <==> Succeeds(es, c, d) && RegistrationId(d) == RegistrationId(c)
      ensures |es| < U64 && c < d ==> RegistrationId(d) != RegistrationId(c)
    {
      if d < c && es[d].threadId == es[c].threadId {
        OnlyTheLatestIsLive(calls, d, c);
      }
      if c < d < |es| < U64 {
        RegistrationIdsDistinct(c, d);
      }
    }
  }

  // ------------------------------------------------ a prune that comes late

  /** `prune_dropped`, one thread after the other. */
  function Pruned(es: seq<Endpoint>, threads: seq<string>): (now: seq<Endpoint>)
    ensures |now| == |es|
  {
    if threads == [] then es else Step(Pruned(es, threads[..|threads| - 1]), Unregister(threads[|threads| - 1]))
  }

  lemma {:induction false} PrunedAt(es: seq<Endpoint>, threads: seq<string>, d: nat)
    requires d < |es|
    ensures Pruned(es, threads)[d] == if es[d].threadId in threads then es[d].(live := false) else es[d]
  {
    if threads != [] {
      var front, last := threads[..|threads| - 1], threads[|threads| - 1];
      PrunedAt(es, front, d);
      assert es[d].threadId in threads <==> es[d].threadId in front || es[d].threadId == last;
    }
  }

  /** The registrations a dispatch found gone: channel by thread. */
  predicate FoundGone(es: seq<Endpoint>, dropped: map<string, nat>) {
    forall t | t in dropped :: dropped[t] < |es| && es[dropped[t]].threadId == t && !es[dropped[t]].open
  }

  /** A receiver found gone whose thread is registered again before the prune: the prune
      silences the new registration, whose receiver is there. */
  lemma {:induction false} LatePruneSilencesSuccessor(t: string, s: string)
    ensures var es := Endpoints([Register(t, s), DropReceiver(0), Register(t, s)]);
            && |es| == 2 && FoundGone(es, map[t := 0]) && Succeeds(es, 0, 1) && es[1].open
            && !Pruned(es, [t])[1].live
  {
    var calls := [Register(t, s), DropReceiver(0), Register(t, s)];
    assert calls[..2] == [Register(t, s), DropReceiver(0)] && calls[..2][..1] == [Register(t, s)];
    assert [Register(t, s)][..0] == [] && [t][..0] == [];
    assert Endpoints([Register(t, s)]) == Step([], Register(t, s));
    assert Endpoints(calls[..2]) == Step(Endpoints([Register(t, s)]), DropReceiver(0));
  }

  /** A dispatch that prunes only after other calls have come in between silences nothing but
      the registrations it found gone, exactly when no thread it prunes was registered again
      in the meantime and is live. */
  lemma {:induction false} LatePruneHitsSuccessors(calls: seq<Call>, dropped: map<string, nat>, threads: seq<string>)
    requires FoundGone(Endpoints(calls), dropped) && forall t :: t in threads <==> t in dropped
    ensures var es := Endpoints(calls);
            (forall d | 0 <= d < |es| && d !in dropped.Values :: Pruned(es, threads)[d] == es[d])
            <==> (forall t, d | t in dropped && 0 <= d < |es| :: !Succeeds(es, dropped[t], d))
  {
    var es := Endpoints(calls);
    forall d | 0 <= d < |es|
      ensures Pruned(es, threads)[d] == if es[d].threadId in threads then es[d].(live := false) else es[d]
    {
      PrunedAt(es, threads, d);
    }
    forall t, d | t in dropped && 0 <= d < |es| && Succeeds(es, dropped[t], d)
      ensures d !in dropped.Values && Pruned(es, threads)[d] != es[d]
    {}
    forall d | 0 <= d < |es| && d !in dropped.Values && Pruned(es, threads)[d] != es[d]
      ensures es[d].threadId in dropped && Succeeds(es, dropped[es[d].threadId], d)
    {
      var c := dropped[es[d].threadId];
      if d < c {
        OnlyTheLatestIsLive(calls, d, c);
      }
    }
  }
}

/** The router itself: two indexes under one lock, one channel per registration. */
module NotificationRouting {
  import opened Prelude
  import opened Counters
  import opened Notifications
  import opened RoutingRules
  import opened RoutingHistory

  datatype Registration = Registration(id: nat, scopeId: string, channel: nat)

  /** `queue` is everything ever sent; sending fails once the receiver is gone. */
  datatype Channel = Channel(queue: seq<Item>, open: bool)

  datatype RouteError = StaleRouting(scopeId: string) | StreamDropped

  function RemoveScopeThread(scopes: map<string, set<string>>, scopeId: string, threadId: string)
          : map<string, set<string>> {
    if scopeId !in scopes then scopes
    else
      var entries := scopes[scopeId] - {threadId};
      if entries == {} then scopes - {scopeId} else scopes[scopeId := entries]
  }

  function AddScopeThread(scopes: map<string, set<string>>, scopeId: string, threadId: string)
          : map<string, set<string>> {
    scopes[scopeId := (if scopeId in scopes then scopes[scopeId] else {}) + {threadId}]
  }

  /** The scope index that belongs to a thread index. */
  ghost function ScopesOf(threads: map<string, Registration>): map<string, set<string>> {
    map s | s in ScopeIds(threads) :: Members(threads, s)
  }

  ghost function ScopeIds(threads: map<string, Registration>): set<string> {
    set t | t in threads :: threads[t].scopeId
  }

  ghost function Members(threads: map<string, Registration>, s: string): set<string> {
    set t | t in threads && threads[t].scopeId == s
  }

  /** Each index is the other one read backwards, and no scope is empty. */
  ghost predicate Inverse(threads: map<string, Registration>, scopes: map<string, set<string>>) {
    && (forall t | t in threads :: threads[t].scopeId in scopes && t in scopes[threads[t].scopeId])
    && (forall s | s in scopes :: scopes[s] != {})
    && (forall s, t | s in scopes && t in scopes[s] :: t in threads && threads[t].scopeId == s)
  }

  lemma {:induction false} InverseMeansScopesOf(threads: map<string, Registration>, scopes: map<string, set<string>>)
    ensures Inverse(threads, scopes) <==> scopes == ScopesOf(threads)
  {
    if Inverse(threads, scopes) {
      forall s ensures s in scopes <==> s in ScopesOf(threads) {
        if s in scopes {
          var t :| t in scopes[s];
          assert threads[t].scopeId == s;
        }
      }
      forall s | s in scopes ensures scopes[s] == ScopesOf(threads)[s] {
      }
    } else if scopes == ScopesOf(threads) {
      assert forall t | t in threads :: t in scopes[threads[t].scopeId];
      assert Inverse(threads, scopes);
    }
  }

  lemma {:induction false} ScopesAfterRemoval(threads: map<string, Registration>, t: string)
    requires t in threads
    ensures RemoveScopeThread(ScopesOf(threads), threads[t].scopeId, t) == ScopesOf(threads - {t})
  {
    InverseMeansScopesOf(threads, ScopesOf(threads));
    var rest := RemoveScopeThread(ScopesOf(threads), threads[t].scopeId, t);
    assert Inverse(threads - {t}, rest);
    InverseMeansScopesOf(threads - {t}, rest);
  }

  lemma {:induction false} ScopesAfterAddition(threads: map<string, Registration>, t: string, r: Registration)
    requires t !in threads
    ensures AddScopeThread(ScopesOf(threads), r.scopeId, t) == ScopesOf(threads[t := r])
  {
    InverseMeansScopesOf(threads, ScopesOf(threads));
    var more := AddScopeThread(ScopesOf(threads), r.scopeId, t);
    assert Inverse(threads[t := r], more);
    InverseMeansScopesOf(threads[t := r], more);
  }

  /** Routing points at exactly the live endpoints. */
  ghost predicate PointsAtLive(threads: map<string, Registration>, es: seq<Endpoint>) {
    && (forall c | 0 <= c < |es| && es[c].live ::
          es[c].threadId in threads && threads[es[c].threadId] == Registration(es[c].id, es[c].scopeId, c))
    && (forall t | t in threads ::
          threads[t].channel < |es| && es[threads[t].channel].live && es[threads[t].channel].threadId == t)
  }

  lemma {:induction false} PointsAfterRegistration(threads: map<string, Registration>, es: seq<Endpoint>,
          now: seq<Endpoint>, e: Endpoint)
    requires PointsAtLive(threads, es) && |now| == |es| + 1 && now[|es|] == e && e.live
    requires forall c | 0 <= c < |es| :: now[c] == es[c].(live := es[c].live && es[c].threadId != e.threadId)
    ensures PointsAtLive(threads[e.threadId := Registration(e.id, e.scopeId, |es|)], now)
  {}

  lemma {:induction false} PointsAfterRemovals(threads: map<string, Registration>, es: seq<Endpoint>,
          now: seq<Endpoint>, gone: set<string>)
    requires PointsAtLive(threads, es) && |now| == |es|
    requires forall c | 0 <= c < |es| ::
               && now[c].threadId == es[c].threadId && now[c].scopeId == es[c].scopeId && now[c].id == es[c].id
               && now[c].live == (es[c].live && es[c].threadId !in gone)
    ensures PointsAtLive(threads - gone, now)
  {}

  /** The channel of the live registration of a thread. */
  ghost function LiveChannel(es: seq<Endpoint>, t: string): (c: nat)
    requires t in LiveThreads(es)
    ensures c < |es| && es[c].live && es[c].threadId == t
  {
    var c :| 0 <= c < |es| && es[c].live && es[c].threadId == t;
    c
  }

  ghost function LiveThreads(es: seq<Endpoint>): set<string> {
    set c | 0 <= c < |es| && es[c].live :: es[c].threadId
  }

  ghost function LiveChannels(es: seq<Endpoint>): set<nat> {
    set c: nat | 0 <= c < |es| && es[c].live
  }

  ghost function RegistrationAt(es: seq<Endpoint>, c: nat): Registration
    requires c < |es|
  {
    Registration(es[c].id, es[c].scopeId, c)
  }

  /** The thread index that points at live endpoints. */
  ghost function LiveIndex(es: seq<Endpoint>): map<string, Registration> {
    map t | t in LiveThreads(es) :: RegistrationAt(es, LiveChannel(es, t))
  }

  ghost function ChannelsIn(threads: map<string, Registration>): set<nat> {
    set t | t in threads :: threads[t].channel
  }

  ghost function ChannelsOf(es: seq<Endpoint>): (r: seq<Channel>)
    ensures |r| == |es|
  {
    seq(|es|, c requires 0 <= c < |es| => Channel(es[c].queue, es[c].open))
  }

  /** Routing state is what the endpoints say it is, and the live ones are exactly those it
      points at: what every call keeps. */
  ghost predicate InStep(threads: map<string, Registration>, channels: seq<Channel>, es: seq<Endpoint>) {
    threads == LiveIndex(es) && LiveChannels(es) == ChannelsIn(threads) && channels == ChannelsOf(es)
  }

  lemma {:induction false} InStepUnfold(threads: map<string, Registration>, channels: seq<Channel>, es: seq<Endpoint>)
    requires InStep(threads, channels, es)
    ensures PointsAtLive(threads, es) && |channels| == |es|
    ensures forall c | 0 <= c < |channels| :: channels[c] == Channel(es[c].queue, es[c].open)
  {
    forall c | 0 <= c < |es| && es[c].live
      ensures es[c].threadId in threads && threads[es[c].threadId] == Registration(es[c].id, es[c].scopeId, c)
    {
      assert c in LiveChannels(es);
      var t :| t in threads && threads[t].channel == c;
      assert t == es[c].threadId;
    }
  }

  lemma {:induction false} InStepFold(threads: map<string, Registration>, channels: seq<Channel>, es: seq<Endpoint>)
    requires PointsAtLive(threads, es) && |channels| == |es|
    requires forall c | 0 <= c < |channels| :: channels[c] == Channel(es[c].queue, es[c].open)
    ensures InStep(threads, channels, es)
  {}

  /** A thread never has two live registrations. */
  lemma {:induction false} OneLiveRegistrationPerThread(threads: map<string, Registration>, channels: seq<Channel>,
          es: seq<Endpoint>, c: nat, d: nat)
    requires InStep(threads, channels, es)
    requires c < |es| && d < |es| && es[c].live && es[d].live && es[c].threadId == es[d].threadId
    ensures c == d
  {
    InStepUnfold(threads, channels, es);
  }

  lemma {:induction false} InStepAfterRegister(threads: map<string, Registration>, channels: seq<Channel>,
          es: seq<Endpoint>, t: string, s: string)
    requires InStep(threads, channels, es)
    ensures var r := Registration(RegistrationId(|channels|), s, |channels|);
            InStep(threads[t := r], channels + [Channel([], true)], Step(es, Register(t, s)))
  {
    InStepUnfold(threads, channels, es);
    var now := Step(es, Register(t, s));
    PointsAfterRegistration(threads, es, now, now[|es|]);
    InStepFold(threads[t := Registration(RegistrationId(|es|), s, |es|)], channels + [Channel([], true)], now);
  }

  lemma {:induction false} InStepAfterUnregister(threads: map<string, Registration>, channels: seq<Channel>,
          es: seq<Endpoint>, t: string)
    requires InStep(threads, channels, es)
    ensures InStep(threads - {t}, channels, Step(es, Unregister(t)))
  {
    InStepUnfold(threads, channels, es);
    PointsAfterRemovals(threads, es, Step(es, Unregister(t)), {t});
    InStepFold(threads - {t}, channels, Step(es, Unregister(t)));
  }

  lemma {:induction false} InStepAfterUnregisterIfMatches(threads: map<string, Registration>, channels: seq<Channel>,
          es: seq<Endpoint>, t: string, id: nat)
    requires InStep(threads, channels, es)
    ensures var gone := if t in threads && threads[t].id == id then {t} else {};
            InStep(threads - gone, channels, Step(es, UnregisterIfMatches(t, id)))
  {
    var gone := if t in threads && threads[t].id == id then {t} else {};
    InStepUnfold(threads, channels, es);
    PointsAfterRemovals(threads, es, Step(es, UnregisterIfMatches(t, id)), gone);
    InStepFold(threads - gone, channels, Step(es, UnregisterIfMatches(t, id)));
  }

  /** The channels a target selects through the thread index. */
  ghost function Selected(threads: map<string, Registration>, target: Target): map<string, nat> {
    map t | t in threads && Matches(target, t, threads[t].scopeId) :: threads[t].channel
  }

  /** The scope index selects what the thread index says, and a filed scope is never empty. */
  lemma {:induction false} ScopeSelection(threads: map<string, Registration>, scopes: map<string, set<string>>,
          s: string)
    requires scopes == ScopesOf(threads)
    ensures s !in scopes ==> Selected(threads, OneScope(s)) == map[]
    ensures s in scopes ==>
              && Selected(threads, OneScope(s)) == (map t | t in scopes[s] && t in threads :: threads[t].channel)
              && Selected(threads, OneScope(s)) != map[]
  {
    InverseMeansScopesOf(threads, scopes);
    if s in scopes {
      var t :| t in scopes[s];
      assert t in Selected(threads, OneScope(s));
    }
  }

  lemma {:induction false} ThreadSelection(threads: map<string, Registration>, t: string)
    ensures Selected(threads, OneThread(t)) == if t in threads then map[t := threads[t].channel] else map[]
  {}

  /** Every selected thread has a channel of its own. */
  ghost predicate Separate(senders: map<string, nat>, channels: seq<Channel>) {
    && (forall t | t in senders :: senders[t] < |channels|)
    && forall t, u | t in senders && u in senders && t != u :: senders[t] != senders[u]
  }

  lemma {:induction false} SelectionSeparate(threads: map<string, Registration>, channels: seq<Channel>,
          es: seq<Endpoint>, target: Target)
    requires InStep(threads, channels, es)
    ensures Separate(Selected(threads, target), channels)
  {}

  /** What a fan-out leaves behind: open selected channels get the item, the rest stays. */
  ghost function Fanned(channels: seq<Channel>, senders: map<string, nat>, item: Item): (now: seq<Channel>)
    ensures |now| == |channels|
  {
    seq(|channels|, c requires 0 <= c < |channels| =>
      if channels[c].open && c in senders.Values then Channel(channels[c].queue + [item], true) else channels[c])
  }

  /** The threads of a selection whose receiver is gone. */
  function Unreachable(senders: map<string, nat>, channels: seq<Channel>): set<string>
    requires forall t | t in senders :: senders[t] < |channels|
  {
    set t | t in senders && !channels[senders[t]].open
  }

  lemma {:induction false} InStepAfterSend(threads: map<string, Registration>, channels: seq<Channel>,
          es: seq<Endpoint>,
                        target: Target, n: CodexNotification, senders: map<string, nat>)
    requires InStep(threads, channels, es) && senders == Selected(threads, target)
    ensures forall t | t in senders :: senders[t] < |channels|
    ensures InStep(threads - Unreachable(senders, channels), Fanned(channels, senders, Delivered(n)),
        Step(es, Send(target, n)))
  {
    InStepUnfold(threads, channels, es);
    var now, later := Fanned(channels, senders, Delivered(n)), Step(es, Send(target, n));
    var dropped := Unreachable(senders, channels);
    forall c | 0 <= c < |es|
      ensures now[c] == Channel(later[c].queue, later[c].open)
      ensures later[c].live == (es[c].live && es[c].threadId !in dropped)
    {
      SelectedChannel(threads, channels, es, target, c);
      var t := es[c].threadId;
      if es[c].live && Matches(target, t, es[c].scopeId) {
        assert t in senders && senders[t] == c;
      }
    }
    PointsAfterRemovals(threads, es, later, dropped);
    InStepFold(threads - dropped, now, later);
  }

  lemma {:induction false} InStepAfterSendToNobody(threads: map<string, Registration>, channels: seq<Channel>,
          es: seq<Endpoint>,
                                target: Target, n: CodexNotification)
    requires InStep(threads, channels, es) && Selected(threads, target) == map[]
    ensures InStep(threads, channels, Step(es, Send(target, n)))
  {
    InStepAfterSend(threads, channels, es, target, n, map[]);
    assert threads - Unreachable(map[], channels) == threads;
    assert Fanned(channels, map[], Delivered(n)) == channels;
  }

  /** A channel is selected exactly when its endpoint is live and matches. */
  lemma {:induction false} SelectedChannel(threads: map<string, Registration>, channels: seq<Channel>,
          es: seq<Endpoint>, target: Target, c: nat)
    requires PointsAtLive(threads, es) && c < |es|
    ensures c in Selected(threads, target).Values <==> es[c].live && Matches(target, es[c].threadId, es[c].scopeId)
  {
    var senders := Selected(threads, target);
    if es[c].live && Matches(target, es[c].threadId, es[c].scopeId) {
      assert es[c].threadId in senders;
    }
    if c in senders.Values {
      var t :| t in senders && senders[t] == c;
    }
  }

  /** A send to one thread: nothing for an unknown thread, one queued item for an open
      receiver, and an end to the registration otherwise. */
  lemma {:induction false} InStepAfterThreadSend(threads: map<string, Registration>, channels: seq<Channel>,
          es: seq<Endpoint>,
                              t: string, n: CodexNotification)
    requires InStep(threads, channels, es)
    ensures t in threads ==> threads[t].channel < |channels|
    ensures t !in threads ==> InStep(threads, channels, Step(es, Send(OneThread(t), n)))
    ensures t in threads ==>
              var c := threads[t].channel;
              if channels[c].open then
                InStep(threads, channels[c := Channel(channels[c].queue + [Delivered(n)], true)],
                    Step(es, Send(OneThread(t), n)))
              else InStep(threads - {t}, channels, Step(es, Send(OneThread(t), n)))
  {
    ThreadSelection(threads, t);
    var senders := Selected(threads, OneThread(t));
    InStepAfterSend(threads, channels, es, OneThread(t), n, senders);
    var now := Fanned(channels, senders, Delivered(n));
    if t in threads {
      var c := threads[t].channel;
      assert senders.Values == {c} by {
        assert senders[t] == c;
      }
      if channels[c].open {
        assert now == channels[c := Channel(channels[c].queue + [Delivered(n)], true)];
        assert threads - Unreachable(senders, channels) == threads;
      } else {
        assert now == channels && Unreachable(senders, channels) == {t};
      }
    } else {
      assert now == channels && threads - Unreachable(senders, channels) == threads;
    }
  }

  lemma {:induction false} InStepAfterErrorAll(threads: map<string, Registration>, channels: seq<Channel>,
          es: seq<Endpoint>,
                            error: string)
    requires InStep(threads, channels, es)
    ensures InStep(map[], Fanned(channels, Selected(threads, Everyone), Failed(error)), Step(es, ErrorAll(error)))
  {
    InStepUnfold(threads, channels, es);
    var later := Step(es, ErrorAll(error));
    var now := Fanned(channels, Selected(threads, Everyone), Failed(error));
    forall c | 0 <= c < |es| ensures now[c] == Channel(later[c].queue, later[c].open) {
      SelectedChannel(threads, channels, es, Everyone, c);
    }
    InStepFold(map[], now, later);
  }

  lemma {:induction false} InStepAfterDropReceiver(threads: map<string, Registration>, channels: seq<Channel>,
          es: seq<Endpoint>, c: nat)
    requires InStep(threads, channels, es) && c < |channels|
    ensures InStep(threads, channels[c := channels[c].(open := false)], Step(es, DropReceiver(c)))
  {
    InStepUnfold(threads, channels, es);
    PointsAfterRemovals(threads, es, Step(es, DropReceiver(c)), {});
    assert threads - {} == threads;
    InStepFold(threads, channels[c := channels[c].(open := false)], Step(es, DropReceiver(c)));
  }

  /** Whether endpoint `c` is live and selected. */
  ghost predicate Reached(es: seq<Endpoint>, target: Target, c: nat) {
    c < |es| && es[c].live && Matches(target, es[c].threadId, es[c].scopeId)
  }

  /** What a send reports: success when every selected receiver still exists, except that
      a scope nobody is registered under is stale. */
  ghost function Outcome(es: seq<Endpoint>, target: Target): Result<(), RouteError> {
    if target.OneScope? && forall c: nat :: !Reached(es, target, c) then Err(StaleRouting(target.scopeId))
    else if forall c: nat | Reached(es, target, c) :: es[c].open then Ok(())
    else Err(StreamDropped)
  }

  lemma {:induction false} SelectionOutcome(threads: map<string, Registration>, channels: seq<Channel>,
          es: seq<Endpoint>, target: Target)
    requires InStep(threads, channels, es)
    ensures var senders := Selected(threads, target);
            && (forall t | t in senders :: senders[t] < |channels|)
            && Outcome(es, target)
               == if target.OneScope? && senders == map[] then Err(StaleRouting(target.scopeId))
                  else if Unreachable(senders, channels) == {} then Ok(())
                  else Err(StreamDropped)
  {
    InStepUnfold(threads, channels, es);
    var senders := Selected(threads, target);
    forall c: nat | Reached(es, target, c) ensures es[c].threadId in senders && senders[es[c].threadId] == c {
    }
    forall t | t in senders ensures Reached(es, target, senders[t]) {
    }
    if Unreachable(senders, channels) == {} {
      forall c: nat | Reached(es, target, c) ensures es[c].open {
        assert es[c].threadId !in Unreachable(senders, channels);
      }
    } else {
      var t :| t in Unreachable(senders, channels);
      assert !es[senders[t]].open;
    }
  }

  lemma {:induction false} ThreadOutcome(threads: map<string, Registration>, channels: seq<Channel>, es: seq<Endpoint>,
          t: string)
    requires InStep(threads, channels, es)
    ensures t in threads ==> threads[t].channel < |channels|
    ensures Outcome(es, OneThread(t))
         == if t in threads && !channels[threads[t].channel].open then Err(StreamDropped) else Ok(())
  {
    SelectionOutcome(threads, channels, es, OneThread(t));
    ThreadSelection(threads, t);
    var senders := Selected(threads, OneThread(t));
    if t in threads && !channels[threads[t].channel].open {
      assert t in senders && t in Unreachable(senders, channels);
    }
  }

  class NotificationRouter {
    var threads: map<string, Registration>
    var scopes: map<string, set<string>>
    var nextRegistrationId: nat
    var channels: seq<Channel>
    /** What the receivers see. */
    ghost var endpoints: seq<Endpoint>

    ghost predicate Valid()
      reads this
    {
      && scopes == ScopesOf(threads)
      && InStep(threads, channels, endpoints)
      && nextRegistrationId == CounterAfter(|channels|)
    }

    constructor ()
      ensures Valid() && endpoints == []
    {
      threads, scopes, nextRegistrationId, channels := map[], map[], 0, [];
      endpoints := [];
      new;
      InStepFold(threads, channels, endpoints);
      InverseMeansScopesOf(threads, scopes);
    }

    method RegisterThread(threadId: string, scopeId: string) returns (id: nat, channel: nat)
      requires Valid()
      modifies this
      ensures Valid() && endpoints == Step(old(endpoints), Register(threadId, scopeId))
      ensures channel == |old(endpoints)| && id == RegistrationId(channel)
    {
      InStepAfterRegister(threads, channels, endpoints, threadId, scopeId);
      id := IdFrom(nextRegistrationId);
      nextRegistrationId := Bump(nextRegistrationId);
      channel := |channels|;
      channels := channels + [Channel([], true)];
      FileUnder(threadId, Registration(id, scopeId, channel));
      endpoints := Step(endpoints, Register(threadId, scopeId));
    }

    /** Points a thread at a registration, replacing an earlier one in both indexes. */
    method FileUnder(threadId: string, registration: Registration)
      requires scopes == ScopesOf(threads)
      modifies this`threads, this`scopes
      ensures scopes == ScopesOf(threads) && threads == old(threads)[threadId := registration]
    {
      ghost var others := threads - {threadId};
      if threadId in threads {
        ScopesAfterRemoval(threads, threadId);
        scopes := RemoveScopeThread(scopes, threads[threadId].scopeId, threadId);
      } else {
        assert others == threads;
      }
      ScopesAfterAddition(others, threadId, registration);
      threads := threads[threadId := registration];
      scopes := AddScopeThread(scopes, registration.scopeId, threadId);
      assert threads == others[threadId := registration];
    }

    /** `threads.remove` together with its scope entry. */
    method Remove(threadId: string)
      requires scopes == ScopesOf(threads)
      modifies this`threads, this`scopes
      ensures scopes == ScopesOf(threads) && threads == old(threads) - {threadId}
    {
      if threadId in threads {
        ScopesAfterRemoval(threads, threadId);
        var previous := threads[threadId];
        threads := threads - {threadId};
        scopes := RemoveScopeThread(scopes, previous.scopeId, threadId);
      }
    }

    method UnregisterThread(threadId: string)
      requires Valid()
      modifies this
      ensures Valid() && endpoints == Step(old(endpoints), Unregister(threadId))
    {
      InStepAfterUnregister(threads, channels, endpoints, threadId);
      Remove(threadId);
      endpoints := Step(endpoints, Unregister(threadId));
    }

    method UnregisterThreadIfMatches(threadId: string, id: nat)
      requires Valid()
      modifies this
      ensures Valid() && endpoints == Step(old(endpoints), UnregisterIfMatches(threadId, id))
      ensures !(threadId in old(threads) && old(threads)[threadId].id == id) ==> unchanged(`threads, `scopes, `channels)
    {
      InStepAfterUnregisterIfMatches(threads, channels, endpoints, threadId, id);
      if threadId in threads && threads[threadId].id == id {
        Remove(threadId);
      } else {
        assert threads - {} == threads;
      }
      endpoints := Step(endpoints, UnregisterIfMatches(threadId, id));
    }

    /** Sends to every channel of `senders`; `dropped` are the threads whose receiver is gone. */
    method Fanout(senders: map<string, nat>, item: Item) returns (dropped: set<string>)
      requires Separate(senders, channels)
      modifies this`channels
      ensures |channels| == |old(channels)| && dropped == Unreachable(senders, old(channels))
      ensures channels == Fanned(old(channels), senders, item)
    {
      dropped := {};
      var todo := senders.Keys;
      while todo != {}
        invariant todo <= senders.Keys && |channels| == |old(channels)|
        invariant dropped == Unreachable(senders, old(channels)) - todo
        invariant forall t | t in senders ::
                    channels[senders[t]] == (if t !in todo && old(channels)[senders[t]].open
                                             then Channel(old(channels)[senders[t]].queue + [item], true)
                                             else old(channels)[senders[t]])
        invariant forall c | 0 <= c < |channels| && c !in senders.Values :: channels[c] == old(channels)[c]
        decreases todo
      {
        var t :| t in todo;
        var channel := channels[senders[t]];
        if channel.open {
          channels := channels[senders[t] := channel.(queue := channel.queue + [item])];
        } else {
          dropped := dropped + {t};
        }
        todo := todo - {t};
      }
    }

    method PruneDropped(dropped: set<string>)
      requires scopes == ScopesOf(threads)
      modifies this`threads, this`scopes
      ensures scopes == ScopesOf(threads) && threads == old(threads) - dropped
    {
      var todo := dropped;
      while todo != {}
        invariant todo <= dropped && scopes == ScopesOf(threads) && threads == old(threads) - (dropped - todo)
        decreases todo
      {
        var t :| t in todo;
        Remove(t);
        todo := todo - {t};
      }
    }

    /** The shared tail of the fan-outs: send to all, prune the threads that are gone. */
    method SendAndPrune(senders: map<string, nat>, ghost target: Target,
            n: CodexNotification) returns (dropped: set<string>)
      requires Valid() && senders == Selected(threads, target) && Separate(senders, channels)
      modifies this
      ensures Valid() && endpoints == Step(old(endpoints), Send(target, n))
      ensures dropped == Unreachable(senders, old(channels))
    {
      InStepAfterSend(threads, channels, endpoints, target, n, senders);
      dropped := Fanout(senders, Delivered(n));
      endpoints := Step(endpoints, Send(target, n));
      PruneDropped(dropped);
    }

    /** `dispatch_to_scope`: fan out to the threads filed under one scope. A filed scope
        always has a sender, so the source's second stale-routing exit is never taken. */
    method DispatchToScope(scopeId: string, n: CodexNotification) returns (r: Result<(), RouteError>)
      requires Valid()
      modifies this
      ensures Valid() && endpoints == Step(old(endpoints), Send(OneScope(scopeId), n))
      ensures r == Outcome(old(endpoints), OneScope(scopeId))
    {
      ScopeSelection(threads, scopes, scopeId);
      SelectionOutcome(threads, channels, endpoints, OneScope(scopeId));
      SelectionSeparate(threads, channels, endpoints, OneScope(scopeId));
      if scopeId !in scopes {
        InStepAfterSendToNobody(threads, channels, endpoints, OneScope(scopeId), n);
        endpoints := Step(endpoints, Send(OneScope(scopeId), n));
        return Err(StaleRouting(scopeId));
      }
      var senders := map t | t in scopes[scopeId] && t in threads :: threads[t].channel;
      if senders == map[] {
        assert false;
      }
      var dropped := SendAndPrune(senders, OneScope(scopeId), n);
      r := if dropped == {} then Ok(()) else Err(StreamDropped);
    }

    /** `dispatch_global`: fan out to every registered thread. */
    method DispatchGlobal(n: CodexNotification) returns (r: Result<(), RouteError>)
      requires Valid()
      modifies this
      ensures Valid() && endpoints == Step(old(endpoints), Send(Everyone, n))
      ensures r == Outcome(old(endpoints), Everyone)
    {
      SelectionOutcome(threads, channels, endpoints, Everyone);
      SelectionSeparate(threads, channels, endpoints, Everyone);
      var senders := map t | t in threads :: threads[t].channel;
      assert senders == Selected(threads, Everyone);
      var dropped := SendAndPrune(senders, Everyone, n);
      r := if dropped == {} then Ok(()) else Err(StreamDropped);
    }

    /** `dispatch_to_thread`: an unknown thread is not an error. */
    method DispatchToThread(threadId: string, n: CodexNotification) returns (r: Result<(), RouteError>)
      requires Valid()
      modifies this
      ensures Valid() && endpoints == Step(old(endpoints), Send(OneThread(threadId), n))
      ensures r == Outcome(old(endpoints), OneThread(threadId))
    {
      ThreadOutcome(threads, channels, endpoints, threadId);
      InStepAfterThreadSend(threads, channels, endpoints, threadId, n);
      r := Ok(());
      if threadId in threads {
        var c := threads[threadId].channel;
        if channels[c].open {
          channels := channels[c := Channel(channels[c].queue + [Delivered(n)], true)];
        } else {
          Remove(threadId);
          r := Err(StreamDropped);
        }
      }
      endpoints := Step(endpoints, Send(OneThread(threadId), n));
    }

    /** `dispatch`: route by method, thread id or scope id. */
    method Dispatch(n: CodexNotification) returns (r: Result<(), RouteError>)
      requires Valid()
      modifies this
      ensures Valid()
      ensures endpoints == if TargetOf(n).Nobody? then old(endpoints) else Step(old(endpoints), Send(TargetOf(n), n))
      ensures r == Outcome(old(endpoints), TargetOf(n))
    {
      match TargetOf(n)
      case Everyone => r := DispatchGlobal(n);
      case OneThread(t) => r := DispatchToThread(t, n);
      case OneScope(s) => r := DispatchToScope(s, n);
      case Nobody => r := Ok(());
    }

    /** `error_all`: one error to every active stream, and routing is cleared. */
    method FailEveryone(error: string)
      requires Valid()
      modifies this
      ensures Valid() && endpoints == Step(old(endpoints), ErrorAll(error))
      ensures threads == map[] && scopes == map[]
    {
      var senders := map t | t in threads :: threads[t].channel;
      assert senders == Selected(threads, Everyone);
      SelectionSeparate(threads, channels, endpoints, Everyone);
      InStepAfterErrorAll(threads, channels, endpoints, error);
      var _ := Fanout(senders, Failed(error));
      threads, scopes := map[], map[];
      InverseMeansScopesOf(threads, scopes);
      endpoints := Step(endpoints, ErrorAll(error));
    }

    /** The environment drops the receiving end of a channel. */
    method ReceiverDropped(c: nat)
      requires Valid() && c < |channels|
      modifies this
      ensures Valid() && endpoints == Step(old(endpoints), DropReceiver(c))
    {
      InStepAfterDropReceiver(threads, channels, endpoints, c);
      channels := channels[c := channels[c].(open := false)];
      endpoints := Step(endpoints, DropReceiver(c));
    }
  }
}
