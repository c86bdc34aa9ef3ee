/**
 What the failover loop and the lookups it rests on do, said from the configuration and the replies
 alone: which upstream, endpoint and route are chosen, which candidates are called, where the loop stops,
 what it reports and what it tells the breaker.
 */
module Failover {
  import opened Text
  import opened Cost
  import opened Dispatch

  // ---------------------------------------------------------------------------------------
  // Lookups
  // ---------------------------------------------------------------------------------------

  /** Upstream `k` of model `m` serves the alias on the provider. */
  predicate Serves(models: seq<Model>, alias: Str, provider: Str, m: nat, k: nat) {
    && m < |models| && models[m].alias == alias
    && k < |models[m].upstreams| && models[m].upstreams[k].provider == provider
  }

  lemma {:induction false} FindIsFirst(us: seq<Upstream>, provider: Str) returns (k: nat)
    ensures FindUpstream(us, provider).Some? ==>
              && k < |us| && us[k].provider == provider && FindUpstream(us, provider) == Some(us[k])
              && forall j :: 0 <= j < k ==> us[j].provider != provider
    ensures FindUpstream(us, provider).None? ==> forall j :: 0 <= j < |us| ==> us[j].provider != provider
  {
    k := 0;
    if us != [] && us[0].provider != provider {
      var n := FindIsFirst(us[1..], provider);
      k := n + 1;
      forall j | 0 < j < |us| ensures us[j] == us[1..][j - 1] {
      }
    }
  }

  /** Resolution finds the first upstream in configuration order that serves the alias on the provider, and
      nothing only when there is none. */
  lemma {:induction false} ResolveIsFirst(models: seq<Model>, alias: Str, provider: Str) returns (m: nat, k: nat)
    ensures ResolveModel(models, alias, provider).Some? ==>
              && Serves(models, alias, provider, m, k)
              && ResolveModel(models, alias, provider) == Some(models[m].upstreams[k])
              && forall i: nat, j: nat :: Serves(models, alias, provider, i, j) ==> m < i || (m == i && k <= j)
    ensures ResolveModel(models, alias, provider).None? ==>
              forall i: nat, j: nat :: !Serves(models, alias, provider, i, j)
  {
    m, k := 0, 0;
    if models != [] {
      var first := FindIsFirst(models[0].upstreams, provider);
      if models[0].alias == alias && FindUpstream(models[0].upstreams, provider).Some? {
        k := first;
      } else {
        var i, j := ResolveIsFirst(models[1..], alias, provider);
        m, k := i + 1, j;
        forall a: nat, b: nat | Serves(models, alias, provider, a, b)
          ensures a > 0 && Serves(models[1..], alias, provider, a - 1, b)
        {
        }
      }
    }
  }

  /** The alias's own route, else the route for "*", else none. */
  lemma RouteIs(d: Dispatcher, alias: Str)
    ensures alias in d.routes ==> RouteFor(d, alias) == d.routes[alias]
    ensures alias !in d.routes ==>
              RouteFor(d, alias).providers == if [42] in d.routes then d.routes[[42]].providers else []
  {
  }

  lemma {:induction false} FindAdapterIsFirst(eps: seq<Endpoint>, adapter: Str) returns (i: nat)
    ensures if exists j :: 0 <= j < |eps| && eps[j].adapter == adapter
            then i < |eps| && eps[i].adapter == adapter && FindAdapter(eps, adapter) == Some(eps[i])
                 && forall j :: 0 <= j < i ==> eps[j].adapter != adapter
            else FindAdapter(eps, adapter) == None
  {
    i := 0;
    if eps != [] && eps[0].adapter != adapter {
      var n := FindAdapterIsFirst(eps[1..], adapter);
      i := n + 1;
      forall j | 0 < j < |eps| ensures eps[j] == eps[1..][j - 1] {
      }
    }
  }

  const PROTOCOL_ANTHROPIC: Str := [97, 110, 116, 104, 114, 111, 112, 105, 99]
  const ADAPTER_CLAUDE: Str := [99, 108, 97, 117, 100, 101]

  /** The endpoint a provider is called on: the first that speaks the client's protocol ("anthropic" being
      spoken by "claude"), else its first one; under its own id, else under its adapter's protocol name.
      A provider without endpoints is called on "default". */
  lemma KeyIs(d: Dispatcher, provider: Str, protocol: Str) returns (i: nat)
    ensures KeyFor(d, provider, protocol).provider == provider
    ensures provider !in d.endpoints || d.endpoints[provider] == [] ==>
              KeyFor(d, provider, protocol).endpoint == [100, 101, 102, 97, 117, 108, 116]
    ensures provider in d.endpoints && d.endpoints[provider] != [] ==>
              var eps := d.endpoints[provider];
              var wanted := if protocol == PROTOCOL_ANTHROPIC then ADAPTER_CLAUDE else protocol;
              && i < |eps|
              && (if protocol != [] && exists j :: 0 <= j < |eps| && eps[j].adapter == wanted
                  then eps[i].adapter == wanted && forall j :: 0 <= j < i ==> eps[j].adapter != wanted
                  else i == 0)
              && KeyFor(d, provider, protocol).endpoint
                 == if eps[i].id != [] then eps[i].id
                    else if eps[i].adapter == ADAPTER_CLAUDE then PROTOCOL_ANTHROPIC else eps[i].adapter
  {
    hide FindAdapter;
    i := 0;
    if provider in d.endpoints && d.endpoints[provider] != [] && protocol != [] {
      var eps := d.endpoints[provider];
      var wanted := if protocol == PROTOCOL_ANTHROPIC then ADAPTER_CLAUDE else protocol;
      var n := FindAdapterIsFirst(eps, wanted);
      if exists j :: 0 <= j < |eps| && eps[j].adapter == wanted {
        i := n;
      }
    }
  }

  // ---------------------------------------------------------------------------------------
  // The loop
  // ---------------------------------------------------------------------------------------

  /** Candidate `k` has a forwarder and its provider serves the alias. */
  predicate Callable(d: Dispatcher, alias: Str, keys: seq<EndpointKey>, k: nat) {
    k < |keys| && keys[k] in d.forwarders && ResolveModel(d.dyn.models, alias, keys[k].provider).Some?
  }

  predicate Called(c: Course, k: nat) {
    exists j :: 0 <= j < |c.tries| && c.tries[j].index == k
  }

  /** From candidate `i` on the loop calls exactly the callable candidates before `stop`, in order, and
      takes each one's reply as it is. It goes past a server error or a timeout and past nothing else:
      it stops right after the first other reply, at a callable candidate whose dispatch marker fails, or
      at the end of the list. */
  ghost predicate FailsOver(d: Dispatcher, alias: Str, keys: seq<EndpointKey>, w: World, i: nat, stop: nat, c: Course) {
    && i <= stop <= |keys|
    && (forall k :: i <= k < stop ==> (Called(c, k) <==> Callable(d, alias, keys, k)))
    && (forall j :: 0 <= j < |c.tries| ==>
          && i <= c.tries[j].index < stop && !w.hookFails(c.tries[j].index)
          && c.tries[j] == Try(c.tries[j].index, keys[c.tries[j].index], w.reply(c.tries[j].index)))
    && (forall j, k :: 0 <= j < k < |c.tries| ==>
          c.tries[j].index < c.tries[k].index && (c.tries[j].reply == ServerError || c.tries[j].reply == Timeout))
    && match c.ending
       case Answered =>
         && c.tries != [] && stop == c.tries[|c.tries| - 1].index + 1
         && var reply := c.tries[|c.tries| - 1].reply; reply.Success? || reply == BuildFailure || reply.Rejected?
       case MarkerFailed => NoLastAnswer(c) && Callable(d, alias, keys, stop) && w.hookFails(stop)
       case Exhausted => NoLastAnswer(c) && stop == |keys|
  }

  predicate NoLastAnswer(c: Course) {
    c.tries != [] ==> c.tries[|c.tries| - 1].reply == ServerError || c.tries[|c.tries| - 1].reply == Timeout
  }

  lemma {:induction false} CourseFailsOver(d: Dispatcher, alias: Str, keys: seq<EndpointKey>, w: World, i: nat)
    returns (stop: nat)
    requires i <= |keys|
    ensures FailsOver(d, alias, keys, w, i, stop, CourseFrom(d, alias, keys, w, i))
    decreases |keys| - i
  {
    var here := CourseFrom(d, alias, keys, w, i);
    if i == |keys| {
      stop := i;
    } else if !Eligible(d, alias, keys[i]) {
      stop := CourseFailsOver(d, alias, keys, w, i + 1);
      SkipOne(d, alias, keys, w, i, stop, here);
    } else if w.hookFails(i) {
      stop := i;
    } else if !Retryable(w.reply(i)) {
      stop := i + 1;
      assert here.tries[0].index == i;
    } else {
      stop := CourseFailsOver(d, alias, keys, w, i + 1);
      CallOne(d, alias, keys, w, i, stop, CourseFrom(d, alias, keys, w, i + 1), here);
    }
  }

  lemma SkipOne(d: Dispatcher, alias: Str, keys: seq<EndpointKey>, w: World, i: nat, stop: nat, c: Course)
    requires i < |keys| && FailsOver(d, alias, keys, w, i + 1, stop, c) && !Callable(d, alias, keys, i)
    ensures FailsOver(d, alias, keys, w, i, stop, c)
  {
    hide Callable, NoLastAnswer;
    assert !Called(c, i);
    forall k | i <= k < stop ensures Called(c, k) <==> Callable(d, alias, keys, k) {
      if k != i {
        assert i + 1 <= k < stop;
      }
    }
  }

  lemma CallOne(d: Dispatcher, alias: Str, keys: seq<EndpointKey>, w: World, i: nat, stop: nat, rest: Course, c: Course)
    requires i < |keys| && FailsOver(d, alias, keys, w, i + 1, stop, rest) && Callable(d, alias, keys, i)
    requires !w.hookFails(i) && (w.reply(i) == ServerError || w.reply(i) == Timeout)
    requires c == Course([Try(i, keys[i], w.reply(i))] + rest.tries, rest.ending)
    ensures FailsOver(d, alias, keys, w, i, stop, c)
  {
    hide Callable;
    forall k | i <= k < stop ensures Called(c, k) <==> Callable(d, alias, keys, k) {
      if k == i {
        assert c.tries[0].index == i;
      } else {
        assert Called(rest, k) <==> Callable(d, alias, keys, k);
        CalledLater(i, keys[i], w.reply(i), rest, c, k);
      }
    }
    assert rest.tries != [] ==> c.tries[|c.tries| - 1] == rest.tries[|rest.tries| - 1];
  }

  lemma CalledLater(i: nat, key: EndpointKey, reply: Attempt, rest: Course, c: Course, k: nat)
    requires c.tries == [Try(i, key, reply)] + rest.tries && k != i
    ensures Called(c, k) <==> Called(rest, k)
  {
    if Called(rest, k) {
      var j :| 0 <= j < |rest.tries| && rest.tries[j].index == k;
      assert c.tries[j + 1].index == k;
    }
    if Called(c, k) {
      var j :| 0 <= j < |c.tries| && c.tries[j].index == k;
      assert rest.tries[j - 1].index == k;
    }
  }

  /** What the breaker hears: a failure for every server error and timeout, a success for a success, and
      nothing for a build failure or a rejection, in the order of the calls. */
  lemma {:induction false} MarksAre(tries: seq<Try>)
    requires forall j :: 0 <= j < |tries| - 1 ==> tries[j].reply == ServerError || tries[j].reply == Timeout
    ensures |Marks(tries)|
            == if tries != [] && (tries[|tries| - 1].reply == BuildFailure || tries[|tries| - 1].reply.Rejected?)
               then |tries| - 1 else |tries|
    ensures forall j :: 0 <= j < |Marks(tries)| ==> Marks(tries)[j] == (tries[j].key, tries[j].reply.Success?)
  {
    if |tries| > 1 {
      MarksAre(tries[1..]);
      assert tries[0].reply == ServerError || tries[0].reply == Timeout;
      assert tries[1..][|tries| - 2] == tries[|tries| - 1];
    } else if |tries| == 1 {
      assert tries[1..] == [];
      assert Marks(tries) == MarksOf(tries[0]) + Marks(tries[1..]);
    }
  }

  /** What the loop reports: the endpoint, resolved model, usage and position of the answering call; the
      failure of the last candidate when none answered, told apart as a configuration mismatch exactly when
      every candidate had a forwarder and none served the alias; and a failed dispatch marker as such. */
  lemma ResultIs(d: Dispatcher, alias: Str, keys: seq<EndpointKey>, w: World)
    ensures var c := CourseFrom(d, alias, keys, w, 0);
            var r := ResultOf(d, alias, keys, w, c);
            match c.ending
            case Answered =>
              && c.tries != []
              && var last := c.tries[|c.tries| - 1];
                 var u := ResolveModel(d.dyn.models, alias, last.key.provider);
                 && u.Some? && r.key == Some(last.key) && r.model == Some(u.value.upstreamModel)
                 && r.retries == last.index
                 && (if last.reply.Success? then r.usage == last.reply.usage && r.failure == None
                     else r.usage == None && r.failure == Some(Terminal(last.reply)))
            case MarkerFailed => r == DispatchResult(None, None, None, 0, Some(DispatchRefused))
            case Exhausted =>
              && r.key == None && r.model == None && r.usage == None && r.retries == |keys|
              && (keys == [] ==> r.failure == Some(NoCandidates))
              && (keys != [] ==>
                    var k := |keys| - 1;
                    var last := if keys[k] !in d.forwarders then NoForwarder(keys[k])
                                else if ResolveModel(d.dyn.models, alias, keys[k].provider).None?
                                then NotServed(keys[k])
                                else Failed(w.reply(k));
                    if forall i :: 0 <= i < |keys| ==>
                         keys[i] in d.forwarders && ResolveModel(d.dyn.models, alias, keys[i].provider).None?
                    then r.failure == Some(ConfigurationMismatch(last)) else r.failure == Some(AllFailed(last)))
  {
    hide CourseFrom, ResolveModel;
    CourseShape(d, alias, keys, w, 0);
    assert forall i :: 0 <= i < |keys| ==>
             (ErrorAt(d, alias, keys, w, i).NotServed?
              <==> keys[i] in d.forwarders && ResolveModel(d.dyn.models, alias, keys[i].provider).None?);
  }
}
