/** The route cache kept fresh by ETag polling (internal/router/router.go, internal/controlplane/client.go). */
module RoutePoller {
  import opened Folds
  import opened Routing

  /** What the control plane holds at the time of one poll; `etag` is its ETag header, if it sends one. */
  datatype Source = Source(routes: Routes, etag: string)

  datatype Served = NotModified | Table(routes: Routes, header: string) | Failed

  /** A conditional GET (section 13.1.2 of RFC 9110): 304 exactly on a non-empty match. `fault` stands
      for any transport error, bad status or undecodable body. */
  function Respond(src: Source, ifNoneMatch: string, fault: bool): Served {
    if fault then Failed
    else if ifNoneMatch != "" && ifNoneMatch == src.etag then NotModified
    else Table(src.routes, src.etag)
  }

  /** The tag the client remembers: the header, or the version in the body when there is none. */
  function Tag(src: Source): string {
    if src.etag != "" then src.etag else src.routes.version
  }

  datatype Cache = Cache(snap: Option<Routes>, etag: string) {
    predicate NonEmpty() {
      snap.Some? && snap.value.models != []
    }
  }

  datatype Outcome = Nil | FetchError | EmptyRejected

  datatype Synced = Synced(cache: Cache, outcome: Outcome)

  function SyncStep(c: Cache, served: Served): Synced {
    match served
    case NotModified => Synced(c, Nil)
    case Failed => Synced(c, FetchError)
    case Table(routes, header) =>
      if routes.models == [] && c.NonEmpty() then Synced(c, EmptyRejected)
      else Synced(Cache(Some(routes), if header != "" then header else routes.version), Nil)
  }

  /** A snapshot has a model exactly when its table has one. */
  lemma {:induction false} SomeModel(models: map<string, seq<array<Candidate>>>, ms: seq<ModelRoutes>)
    requires forall m :: m in models <==> ProvidersOf(ms, m).Some?
    ensures |models| > 0 <==> ms != []
  {
    if ms == [] {
      assert models == map[];
    } else {
      assert ms[|ms| - 1].model in models;
    }
  }

  /** The poller and the router it keeps fresh; `loaded` is the table the router was last given. */
  class Poller {
    const router: Router
    var etag: string
    ghost var loaded: Option<Routes>

    ghost predicate Valid()
      reads this, router, if router.snap == null then {} else router.snap.Arrays()
    {
      if router.snap == null then loaded.None? else loaded.Some? && router.snap.Holds(loaded.value)
    }

    ghost function Abs(): Cache
      reads this
    {
      Cache(loaded, etag)
    }

    constructor ()
      ensures Valid() && fresh(router) && Abs() == Cache(None, "")
    {
      router := new Router();
      etag, loaded := "", None;
    }

    method Sync(src: Source, fault: bool) returns (outcome: Outcome)
      requires Valid()
      modifies this, router
      ensures Valid() && Synced(Abs(), outcome) == SyncStep(old(Abs()), Respond(src, old(etag), fault))
    {
      if router.snap != null {
        SomeModel(router.snap.models, loaded.value.models);
      }
      hide Snapshot.Holds;
      var served := Respond(src, etag, fault);
      if served.Failed? {
        return FetchError;
      }
      if served.NotModified? {
        return Nil;
      }
      if |served.routes.models| == 0 && router.snap != null && |router.snap.models| > 0 {
        return EmptyRejected;
      }
      Accept(served.routes, served.header);
      outcome := Nil;
    }

    method Accept(routes: Routes, header: string)
      modifies this, router
      ensures Valid() && Abs() == Cache(Some(routes), if header != "" then header else routes.version)
    {
      router.Load(routes);
      loaded := Some(routes);
      etag := if header == "" then routes.version else header;
    }

    /** The attempts for a model, from the table last loaded. `draws` are the random draws it makes. */
    method Route(model: string, draws: seq<seq<nat>>) returns (out: seq<Candidate>)
      requires Valid()
      requires router.snap != null && model in router.snap.models ==>
                 AllInRange(Values(router.snap.models[model]), draws)
      ensures loaded.None? ==> out == []
      ensures loaded.Some? ==>
                match ProvidersOf(loaded.value.models, model)
                case None => out == []
                case Some(ps) => Tries(out, ps) && multiset(out) == multiset(Candidates(ps)) && SortedByPriority(out)
    {
      out := router.Attempts(model, draws);
    }
  }

  // ---- Every history of the server and of failures --------------------------------------------

  datatype Poll = Poll(src: Source, fault: bool)

  function PollStep(c: Cache, p: Poll): Cache {
    SyncStep(c, Respond(p.src, c.etag, p.fault)).cache
  }

  function After(polls: seq<Poll>): Cache {
    Fold(PollStep, Cache(None, ""), polls)
  }

  /** Tags identify tables across the whole history. */
  predicate TagsIdentify(polls: seq<Poll>) {
    forall i, j :: 0 <= i < |polls| && 0 <= j < |polls| ==>
      var a, b := polls[i].src, polls[j].src;
      Tag(a) != "" && Tag(a) == Tag(b) ==> a.routes == b.routes
  }

  /** A remembered tag is the tag of an earlier table, and that table is the snapshot. */
  ghost predicate Coherent(c: Cache, polls: seq<Poll>) {
    c.etag != "" ==> exists i :: 0 <= i < |polls| && Tag(polls[i].src) == c.etag && c.snap == Some(polls[i].src.routes)
  }

  lemma {:induction false} AlwaysCoherent(polls: seq<Poll>)
    ensures Coherent(After(polls), polls)
    decreases |polls|
  {
    if polls != [] {
      var n := |polls| - 1;
      var front, last := polls[..n], polls[n];
      AlwaysCoherent(front);
      FoldSnoc(PollStep, Cache(None, ""), front, last);
      assert polls == front + [last];
      var c := After(front);
      if c.etag != "" {
        var i :| 0 <= i < |front| && Tag(front[i].src) == c.etag && c.snap == Some(front[i].src.routes);
        assert polls[i] == front[i];
      }
      assert polls[n] == last;
    }
  }

  /** Against any history of tables and faults in which tags identify tables: a Sync that returns nil
      leaves the snapshot equal to the server's table; any other Sync changes neither snapshot nor
      tag; and a non-empty snapshot never becomes empty. */
  lemma SyncIsCoherent(polls: seq<Poll>, p: Poll)
    requires TagsIdentify(polls + [p])
    ensures var c := After(polls); var r := SyncStep(c, Respond(p.src, c.etag, p.fault));
            && (r.outcome == Nil ==> r.cache.snap == Some(p.src.routes))
            && (r.outcome != Nil ==> r.cache == c)
            && (r.outcome == FetchError <==> p.fault)
            && (r.outcome == EmptyRejected <==> !p.fault && p.src.routes.models == [] && c.NonEmpty())
            && (r.outcome == Nil && r.cache != c ==>
                  r.cache.etag == if p.src.etag != "" then p.src.etag else p.src.routes.version)
            && (c.NonEmpty() ==> r.cache.NonEmpty())
  {
    var c, all := After(polls), polls + [p];
    AlwaysCoherent(polls);
    if Respond(p.src, c.etag, p.fault).NotModified? {
      var i :| 0 <= i < |polls| && Tag(polls[i].src) == c.etag && c.snap == Some(polls[i].src.routes);
      assert all[i] == polls[i] && all[|polls|] == p;
      assert Tag(p.src) == c.etag;
    }
  }

  /** A poller over a whole history: what it holds is what the history says, and whenever tags identify
      tables and the last Sync returns nil, its router holds the server's table. */
  method PollAll(polls: seq<Poll>) returns (poller: Poller, outcome: Outcome)
    ensures poller.Valid() && poller.Abs() == After(polls)
    ensures polls != [] && TagsIdentify(polls) && outcome == Nil ==>
              poller.loaded == Some(polls[|polls| - 1].src.routes)
  {
    poller := new Poller();
    outcome := FetchError;
    for k := 0 to |polls|
      invariant poller.Valid() && fresh(poller) && fresh(poller.router) && poller.Abs() == After(polls[..k])
      invariant k > 0 && TagsIdentify(polls) && outcome == Nil ==> poller.loaded == Some(polls[k - 1].src.routes)
    {
      FoldSnoc(PollStep, Cache(None, ""), polls[..k], polls[k]);
      assert polls[..k] + [polls[k]] == polls[..k + 1];
      if TagsIdentify(polls) {
        assert TagsIdentify(polls[..k] + [polls[k]]);
        SyncIsCoherent(polls[..k], polls[k]);
      }
      outcome := poller.Sync(polls[k].src, polls[k].fault);
    }
    assert polls[..|polls|] == polls;
  }

  // ---- When only headers identify tables --------------------------------------------------------

  predicate HeadersIdentify(polls: seq<Poll>) {
    forall i, j :: 0 <= i < |polls| && 0 <= j < |polls| ==>
      var a, b := polls[i].src, polls[j].src;
      a.etag != "" && a.etag == b.etag ==> a.routes == b.routes
  }

  /** The poll whose table is held: the last one that delivered a table which was not rejected. */
  function Holder(polls: seq<Poll>): (h: int)
    ensures -1 <= h < |polls|
  {
    if polls == [] then -1
    else
      var front, last := polls[..|polls| - 1], polls[|polls| - 1];
      var c := After(front);
      var served := Respond(last.src, c.etag, last.fault);
      if served.Table? && SyncStep(c, served).outcome == Nil then |polls| - 1 else Holder(front)
  }

  lemma {:induction false} HolderHolds(polls: seq<Poll>)
    ensures var h := Holder(polls);
            After(polls) == if h < 0 then Cache(None, "") else Cache(Some(polls[h].src.routes), Tag(polls[h].src))
    decreases |polls|
  {
    if polls != [] {
      var n := |polls| - 1;
      HolderHolds(polls[..n]);
      FoldSnoc(PollStep, Cache(None, ""), polls[..n], polls[n]);
      assert polls == polls[..n] + [polls[n]];
    }
  }

  /** The one way to go stale: the held table came without a header, and its version is the header now
      sent for another table. */
  predicate Misled(polls: seq<Poll>, p: Poll) {
    var h := Holder(polls);
    && !p.fault && h >= 0
    && polls[h].src.etag == "" && polls[h].src.routes.version != ""
    && polls[h].src.routes.version == p.src.etag && polls[h].src.routes != p.src.routes
  }

  /** Against any history in which the ETag headers identify tables, a Sync that returns nil leaves
      another table than the server's exactly in that way. */
  lemma {:induction false} StaleExactly(polls: seq<Poll>, p: Poll)
    requires HeadersIdentify(polls + [p])
    ensures var c := After(polls); var r := SyncStep(c, Respond(p.src, c.etag, p.fault));
            r.outcome == Nil && r.cache.snap != Some(p.src.routes) <==> Misled(polls, p)
  {
    HolderHolds(polls);
    var h, all := Holder(polls), polls + [p];
    if h >= 0 {
      assert all[h] == polls[h] && all[|polls|] == p;
    }
  }

  /** Identifying tables by the ETag header alone is not enough: the version that stands in for a
      missing header may meet an equal header later, and the 304 then keeps the old table. */
  lemma HeaderTagsAreNotEnough(a: Routes, b: Routes)
    requires a.version == "v" && a != b && b.models != []
    ensures var polls := [Poll(Source(a, ""), false)]; var p := Poll(Source(b, "v"), false);
            var c := After(polls); var r := SyncStep(c, Respond(p.src, c.etag, p.fault));
            && (forall i, j :: 0 <= i < 2 && 0 <= j < 2 ==>
                  var x, y := (polls + [p])[i].src, (polls + [p])[j].src;
                  x.etag != "" && x.etag == y.etag ==> x.routes == y.routes)
            && r.outcome == Nil && r.cache.snap == Some(a)
  {
    FoldOne(PollStep, Cache(None, ""), Poll(Source(a, ""), false));
  }
}
