/** Physical cleanup against a provider that keeps working meanwhile: abort by id, abort by key
    with pagination, and delete, interleaved with other calls that open, complete or drop
    multipart sessions. */
module Cleanup {
  import opened Wrappers
  import opened Lifecycle

  /** A multipart session: the object key it writes and the provider's id. Ids are never reused. */
  datatype Upload = Upload(key: string, id: string)

  datatype Store = Store(open: set<Upload>, objects: set<string>, ever: set<Upload>)

  /** What somebody else's call does at the provider. */
  datatype Effect = Opens(u: Upload) | Completes(u: Upload) | Drops(u: Upload) | UploadsPart(u: Upload)

  function Apply(s: Store, e: Effect): Store {
    match e
    case Opens(u) => if u in s.ever then s else s.(open := s.open + {u}, ever := s.ever + {u})
    case Completes(u) =>
      if u in s.open then s.(open := s.open - {u}, objects := s.objects + {u.key}) else s
    case Drops(u) => s.(open := s.open - {u})
    case UploadsPart(u) => s
  }

  function ApplyAll(s: Store, es: seq<Effect>): Store
    decreases |es|
  {
    if es == [] then s else Apply(ApplyAll(s, es[..|es| - 1]), es[|es| - 1])
  }

  function AbortId(s: Store, u: Upload): Store {
    s.(open := s.open - {u})
  }

  function AbortKey(s: Store, key: string): Store {
    s.(open := set u | u in s.open && u.key != key)
  }

  function DeleteKey(s: Store, key: string): Store {
    s.(objects := s.objects - {key})
  }

  /** Every open session was once opened. */
  predicate Consistent(s: Store) {
    s.open <= s.ever
  }

  predicate NoSession(s: Store, key: string) {
    forall u | u in s.open :: u.key != key
  }

  predicate Clean(s: Store, key: string) {
    NoSession(s, key) && key !in s.objects
  }

  /** No call meanwhile opens a new session on this key. */
  predicate Quiet(es: seq<Effect>, key: string) {
    forall e | e in es :: e.Opens? ==> e.u.key != key
  }

  lemma {:induction false} QuietKeepsClosed(s: Store, es: seq<Effect>, key: string)
    requires Quiet(es, key)
    ensures forall u | u in ApplyAll(s, es).open && u.key == key :: u in s.open
    ensures NoSession(s, key) ==> (key in ApplyAll(s, es).objects <==> key in s.objects)
    decreases |es|
  {
    if es != [] {
      QuietKeepsClosed(s, es[..|es| - 1], key);
      assert es[|es| - 1] in es;
    }
  }

  function AbortThenDelete(s: Store, u: Option<Upload>, key: string, es: seq<seq<Effect>>): Store
    requires |es| == 3
  {
    var s1 := ApplyAll(s, es[0]);
    var s2 := ApplyAll(if u.Some? then AbortId(s1, u.value) else AbortKey(s1, key), es[1]);
    ApplyAll(DeleteKey(s2, key), es[2])
  }

  function DeleteThenAbort(s: Store, key: string, es: seq<seq<Effect>>): Store
    requires |es| == 3
  {
    ApplyAll(AbortKey(ApplyAll(DeleteKey(ApplyAll(s, es[0]), key), es[1]), key), es[2])
  }

  /** Sweeping the key and then deleting leaves nothing behind, whatever Complete and UploadPart
      calls land before, between and after the two. */
  lemma AbortThenDeleteLeavesNothing(s: Store, key: string, es: seq<seq<Effect>>)
    requires |es| == 3 && forall i | 0 <= i < 3 :: Quiet(es[i], key)
    ensures Clean(AbortThenDelete(s, None, key, es), key)
  {
    var s1 := ApplyAll(s, es[0]);
    QuietKeepsClosed(AbortKey(s1, key), es[1], key);
    QuietKeepsClosed(DeleteKey(ApplyAll(AbortKey(s1, key), es[1]), key), es[2], key);
  }

  ghost predicate AlwaysClean(s: Store, u: Upload, key: string) {
    forall es: seq<seq<Effect>> | |es| == 3 && forall i | 0 <= i < 3 :: Quiet(es[i], key) ::
      Clean(AbortThenDelete(s, Some(u), key, es), key)
  }

  /** Aborting the one id on record is enough exactly when no other session is open on the key: a
      session duplicated by a retried create call survives. */
  lemma KnownIdIsEnoughExactlyWhenAlone(s: Store, u: Upload)
    ensures AlwaysClean(s, u, u.key) <==> forall v | v in s.open && v.key == u.key :: v == u
  {
    if forall v | v in s.open && v.key == u.key :: v == u {
      forall es: seq<seq<Effect>> | |es| == 3 && forall i | 0 <= i < 3 :: Quiet(es[i], u.key)
        ensures Clean(AbortThenDelete(s, Some(u), u.key, es), u.key)
      {
        var s1 := ApplyAll(s, es[0]);
        QuietKeepsClosed(s, es[0], u.key);
        QuietKeepsClosed(AbortId(s1, u), es[1], u.key);
        QuietKeepsClosed(DeleteKey(ApplyAll(AbortId(s1, u), es[1]), u.key), es[2], u.key);
      }
    } else {
      var v :| v in s.open && v.key == u.key && v != u;
      var es: seq<seq<Effect>> := [[], [], []];
      assert v in AbortThenDelete(s, Some(u), u.key, es).open;
      assert !Clean(AbortThenDelete(s, Some(u), u.key, es), u.key);
    }
  }

  /** The order matters exactly when a session is open: with one, a Complete between delete and
      abort leaves an object that nothing removes. */
  lemma DeleteFirstIsEnoughExactlyWhenNoSession(s: Store, key: string)
    ensures (forall es: seq<seq<Effect>> | |es| == 3 && forall i | 0 <= i < 3 :: Quiet(es[i], key) ::
               Clean(DeleteThenAbort(s, key, es), key))
            <==> NoSession(s, key)
  {
    if NoSession(s, key) {
      forall es: seq<seq<Effect>> | |es| == 3 && forall i | 0 <= i < 3 :: Quiet(es[i], key)
        ensures Clean(DeleteThenAbort(s, key, es), key)
      {
        QuietKeepsClosed(s, es[0], key);
        var s1 := DeleteKey(ApplyAll(s, es[0]), key);
        QuietKeepsClosed(s1, es[1], key);
        QuietKeepsClosed(AbortKey(ApplyAll(s1, es[1]), key), es[2], key);
      }
    } else {
      var u :| u in s.open && u.key == key;
      var es: seq<seq<Effect>> := [[], [Completes(u)], []];
      ApplyOne(DeleteKey(s, key), Completes(u));
      assert key in DeleteThenAbort(s, key, es).objects;
      assert !Clean(DeleteThenAbort(s, key, es), key);
    }
  }

  lemma ApplyOne(s: Store, e: Effect)
    ensures ApplyAll(s, [e]) == Apply(s, e)
  {
    assert [e][..0] == [];
  }

  // ---- the programs ----

  datatype Marker = Marker(key: Option<string>, id: Option<string>)
  datatype Page = Page(uploads: seq<Upload>, truncated: bool, next: Marker)
  datatype Failed = PageLimit | RepeatedMarker | NoNextMarker | ListFailed | AbortFailed | DeleteFailed

  const MAX_PAGES := 1_000

  /** A provider call with its reply. */
  datatype Call = Listed(marker: Marker, key: string, page: Option<Page>) | Aborted(u: Upload, ok: bool) | Deleted(key: string, ok: bool)

  lemma {:induction false} GoneStaysGone(s: Store, es: seq<Effect>)
    requires Consistent(s)
    ensures Consistent(ApplyAll(s, es)) && s.ever <= ApplyAll(s, es).ever
    ensures forall u | u in s.ever && u in ApplyAll(s, es).open :: u in s.open
    decreases |es|
  {
    if es != [] {
      GoneStaysGone(s, es[..|es| - 1]);
    }
  }

  /** The provider as a cleanup program meets it: before each call other callers' effects happen,
      and each reply is whatever the schedule says. */
  class Provider {
    const keyLess: (string, string) -> bool
    const idLess: (string, string) -> bool
    const effects: nat -> seq<Effect>
    const pages: nat -> Option<Page>
    const fates: nat -> Fate
    var clock: nat
    var store: Store
    ghost var lists: nat
    ghost var deletes: nat
    ghost var aborted: set<Upload>
    ghost var honest: bool
    ghost var log: seq<Call>

    constructor (keyLess: (string, string) -> bool, idLess: (string, string) -> bool, store: Store,
                 effects: nat -> seq<Effect>, pages: nat -> Option<Page>, fates: nat -> Fate)
      requires Consistent(store)
      ensures Valid() && this.store == store && honest && log == []
    {
      this.keyLess, this.idLess, this.effects, this.pages, this.fates := keyLess, idLess, effects, pages, fates;
      clock, this.store := 0, store;
      lists, deletes, aborted, honest, log := 0, 0, {}, true, [];
    }

    ghost predicate Valid()
      reads this
    {
      Consistent(store)
    }

    /** Listing order: does `u` come strictly after the marker? */
    ghost predicate After(m: Marker, u: Upload) {
      m.key.Some? ==>
        keyLess(m.key.value, u.key) || (u.key == m.key.value && m.id.Some? && idLess(m.id.value, u.id))
    }

    /** A page in marker order: it holds every open session of the key after the marker, up to the
        next marker if the listing goes on. */
    ghost predicate HonestPage(m: Marker, key: string, page: Page)
      reads this
    {
      forall u | u in store.open && u.key == key && After(m, u) && (page.truncated ==> !After(page.next, u)) ::
        u in page.uploads
    }

    /** No session that was ever seen comes back. */
    twostate predicate Onward()
      reads this
    {
      old(store.ever) <= store.ever && forall u | u in old(store.ever) && u in store.open :: u in old(store.open)
    }

    method Yield()
      requires Valid()
      modifies this`clock, this`store
      ensures Valid() && Onward()
    {
      GoneStaysGone(store, effects(clock));
      store := ApplyAll(store, effects(clock));
      clock := clock + 1;
    }

    method List(m: Marker, key: string) returns (page: Option<Page>)
      requires Valid()
      modifies this`clock, this`store, this`lists, this`honest, this`log
      ensures log == old(log) + [Listed(m, key, page)]
      ensures Valid() && Onward() && lists == old(lists) + 1
      ensures honest ==> old(honest) && (page.Some? ==> HonestPage(m, key, page.value))
    {
      Yield();
      page := pages(clock);
      lists, honest := lists + 1, honest && (page.Some? ==> HonestPage(m, key, page.value));
      log := log + [Listed(m, key, page)];
    }

    /** A 404 for a session that is already gone is a success. */
    method Abort(u: Upload) returns (ok: bool)
      requires Valid()
      modifies this`clock, this`store, this`aborted, this`log
      ensures Valid() && Onward() && aborted == old(aborted) + {u}
      ensures log == old(log) + [Aborted(u, ok)]
      ensures ok ==> u !in store.open
    {
      Yield();
      var fate := fates(clock);
      if fate == Done || fate == AppliedButLost {
        store := AbortId(store, u);
      }
      aborted := aborted + {u};
      ok := fate == Done;
      log := log + [Aborted(u, ok)];
    }

    method Delete(key: string) returns (ok: bool)
      requires Valid()
      modifies this`clock, this`store, this`deletes, this`log
      ensures Valid() && Onward() && deletes == old(deletes) + 1
      ensures log == old(log) + [Call.Deleted(key, ok)]
      ensures ok ==> key !in store.objects
    {
      Yield();
      var fate := fates(clock);
      if fate == Done || fate == AppliedButLost {
        store := DeleteKey(store, key);
      }
      deletes := deletes + 1;
      ok := fate == Done;
      log := log + [Call.Deleted(key, ok)];
    }
  }

  // ---- what a sweep calls ----

  /** The aborts of a page: one for each of its sessions of the key, in order. */
  function Aborts(key: string, uploads: seq<Upload>): seq<Call>
    decreases |uploads|
  {
    if uploads == [] then []
    else
      var u := uploads[|uploads| - 1];
      Aborts(key, uploads[..|uploads| - 1]) + if u.key == key then [Aborted(u, true)] else []
  }

  /** A page that was listed from this marker. */
  datatype Listing = Listing(marker: Marker, page: Page)

  function PageCalls(key: string, l: Listing): seq<Call> {
    [Listed(l.marker, key, Some(l.page))] + Aborts(key, l.page.uploads)
  }

  function SweepCalls(key: string, listings: seq<Listing>): seq<Call>
    decreases |listings|
  {
    if listings == [] then []
    else SweepCalls(key, listings[..|listings| - 1]) + PageCalls(key, listings[|listings| - 1])
  }

  /** The marker after these pages. */
  function NextMarker(listings: seq<Listing>): Marker {
    if listings == [] then Marker(None, None) else listings[|listings| - 1].page.next
  }

  /** The listing goes on after this page, and says where. */
  predicate GoesOn(page: Page) {
    page.truncated && page.next.key.Some? && page.next.key.value != ""
  }

  /** Each page is listed from the marker that the page before it gave, and none twice. */
  predicate Chained(listings: seq<Listing>) {
    (forall i | 0 <= i < |listings| :: listings[i].marker == NextMarker(listings[..i])) &&
    (forall i | 0 <= i < |listings| - 1 :: GoesOn(listings[i].page)) &&
    forall i, j | 0 <= i < j < |listings| :: listings[i].marker != listings[j].marker
  }

  predicate AlreadyListed(listings: seq<Listing>, m: Marker) {
    exists i :: 0 <= i < |listings| && listings[i].marker == m
  }

  /** A page whose sessions of the key are aborted up to one that fails. */
  predicate FailingAborts(calls: seq<Call>, key: string, uploads: seq<Upload>) {
    exists i :: 0 <= i < |uploads| && uploads[i].key == key && calls == Aborts(key, uploads[..i]) + [Aborted(uploads[i], false)]
  }

  /** How a sweep ends after some pages: at the last page, at a limit, or at the call that failed. */
  ghost predicate SweepEnds(key: string, listings: seq<Listing>, rest: seq<Call>, r: Result<(), Failed>) {
    var next := NextMarker(listings);
    match r
    case Success(_) => rest == [] && listings != [] && !listings[|listings| - 1].page.truncated
    case Failure(PageLimit) => rest == [] && |listings| == MAX_PAGES && GoesOn(listings[MAX_PAGES - 1].page)
    case Failure(RepeatedMarker) =>
      rest == [] && listings != [] && GoesOn(listings[|listings| - 1].page) && AlreadyListed(listings, next)
    case Failure(NoNextMarker) =>
      rest == [] && listings != [] && listings[|listings| - 1].page.truncated && !GoesOn(listings[|listings| - 1].page)
    case Failure(ListFailed) => rest == [Listed(next, key, None)]
    case Failure(AbortFailed) =>
      rest != [] && rest[0].Listed? && rest[0].page.Some? && rest[0] == Listed(next, key, rest[0].page) &&
      FailingAborts(rest[1..], key, rest[0].page.value.uploads)
    case Failure(DeleteFailed) => false
  }

  /** Aborts every session of the key on one page; stops at the first failure. */
  method AbortPage(p: Provider, key: string, uploads: seq<Upload>) returns (ok: bool, ghost calls: seq<Call>)
    requires p.Valid()
    modifies p`clock, p`store, p`aborted, p`log
    ensures p.Valid() && p.Onward()
    ensures old(p.aborted) <= p.aborted && forall u | u in p.aborted - old(p.aborted) :: u.key == key
    ensures ok ==> forall u | u in uploads && u.key == key && u in old(p.store.ever) :: u !in p.store.open
    ensures p.log == old(p.log) + calls
    ensures if ok then calls == Aborts(key, uploads) else FailingAborts(calls, key, uploads)
  {
    ok, calls := true, [];
    for i := 0 to |uploads|
      invariant p.Valid() && p.Onward() && ok
      invariant old(p.aborted) <= p.aborted && forall u | u in p.aborted - old(p.aborted) :: u.key == key
      invariant Ended(p.store, old(p.store.ever), key, uploads[..i])
      invariant p.log == old(p.log) + calls && calls == Aborts(key, uploads[..i])
    {
      ghost var before, step, was := p.log, [], p.store;
      ok, step := AbortOwn(p, key, uploads[i]);
      LogGrows(old(p.log), before, p.log, calls, step);
      StepOfPage(was, p.store, old(p.store.ever), key, uploads, i, ok, calls, step);
      calls := calls + step;
      if !ok {
        return;
      }
    }
    assert uploads[..|uploads|] == uploads;
  }

  /** Of the sessions that had been opened before, none of these is open on the key. */
  ghost predicate Ended(s: Store, ever: set<Upload>, key: string, uploads: seq<Upload>) {
    forall u | u in uploads && u.key == key && u in ever :: u !in s.open
  }

  lemma StepOfPage(was: Store, s: Store, ever: set<Upload>, key: string, uploads: seq<Upload>, i: nat, ok: bool,
                   calls: seq<Call>, step: seq<Call>)
    requires i < |uploads| && ever <= was.ever && Ended(was, ever, key, uploads[..i]) && calls == Aborts(key, uploads[..i])
    requires forall u | u in was.ever && u in s.open :: u in was.open
    requires step == (if uploads[i].key == key then [Aborted(uploads[i], ok)] else []) && (uploads[i].key != key ==> ok)
    requires ok && uploads[i].key == key ==> uploads[i] !in s.open
    ensures if ok then Ended(s, ever, key, uploads[..i + 1]) && calls + step == Aborts(key, uploads[..i + 1])
            else FailingAborts(calls + step, key, uploads)
  {
    AbortsMore(key, uploads, i);
  }

  /** A session is aborted only if it is one of the key. */
  method AbortOwn(p: Provider, key: string, u: Upload) returns (ok: bool, ghost calls: seq<Call>)
    requires p.Valid()
    modifies p`clock, p`store, p`aborted, p`log
    ensures p.Valid() && p.Onward()
    ensures p.aborted == old(p.aborted) + if u.key == key then {u} else {}
    ensures ok && u.key == key ==> u !in p.store.open
    ensures p.log == old(p.log) + calls && calls == (if u.key == key then [Aborted(u, ok)] else [])
    ensures u.key != key ==> ok
  {
    ok, calls := true, [];
    if u.key == key {
      ok := p.Abort(u);
      calls := [Aborted(u, ok)];
    }
  }

  lemma AbortsMore(key: string, uploads: seq<Upload>, i: nat)
    requires i < |uploads|
    ensures uploads[..i + 1] == uploads[..i] + [uploads[i]]
    ensures Aborts(key, uploads[..i + 1]) ==
            Aborts(key, uploads[..i]) + if uploads[i].key == key then [Aborted(uploads[i], true)] else []
  {
    assert uploads[..i + 1][..i] == uploads[..i];
  }

  /** One page: list it from the marker, and abort its sessions of the key. */
  method TakePage(p: Provider, key: string, marker: Marker) returns (r: Result<Page, Failed>, ghost calls: seq<Call>)
    requires p.Valid()
    modifies p`clock, p`store, p`lists, p`aborted, p`honest, p`log
    ensures p.Valid() && p.Onward() && p.lists == old(p.lists) + 1 && (p.honest ==> old(p.honest))
    ensures old(p.aborted) <= p.aborted && forall u | u in p.aborted - old(p.aborted) :: u.key == key
    ensures r.Success? && p.honest ==>
              forall u | u in old(p.store.open) && u.key == key && p.After(marker, u) && u in p.store.open ::
                r.value.truncated && p.After(r.value.next, u)
    ensures p.log == old(p.log) + calls
    ensures match r
            case Success(page) => calls == PageCalls(key, Listing(marker, page))
            case Failure(ListFailed) => calls == [Listed(marker, key, None)]
            case Failure(AbortFailed) =>
              calls != [] && calls[0].Listed? && calls[0].page.Some? && calls[0] == Listed(marker, key, calls[0].page) &&
              FailingAborts(calls[1..], key, calls[0].page.value.uploads)
            case Failure(_) => false
  {
    var listed := p.List(marker, key);
    calls := [Listed(marker, key, listed)];
    if listed == None {
      return Failure(ListFailed), calls;
    }
    ghost var aborts, before := [], p.log;
    var ok;
    ok, aborts := AbortPage(p, key, listed.value.uploads);
    LogGrows(old(p.log), before, p.log, calls, aborts);
    calls := calls + aborts;
    assert calls[1..] == aborts;
    r := if ok then Success(listed.value) else Failure(AbortFailed);
  }

  lemma LogGrows(was: seq<Call>, before: seq<Call>, log: seq<Call>, first: seq<Call>, rest: seq<Call>)
    requires before == was + first && log == before + rest
    ensures log == was + (first + rest)
  {
  }

  /** The page is the next one to list. */
  predicate Follows(listings: seq<Listing>, l: Listing) {
    Chained(listings) && (listings == [] || GoesOn(listings[|listings| - 1].page)) &&
    l.marker == NextMarker(listings) && !AlreadyListed(listings, l.marker)
  }

  lemma FollowingPageChains(listings: seq<Listing>, l: Listing)
    requires Follows(listings, l)
    ensures Chained(listings + [l])
  {
    var all, n := listings + [l], |listings|;
    forall i | 0 <= i <= n ensures all[i].marker == NextMarker(all[..i]) {
      assert all[..i] == listings[..i] && listings[..n] == listings;
    }
    forall i | 0 <= i < n ensures GoesOn(all[i].page) && all[i].marker != l.marker {
      assert all[i] == listings[i];
    }
  }

  lemma OneMorePage(key: string, listings: seq<Listing>, l: Listing)
    requires Follows(listings, l)
    ensures SweepCalls(key, listings + [l]) == SweepCalls(key, listings) + PageCalls(key, l)
    ensures NextMarker(listings + [l]) == l.page.next && Chained(listings + [l])
  {
    FollowingPageChains(listings, l);
    assert (listings + [l])[..|listings|] == listings;
  }

  /** The sweep of a key. For every sequence of provider replies it makes at most 1,000 list calls
      and aborts only sessions of exactly this key; it follows the markers, aborts all sessions of the
      key page by page, and ends at the last page, at a limit or at the call that failed, as it says.
      Against a provider that lists in marker order, success means that no session of the key open at
      the start remains. */
  method AbortByKey(p: Provider, key: string)
    returns (r: Result<(), Failed>, ghost listings: seq<Listing>, ghost rest: seq<Call>)
    requires p.Valid()
    modifies p`clock, p`store, p`lists, p`aborted, p`honest, p`log
    ensures p.Valid() && p.Onward() && p.lists <= old(p.lists) + MAX_PAGES
    ensures old(p.aborted) <= p.aborted && forall u | u in p.aborted - old(p.aborted) :: u.key == key
    ensures r.Success? && p.honest ==> forall u | u in old(p.store.open) && u.key == key :: u !in p.store.open
    ensures p.log == old(p.log) + SweepCalls(key, listings) + rest && Chained(listings) && SweepEnds(key, listings, rest, r)
  {
    var marker, seen := Marker(None, None), {};
    listings, rest := [], [];
    while true
      invariant p.Valid() && p.Onward() && p.lists == old(p.lists) + |seen| && |seen| <= MAX_PAGES
      invariant old(p.aborted) <= p.aborted && forall u | u in p.aborted - old(p.aborted) :: u.key == key
      invariant p.honest ==>
                  forall u | u in old(p.store.open) && u.key == key && u in p.store.open :: p.After(marker, u)
      invariant p.log == old(p.log) + SweepCalls(key, listings) && rest == [] && |seen| == |listings|
      invariant Chained(listings) && marker == NextMarker(listings) && SeenAre(seen, listings)
      invariant listings != [] ==> GoesOn(listings[|listings| - 1].page)
      decreases MAX_PAGES - |seen|
    {
      if |seen| >= MAX_PAGES {
        return Failure(PageLimit), listings, rest;
      }
      if marker in seen {
        return Failure(RepeatedMarker), listings, rest;
      }
      ghost var before := p.log;
      var taken;
      taken, rest := TakePage(p, key, marker);
      if taken.Failure? {
        return Failure(taken.error), listings, rest;
      }
      var page := taken.value;
      OneMorePage(key, listings, Listing(marker, page));
      LogGrows(old(p.log), before, p.log, SweepCalls(key, listings), rest);
      SeenMore(listings, Listing(marker, page), seen, seen + {marker});
      seen := seen + {marker};
      listings, rest := listings + [Listing(marker, page)], [];
      if !page.truncated {
        return Success(()), listings, rest;
      }
      marker := page.next;
      if marker.key == None || marker.key.value == "" {
        return Failure(NoNextMarker), listings, rest;
      }
    }
  }

  ghost predicate SeenAre(seen: set<Marker>, listings: seq<Listing>) {
    forall m :: m in seen <==> AlreadyListed(listings, m)
  }

  lemma SeenMore(listings: seq<Listing>, l: Listing, before: set<Marker>, seen: set<Marker>)
    requires SeenAre(before, listings) && seen == before + {l.marker}
    ensures SeenAre(seen, listings + [l])
  {
    var all := listings + [l];
    forall m ensures m in seen <==> AlreadyListed(all, m) {
      if m in before {
        var i :| 0 <= i < |listings| && listings[i].marker == m;
        assert all[i].marker == m;
      }
      assert all[|listings|].marker == l.marker;
      if AlreadyListed(all, m) {
        var i :| 0 <= i < |all| && all[i].marker == m;
        assert i < |listings| ==> listings[i].marker == m;
      }
    }
  }

  /** How the first step of physical cleanup ends: the abort of the id on record, the sweep without
      one, nothing for a single upload. */
  ghost predicate AbortStep(key: string, id: Option<string>, multipart: bool, calls: seq<Call>, r: Result<(), Failed>) {
    if id.Some? then
      calls == [Aborted(Upload(key, id.value), r.Success?)] && (r.Success? || r == Failure(AbortFailed))
    else if multipart then
      exists listings, rest :: calls == SweepCalls(key, listings) + rest && Chained(listings) && SweepEnds(key, listings, rest, r)
    else calls == [] && r.Success?
  }

  /** Both steps of physical cleanup are attempted, even if the first fails; success means both
      succeeded, and the first failure is the answer. Then the object is gone, and so is the session
      on record or, without one, every session of the key that was ever open before the call. */
  method CleanupBackendUpload(p: Provider, key: string, id: Option<string>, multipart: bool)
    returns (r: Result<(), Failed>, ghost calls: seq<Call>, ghost aborted: Result<(), Failed>, ghost deleted: bool)
    requires p.Valid()
    modifies p
    ensures p.Valid() && p.Onward() && p.deletes == old(p.deletes) + 1
    ensures forall u | u in p.aborted - old(p.aborted) :: u.key == key
    ensures r.Success? ==> key !in p.store.objects
    ensures r.Success? && id.Some? && Upload(key, id.value) in old(p.store.ever) ==> Upload(key, id.value) !in p.store.open
    ensures r.Success? && id == None && multipart && p.honest ==>
              forall u | u in p.store.open && u.key == key :: u !in old(p.store.ever)
    ensures p.log == old(p.log) + calls + [Call.Deleted(key, deleted)] && AbortStep(key, id, multipart, calls, aborted)
    ensures r == if aborted.Failure? then aborted else if deleted then Success(()) else Failure(DeleteFailed)
  {
    var a: Result<(), Failed> := Success(());
    calls := [];
    if id.Some? {
      var ok := p.Abort(Upload(key, id.value));
      a := if ok then Success(()) else Failure(AbortFailed);
      calls := [Aborted(Upload(key, id.value), ok)];
    } else if multipart {
      ghost var listings, rest;
      a, listings, rest := AbortByKey(p, key);
      calls := SweepCalls(key, listings) + rest;
      assert old(p.log) + SweepCalls(key, listings) + rest == old(p.log) + calls;
    }
    var d := p.Delete(key);
    aborted, deleted := a, d;
    r := if a.Failure? then a else if d then Success(()) else Failure(DeleteFailed);
  }
}
