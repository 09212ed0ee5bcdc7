/** The page walk shared by the four collectors of internal/github/fetcher.go:
    request a page, use its items, then ask for `NextPage` until it is 0. A
    listing error ends the walk and is the collector's only result. */
module Paging {
  import opened Wrappers

  /** The response to one list or search request: the page's items and the
      number of the page to request next (0: there is none), or an error. */
  datatype Page<T> = Listed(items: seq<T>, next: nat) | ListError(cause: string)

  /** A paginated endpoint, as an oracle from page number to response. Page
      number 0 stands for the first request, made with the page option unset. */
  type Pages<T> = nat -> Page<T>

  /** The walk goes on after this response. */
  predicate Continues<T>(response: Page<T>) {
    response.Listed? && response.next != 0
  }

  /** The walk that starts by requesting `page` stops within `fuel` requests. */
  predicate Ends<T>(src: Pages<T>, page: nat, fuel: nat)
    decreases fuel
  {
    fuel > 0 && (Continues(src(page)) ==> Ends(src, src(page).next, fuel - 1))
  }

  /** Every item listed on the pages the walk requests satisfies `ok`. */
  ghost predicate AllVisited<T>(src: Pages<T>, page: nat, fuel: nat, ok: T -> bool)
    decreases fuel
  {
    fuel == 0 ||
    ((src(page).Listed? ==> forall x :: x in src(page).items ==> ok(x)) &&
     (Continues(src(page)) ==> AllVisited(src, src(page).next, fuel - 1, ok)))
  }

  /** The page numbers the walk requests, in order. */
  function Requested<T>(src: Pages<T>, page: nat, fuel: nat): seq<nat>
    requires Ends(src, page, fuel)
    decreases fuel
  {
    if Continues(src(page)) then [page] + Requested(src, src(page).next, fuel - 1) else [page]
  }

  /** The items a page contributes, `each` mapping one listed item to the
      records it yields (none, one or several), in listing order. */
  function FlatMap<T, R>(s: seq<T>, each: T -> seq<R>): seq<R>
  {
    if s == [] then [] else FlatMap(s[..|s| - 1], each) + each(s[|s| - 1])
  }

  /** What a collector returns: the records of every requested page in page
      order, or the first listing error, with nothing collected so far. */
  function Gather<T, R>(src: Pages<T>, each: T -> seq<R>, page: nat, fuel: nat): Result<seq<R>, string>
    requires Ends(src, page, fuel)
    decreases fuel
  {
    match src(page)
    case ListError(cause) => Err(cause)
    case Listed(items, next) =>
      if next == 0 then Ok(FlatMap(items, each))
      else
        match Gather(src, each, next, fuel - 1)
        case Err(cause) => Err(cause)
        case Ok(rest) => Ok(FlatMap(items, each) + rest)
  }

  /** The records gathered so far followed by the outcome of the rest of the walk. */
  function Prepend<R>(done: seq<R>, rest: Result<seq<R>, string>): Result<seq<R>, string>
  {
    match rest
    case Err(cause) => Err(cause)
    case Ok(more) => Ok(done + more)
  }

  /** Nothing gathered yet: the outcome is the rest of the walk's. */
  lemma PrependNothing<R>(rest: Result<seq<R>, string>)
    ensures Prepend([], rest) == rest
  {
    if rest.Ok? {
      assert [] + rest.value == rest.value;
    }
  }

  /** One step of a walk that has gathered `done` so far: what the response to
      `page` means for the outcome and for the requests still to come. */
  lemma GatherStep<T, R>(src: Pages<T>, each: T -> seq<R>, page: nat, fuel: nat, done: seq<R>)
    requires Ends(src, page, fuel)
    ensures src(page).ListError? ==>
      Prepend(done, Gather(src, each, page, fuel)) == Err(src(page).cause)
      && Requested(src, page, fuel) == [page]
    ensures src(page).Listed? && src(page).next == 0 ==>
      Prepend(done, Gather(src, each, page, fuel)) == Ok(done + FlatMap(src(page).items, each))
      && Requested(src, page, fuel) == [page]
    ensures Continues(src(page)) ==>
      && Ends(src, src(page).next, fuel - 1)
      && Prepend(done, Gather(src, each, page, fuel))
         == Prepend(done + FlatMap(src(page).items, each), Gather(src, each, src(page).next, fuel - 1))
      && Requested(src, page, fuel) == [page] + Requested(src, src(page).next, fuel - 1)
  {
    if Continues(src(page)) {
      var rest := Gather(src, each, src(page).next, fuel - 1);
      if rest.Ok? {
        assert done + (FlatMap(src(page).items, each) + rest.value)
            == (done + FlatMap(src(page).items, each)) + rest.value;
      }
    }
  }

  /** The records of the pages `ps`, concatenated in order. */
  function Collected<T, R>(src: Pages<T>, each: T -> seq<R>, ps: seq<nat>): seq<R>
  {
    if ps == [] then []
    else (if src(ps[0]).Listed? then FlatMap(src(ps[0]).items, each) else []) + Collected(src, each, ps[1..])
  }

  /** One more item adds its records at the end. */
  lemma FlatMapSnoc<T, R>(s: seq<T>, x: T, each: T -> seq<R>)
    ensures FlatMap(s + [x], each) == FlatMap(s, each) + each(x)
  {
    assert (s + [x])[..|s|] == s;
  }

  /** One more element of a prefix adds its records at the end: the step of a
      loop that walks `s` from the front. */
  lemma FlatMapPrefix<T, R>(s: seq<T>, i: nat, each: T -> seq<R>)
    requires i < |s|
    ensures FlatMap(s[..i + 1], each) == FlatMap(s[..i], each) + each(s[i])
  {
    assert s[..i + 1] == s[..i] + [s[i]];
    FlatMapSnoc(s[..i], s[i], each);
  }

  /** A record is in a page's records exactly when some listed item yields it. */
  lemma {:induction false} FlatMapMember<T, R>(s: seq<T>, each: T -> seq<R>, y: R)
    ensures y in FlatMap(s, each) <==> exists k :: 0 <= k < |s| && y in each(s[k])
    decreases |s|
  {
    if s != [] {
      var init := s[..|s| - 1];
      FlatMapMember(init, each, y);
      if y in FlatMap(init, each) {
        var k :| 0 <= k < |init| && y in each(init[k]);
        assert s[k] == init[k];
      }
      if exists k :: 0 <= k < |s| && y in each(s[k]) {
        var k :| 0 <= k < |s| && y in each(s[k]);
        if k < |init| {
          assert init[k] == s[k];
        }
      }
    }
  }

  /** The walk requests `page` first, then each response's next page while it
      is not 0, and stops right after the first error or the first next page 0:
      for N pages with the sentinel on the N-th, exactly N requests. */
  lemma {:induction false} RequestedChain<T>(src: Pages<T>, page: nat, fuel: nat)
    requires Ends(src, page, fuel)
    ensures var ps := Requested(src, page, fuel);
      && |ps| >= 1 && ps[0] == page
      && (forall k :: 0 <= k < |ps| - 1 ==> Continues(src(ps[k])) && src(ps[k]).next == ps[k + 1])
      && !Continues(src(ps[|ps| - 1]))
    decreases fuel
  {
    if Continues(src(page)) {
      RequestedChain(src, src(page).next, fuel - 1);
    }
  }

  /** `Gather` is the concatenation of the requested pages' records, unless the
      last request failed, in which case its error is the whole result. */
  lemma {:induction false} GatherCollects<T, R>(src: Pages<T>, each: T -> seq<R>, page: nat, fuel: nat)
    requires Ends(src, page, fuel)
    ensures var ps := Requested(src, page, fuel);
      var last := src(ps[|ps| - 1]);
      Gather(src, each, page, fuel) ==
        if last.ListError? then Err(last.cause) else Ok(Collected(src, each, ps))
    decreases fuel
  {
    var ps := Requested(src, page, fuel);
    if Continues(src(page)) {
      var next := src(page).next;
      GatherCollects(src, each, next, fuel - 1);
      var rest := Requested(src, next, fuel - 1);
      assert ps[1..] == rest;
      assert ps[|ps| - 1] == rest[|rest| - 1];
      assert Collected(src, each, ps) == FlatMap(src(page).items, each) + Collected(src, each, rest);
    } else {
      assert ps == [page] && ps[|ps| - 1] == page;
      if src(page).Listed? {
        assert Collected(src, each, ps) == FlatMap(src(page).items, each) + Collected(src, each, []);
        assert Gather(src, each, page, fuel) == Ok(FlatMap(src(page).items, each));
        assert Collected(src, each, []) == [];
        assert Collected(src, each, ps) == FlatMap(src(page).items, each);
      }
    }
  }

  /** Every gathered record was yielded by an item listed on a requested page. */
  lemma {:induction false} GatherProvenance<T, R>(src: Pages<T>, each: T -> seq<R>, page: nat, fuel: nat, y: R)
    requires Ends(src, page, fuel)
    requires Gather(src, each, page, fuel).Ok? && y in Gather(src, each, page, fuel).value
    ensures exists p, x :: p in Requested(src, page, fuel) && src(p).Listed? && x in src(p).items && y in each(x)
    decreases fuel
  {
    var items := src(page).items;
    if y in FlatMap(items, each) {
      FlatMapMember(items, each, y);
      var k :| 0 <= k < |items| && y in each(items[k]);
      assert page in Requested(src, page, fuel);
    } else {
      var next := src(page).next;
      GatherProvenance(src, each, next, fuel - 1, y);
      var p, x :| p in Requested(src, next, fuel - 1) && src(p).Listed? && x in src(p).items && y in each(x);
      assert p in Requested(src, page, fuel);
    }
  }

  /** An item on a visited page satisfies what `AllVisited` promises of it. */
  lemma {:induction false} AllVisitedHere<T>(src: Pages<T>, page: nat, fuel: nat, ok: T -> bool)
    requires Ends(src, page, fuel) && AllVisited(src, page, fuel, ok)
    ensures src(page).Listed? ==> forall x :: x in src(page).items ==> ok(x)
    ensures Continues(src(page)) ==> AllVisited(src, src(page).next, fuel - 1, ok)
  {
  }
}
