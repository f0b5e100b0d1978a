// Following a provider-policy listing page by page: what one accepted page guarantees, and what
// a whole chain of pages adds up to.

module PolicyPages {
  import opened Wrappers

  datatype IntentMode = AnyIntent | NoIntent | ExactIntent

  datatype Coordinate = Coordinate(subject: string, workspace: string, action: string, intent: Option<string>)

  datatype Grant = Grant(id: string, provider: string, revokedAt: Option<string>, coordinate: Coordinate)

  datatype ListRequest = ListRequest(
    subject: Option<string>, workspace: Option<string>, action: Option<string>,
    intent: Option<string>, intentMode: IntentMode, limit: nat, after: Option<string>)

  datatype Page = Page(revision: int, grants: seq<Grant>, nextAfter: Option<string>)

  datatype Malformed = Malformed

  /** Python's order on strings: by code point, a proper prefix first. */
  predicate Before(a: string, b: string) {
    if b == [] then false
    else if a == [] then true
    else a[0] < b[0] || (a[0] == b[0] && Before(a[1..], b[1..]))
  }

  /** At the first place where they differ the smaller text has the smaller character or none. */
  lemma {:induction false} BeforeMeans(a: string, b: string)
    ensures Before(a, b) <==>
              exists k: nat | k <= |a| && k < |b| :: a[..k] == b[..k] && (k < |a| ==> a[k] < b[k])
  {
    if b == [] {
    } else if a == [] {
      assert a[..0] == b[..0];
    } else {
      BeforeMeans(a[1..], b[1..]);
      if Before(a, b) {
        if a[0] < b[0] {
          assert a[..0] == b[..0];
        } else {
          var k: nat :| k <= |a[1..]| && k < |b[1..]| && a[1..][..k] == b[1..][..k]
                     && (k < |a[1..]| ==> a[1..][k] < b[1..][k]);
          assert a[..k + 1] == [a[0]] + a[1..][..k] && b[..k + 1] == [b[0]] + b[1..][..k];
        }
      }
      if k: nat :| k <= |a| && k < |b| && a[..k] == b[..k] && (k < |a| ==> a[k] < b[k]) {
        if k > 0 {
          assert a[0] == a[..k][0] == b[..k][0] == b[0];
          assert a[1..][..k - 1] == a[..k][1..] && b[1..][..k - 1] == b[..k][1..];
        }
      }
    }
  }

  lemma {:induction false} BeforeIsStrict(a: string)
    ensures !Before(a, a)
  {
    if a != [] {
      BeforeIsStrict(a[1..]);
    }
  }

  lemma {:induction false} BeforeIsTransitive(a: string, b: string, c: string)
    requires Before(a, b) && Before(b, c)
    ensures Before(a, c)
  {
    if a != [] && a[0] == b[0] == c[0] {
      BeforeIsTransitive(a[1..], b[1..], c[1..]);
    }
  }

  function CursorOf(after: Option<string>): string {
    if after.Some? then after.value else ""
  }

  predicate FieldMeets(wanted: Option<string>, actual: string) {
    wanted.None? || wanted.value == actual
  }

  predicate MeetsFilters(request: ListRequest, provider: string, g: Grant) {
    && g.provider == provider && g.revokedAt.None?
    && (request.subject.Some? ==> g.coordinate.subject == request.subject.value)
    && (request.workspace.Some? ==> g.coordinate.workspace == request.workspace.value)
    && (request.action.Some? ==> g.coordinate.action == request.action.value)
    && (request.intentMode.NoIntent? ==> g.coordinate.intent.None?)
    && (request.intentMode.ExactIntent? ==> g.coordinate.intent == request.intent)
  }

  predicate Increasing(start: string, grants: seq<Grant>)
    decreases |grants|
  {
    grants == [] || (Before(start, grants[0].id) && Increasing(grants[0].id, grants[1..]))
  }

  function LastId(start: string, grants: seq<Grant>): string {
    if grants == [] then start else grants[|grants| - 1].id
  }

  predicate AcceptedPage(request: ListRequest, provider: string, page: Page) {
    var start := CursorOf(request.after);
    && |page.grants| <= request.limit
    && Increasing(start, page.grants)
    && (forall i | 0 <= i < |page.grants| :: MeetsFilters(request, provider, page.grants[i]))
    && (page.nextAfter.Some? ==>
          |page.grants| == request.limit && page.nextAfter.value == LastId(start, page.grants))
  }

  lemma {:induction false} IncreasingThen(start: string, grants: seq<Grant>, g: Grant)
    ensures Increasing(start, grants + [g]) <==> Increasing(start, grants) && Before(LastId(start, grants), g.id)
    decreases |grants|
  {
    if grants == [] {
      assert ([] + [g])[1..] == [];
    } else {
      assert (grants + [g])[1..] == grants[1..] + [g];
      IncreasingThen(grants[0].id, grants[1..], g);
    }
  }

  lemma {:induction false} IncreasingPrefix(start: string, grants: seq<Grant>, n: nat)
    requires n <= |grants| && Increasing(start, grants)
    ensures Increasing(start, grants[..n])
    decreases |grants|
  {
    if n > 0 {
      assert grants[..n][1..] == grants[1..][..n - 1];
      IncreasingPrefix(grants[0].id, grants[1..], n - 1);
    }
  }

  method CheckPage(request: ListRequest, provider: string, page: Page) returns (r: Result<Page, Malformed>)
    ensures r == if AcceptedPage(request, provider, page) then Success(page) else Failure(Malformed)
  {
    if |page.grants| > request.limit {
      return Failure(Malformed);
    }
    var start := CursorOf(request.after);
    var previous := start;
    for i := 0 to |page.grants|
      invariant previous == LastId(start, page.grants[..i])
      invariant Increasing(start, page.grants[..i])
      invariant forall j | 0 <= j < i :: MeetsFilters(request, provider, page.grants[j])
    {
      var grant := page.grants[i];
      assert page.grants[..i + 1] == page.grants[..i] + [grant];
      IncreasingThen(start, page.grants[..i], grant);
      if grant.provider != provider || grant.revokedAt.Some? || !Before(previous, grant.id) {
        RefusedGrant(request, provider, page, i);
        return Failure(Malformed);
      }
      previous := grant.id;
      if || !FieldMeets(request.subject, grant.coordinate.subject)
         || !FieldMeets(request.workspace, grant.coordinate.workspace)
         || !FieldMeets(request.action, grant.coordinate.action) {
        return Failure(Malformed);
      }
      if || (request.intentMode.NoIntent? && grant.coordinate.intent.Some?)
         || (request.intentMode.ExactIntent? && grant.coordinate.intent != request.intent) {
        return Failure(Malformed);
      }
    }
    assert page.grants[..|page.grants|] == page.grants;
    if page.nextAfter.Some? && (|page.grants| != request.limit || page.nextAfter.value != previous) {
      return Failure(Malformed);
    }
    return Success(page);
  }

  lemma RefusedGrant(request: ListRequest, provider: string, page: Page, i: nat)
    requires i < |page.grants|
    requires !MeetsFilters(request, provider, page.grants[i])
          || !Increasing(CursorOf(request.after), page.grants[..i + 1])
    ensures !AcceptedPage(request, provider, page)
  {
    if Increasing(CursorOf(request.after), page.grants) {
      IncreasingPrefix(CursorOf(request.after), page.grants, i + 1);
    }
  }

  // ---- following the cursor ----

  /** The pages a client reads by asking again after each page's cursor. */
  predicate Chain(request: ListRequest, provider: string, pages: seq<Page>)
    decreases |pages|
  {
    pages != [] ==>
      && AcceptedPage(request, provider, pages[0])
      && (|pages| > 1 ==>
            pages[0].nextAfter.Some? && Chain(request.(after := pages[0].nextAfter), provider, pages[1..]))
  }

  function AllGrants(pages: seq<Page>): seq<Grant> {
    if pages == [] then [] else pages[0].grants + AllGrants(pages[1..])
  }

  lemma {:induction false} IncreasingConcat(start: string, a: seq<Grant>, b: seq<Grant>)
    requires Increasing(start, a) && Increasing(LastId(start, a), b)
    ensures Increasing(start, a + b)
    decreases |a|
  {
    if a == [] {
      assert a + b == b;
    } else {
      assert (a + b)[1..] == a[1..] + b;
      IncreasingConcat(a[0].id, a[1..], b);
    }
  }

  /** The law of paging: all pages together are one strictly increasing list of grants that meet
      the request's filters. */
  lemma {:induction false} ChainIsOneList(request: ListRequest, provider: string, pages: seq<Page>)
    requires Chain(request, provider, pages)
    ensures Increasing(CursorOf(request.after), AllGrants(pages))
    ensures forall g | g in AllGrants(pages) :: MeetsFilters(request, provider, g)
    decreases |pages|
  {
    if pages != [] {
      var rest := request.(after := pages[0].nextAfter);
      if |pages| > 1 {
        ChainIsOneList(rest, provider, pages[1..]);
        IncreasingConcat(CursorOf(request.after), pages[0].grants, AllGrants(pages[1..]));
        assert forall g :: MeetsFilters(rest, provider, g) == MeetsFilters(request, provider, g);
      } else {
        assert AllGrants(pages) == pages[0].grants;
      }
    }
  }

  lemma {:induction false} IncreasingFrom(start: string, grants: seq<Grant>, i: nat)
    requires Increasing(start, grants) && i < |grants|
    ensures Before(start, grants[i].id)
    decreases |grants|
  {
    if i > 0 {
      IncreasingFrom(grants[0].id, grants[1..], i - 1);
      BeforeIsTransitive(start, grants[0].id, grants[i].id);
    }
  }

  lemma {:induction false} IncreasingPairs(start: string, grants: seq<Grant>, i: nat, j: nat)
    requires Increasing(start, grants) && i < j < |grants|
    ensures Before(grants[i].id, grants[j].id)
    decreases |grants|
  {
    if i == 0 {
      IncreasingFrom(grants[0].id, grants[1..], j - 1);
    } else {
      IncreasingPairs(grants[0].id, grants[1..], i - 1, j - 1);
    }
  }

  lemma NoGrantTwice(request: ListRequest, provider: string, pages: seq<Page>, i: nat, j: nat)
    requires Chain(request, provider, pages) && i < j < |AllGrants(pages)|
    ensures AllGrants(pages)[i].id != AllGrants(pages)[j].id
  {
    ChainIsOneList(request, provider, pages);
    IncreasingPairs(CursorOf(request.after), AllGrants(pages), i, j);
    BeforeIsStrict(AllGrants(pages)[i].id);
  }

  /** An accepted cursor moves on exactly when the page may hold anything at all. */
  lemma CursorAdvancesIffLimit(request: ListRequest, provider: string, page: Page)
    requires AcceptedPage(request, provider, page) && page.nextAfter.Some?
    ensures Before(CursorOf(request.after), page.nextAfter.value) <==> request.limit >= 1
  {
    var start := CursorOf(request.after);
    if request.limit >= 1 {
      IncreasingFrom(start, page.grants, |page.grants| - 1);
    } else {
      BeforeIsStrict(start);
    }
  }

  /** Without a limit of at least one, paging can be sent round in a circle for ever. */
  lemma ZeroLimitCanLoop(provider: string, pages: nat)
    ensures var request := ListRequest(None, None, None, None, AnyIntent, 0, Some("grant"));
            Chain(request, provider, seq(pages, _ => Page(1, [], Some("grant"))))
    decreases pages
  {
    var request := ListRequest(None, None, None, None, AnyIntent, 0, Some("grant"));
    var all := seq(pages, _ => Page(1, [], Some("grant")));
    if pages > 0 {
      ZeroLimitCanLoop(provider, pages - 1);
      assert all[1..] == seq(pages - 1, _ => Page(1, [], Some("grant")));
      assert request.(after := Some("grant")) == request;
    }
  }

  /** With such a limit no cursor of a chain ever comes back, so paging cannot loop. */
  lemma {:induction false} CursorNeverReturns(request: ListRequest, provider: string, pages: seq<Page>, i: nat)
    requires request.limit >= 1 && Chain(request, provider, pages)
    requires i < |pages| && pages[i].nextAfter.Some?
    ensures Before(CursorOf(request.after), pages[i].nextAfter.value)
    decreases |pages|
  {
    if i == 0 {
      CursorAdvancesIffLimit(request, provider, pages[0]);
    } else {
      CursorAdvancesIffLimit(request, provider, pages[0]);
      CursorNeverReturns(request.(after := pages[0].nextAfter), provider, pages[1..], i - 1);
      BeforeIsTransitive(CursorOf(request.after), pages[0].nextAfter.value, pages[i].nextAfter.value);
    }
  }
}
