/** The listing endpoint (src/app/api/artworks/route.ts): which records a
    `status` query selects, and their ordering newest first. */
module ArtworksRoute {
  import opened Wrappers
  import opened Types
  import opened Errors
  import opened Db

  /** A recognised status selects the records with that status; a missing
      or unrecognised one selects everything. */
  function ListSelection(artworks: seq<Artwork>, status: Option<string>): (r: seq<Artwork>)
    ensures status.Some? && ParseStatus(status.value).Some? ==>
      r == FilterByStatus(artworks, ParseStatus(status.value).value)
    ensures status.None? || ParseStatus(status.value).None? ==> r == artworks
    ensures forall x :: x in r ==> x in artworks
  {
    if status.Some? && status.value != "" && ParseStatus(status.value).Some? then
      FilterByStatusMembers(artworks, ParseStatus(status.value).value);
      FilterByStatus(artworks, ParseStatus(status.value).value)
    else artworks
  }

  /** Every record of a recognised-status listing has that status, and
      every stored record with it is listed. */
  lemma ListSelectionByStatus(artworks: seq<Artwork>, status: Status)
    ensures forall x :: x in ListSelection(artworks, Some(StatusName(status))) <==> x in artworks && x.status == status
  {
    StatusRoundTrip(status);
    FilterByStatusMembers(artworks, status);
  }

  /** Ordered by creation time, newest first. */
  predicate NewestFirst(s: seq<Artwork>) {
    forall i, j :: 0 <= i < j < |s| ==> s[i].createdAt >= s[j].createdAt
  }

  /** Exchanging two neighbours keeps the same records. */
  lemma SwapKeepsRecords(s: seq<Artwork>, j: int)
    requires 0 < j < |s|
    ensures multiset(s[j - 1 := s[j]][j := s[j - 1]]) == multiset(s)
  {
    var t := s[j - 1 := s[j]];
    assert multiset(t) == multiset(s) - multiset{s[j - 1]} + multiset{s[j]};
    assert multiset(t[j := s[j - 1]]) == multiset(t) - multiset{t[j]} + multiset{s[j - 1]};
  }

  method SwapAdjacent(a: array<Artwork>, j: int)
    requires 0 < j < a.Length
    modifies a
    ensures a[..] == old(a[..])[j - 1 := old(a[j])][j := old(a[j - 1])]
    ensures multiset(a[..]) == multiset(old(a[..]))
  {
    SwapKeepsRecords(a[..], j);
    a[j - 1], a[j] := a[j], a[j - 1];
  }

  /** Midway through inserting `s[i]`: it sits at `j`, every other pair
      among the first `i + 1` records is in order, and it is newer than
      everything after it. */
  predicate Inserting(s: seq<Artwork>, j: int, i: int) {
    && 0 <= j <= i < |s|
    && (forall p, q :: 0 <= p < q <= i && p != j && q != j ==> s[p].createdAt >= s[q].createdAt)
    && (forall q :: j < q <= i ==> s[j].createdAt > s[q].createdAt)
  }

  lemma InsertingStart(s: seq<Artwork>, i: int)
    requires 0 <= i < |s| && NewestFirst(s[..i])
    ensures Inserting(s, i, i)
  {
    assert forall p :: 0 <= p < i ==> s[..i][p] == s[p];
  }

  lemma InsertingStep(s: seq<Artwork>, j: int, i: int)
    requires Inserting(s, j, i) && j > 0 && s[j - 1].createdAt < s[j].createdAt
    ensures Inserting(s[j - 1 := s[j]][j := s[j - 1]], j - 1, i)
  {
  }

  lemma InsertingDone(s: seq<Artwork>, j: int, i: int)
    requires Inserting(s, j, i) && (j == 0 || s[j - 1].createdAt >= s[j].createdAt)
    ensures NewestFirst(s[..i + 1])
  {
    assert forall p :: 0 <= p <= i ==> s[..i + 1][p] == s[p];
  }

  /** Moves `a[i]` left past every older neighbour, so that the first
      `i + 1` records are newest first. */
  method InsertNewest(a: array<Artwork>, i: int)
    requires 0 <= i < a.Length
    requires NewestFirst(a[..i])
    modifies a
    ensures NewestFirst(a[..i + 1])
    ensures a[i + 1..] == old(a[i + 1..])
    ensures multiset(a[..]) == multiset(old(a[..]))
  {
    var j := i;
    InsertingStart(a[..], i);
    while j > 0 && a[j - 1].createdAt < a[j].createdAt
      invariant Inserting(a[..], j, i)
      invariant a[i + 1..] == old(a[i + 1..])
      invariant multiset(a[..]) == multiset(old(a[..]))
    {
      InsertingStep(a[..], j, i);
      SwapAdjacent(a, j);
      j := j - 1;
    }
    InsertingDone(a[..], j, i);
  }

  /** `artworks.sort((a, b) => b.createdAt - a.createdAt)`, in place: an
      insertion sort. */
  method SortNewestFirst(a: array<Artwork>)
    modifies a
    ensures NewestFirst(a[..])
    ensures multiset(a[..]) == multiset(old(a[..]))
  {
    var i := 0;
    while i < a.Length
      invariant 0 <= i <= a.Length
      invariant NewestFirst(a[..i])
      invariant multiset(a[..]) == multiset(old(a[..]))
    {
      InsertNewest(a, i);
      i := i + 1;
    }
    assert a[..i] == a[..];
  }

  const ListLimit: int := 100

  /** `GET /api/artworks` against the process's limiter and store: 429 when
      the limit is reached, otherwise the selected records newest first. */
  method ListGet(limiter: RateLimiter, store: ArtworkStore, forwardedFor: Option<string>,
                 status: Option<string>, now: int, nodeEnv: Option<string>)
    returns (r: Response<seq<Artwork>>)
    modifies limiter
    ensures var d := Check(old(limiter.store), "artworks:list:" + ClientIdentifier(forwardedFor), ListLimit, WindowMs, now);
      && limiter.store == d.store
      && (!d.allowed ==> r == HandleApiError(ThrownApiError(RateLimitError()), nodeEnv))
      && (d.allowed ==>
            && r.status == 200 && r.body.success && r.body.data.Some?
            && NewestFirst(r.body.data.value)
            && multiset(r.body.data.value) == multiset(ListSelection(store.artworks, status)))
  {
    var allowed := limiter.CheckRateLimit("artworks:list:" + ClientIdentifier(forwardedFor), now, ListLimit, WindowMs);
    if !allowed {
      return HandleApiError(ThrownApiError(RateLimitError()), nodeEnv);
    }
    var selected: seq<Artwork>;
    if status.Some? && status.value != "" && ParseStatus(status.value).Some? {
      selected := store.GetArtworksByStatus(ParseStatus(status.value).value);
    } else {
      selected := store.GetArtworks();
    }
    var a := new Artwork[|selected|](i requires 0 <= i < |selected| => selected[i]);
    assert a[..] == selected;
    SortNewestFirst(a);
    r := OkResponse(200, a[..]);
  }
}
