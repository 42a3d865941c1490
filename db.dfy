/** The artwork collection store (src/lib/db.ts). The JSON file holding the
    collection becomes the `artworks` field of `ArtworkStore`: every operation
    reads it, changes it in memory and writes it back, so each method's
    effect is stated as the new value of that field. */
module Db {
  import opened Wrappers
  import opened Types
  import opened Errors

  // ---------------------------------------------------------------------
  // Lookup

  /** `findIndex(a => a.id === id)`: the first position holding `id`, or -1. */
  function FirstIndex(s: seq<Artwork>, id: string): (r: int)
    ensures -1 <= r < |s|
    ensures r == -1 <==> forall k :: 0 <= k < |s| ==> s[k].id != id
    ensures r >= 0 ==> s[r].id == id && forall k :: 0 <= k < r ==> s[k].id != id
  {
    if |s| == 0 then -1
    else if s[0].id == id then 0
    else
      var t := FirstIndex(s[1..], id);
      if t == -1 then -1 else t + 1
  }

  /** The ids of a collection, in stored order. */
  function Ids(s: seq<Artwork>): (r: seq<string>)
    ensures |r| == |s|
    ensures forall k :: 0 <= k < |s| ==> r[k] == s[k].id
  {
    seq(|s|, k requires 0 <= k < |s| => s[k].id)
  }

  /** No two stored records share an id. `createArtwork` does not check
      this; the lemmas below say what keeps it. */
  predicate UniqueIds(s: seq<Artwork>) {
    forall j, k :: 0 <= j < k < |s| ==> s[j].id != s[k].id
  }

  // ---------------------------------------------------------------------
  // Merge-update

  /** An update that sets no key. */
  const NoChange: ArtworkUpdate :=
    ArtworkUpdate(None, None, None, None, None, None, None, None, None, None, None)

  /** `{ ...artwork, ...updates, updatedAt: now }`: every key present in the
      update replaces the stored value, every absent key keeps it, and the
      clock reading becomes `updatedAt`. The keys `ArtworkUpdate` lacks
      (id, creation time, image paths, dimensions) are never touched. */
  function Merge(a: Artwork, u: ArtworkUpdate, now: int): (m: Artwork)
    ensures m.id == a.id && m.createdAt == a.createdAt
    ensures m.imagePath == a.imagePath && m.thumbnailPath == a.thumbnailPath
    ensures m.originalWidth == a.originalWidth && m.originalHeight == a.originalHeight
    ensures m.updatedAt == now
    ensures (u.title.Some? ==> m.title == u.title.value) && (u.title.None? ==> m.title == a.title)
    ensures (u.description.Some? ==> m.description == u.description.value) &&
            (u.description.None? ==> m.description == a.description)
    ensures (u.seoTitle.Some? ==> m.seoTitle == u.seoTitle.value) && (u.seoTitle.None? ==> m.seoTitle == a.seoTitle)
    ensures (u.seoDescription.Some? ==> m.seoDescription == u.seoDescription.value) &&
            (u.seoDescription.None? ==> m.seoDescription == a.seoDescription)
    ensures (u.tags.Some? ==> m.tags == u.tags.value) && (u.tags.None? ==> m.tags == a.tags)
    ensures (u.colors.Some? ==> m.colors == u.colors.value) && (u.colors.None? ==> m.colors == a.colors)
    ensures (u.mood.Some? ==> m.mood == u.mood.value) && (u.mood.None? ==> m.mood == a.mood)
    ensures (u.personality.Some? ==> m.personality == u.personality.value) &&
            (u.personality.None? ==> m.personality == a.personality)
    ensures (u.price.Some? ==> m.price == u.price.value) && (u.price.None? ==> m.price == a.price)
    ensures (u.status.Some? ==> m.status == u.status.value) && (u.status.None? ==> m.status == a.status)
    ensures (u.artistNotes.Some? ==> m.artistNotes == u.artistNotes.value) &&
            (u.artistNotes.None? ==> m.artistNotes == a.artistNotes)
  {
    a.(title := u.title.GetOr(a.title),
       description := u.description.GetOr(a.description),
       seoTitle := u.seoTitle.GetOr(a.seoTitle),
       seoDescription := u.seoDescription.GetOr(a.seoDescription),
       tags := u.tags.GetOr(a.tags),
       colors := u.colors.GetOr(a.colors),
       mood := u.mood.GetOr(a.mood),
       personality := u.personality.GetOr(a.personality),
       price := u.price.GetOr(a.price),
       status := u.status.GetOr(a.status),
       artistNotes := u.artistNotes.GetOr(a.artistNotes),
       updatedAt := now)
  }

  /** Two successive spreads: keys of the later update win. */
  function Overlay(first: ArtworkUpdate, second: ArtworkUpdate): ArtworkUpdate {
    ArtworkUpdate(
      if second.title.Some? then second.title else first.title,
      if second.description.Some? then second.description else first.description,
      if second.seoTitle.Some? then second.seoTitle else first.seoTitle,
      if second.seoDescription.Some? then second.seoDescription else first.seoDescription,
      if second.tags.Some? then second.tags else first.tags,
      if second.colors.Some? then second.colors else first.colors,
      if second.mood.Some? then second.mood else first.mood,
      if second.personality.Some? then second.personality else first.personality,
      if second.price.Some? then second.price else first.price,
      if second.status.Some? then second.status else first.status,
      if second.artistNotes.Some? then second.artistNotes else first.artistNotes)
  }

  /** An update that sets nothing only refreshes `updatedAt`. */
  lemma MergeNoChange(a: Artwork, now: int)
    ensures Merge(a, NoChange, now) == a.(updatedAt := now)
  {
  }

  /** Applying the same update twice at the same time is applying it once. */
  lemma MergeIdempotent(a: Artwork, u: ArtworkUpdate, now: int)
    ensures Merge(Merge(a, u, now), u, now) == Merge(a, u, now)
  {
  }

  /** Two updates in a row equal one update carrying the later keys over
      the earlier ones, stamped with the later clock reading. */
  lemma MergeCompose(a: Artwork, u1: ArtworkUpdate, t1: int, u2: ArtworkUpdate, t2: int)
    ensures Merge(Merge(a, u1, t1), u2, t2) == Merge(a, Overlay(u1, u2), t2)
  {
  }

  // ---------------------------------------------------------------------
  // Filters

  /** `artworks.filter(a => a.status === status)`. */
  function FilterByStatus(s: seq<Artwork>, status: Status): (r: seq<Artwork>)
    ensures |r| <= |s|
  {
    if |s| == 0 then []
    else
      var last := s[|s| - 1];
      FilterByStatus(s[..|s| - 1], status) + (if last.status == status then [last] else [])
  }

  /** `artworks.filter(a => ids.includes(a.id))`. */
  function FilterByIds(s: seq<Artwork>, ids: seq<string>): (r: seq<Artwork>)
    ensures |r| <= |s|
  {
    if |s| == 0 then []
    else
      var last := s[|s| - 1];
      FilterByIds(s[..|s| - 1], ids) + (if last.id in ids then [last] else [])
  }

  /** The status filter keeps exactly the stored records with that status. */
  lemma {:induction false} FilterByStatusMembers(s: seq<Artwork>, status: Status)
    ensures forall x :: x in FilterByStatus(s, status) <==> x in s && x.status == status
    decreases |s|
  {
    if |s| > 0 {
      var init := s[..|s| - 1];
      assert s == init + [s[|s| - 1]];
      FilterByStatusMembers(init, status);
    }
  }

  /** The id filter keeps exactly the stored records whose id is named. */
  lemma {:induction false} FilterByIdsMembers(s: seq<Artwork>, ids: seq<string>)
    ensures forall x :: x in FilterByIds(s, ids) <==> x in s && x.id in ids
    decreases |s|
  {
    if |s| > 0 {
      var init := s[..|s| - 1];
      assert s == init + [s[|s| - 1]];
      FilterByIdsMembers(init, ids);
    }
  }

  /** Filtering distributes over concatenation, so the selected records
      keep their stored order. */
  lemma {:induction false} FilterByStatusConcat(a: seq<Artwork>, b: seq<Artwork>, status: Status)
    ensures FilterByStatus(a + b, status) == FilterByStatus(a, status) + FilterByStatus(b, status)
    decreases |b|
  {
    if |b| == 0 {
      assert a + b == a;
    } else {
      var b' := b[..|b| - 1];
      assert (a + b)[..|a + b| - 1] == a + b';
      assert (a + b)[|a + b| - 1] == b[|b| - 1];
      FilterByStatusConcat(a, b', status);
    }
  }

  lemma {:induction false} FilterByIdsConcat(a: seq<Artwork>, b: seq<Artwork>, ids: seq<string>)
    ensures FilterByIds(a + b, ids) == FilterByIds(a, ids) + FilterByIds(b, ids)
    decreases |b|
  {
    if |b| == 0 {
      assert a + b == a;
    } else {
      var b' := b[..|b| - 1];
      assert (a + b)[..|a + b| - 1] == a + b';
      assert (a + b)[|a + b| - 1] == b[|b| - 1];
      FilterByIdsConcat(a, b', ids);
    }
  }

  /** Each record occurs in the status filter exactly as often as it is
      stored when it has that status, and not at all otherwise. */
  lemma {:induction false} FilterByStatusCounts(s: seq<Artwork>, status: Status, x: Artwork)
    ensures multiset(FilterByStatus(s, status))[x] == if x.status == status then multiset(s)[x] else 0
    decreases |s|
  {
    if |s| > 0 {
      var init := s[..|s| - 1];
      assert s == init + [s[|s| - 1]];
      FilterByStatusCounts(init, status, x);
    }
  }

  /** Each stored record is selected as often as it is stored when its id is
      named, and never otherwise: unknown ids add nothing and a repeated id
      does not duplicate a record. */
  lemma {:induction false} FilterByIdsCounts(s: seq<Artwork>, ids: seq<string>, x: Artwork)
    ensures multiset(FilterByIds(s, ids))[x] == if x.id in ids then multiset(s)[x] else 0
    decreases |s|
  {
    if |s| > 0 {
      var init := s[..|s| - 1];
      assert s == init + [s[|s| - 1]];
      FilterByIdsCounts(init, ids, x);
    }
  }

  /** Only the set of requested ids matters, not their order or repetition. */
  lemma {:induction false} FilterByIdsSetOnly(s: seq<Artwork>, ids1: seq<string>, ids2: seq<string>)
    requires forall id :: id in ids1 <==> id in ids2
    ensures FilterByIds(s, ids1) == FilterByIds(s, ids2)
    decreases |s|
  {
    if |s| > 0 {
      FilterByIdsSetOnly(s[..|s| - 1], ids1, ids2);
    }
  }

  // ---------------------------------------------------------------------
  // Id uniqueness across the operations

  /** Appending a record whose id is not yet stored keeps ids unique. */
  lemma AppendFreshKeepsUnique(s: seq<Artwork>, a: Artwork)
    requires UniqueIds(s)
    requires FirstIndex(s, a.id) == -1
    ensures UniqueIds(s + [a])
  {
  }

  /** A freshly appended record is what a lookup of its id then finds. */
  lemma AppendFreshIsFound(s: seq<Artwork>, a: Artwork)
    requires FirstIndex(s, a.id) == -1
    ensures FirstIndex(s + [a], a.id) == |s|
  {
    var t := s + [a];
    assert forall k :: 0 <= k < |s| ==> t[k] == s[k];
    FirstIndexIs(t, a.id, |s|);
  }

  /** Merging in place keeps ids unique, and the record stays where it was. */
  lemma MergeInPlaceKeepsUnique(s: seq<Artwork>, i: int, u: ArtworkUpdate, now: int)
    requires 0 <= i < |s|
    requires UniqueIds(s)
    ensures UniqueIds(s[i := Merge(s[i], u, now)])
    ensures FirstIndex(s[i := Merge(s[i], u, now)], s[i].id) == i
  {
    FirstIndexIs(s[i := Merge(s[i], u, now)], s[i].id, i);
  }

  /** Removing a record keeps ids unique. */
  lemma RemoveKeepsUnique(s: seq<Artwork>, i: int)
    requires 0 <= i < |s|
    requires UniqueIds(s)
    ensures UniqueIds(s[..i] + s[i + 1..])
  {
    var t := s[..i] + s[i + 1..];
    assert forall k :: 0 <= k < |t| ==> t[k] == if k < i then s[k] else s[k + 1];
  }

  /** With unique ids, removing the record found for `id` leaves no record
      with that id, so deleting the same id again fails. Without uniqueness
      a second record with the same id would be found instead. */
  lemma RemoveFoundLeavesNone(s: seq<Artwork>, id: string)
    requires UniqueIds(s)
    requires FirstIndex(s, id) >= 0
    ensures var i := FirstIndex(s, id); FirstIndex(s[..i] + s[i + 1..], id) == -1
  {
    var i := FirstIndex(s, id);
    var t := s[..i] + s[i + 1..];
    forall k | 0 <= k < |t|
      ensures t[k].id != id
    {
      if k < i {
        assert t[k] == s[k];
      } else {
        assert t[k] == s[k + 1];
      }
    }
  }

  /** A duplicate id survives one delete: the second copy is found next. */
  lemma RemoveDuplicateLeavesOne(a: Artwork, b: Artwork)
    requires a.id == b.id
    ensures FirstIndex([a, b], a.id) == 0
    ensures FirstIndex([a, b][..0] + [a, b][1..], a.id) == 0
  {
    assert [a, b][..0] + [a, b][1..] == [b];
  }

  /** The image files a record names: its main and thumbnail paths, in
      that order, leaving out an empty one. */
  function ImageFiles(a: Artwork): (r: seq<string>)
    ensures |r| <= 2
    ensures forall p :: p in r <==> p != "" && (p == a.imagePath || p == a.thumbnailPath)
  {
    (if a.imagePath != "" then [a.imagePath] else []) +
    (if a.thumbnailPath != "" then [a.thumbnailPath] else [])
  }

  // ---------------------------------------------------------------------
  // The store

  class ArtworkStore {
    /** The contents of the data file, in stored order. */
    var artworks: seq<Artwork>

    /** A store over the given file contents (`[]` for a fresh data file). */
    constructor(contents: seq<Artwork>)
      ensures artworks == contents
    {
      artworks := contents;
    }

    /** `getArtworks`: the whole collection, in stored order. */
    method GetArtworks() returns (r: seq<Artwork>)
      ensures r == artworks
    {
      r := artworks;
    }

    /** The `findIndex` scan. */
    method FindIndex(id: string) returns (index: int)
      ensures index == FirstIndex(artworks, id)
    {
      var i := 0;
      while i < |artworks|
        invariant 0 <= i <= |artworks|
        invariant forall k :: 0 <= k < i ==> artworks[k].id != id
      {
        if artworks[i].id == id {
          FirstIndexIs(artworks, id, i);
          return i;
        }
        i := i + 1;
      }
      index := -1;
    }

    /** `getArtwork`: the first record with that id, or "Artwork not found". */
    method GetArtwork(id: string) returns (r: Result<Artwork, ApiError>)
      ensures FirstIndex(artworks, id) == -1 ==> r == Err(NotFoundError("Artwork"))
      ensures FirstIndex(artworks, id) >= 0 ==> r == Ok(artworks[FirstIndex(artworks, id)])
      ensures r.Ok? ==> r.value.id == id && r.value in artworks
    {
      var index := FindIndex(id);
      if index == -1 {
        r := Err(NotFoundError("Artwork"));
      } else {
        r := Ok(artworks[index]);
      }
    }

    /** `createArtwork`: appends the record, without checking its id. */
    method CreateArtwork(a: Artwork) returns (r: Artwork)
      modifies this
      ensures artworks == old(artworks) + [a]
      ensures r == a
      ensures UniqueIds(old(artworks)) && FirstIndex(old(artworks), a.id) == -1 ==> UniqueIds(artworks)
    {
      artworks := artworks + [a];
      r := a;
      if UniqueIds(old(artworks)) && FirstIndex(old(artworks), a.id) == -1 {
        AppendFreshKeepsUnique(old(artworks), a);
      }
    }

    /** `updateArtwork`: merges the update into the first record with that
        id and stores it at the same position; fails with "Artwork not
        found" and changes nothing when no record has that id. */
    method UpdateArtwork(id: string, updates: ArtworkUpdate, now: int) returns (r: Result<Artwork, ApiError>)
      modifies this
      ensures FirstIndex(old(artworks), id) == -1 ==>
        r == Err(NotFoundError("Artwork")) && artworks == old(artworks)
      ensures FirstIndex(old(artworks), id) >= 0 ==>
        var i := FirstIndex(old(artworks), id);
        r == Ok(Merge(old(artworks)[i], updates, now)) && artworks == old(artworks)[i := r.value]
      ensures UniqueIds(old(artworks)) ==> UniqueIds(artworks)
    {
      var index := FindIndex(id);
      if index == -1 {
        return Err(NotFoundError("Artwork"));
      }
      var updated := Merge(artworks[index], updates, now);
      if UniqueIds(artworks) {
        MergeInPlaceKeepsUnique(artworks, index, updates, now);
      }
      artworks := artworks[index := updated];
      r := Ok(updated);
    }

    /** `deleteArtwork`: removes the first record with that id, or fails
        with "Artwork not found". `unlinked` lists the stored image paths
        whose files are then unlinked (the non-empty ones); whether those
        unlinks succeed has no bearing on the removal. */
    method DeleteArtwork(id: string) returns (r: Outcome<ApiError>, unlinked: seq<string>)
      modifies this
      ensures FirstIndex(old(artworks), id) == -1 ==>
        r == Fail(NotFoundError("Artwork")) && artworks == old(artworks) && unlinked == []
      ensures FirstIndex(old(artworks), id) >= 0 ==>
        var i := FirstIndex(old(artworks), id);
        var a := old(artworks)[i];
        && r == Pass
        && artworks == old(artworks)[..i] + old(artworks)[i + 1..]
        && unlinked == ImageFiles(a)
      ensures UniqueIds(old(artworks)) ==> UniqueIds(artworks) && FirstIndex(artworks, id) == -1
    {
      var index := FindIndex(id);
      if index == -1 {
        return Fail(NotFoundError("Artwork")), [];
      }
      var stored := artworks;
      var a := stored[index];
      unlinked := [];
      if a.imagePath != "" {
        unlinked := unlinked + [a.imagePath];
      }
      if a.thumbnailPath != "" {
        unlinked := unlinked + [a.thumbnailPath];
      }
      var rest := stored[..index] + stored[index + 1..];
      if UniqueIds(stored) {
        RemoveKeepsUnique(stored, index);
        RemoveFoundLeavesNone(stored, id);
      }
      artworks := rest;
      r := Pass;
    }

    /** `getArtworksByStatus`. */
    method GetArtworksByStatus(status: Status) returns (r: seq<Artwork>)
      ensures r == FilterByStatus(artworks, status)
    {
      r := [];
      var i := 0;
      while i < |artworks|
        invariant 0 <= i <= |artworks|
        invariant r == FilterByStatus(artworks[..i], status)
      {
        assert artworks[..i + 1][..i] == artworks[..i];
        if artworks[i].status == status {
          r := r + [artworks[i]];
        }
        i := i + 1;
      }
      assert artworks[..i] == artworks;
    }

    /** `getArtworksByIds`. */
    method GetArtworksByIds(ids: seq<string>) returns (r: seq<Artwork>)
      ensures r == FilterByIds(artworks, ids)
    {
      r := [];
      var i := 0;
      while i < |artworks|
        invariant 0 <= i <= |artworks|
        invariant r == FilterByIds(artworks[..i], ids)
      {
        assert artworks[..i + 1][..i] == artworks[..i];
        if artworks[i].id in ids {
          r := r + [artworks[i]];
        }
        i := i + 1;
      }
      assert artworks[..i] == artworks;
    }
  }

  /** The scan's stopping point is the first match. */
  lemma FirstIndexIs(s: seq<Artwork>, id: string, i: int)
    requires 0 <= i < |s| && s[i].id == id
    requires forall k :: 0 <= k < i ==> s[k].id != id
    ensures FirstIndex(s, id) == i
  {
  }
}
