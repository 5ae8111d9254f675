/**
 * The `@State` of `ContentView`: the party list, the search text, and the
 * image table it draws banners from. A counter stands for `UUID()`: every
 * party receives the next value, so identifiers are never reused.
 */
module Store {
  import opened Wrappers
  import opened Text
  import opened Parties
  import opened Filter

  /** `s` newest first: the order in which head insertions leave the elements of `s`. */
  function Reversed<T>(s: seq<T>): (r: seq<T>)
    ensures |r| == |s|
    decreases |s|
  {
    if s == [] then [] else [s[|s| - 1]] + Reversed(s[..|s| - 1])
  }

  /** Position `k` of the reversed sequence holds the `k`-th element counted from the end. */
  lemma {:induction false} ReversedAt<T>(s: seq<T>, k: int)
    requires 0 <= k < |s|
    ensures Reversed(s)[k] == s[|s| - 1 - k]
    decreases |s|
  {
    if k > 0 {
      var front := s[..|s| - 1];
      ReversedAt(front, k - 1);
      assert front[|front| - 1 - (k - 1)] == s[|s| - 1 - k];
    }
  }

  /** Three insertions leave the three elements last-inserted first. */
  lemma ReversedThree<T>(s: seq<T>)
    requires |s| == 3
    ensures Reversed(s) == [s[2], s[1], s[0]]
  {
    ReversedAt(s, 0);
    ReversedAt(s, 1);
    ReversedAt(s, 2);
  }

  /** Inserting `x` at the head of the reversed list reverses `s + [x]`. */
  lemma ReversedSnoc<T>(s: seq<T>, x: T, before: seq<T>)
    ensures [x] + (Reversed(s) + before) == Reversed(s + [x]) + before
  {
    assert (s + [x])[..|s + [x]| - 1] == s;
  }

  /** The parties made from the draws `ds`, in creation order, from identifier `firstId` on. */
  function Created(firstId: nat, ds: seq<Draws>, images: seq<Image>): seq<Party>
    requires |images| == 10 && forall i :: 0 <= i < |ds| ==> InRange(ds[i])
  {
    seq(|ds|, k requires 0 <= k < |ds| => NewParty(firstId + k, ds[k], images))
  }

  /** One more draw creates one more party, with the next identifier. */
  lemma CreatedStep(firstId: nat, ds: seq<Draws>, images: seq<Image>, i: int)
    requires |images| == 10 && forall j :: 0 <= j < |ds| ==> InRange(ds[j])
    requires 0 <= i < |ds|
    ensures Created(firstId, ds[..i + 1], images) == Created(firstId, ds[..i], images) + [NewParty(firstId + i, ds[i], images)]
  {
  }

  /** Three draws, prepended in turn, give their parties last-created first. */
  lemma CreatedThree(firstId: nat, ds: seq<Draws>, images: seq<Image>)
    requires |images| == 10 && |ds| == 3 && forall j :: 0 <= j < 3 ==> InRange(ds[j])
    ensures Reversed(Created(firstId, ds, images))
         == [NewParty(firstId + 2, ds[2], images),
             NewParty(firstId + 1, ds[1], images),
             NewParty(firstId, ds[0], images)]
  {
    ReversedThree(Created(firstId, ds, images));
  }

  /** Identifiers in `ps` are distinct and below `nextId`; every party is catalogued. */
  ghost predicate WellFormedList(ps: seq<Party>, nextId: nat, images: seq<Image>) {
    && (forall i :: 0 <= i < |ps| ==> ps[i].id < nextId)
    && (forall i, j :: 0 <= i < j < |ps| ==> ps[i].id != ps[j].id)
    && (forall i :: 0 <= i < |ps| ==> Catalogued(ps[i], images))
  }

  /** Inserting a catalogued party with the next identifier at the head keeps the list well formed. */
  lemma PrependKeepsWellFormed(ps: seq<Party>, nextId: nat, images: seq<Image>, p: Party)
    requires WellFormedList(ps, nextId, images)
    requires p.id == nextId && Catalogued(p, images)
    ensures WellFormedList([p] + ps, nextId + 1, images)
  {
    var qs := [p] + ps;
    forall i, j | 0 <= i < j < |qs|
      ensures qs[i].id != qs[j].id
    {
      assert qs[j] == ps[j - 1];
      if i > 0 {
        assert qs[i] == ps[i - 1];
      }
    }
  }

  class PartyStore {
    var parties: seq<Party>
    var searchText: string
    /** The identifier the next party receives. */
    var nextId: nat
    /** The global `partyImages`, built once by `generatePartyImages()`. */
    const partyImages: seq<Image>

    /** The image table is the generated one; identifiers are distinct and all issued; every party is catalogued. */
    ghost predicate Valid()
      reads this
    {
      IsPartyImageTable(partyImages) && WellFormedList(parties, nextId, partyImages)
    }

    /** A fresh `ContentView`: no parties and an empty search text. */
    constructor ()
      ensures Valid()
      ensures parties == [] && searchText == "" && nextId == 0
    {
      var images := GeneratePartyImages();
      partyImages := images;
      parties := [];
      searchText := "";
      nextId := 0;
    }

    /** The `$searchText` binding, written by the search field and its clear button. */
    method SetSearchText(text: string)
      requires Valid()
      modifies this
      ensures Valid()
      ensures searchText == text
      ensures parties == old(parties) && nextId == old(nextId)
    {
      searchText := text;
    }

    /** `addRandomParty()`: build one party from the draws and insert it at index 0. */
    method AddRandomParty(d: Draws)
      requires Valid() && InRange(d)
      modifies this
      ensures Valid()
      ensures parties == [NewParty(old(nextId), d, partyImages)] + old(parties)
      ensures |parties| == |old(parties)| + 1
      ensures forall i :: 0 <= i < |old(parties)| ==> parties[i + 1] == old(parties)[i]
      ensures nextId == old(nextId) + 1 && searchText == old(searchText)
    {
      var name := GetRandomPartyName(d.nameIndex);
      var bannerImage := GetRandomBannerImage(partyImages, d.imageIndex);
      var price := GetRandomPrice(d.priceSample);
      var startDate := GetRandomStartDate(d.now, d.startDays);
      var endDate := GetRandomEndDate(d.now, d.endCoin, d.endDays);
      var party := Party(nextId, name, bannerImage, price, startDate, endDate);
      assert party == NewParty(nextId, d, partyImages);
      PrependKeepsWellFormed(parties, nextId, partyImages, party);
      nextId := nextId + 1;
      parties := [party] + parties;
    }

    /** `generateInitialParties()`: three calls of `addRandomParty()`, one per draw. */
    method GenerateInitialParties(draws: seq<Draws>)
      requires Valid()
      requires |draws| == 3 && forall i :: 0 <= i < 3 ==> InRange(draws[i])
      modifies this
      ensures Valid()
      ensures parties == Reversed(Created(old(nextId), draws, partyImages)) + old(parties)
      ensures parties == [NewParty(old(nextId) + 2, draws[2], partyImages),
                          NewParty(old(nextId) + 1, draws[1], partyImages),
                          NewParty(old(nextId), draws[0], partyImages)] + old(parties)
      ensures nextId == old(nextId) + 3 && searchText == old(searchText)
    {
      ghost var firstId, before := nextId, parties;
      ghost var made: seq<Party> := [];
      for i := 0 to 3
        invariant Valid()
        invariant nextId == firstId + i
        invariant made == Created(firstId, draws[..i], partyImages)
        invariant parties == Reversed(made) + before
        invariant searchText == old(searchText)
      {
        AddRandomParty(draws[i]);
        CreatedStep(firstId, draws, partyImages, i);
        ReversedSnoc(made, parties[0], before);
        made := made + [parties[0]];
      }
      assert draws[..3] == draws;
      CreatedThree(firstId, draws, partyImages);
    }
  }
}
