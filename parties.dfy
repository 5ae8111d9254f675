/**
 * The `Party` record, the two fixed reference tables and the generators of
 * each randomised field. Every random draw and every clock reading is an
 * input, restricted to the range the source draws it from.
 */
module Parties {
  import opened Wrappers
  import opened Text

  /** A SwiftUI `Image`, known only by the asset-catalogue name it loads. */
  datatype Image = Image(assetName: string)

  /** A calendar date, counted in whole days. */
  type Date = int

  /** `id` stands for the `UUID` a party receives when it is created. */
  datatype Party = Party(
    id: nat,
    name: string,
    bannerImage: Image,
    price: real,
    startDate: Date,
    endDate: Option<Date>)

  /** The global `partyNames`. */
  const PartyNames: seq<string> := [
    "Wild Wild West", "Stoplight", "80s", "Mansion Party", "Neon",
    "Foam party", "Tropical", "Outer Space", "Under the Sea", "Masquerade"]

  /** The name table has ten different, non-empty names. */
  lemma PartyNamesWellFormed(i: int, j: int)
    requires 0 <= i < 10 && 0 <= j < 10
    ensures |PartyNames| == 10 && |PartyNames[i]| > 0
    ensures i != j ==> PartyNames[i] != PartyNames[j]
  {
  }

  /** The asset name `"Party\(index)"`. */
  function AssetName(index: nat): string {
    "Party" + Decimal(index)
  }

  /** An asset name is `Party` followed by the canonical digits of the index. */
  lemma AssetNameShape(index: nat)
    ensures var name := AssetName(index);
      && |name| >= 6 && name[..5] == "Party"
      && (forall i :: 5 <= i < |name| ==> '0' <= name[i] <= '9')
      && (name[5] == '0' ==> index == 0)
      && DecimalValue(name[5..]) == index
  {
    assert AssetName(index)[5..] == Decimal(index);
    DecimalRoundTrip(index);
  }

  lemma AssetNameInjective(a: nat, b: nat)
    requires AssetName(a) == AssetName(b)
    ensures a == b
  {
    assert Decimal(a) == AssetName(a)[5..];
    assert Decimal(b) == AssetName(b)[5..];
    DecimalInjective(a, b);
  }

  /** The ten images built at start-up: entry `k` loads asset `Party<k+1>`. */
  ghost predicate IsPartyImageTable(images: seq<Image>) {
    |images| == 10 && forall k :: 0 <= k < 10 ==> images[k] == Image(AssetName(k + 1))
  }

  /** `generatePartyImages()`. */
  method GeneratePartyImages() returns (images: seq<Image>)
    ensures |images| == 10
    ensures forall k :: 0 <= k < 10 ==> images[k].assetName == "Party" + Decimal(k + 1)
    ensures IsPartyImageTable(images)
  {
    images := [];
    for index := 1 to 11
      invariant |images| == index - 1
      invariant forall k :: 0 <= k < index - 1 ==> images[k] == Image(AssetName(k + 1))
    {
      var imageName := AssetName(index);
      images := images + [Image(imageName)];
    }
  }

  /** The ten images load ten different assets. */
  lemma PartyImagesDistinct(images: seq<Image>, i: int, j: int)
    requires IsPartyImageTable(images)
    requires 0 <= i < 10 && 0 <= j < 10 && i != j
    ensures images[i] != images[j]
  {
    if images[i] == images[j] {
      AssetNameInjective(i + 1, j + 1);
    }
  }

  lemma PartyImageExamples(images: seq<Image>)
    requires IsPartyImageTable(images)
    ensures images[0] == Image("Party1") && images[9] == Image("Party10")
  {
  }

  /** `getRandomPartyName()` for the drawn index. */
  function GetRandomPartyName(index: int): (name: string)
    requires 0 <= index <= 9
    ensures name in PartyNames && |name| > 0
  {
    PartyNames[index]
  }

  /** `getRandomBannerImage()` for the drawn index. */
  function GetRandomBannerImage(images: seq<Image>, index: int): (image: Image)
    requires |images| == 10 && 0 <= index <= 9
    ensures image in images
  {
    images[index]
  }

  /** Swift's `round`: to the nearest integer, halfway cases away from zero. */
  function Round(x: real): (r: int)
    ensures r as real - 0.5 <= x <= r as real + 0.5
    ensures x >= 0.0 ==> x < r as real + 0.5
    ensures x <= 0.0 ==> r as real - 0.5 < x
  {
    if x >= 0.0 then (x + 0.5).Floor else -((0.5 - x).Floor)
  }

  /** A price is a whole number of half units. */
  predicate IsHalfMultiple(price: real) {
    (price * 2.0).Floor as real == price * 2.0
  }

  /** `getRandomPrice()` for the drawn `sample`: `round(sample * 2) / 2`. */
  function GetRandomPrice(sample: real): (price: real)
    requires 5.0 <= sample <= 30.0
    ensures 5.0 <= price <= 30.0 && IsHalfMultiple(price)
    ensures price - 0.25 <= sample <= price + 0.25
  {
    var k := Round(sample * 2.0);
    assert 10 <= k <= 60;
    assert (k as real / 2.0) * 2.0 == k as real;
    k as real / 2.0
  }

  /** `getRandomStartDate()` with `daysToAdd` drawn from 1...7. */
  function GetRandomStartDate(now: Date, daysToAdd: int): (date: Date)
    requires 1 <= daysToAdd <= 7
    ensures now < date <= now + 7
  {
    now + daysToAdd
  }

  /**
   * `getRandomEndDate()`: `coin` is the `Double.random(in: 0...1)` draw and
   * `daysToAdd` the draw from 8...14.
   */
  function GetRandomEndDate(now: Date, coin: real, daysToAdd: int): (date: Option<Date>)
    requires 0.0 <= coin <= 1.0 && 8 <= daysToAdd <= 14
    ensures date.Some? <==> coin < 0.5
    ensures date.Some? ==> now + 8 <= date.value <= now + 14
  {
    if coin < 0.5 then Some(now + daysToAdd) else None
  }

  /** The values `addRandomParty()` draws at random, and the clock reading `now`. */
  datatype Draws = Draws(
    nameIndex: int,
    imageIndex: int,
    priceSample: real,
    startDays: int,
    endCoin: real,
    endDays: int,
    now: Date)

  /** Each draw lies in the range its `random(in:)` call draws from. */
  predicate InRange(d: Draws) {
    && 0 <= d.nameIndex <= 9
    && 0 <= d.imageIndex <= 9
    && 5.0 <= d.priceSample <= 30.0
    && 1 <= d.startDays <= 7
    && 0.0 <= d.endCoin <= 1.0
    && 8 <= d.endDays <= 14
  }

  /** Name, image and price come from the reference data and the price range. */
  ghost predicate Catalogued(p: Party, images: seq<Image>) {
    && p.name in PartyNames
    && p.bannerImage in images
    && 5.0 <= p.price <= 30.0
    && IsHalfMultiple(p.price)
  }

  /** What every party created at time `now` satisfies. */
  ghost predicate GeneratedAt(p: Party, now: Date, images: seq<Image>) {
    && Catalogued(p, images)
    && now < p.startDate <= now + 7
    && (p.endDate.Some? ==> now + 8 <= p.endDate.value <= now + 14)
  }

  /** The record `addRandomParty()` builds from the draws `d`, with identifier `id`. */
  function NewParty(id: nat, d: Draws, images: seq<Image>): (p: Party)
    requires InRange(d) && |images| == 10
    ensures p.id == id && GeneratedAt(p, d.now, images)
    ensures p.endDate.Some? <==> d.endCoin < 0.5
  {
    Party(
      id,
      GetRandomPartyName(d.nameIndex),
      GetRandomBannerImage(images, d.imageIndex),
      GetRandomPrice(d.priceSample),
      GetRandomStartDate(d.now, d.startDays),
      GetRandomEndDate(d.now, d.endCoin, d.endDays))
  }
}
