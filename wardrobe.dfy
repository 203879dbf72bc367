/** get_outfit: a minimum feels-like temperature to a pair of garments. */
module Wardrobe {

  type Outfit = (string, string)

  /** Band boundaries, descending. Band 0 lies above Thresholds[0]; band k (0 < k < 16)
      is (Thresholds[k], Thresholds[k-1]]; band 16 is at or below Thresholds[15]. */
  const Thresholds: seq<int> := [40, 35, 30, 25, 20, 15, 10, 5, 0, -5, -10, -15, -20, -25, -30, -35]

  /** The garment pair of each band, warmest first. */
  const Outfits: seq<Outfit> := [
    ("paranja", "cap"),
    ("swimsuit", "swimming mask"),
    ("swimming trunks", "slippers"),
    ("polo", "shorts"),
    ("t-shirt", "sneakers"),
    ("sweatshirt", "chinos"),
    ("hoodie", "pants"),
    ("windbreaker", "jeans"),
    ("leather jacket", "chelsea"),
    ("cloak", "gloves"),
    ("coat", "scarf"),
    ("jacket", "hat"),
    ("quilted jacket", "shoes"),
    ("underpants", "fur boots"),
    ("overalls", "wool socks"),
    ("down jacket", "felt boots"),
    ("thermal underwear", "ski suit")
  ]

  /** t lies in band k: at or below the band's upper bound, strictly above its lower bound. */
  predicate InBand(k: nat, t: int)
    requires k < |Outfits|
  {
    (k == 0 || t <= Thresholds[k - 1]) && (k == |Outfits| - 1 || Thresholds[k] < t)
  }

  /** The chain of comparisons of get_outfit. */
  function GetOutfit(minFeels: int): Outfit
  {
    if minFeels > 40 then ("paranja", "cap")
    else if 40 >= minFeels > 35 then ("swimsuit", "swimming mask")
    else if 35 >= minFeels > 30 then ("swimming trunks", "slippers")
    else if 30 >= minFeels > 25 then ("polo", "shorts")
    else if 25 >= minFeels > 20 then ("t-shirt", "sneakers")
    else if 20 >= minFeels > 15 then ("sweatshirt", "chinos")
    else if 15 >= minFeels > 10 then ("hoodie", "pants")
    else if 10 >= minFeels > 5 then ("windbreaker", "jeans")
    else if 5 >= minFeels > 0 then ("leather jacket", "chelsea")
    else if 0 >= minFeels > -5 then ("cloak", "gloves")
    else if -5 >= minFeels > -10 then ("coat", "scarf")
    else if -10 >= minFeels > -15 then ("jacket", "hat")
    else if -15 >= minFeels > -20 then ("quilted jacket", "shoes")
    else if -20 >= minFeels > -25 then ("underpants", "fur boots")
    else if -25 >= minFeels > -30 then ("overalls", "wool socks")
    else if -30 >= minFeels > -35 then ("down jacket", "felt boots")
    else ("thermal underwear", "ski suit")
  }

  /** Linear search over the breakpoints, starting at band k: the table form of the lookup. */
  function BandFrom(t: int, k: nat): (b: nat)
    requires k < |Outfits|
    requires k == 0 || t <= Thresholds[k - 1]
    ensures k <= b < |Outfits| && InBand(b, t)
    decreases |Outfits| - k
  {
    if k == |Outfits| - 1 || Thresholds[k] < t then k else BandFrom(t, k + 1)
  }

  /** The band a temperature falls in. */
  function Band(t: int): (b: nat)
    ensures b < |Outfits| && InBand(b, t)
  {
    BandFrom(t, 0)
  }

  /** The bands do not overlap: a temperature lies in exactly one of them. */
  lemma BandUnique(t: int, k: nat)
    requires k < |Outfits| && InBand(k, t)
    ensures k == Band(t)
  {
  }

  /** Each band, upper bound included and lower bound excluded, gets its own pair. */
  lemma OutfitInBand(k: nat, t: int)
    requires k < |Outfits| && InBand(k, t)
    ensures GetOutfit(t) == Outfits[k]
  {
  }

  /** The chain of comparisons agrees with the table lookup, for every temperature. */
  lemma OutfitMatchesTable(t: int)
    ensures GetOutfit(t) == Outfits[Band(t)]
  {
  }

  /** Boundary values: each band includes its upper bound. */
  lemma OutfitBoundaries()
    ensures GetOutfit(41) == ("paranja", "cap")
    ensures GetOutfit(40) == ("swimsuit", "swimming mask")
    ensures GetOutfit(5) == ("leather jacket", "chelsea")
    ensures GetOutfit(0) == ("cloak", "gloves")
    ensures GetOutfit(-35) == ("thermal underwear", "ski suit")
    ensures GetOutfit(7) == ("windbreaker", "jeans")
  {
  }
}
