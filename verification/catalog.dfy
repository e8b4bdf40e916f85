/**
 * The read-only listing catalog and the agency's phone number (constants.tsx),
 * with the `Property` record shape of types.ts.
 */
module Catalog {
  import opened Wrappers

  datatype PropertyLocation = Camp | Adigbe | Obantoko | OkeMosan | Kuto | Lantoro

  datatype PropertyType = SelfContain | Flat | Bungalow | Duplex | Land

  /** One listing; `bedrooms` and `bathrooms` are optional in the source. */
  datatype Property = Property(
    id: string,
    title: string,
    locationTag: PropertyLocation,
    priceVal: nat,
    propertyType: PropertyType,
    documents: seq<string>,
    aiDescription: string,
    image: string,
    bedrooms: Option<nat>,
    bathrooms: Option<nat>)

  const MockProperties: seq<Property> := [
    Property(
      "1", "Modern 3-Bedroom Flat in Oke-Mosan", OkeMosan, 1200000, Flat,
      ["C of O", "Survey"],
      "Luxury flat with proximity to government offices, 24/7 security, tiled floors, and spacious compound.",
      "https://images.unsplash.com/photo-1570129477492-45c003edd2be?auto=format&fit=crop&w=800&q=80",
      Some(3), Some(3)),
    Property(
      "2", "Cosy Self-Contain near FUNAAB", Camp, 150000, SelfContain,
      ["Survey"],
      "Student-friendly self-contain with reliable water supply and prepaid meter. Walking distance to Camp junction.",
      "https://images.unsplash.com/photo-1522708323590-d24dbb6b0267?auto=format&fit=crop&w=800&q=80",
      None, None),
    Property(
      "3", "4-Bedroom Duplex in Adigbe", Adigbe, 45000000, Duplex,
      ["C of O", "Registered Survey", "Deed of Assignment"],
      "Executive duplex with penthouse, modern fittings, fenced and gated with electric wire.",
      "https://images.unsplash.com/photo-1600585154340-be6161a56a0c?auto=format&fit=crop&w=800&q=80",
      Some(4), Some(4)),
    Property(
      "4", "Prime 2 Plots of Land at Obantoko", Obantoko, 8000000, Land,
      ["C of O", "Approved Layout"],
      "Flat dry land in a fast-developing neighborhood. No omonile issues guaranteed.",
      "https://images.unsplash.com/photo-1500382017468-9049fed747ef?auto=format&fit=crop&w=800&q=80",
      None, None)
  ]

  /** The WhatsApp number placed in `wa.me` links. */
  const AbisamPhone: string := "2348123456789"

  predicate IsAsciiDigit(c: char) {
    '0' <= c <= '9'
  }

  /**
   * `props.find(p => p.id === id)`: the first listing carrying `id`, or
   * `None` when no listing carries it.
   */
  function FindById(props: seq<Property>, id: string): (r: Option<Property>)
    ensures r.None? <==> forall k :: 0 <= k < |props| ==> props[k].id != id
    ensures r.Some? ==> r.value.id == id && r.value in props
    ensures r.Some? ==> forall k :: 0 <= k < |props| && props[k].id == id ==>
                          r.value == props[k] || exists j :: 0 <= j < k && props[j] == r.value
  {
    if props == [] then None
    else if props[0].id == id then Some(props[0])
    else
      var r := FindById(props[1..], id);
      assert forall k :: 0 < k < |props| ==> props[k] == props[1..][k - 1];
      r
  }

  predicate DistinctIds(props: seq<Property>) {
    forall i, j :: 0 <= i < j < |props| ==> props[i].id != props[j].id
  }

  /** The catalog ids are pairwise distinct. */
  lemma IdsDistinct()
    ensures DistinctIds(MockProperties)
  {
  }

  /** In a table with distinct ids, looking a listing up by its id gives back that listing. */
  lemma FindByIdFunctional(props: seq<Property>, p: Property)
    requires DistinctIds(props) && p in props
    ensures FindById(props, p.id) == Some(p)
  {
  }

  /** Lookup by id in the catalog is functional: each listing is found by its own id. */
  lemma CatalogLookup(p: Property)
    requires p in MockProperties
    ensures FindById(MockProperties, p.id) == Some(p)
  {
    IdsDistinct();
    FindByIdFunctional(MockProperties, p);
  }

  /** Every listing shows at least one title document. */
  lemma DocumentsNonEmpty()
    ensures forall p :: p in MockProperties ==> |p.documents| > 0
  {
  }

  /** Exactly one listing is land, the one with id "4". */
  lemma SingleLand()
    ensures forall p :: p in MockProperties ==> (p.propertyType == Land <==> p.id == "4")
    ensures exists p :: p in MockProperties && p.propertyType == Land
  {
    assert MockProperties[3] in MockProperties;
  }

  /**
   * Listings "1" and "3" give equal bedroom and bathroom counts (3 and 4);
   * listings "2" and "4" give neither.
   */
  lemma RoomCounts()
    ensures forall p :: p in MockProperties ==>
      (p.id in {"1", "3"} <==> p.bedrooms.Some?) && (p.bedrooms.Some? <==> p.bathrooms.Some?) &&
      p.bedrooms == p.bathrooms
    ensures forall p :: p in MockProperties && p.id == "1" ==> p.bedrooms == Some(3)
    ensures forall p :: p in MockProperties && p.id == "3" ==> p.bedrooms == Some(4)
  {
  }

  /** Prices are positive, the cheapest is listing "2" at 150000 and the dearest listing "3" at 45000000. */
  lemma PriceRange()
    ensures forall p :: p in MockProperties ==> 0 < 150000 <= p.priceVal <= 45000000
    ensures forall p :: p in MockProperties ==> (p.priceVal == 150000 <==> p.id == "2")
    ensures forall p :: p in MockProperties ==> (p.priceVal == 45000000 <==> p.id == "3")
  {
  }

  /** The phone number is a non-empty run of decimal digits, so it can sit in a `wa.me/` path as is. */
  lemma PhoneIsDigits()
    ensures |AbisamPhone| > 0 && forall i :: 0 <= i < |AbisamPhone| ==> IsAsciiDigit(AbisamPhone[i])
  {
  }
}
