/**
 * The schema.org object built for one ranked-list record, stated as its final
 * shape: which keys it carries, in which order, with which values. The
 * imperative builder (module ItemBuilder) assembles it key by key and is proved
 * to arrive at exactly this.
 */
module ItemSpec {
  import opened Wrappers
  import opened Decimal
  import opened JsonValue
  import opened Php

  /** $attrs['schemaType'] ?? 'Product' */
  function SchemaType(a: Attrs): string {
    Coalesce(a, "schemaType", "Product")
  }

  predicate IsProductType(t: string) {
    t == "Product" || t == "SoftwareApplication"
  }

  predicate IsPlaceType(t: string) {
    t == "Place" || t == "LocalBusiness" || t == "Restaurant"
  }

  predicate IsCreativeType(t: string) {
    t == "Book" || t == "Movie" || t == "CreativeWork"
  }

  predicate IsPodcastType(t: string) {
    t == "PodcastSeries" || t == "PodcastEpisode"
  }

  /** A type outside every group: only the common fields and the rating apply. */
  predicate IsUngroupedType(t: string) {
    t != "Platform" && !IsProductType(t) && !IsPlaceType(t) && !IsCreativeType(t) && !IsPodcastType(t)
  }

  /** The entry (to, attrs[from]) when the attribute is not empty(), otherwise nothing. */
  function CopyIfSet(a: Attrs, from: string, to: string): Fields {
    if Empty(a, from) then [] else [(to, JString(a[from]))]
  }

  // ---- Platform (rendered as a schema.org Thing) ----

  /** The non-empty image URLs of a Platform, hero image first, then logo. */
  function PlatformImages(a: Attrs): seq<string> {
    (if Empty(a, "heroImageUrl") then [] else [a["heroImageUrl"]])
    + (if Empty(a, "imageUrl") then [] else [a["imageUrl"]])
  }

  /** One image is a bare URL, two are an array, none is no key at all. */
  function PlatformImage(a: Attrs): Fields {
    var images := PlatformImages(a);
    if |images| == 0 then []
    else if |images| == 1 then [("image", JString(images[0]))]
    else [("image", JArray([JString(images[0]), JString(images[1])]))]
  }

  /** array_map('trim', ...) */
  function TrimAll(pieces: seq<string>): (r: seq<string>)
    ensures |r| == |pieces|
  {
    seq(|pieces|, i requires 0 <= i < |pieces| => Trim(pieces[i]))
  }

  /**
   * The sameAs value as the code computes it: split on ',', trim, drop falsy
   * pieces keeping their keys; a single survivor is read back as $urls[0].
   */
  function SameAsValue(s: string): Json {
    SameAsOfPieces(TrimAll(Explode(s, ',')))
  }

  /** The sameAs value built from the trimmed pieces. */
  function SameAsOfPieces(urls: seq<string>): Json {
    var kept := FilterFalsy(urls);
    if |kept| == 1 then (if kept[0].0 == 0 then JString(kept[0].1) else JNull)
    else ArrayToJson(UrlEntries(kept))
  }

  /** The surviving URLs as array entries under their original keys. */
  function UrlEntries(kept: seq<(nat, string)>): (e: seq<(nat, Json)>)
    ensures |e| == |kept|
    ensures forall j :: 0 <= j < |e| ==> e[j] == (kept[j].0, JString(kept[j].1))
  {
    seq(|kept|, j requires 0 <= j < |kept| => (kept[j].0, JString(kept[j].1)))
  }

  function SameAsFields(a: Attrs): Fields {
    if Empty(a, "sameAs") then [] else [("sameAs", SameAsValue(a["sameAs"]))]
  }

  /** What the Platform branch adds after the common fields (its "@type" rewrite is in Item). */
  function PlatformFields(a: Attrs): Fields {
    CopyIfSet(a, "subtitle", "disambiguatingDescription")
    + PlatformImage(a)
    + CopyIfSet(a, "alternateName", "alternateName")
    + SameAsFields(a)
  }

  // ---- Product / SoftwareApplication ----

  predicate HasValidPrice(a: Attrs) {
    !Empty(a, "price") && IsNumeric(a["price"])
  }

  function OfferFields(a: Attrs): Fields {
    if HasValidPrice(a) then
      [("offers", JObject([
        ("@type", JString("Offer")),
        ("price", JReal(ToFloat(a["price"]))),
        ("priceCurrency", JString(Coalesce(a, "currency", "GBP")))]))]
    else []
  }

  // ---- Place / Creative / Podcast ----

  function AddressFields(a: Attrs): Fields {
    if Empty(a, "address") then []
    else [("address", JObject([("@type", JString("PostalAddress")), ("streetAddress", JString(a["address"]))]))]
  }

  function AuthorFields(a: Attrs): Fields {
    if Empty(a, "author") then []
    else [("author", JObject([("@type", JString("Person")), ("name", JString(a["author"]))]))]
  }

  /** A podcast's image: the hero image when set, otherwise the logo image. */
  function PodcastImage(a: Attrs): Fields {
    if !Empty(a, "heroImageUrl") then [("image", JString(a["heroImageUrl"]))]
    else CopyIfSet(a, "imageUrl", "image")
  }

  /** The publication date, carried only by an episode. */
  function EpisodeDate(a: Attrs): Fields {
    if SchemaType(a) == "PodcastEpisode" then CopyIfSet(a, "datePublished", "datePublished") else []
  }

  function PodcastFields(a: Attrs): Fields {
    AuthorFields(a) + EpisodeDate(a)
  }

  /** The fields the product, place and creative groups add after the common image. */
  function GroupFields(a: Attrs): Fields {
    var t := SchemaType(a);
    if IsProductType(t) then OfferFields(a)
    else if IsPlaceType(t) then AddressFields(a) + CopyIfSet(a, "telephone", "telephone")
    else if IsCreativeType(t) then AuthorFields(a) + CopyIfSet(a, "datePublished", "datePublished")
    else []
  }

  /** Everything after "url" and before the rating, by group. */
  function TypeFields(a: Attrs): Fields {
    var t := SchemaType(a);
    if t == "Platform" then PlatformFields(a)
    else if IsPodcastType(t) then PodcastImage(a) + PodcastFields(a)
    else CopyIfSet(a, "imageUrl", "image") + GroupFields(a)
  }

  // ---- AggregateRating ----

  function RawRating(a: Attrs): string {
    Coalesce(a, "ratingValue", "")
  }

  function RawReviewCount(a: Attrs): string {
    Coalesce(a, "reviewCount", "")
  }

  predicate RatingValueAccepted(a: Attrs) {
    var rv := RawRating(a);
    rv != "" && IsNumeric(rv) && 0.0 <= ToFloat(rv) <= 5.0
  }

  predicate ReviewCountAccepted(a: Attrs) {
    var rc := RawReviewCount(a);
    rc != "" && IsNumeric(rc) && ToInt(rc) > 0
  }

  /** The AggregateRating object, or None when neither input yields a value. */
  function RatingObject(a: Attrs): (r: Option<Json>)
    ensures r.Some? <==> RatingValueAccepted(a) || ReviewCountAccepted(a)
    ensures r.Some? ==> r.value.JObject? && |r.value.fields| >= 2
    ensures r.Some? ==> r.value.fields[0] == ("@type", JString("AggregateRating"))
  {
    if RawRating(a) == "" && RawReviewCount(a) == "" then None
    else
      var fields :=
        [("@type", JString("AggregateRating"))]
        + (if RatingValueAccepted(a)
           then [("ratingValue", JReal(ToFloat(RawRating(a)))), ("bestRating", JInt(5)), ("worstRating", JInt(0))]
           else [])
        + (if ReviewCountAccepted(a) then [("reviewCount", JInt(ToInt(RawReviewCount(a))))] else []);
      if RatingValueAccepted(a) || ReviewCountAccepted(a) then Some(JObject(fields)) else None
  }

  function RatingFields(a: Attrs): Fields {
    match RatingObject(a)
    case Some(r) => [("aggregateRating", r)]
    case None => []
  }

  // ---- The item ----

  /** The "@type" the item ends up with: Platform is published as Thing. */
  function PublishedType(t: string): string {
    if t == "Platform" then "Thing" else t
  }

  /** The fields every item starts with: "@type", "name", then description and url when set. */
  function ItemPrefix(a: Attrs): Fields {
    [("@type", JString(PublishedType(SchemaType(a)))), ("name", JString(Coalesce(a, "title", "")))]
    + CopyIfSet(a, "description", "description")
    + CopyIfSet(a, "url", "url")
  }

  /** The schema.org object for one record, in its final key order. */
  function Item(a: Attrs): Fields {
    ItemPrefix(a) + TypeFields(a) + RatingFields(a)
  }

  // ---- Keys never repeat ----

  /**
   * A proof device: every key an item can carry has a rank, and each item
   * lists its keys in strictly increasing rank, so no key appears twice.
   */
  function KeyRank(k: string): int {
    if k == "@type" then 0
    else if k == "name" then 1
    else if k == "description" then 2
    else if k == "url" then 3
    else if k == "disambiguatingDescription" then 4
    else if k == "image" then 5
    else if k == "alternateName" then 6
    else if k == "sameAs" then 7
    else if k == "offers" then 8
    else if k == "address" then 9
    else if k == "telephone" then 10
    else if k == "author" then 11
    else if k == "datePublished" then 12
    else if k == "aggregateRating" then 13
    else 14
  }

  /** The ranks of the common keys. */
  lemma CommonKeyRanks()
    ensures KeyRank("@type") == 0 && KeyRank("name") == 1 && KeyRank("description") == 2 && KeyRank("url") == 3
    ensures KeyRank("aggregateRating") == 13
  {
  }

  /** The ranks of the Platform keys. */
  lemma PlatformKeyRanks()
    ensures KeyRank("disambiguatingDescription") == 4 && KeyRank("image") == 5 && KeyRank("alternateName") == 6
    ensures KeyRank("sameAs") == 7
  {
  }

  /** The ranks of the product, place, creative and podcast keys. */
  lemma GroupKeyRanks()
    ensures KeyRank("image") == 5 && KeyRank("offers") == 8 && KeyRank("address") == 9 && KeyRank("telephone") == 10
    ensures KeyRank("author") == 11 && KeyRank("datePublished") == 12
  {
  }

  predicate RanksWithin(o: Fields, lo: int, hi: int) {
    && (forall i :: 0 <= i < |o| ==> lo <= KeyRank(o[i].0) < hi)
    && (forall i, j :: 0 <= i < j < |o| ==> KeyRank(o[i].0) < KeyRank(o[j].0))
  }

  lemma RanksConcat(x: Fields, y: Fields, lo: int, mid: int, hi: int)
    requires lo <= mid <= hi
    requires RanksWithin(x, lo, mid) && RanksWithin(y, mid, hi)
    ensures RanksWithin(x + y, lo, hi)
  {
    var xy := x + y;
    forall i, j | 0 <= i < j < |xy| ensures KeyRank(xy[i].0) < KeyRank(xy[j].0) {
      if j < |x| {
        assert xy[i] == x[i] && xy[j] == x[j];
      } else if i < |x| {
        assert xy[i] == x[i] && xy[j] == y[j - |x|];
      } else {
        assert xy[i] == y[i - |x|] && xy[j] == y[j - |x|];
      }
    }
    forall i | 0 <= i < |xy| ensures lo <= KeyRank(xy[i].0) < hi {
      if i < |x| {
        assert xy[i] == x[i];
      } else {
        assert xy[i] == y[i - |x|];
      }
    }
  }

  lemma RanksUnique(o: Fields, lo: int, hi: int)
    requires RanksWithin(o, lo, hi)
    ensures UniqueKeys(o)
  {
  }

  /** At most one entry, under key. */
  predicate AtMostOneUnder(o: Fields, key: string) {
    |o| <= 1 && forall i :: 0 <= i < |o| ==> o[i].0 == key
  }

  /** Each platform segment is at most one entry under its own key. */
  lemma PlatformSegments(a: Attrs)
    ensures AtMostOneUnder(CopyIfSet(a, "subtitle", "disambiguatingDescription"), "disambiguatingDescription")
    ensures AtMostOneUnder(PlatformImage(a), "image")
    ensures AtMostOneUnder(CopyIfSet(a, "alternateName", "alternateName"), "alternateName")
    ensures AtMostOneUnder(SameAsFields(a), "sameAs")
  {
  }

  /** A segment of at most one entry, under a key of the given rank. */
  lemma OptionalRank(o: Fields, k: string, r: int)
    requires KeyRank(k) == r
    requires AtMostOneUnder(o, k)
    ensures RanksWithin(o, r, r + 1)
  {
  }

  /** The four Platform sections, each within its own rank, make up the type-specific fields. */
  lemma PlatformSections(a: Attrs)
    requires SchemaType(a) == "Platform"
    ensures TypeFields(a) == PlatformFields(a)
    ensures PlatformFields(a) == CopyIfSet(a, "subtitle", "disambiguatingDescription") + PlatformImage(a)
      + CopyIfSet(a, "alternateName", "alternateName") + SameAsFields(a)
    ensures RanksWithin(CopyIfSet(a, "subtitle", "disambiguatingDescription"), 4, 5)
    ensures RanksWithin(PlatformImage(a), 5, 6)
    ensures RanksWithin(CopyIfSet(a, "alternateName", "alternateName"), 6, 7)
    ensures RanksWithin(SameAsFields(a), 7, 8)
  {
    PlatformKeyRanks();
    PlatformSegments(a);
    OptionalRank(CopyIfSet(a, "subtitle", "disambiguatingDescription"), "disambiguatingDescription", 4);
    OptionalRank(PlatformImage(a), "image", 5);
    OptionalRank(CopyIfSet(a, "alternateName", "alternateName"), "alternateName", 6);
    OptionalRank(SameAsFields(a), "sameAs", 7);
  }

  lemma PlatformFieldsRanks(a: Attrs)
    ensures RanksWithin(PlatformFields(a), 4, 13)
  {
    var s1 := CopyIfSet(a, "subtitle", "disambiguatingDescription");
    var s2 := PlatformImage(a);
    var s3 := CopyIfSet(a, "alternateName", "alternateName");
    var s4 := SameAsFields(a);
    PlatformKeyRanks();
    PlatformSegments(a);
    OptionalRank(s1, "disambiguatingDescription", 4);
    OptionalRank(s2, "image", 5);
    OptionalRank(s3, "alternateName", 6);
    OptionalRank(s4, "sameAs", 7);
    FourRanks(s1, s2, s3, s4, 4, 5, 6, 7, 8);
    RanksWiden(s1 + s2 + s3 + s4, 4, 8, 4, 13);
  }

  /** Four consecutive ranked sections are ranked together. */
  lemma FourRanks(s1: Fields, s2: Fields, s3: Fields, s4: Fields, r1: int, r2: int, r3: int, r4: int, r5: int)
    requires r1 <= r2 <= r3 <= r4 <= r5
    requires RanksWithin(s1, r1, r2) && RanksWithin(s2, r2, r3) && RanksWithin(s3, r3, r4) && RanksWithin(s4, r4, r5)
    ensures RanksWithin(s1 + s2 + s3 + s4, r1, r5)
  {
    RanksConcat(s1, s2, r1, r2, r3);
    RanksConcat(s1 + s2, s3, r1, r3, r4);
    RanksConcat(s1 + s2 + s3, s4, r1, r4, r5);
  }

  lemma PodcastRanks(a: Attrs)
    ensures RanksWithin(PodcastImage(a) + PodcastFields(a), 4, 13)
  {
    GroupKeyRanks();
    OptionalRank(PodcastImage(a), "image", 5);
    PodcastFieldsRanks(a);
    RanksConcat(PodcastImage(a), PodcastFields(a), 5, 6, 13);
    RanksWiden(PodcastImage(a) + PodcastFields(a), 5, 13, 4, 13);
  }

  lemma PodcastFieldsRanks(a: Attrs)
    ensures RanksWithin(PodcastFields(a), 6, 13)
  {
    if SchemaType(a) == "PodcastEpisode" {
      CreativeFieldsRanks(a);
    } else {
      GroupKeyRanks();
      OptionalRank(AuthorFields(a), "author", 11);
      assert PodcastFields(a) == AuthorFields(a) + [];
    }
  }

  lemma PlaceFieldsRanks(a: Attrs)
    ensures RanksWithin(AddressFields(a) + CopyIfSet(a, "telephone", "telephone"), 6, 13)
  {
    GroupKeyRanks();
    var g1 := AddressFields(a);
    var g2 := CopyIfSet(a, "telephone", "telephone");
    OptionalRank(g1, "address", 9);
    OptionalRank(g2, "telephone", 10);
    RanksConcat(g1, g2, 9, 10, 11);
    RanksConcat([], g1 + g2, 6, 9, 11);
    RanksConcat([] + (g1 + g2), [], 6, 11, 13);
    assert [] + (g1 + g2) + [] == g1 + g2;
  }

  lemma CreativeFieldsRanks(a: Attrs)
    ensures RanksWithin(AuthorFields(a) + CopyIfSet(a, "datePublished", "datePublished"), 6, 13)
  {
    GroupKeyRanks();
    var g1 := AuthorFields(a);
    var g2 := CopyIfSet(a, "datePublished", "datePublished");
    OptionalRank(g1, "author", 11);
    OptionalRank(g2, "datePublished", 12);
    RanksConcat(g1, g2, 11, 12, 13);
    RanksConcat([], g1 + g2, 6, 11, 13);
    assert [] + (g1 + g2) == g1 + g2;
  }

  lemma OfferFieldsOne(a: Attrs)
    ensures AtMostOneUnder(OfferFields(a), "offers")
  {
  }

  lemma OfferFieldsRanks(a: Attrs)
    ensures RanksWithin(OfferFields(a), 6, 13)
  {
    OfferFieldsOne(a);
    GroupKeyRanks();
    OptionalRank(OfferFields(a), "offers", 8);
    RanksConcat([], OfferFields(a), 6, 8, 9);
    RanksConcat([] + OfferFields(a), [], 6, 9, 13);
    assert [] + OfferFields(a) + [] == OfferFields(a);
  }

  lemma GroupFieldsRanks(a: Attrs)
    ensures RanksWithin(CopyIfSet(a, "imageUrl", "image") + GroupFields(a), 4, 13)
  {
    GroupKeyRanks();
    var t := SchemaType(a);
    var s1 := CopyIfSet(a, "imageUrl", "image");
    OptionalRank(s1, "image", 5);
    if IsProductType(t) {
      OfferFieldsRanks(a);
    } else if IsPlaceType(t) {
      PlaceFieldsRanks(a);
    } else if IsCreativeType(t) {
      CreativeFieldsRanks(a);
    }
    assert RanksWithin(GroupFields(a), 6, 13);
    RanksConcat(s1, GroupFields(a), 5, 6, 13);
    RanksConcat([], s1 + GroupFields(a), 4, 5, 13);
    assert [] + (s1 + GroupFields(a)) == s1 + GroupFields(a);
  }

  lemma TypeFieldsRanks(a: Attrs)
    ensures RanksWithin(TypeFields(a), 4, 13)
  {
    var t := SchemaType(a);
    if t == "Platform" {
      PlatformFieldsRanks(a);
    } else if IsPodcastType(t) {
      PodcastRanks(a);
    } else {
      GroupFieldsRanks(a);
    }
  }

  lemma ItemPrefixRanks(a: Attrs)
    ensures RanksWithin(ItemPrefix(a), 0, 4)
  {
    var head := [("@type", JString(PublishedType(SchemaType(a)))), ("name", JString(Coalesce(a, "title", "")))];
    var d := CopyIfSet(a, "description", "description");
    var u := CopyIfSet(a, "url", "url");
    assert RanksWithin(head, 0, 2);
    OptionalRank(d, "description", 2);
    OptionalRank(u, "url", 3);
    RanksConcat(head, d, 0, 2, 3);
    RanksConcat(head + d, u, 0, 3, 4);
  }

  /** An item never carries the same key twice. */
  lemma ItemKeysUnique(a: Attrs)
    ensures UniqueKeys(Item(a))
  {
    ItemPrefixRanks(a);
    TypeFieldsRanks(a);
    OptionalRank(RatingFields(a), "aggregateRating", 13);
    RanksConcat(ItemPrefix(a), TypeFields(a), 0, 4, 13);
    RanksConcat(ItemPrefix(a) + TypeFields(a), RatingFields(a), 0, 13, 14);
    RanksUnique(Item(a), 0, 14);
  }

  /** Looking a key up in two ranked sections: only the section of the key's rank can hold it. */
  lemma GetSplit(x: Fields, y: Fields, lo: int, mid: int, hi: int, k: string)
    requires RanksWithin(x, lo, mid) && RanksWithin(y, mid, hi)
    ensures Get(x + y, k) == if KeyRank(k) < mid then Get(x, k) else Get(y, k)
  {
    GetAppend(x, y, k);
    KeysAt(x);
    KeysAt(y);
    GetPresent(x, k);
    GetPresent(y, k);
  }

  /** Where in an item a key is looked up. */
  lemma ItemGetBySection(a: Attrs, k: string)
    ensures Get(Item(a), k) ==
      if KeyRank(k) < 4 then Get(ItemPrefix(a), k)
      else if KeyRank(k) < 13 then Get(TypeFields(a), k)
      else Get(RatingFields(a), k)
  {
    ItemPrefixRanks(a);
    TypeFieldsRanks(a);
    RatingFieldsRanks(a);
    GetThree(ItemPrefix(a), TypeFields(a), RatingFields(a), 0, 4, 13, 14, k);
  }

  lemma RatingFieldsRanks(a: Attrs)
    ensures RanksWithin(RatingFields(a), 13, 14)
  {
    CommonKeyRanks();
    OptionalRank(RatingFields(a), "aggregateRating", 13);
  }

  /** Lookup in three consecutive ranked sections. */
  lemma GetThree(x: Fields, y: Fields, z: Fields, r1: int, r2: int, r3: int, r4: int, k: string)
    requires r1 <= r2 <= r3 <= r4
    requires RanksWithin(x, r1, r2) && RanksWithin(y, r2, r3) && RanksWithin(z, r3, r4)
    ensures Get(x + y + z, k) ==
      if KeyRank(k) < r2 then Get(x, k)
      else if KeyRank(k) < r3 then Get(y, k)
      else Get(z, k)
  {
    RanksConcat(x, y, r1, r2, r3);
    GetSplit(x + y, z, r1, r3, r4, k);
    GetSplit(x, y, r1, r2, r3, k);
  }

  // ---- What each item carries ----

  /** An attribute copied as a JSON string, present only when not empty(). */
  function AttrString(a: Attrs, key: string): Option<Json> {
    if Empty(a, key) then None else Some(JString(a[key]))
  }

  /** Every item starts with "@type" and "name"; description and url are copied only when not empty(). */
  lemma ItemCommonFields(a: Attrs)
    ensures Item(a)[0] == ("@type", JString(PublishedType(SchemaType(a))))
    ensures Item(a)[1] == ("name", JString(Coalesce(a, "title", "")))
    ensures Get(Item(a), "description") == AttrString(a, "description")
    ensures Get(Item(a), "url") == AttrString(a, "url")
  {
    var head := [("@type", JString(PublishedType(SchemaType(a)))), ("name", JString(Coalesce(a, "title", "")))];
    var d := CopyIfSet(a, "description", "description");
    var u := CopyIfSet(a, "url", "url");
    assert RanksWithin(head, 0, 2);
    OptionalRank(d, "description", 2);
    OptionalRank(u, "url", 3);
    RanksConcat(head, d, 0, 2, 3);
    ItemGetBySection(a, "description");
    ItemGetBySection(a, "url");
    GetSplit(head + d, u, 0, 3, 4, "description");
    GetSplit(head, d, 0, 2, 3, "description");
    GetSplit(head + d, u, 0, 3, 4, "url");
  }

  /** Lookup in four consecutive ranked sections. */
  lemma GetFour(s1: Fields, s2: Fields, s3: Fields, s4: Fields, r1: int, r2: int, r3: int, r4: int, r5: int, k: string)
    requires r1 <= r2 <= r3 <= r4 <= r5
    requires RanksWithin(s1, r1, r2) && RanksWithin(s2, r2, r3) && RanksWithin(s3, r3, r4) && RanksWithin(s4, r4, r5)
    ensures Get(s1 + s2 + s3 + s4, k) ==
      if KeyRank(k) < r2 then Get(s1, k)
      else if KeyRank(k) < r3 then Get(s2, k)
      else if KeyRank(k) < r4 then Get(s3, k)
      else Get(s4, k)
  {
    RanksConcat(s1, s2, r1, r2, r3);
    RanksConcat(s1 + s2, s3, r1, r3, r4);
    GetSplit(s1 + s2 + s3, s4, r1, r4, r5, k);
    GetSplit(s1 + s2, s3, r1, r3, r4, k);
    GetSplit(s1, s2, r1, r2, r3, k);
  }

  /** A Platform is published as a Thing with its hero and logo images, subtitle, alternate name and sameAs links. */
  lemma PlatformItem(a: Attrs)
    requires SchemaType(a) == "Platform"
    ensures Get(Item(a), "@type") == Some(JString("Thing"))
    ensures Get(Item(a), "disambiguatingDescription") == AttrString(a, "subtitle")
    ensures Get(Item(a), "image") ==
      if !Empty(a, "heroImageUrl") && !Empty(a, "imageUrl") then Some(JArray([JString(a["heroImageUrl"]), JString(a["imageUrl"])]))
      else if !Empty(a, "heroImageUrl") then Some(JString(a["heroImageUrl"]))
      else if !Empty(a, "imageUrl") then Some(JString(a["imageUrl"]))
      else None
    ensures Get(Item(a), "alternateName") == AttrString(a, "alternateName")
    ensures Get(Item(a), "sameAs") == if Empty(a, "sameAs") then None else Some(SameAsValue(a["sameAs"]))
  {
    PlatformKeyRanks();
    PlatformGet(a, "disambiguatingDescription");
    PlatformGet(a, "image");
    PlatformImageGet(a);
    PlatformGet(a, "alternateName");
    PlatformGet(a, "sameAs");
  }

  /** The hero image and the logo, whichever are set, in that order. */
  lemma PlatformImageGet(a: Attrs)
    ensures Get(PlatformImage(a), "image") ==
      if !Empty(a, "heroImageUrl") && !Empty(a, "imageUrl") then Some(JArray([JString(a["heroImageUrl"]), JString(a["imageUrl"])]))
      else if !Empty(a, "heroImageUrl") then Some(JString(a["heroImageUrl"]))
      else if !Empty(a, "imageUrl") then Some(JString(a["imageUrl"]))
      else None
  {
  }

  /** Lookup of a Platform key: only the section of the key's rank can hold it. */
  lemma PlatformGet(a: Attrs, k: string)
    requires SchemaType(a) == "Platform" && 4 <= KeyRank(k) < 8
    ensures Get(Item(a), k) ==
      if KeyRank(k) == 4 then Get(CopyIfSet(a, "subtitle", "disambiguatingDescription"), k)
      else if KeyRank(k) == 5 then Get(PlatformImage(a), k)
      else if KeyRank(k) == 6 then Get(CopyIfSet(a, "alternateName", "alternateName"), k)
      else Get(SameAsFields(a), k)
  {
    PlatformSections(a);
    ItemGetBySection(a, k);
    GetFour(CopyIfSet(a, "subtitle", "disambiguatingDescription"), PlatformImage(a),
      CopyIfSet(a, "alternateName", "alternateName"), SameAsFields(a), 4, 5, 6, 7, 8, k);
  }

  /** The keys every item may carry, whatever its type. */
  const CommonKeys: set<string> := {"@type", "name", "description", "url", "aggregateRating"}

  lemma RanksWiden(o: Fields, lo: int, hi: int, lo2: int, hi2: int)
    requires RanksWithin(o, lo, hi) && lo2 <= lo && hi <= hi2
    ensures RanksWithin(o, lo2, hi2)
  {
  }

  /** A key found in a ranked section has a rank inside the section's range. */
  lemma GetRank(o: Fields, lo: int, hi: int, k: string)
    requires RanksWithin(o, lo, hi)
    ensures Get(o, k).Some? ==> lo <= KeyRank(k) < hi
  {
    GetPresent(o, k);
    KeysAt(o);
  }

  /** Any key of an item outside the common ones comes from the type-specific fields. */
  lemma ItemKeyOrigin(a: Attrs, k: string)
    ensures Get(Item(a), k).Some? ==> k in CommonKeys || (4 <= KeyRank(k) < 13 && Get(TypeFields(a), k).Some?)
  {
    ItemGetBySection(a, k);
    ItemPrefixRanks(a);
    GetRank(ItemPrefix(a), 0, 4, k);
    OptionalRank(RatingFields(a), "aggregateRating", 13);
    GetRank(RatingFields(a), 13, 14, k);
    CommonRanks(k);
  }

  lemma CommonRanks(k: string)
    ensures 0 <= KeyRank(k) < 4 || KeyRank(k) == 13 ==> k in CommonKeys
  {
  }

  lemma ProductShape(a: Attrs)
    requires IsProductType(SchemaType(a))
    ensures TypeFields(a) == CopyIfSet(a, "imageUrl", "image") + OfferFields(a)
  {
  }

  lemma PlaceShape(a: Attrs)
    requires IsPlaceType(SchemaType(a))
    ensures TypeFields(a) == CopyIfSet(a, "imageUrl", "image") + (AddressFields(a) + CopyIfSet(a, "telephone", "telephone"))
  {
  }

  lemma CreativeShape(a: Attrs)
    requires IsCreativeType(SchemaType(a))
    ensures TypeFields(a) == CopyIfSet(a, "imageUrl", "image") + (AuthorFields(a) + CopyIfSet(a, "datePublished", "datePublished"))
  {
  }

  lemma PodcastShape(a: Attrs)
    requires IsPodcastType(SchemaType(a))
    ensures TypeFields(a) == PodcastImage(a) + PodcastFields(a)
  {
  }

  lemma UngroupedShape(a: Attrs)
    requires IsUngroupedType(SchemaType(a))
    ensures TypeFields(a) == CopyIfSet(a, "imageUrl", "image")
  {
    assert CopyIfSet(a, "imageUrl", "image") + GroupFields(a) == CopyIfSet(a, "imageUrl", "image") + [];
  }

  /** The keys beyond the common ones that each type may add. */
  function GroupKeys(t: string): set<string> {
    if t == "Platform" then {"disambiguatingDescription", "image", "alternateName", "sameAs"}
    else if IsProductType(t) then {"image", "offers"}
    else if IsPlaceType(t) then {"image", "address", "telephone"}
    else if IsCreativeType(t) || IsPodcastType(t) then {"image", "author", "datePublished"}
    else {"image"}
  }

  lemma TypeFieldsKey(a: Attrs, k: string)
    ensures Get(TypeFields(a), k).Some? ==> k in GroupKeys(SchemaType(a))
  {
    var t := SchemaType(a);
    if t == "Platform" {
      PlatformKey(a, k);
    } else if IsProductType(t) {
      ProductKey(a, k);
    } else if IsPlaceType(t) {
      PlaceKey(a, k);
    } else if IsCreativeType(t) {
      CreativeKey(a, k);
    } else if IsPodcastType(t) {
      PodcastKey(a, k);
    } else {
      UngroupedKey(a, k);
    }
  }

  lemma PlaceKey(a: Attrs, k: string)
    requires IsPlaceType(SchemaType(a))
    ensures Get(TypeFields(a), k).Some? ==> k == "image" || k == "address" || k == "telephone"
  {
    GroupKeyRanks();
    PlaceShape(a);
    ThreeSections(CopyIfSet(a, "imageUrl", "image"), AddressFields(a), CopyIfSet(a, "telephone", "telephone"),
      "image", "address", "telephone", k);
  }

  lemma CreativeKey(a: Attrs, k: string)
    requires IsCreativeType(SchemaType(a))
    ensures Get(TypeFields(a), k).Some? ==> k == "image" || k == "author" || k == "datePublished"
  {
    GroupKeyRanks();
    CreativeShape(a);
    ThreeSections(CopyIfSet(a, "imageUrl", "image"), AuthorFields(a), CopyIfSet(a, "datePublished", "datePublished"),
      "image", "author", "datePublished", k);
  }

  lemma UngroupedKey(a: Attrs, k: string)
    requires IsUngroupedType(SchemaType(a))
    ensures Get(TypeFields(a), k).Some? ==> k == "image"
  {
    UngroupedShape(a);
    OptionalGet(CopyIfSet(a, "imageUrl", "image"), "image", k);
  }

  lemma PlatformKey(a: Attrs, k: string)
    requires SchemaType(a) == "Platform"
    ensures Get(TypeFields(a), k).Some? ==> k in {"disambiguatingDescription", "image", "alternateName", "sameAs"}
  {
    var s1 := CopyIfSet(a, "subtitle", "disambiguatingDescription");
    var s2 := PlatformImage(a);
    var s3 := CopyIfSet(a, "alternateName", "alternateName");
    var s4 := SameAsFields(a);
    PlatformSections(a);
    PlatformSegments(a);
    GetFour(s1, s2, s3, s4, 4, 5, 6, 7, 8, k);
    OptionalGet(s1, "disambiguatingDescription", k);
    OptionalGet(s2, "image", k);
    OptionalGet(s3, "alternateName", k);
    OptionalGet(s4, "sameAs", k);
  }

  /** A segment of at most one entry under key answers only for that key. */
  lemma OptionalGet(o: Fields, key: string, k: string)
    requires AtMostOneUnder(o, key)
    ensures Get(o, k).Some? ==> k == key
  {
    if o != [] {
      assert o[0].0 == key;
      assert o[1..] == [];
      assert Get(o[1..], k) == None;
    }
  }

  lemma ProductKey(a: Attrs, k: string)
    requires IsProductType(SchemaType(a))
    ensures Get(TypeFields(a), k).Some? ==> k == "image" || k == "offers"
  {
    GroupKeyRanks();
    var s1 := CopyIfSet(a, "imageUrl", "image");
    var s2 := OfferFields(a);
    ProductShape(a);
    OptionalRank(s1, "image", 5);
    OptionalRank(s2, "offers", 8);
    RanksWiden(s2, 8, 9, 6, 9);
    GetSplit(s1, s2, 5, 6, 9, k);
    OptionalGet(s1, "image", k);
    OptionalGet(s2, "offers", k);
  }

  lemma PodcastKey(a: Attrs, k: string)
    requires IsPodcastType(SchemaType(a))
    ensures Get(TypeFields(a), k).Some? ==> k == "image" || k == "author" || k == "datePublished"
  {
    GroupKeyRanks();
    var g2: Fields := if SchemaType(a) == "PodcastEpisode" then CopyIfSet(a, "datePublished", "datePublished") else [];
    PodcastShape(a);
    assert PodcastFields(a) == AuthorFields(a) + g2;
    ThreeSections(PodcastImage(a), AuthorFields(a), g2, "image", "author", "datePublished", k);
  }

  /**
   * Lookup in an image section followed by two optional sections of later
   * rank: only the section holding the key can answer.
   */
  lemma ThreeSections(s1: Fields, g1: Fields, g2: Fields, k1: string, k2: string, k3: string, k: string)
    requires KeyRank(k1) == 5 && 6 <= KeyRank(k2) && KeyRank(k2) + 1 == KeyRank(k3) && KeyRank(k3) < 13
    requires |s1| <= 1 && forall i :: 0 <= i < |s1| ==> s1[i].0 == k1
    requires |g1| <= 1 && forall i :: 0 <= i < |g1| ==> g1[i].0 == k2
    requires |g2| <= 1 && forall i :: 0 <= i < |g2| ==> g2[i].0 == k3
    ensures Get(s1 + (g1 + g2), k) == if k == k1 then Get(s1, k) else if k == k2 then Get(g1, k) else Get(g2, k)
    ensures Get(s1 + (g1 + g2), k).Some? ==> k == k1 || k == k2 || k == k3
  {
    var r2 := KeyRank(k2);
    OptionalRank(s1, k1, 5);
    OptionalRank(g1, k2, r2);
    OptionalRank(g2, k3, r2 + 1);
    RanksConcat(g1, g2, r2, r2 + 1, r2 + 2);
    RanksWiden(g1 + g2, r2, r2 + 2, 6, 13);
    GetSplit(s1, g1 + g2, 5, 6, 13, k);
    GetSplit(g1, g2, r2, r2 + 1, r2 + 2, k);
    GetRank(s1, 5, 6, k);
    GetRank(g1, r2, r2 + 1, k);
    GetRank(g2, r2 + 1, r2 + 2, k);
  }

  /** An item carries only the common keys and the keys of its own type's group. */
  lemma ItemKeysByType(a: Attrs)
    ensures forall k :: Get(Item(a), k).Some? ==> k in CommonKeys || k in GroupKeys(SchemaType(a))
  {
    forall k | Get(Item(a), k).Some? ensures k in CommonKeys || k in GroupKeys(SchemaType(a)) {
      ItemKeyOrigin(a, k);
      TypeFieldsKey(a, k);
    }
  }

  /** A Product or SoftwareApplication carries its logo as image and an Offer only for a numeric price. */
  lemma ProductItem(a: Attrs)
    requires IsProductType(SchemaType(a))
    ensures Get(Item(a), "image") == AttrString(a, "imageUrl")
    ensures Get(Item(a), "offers") ==
      if HasValidPrice(a) then
        Some(JObject([
          ("@type", JString("Offer")),
          ("price", JReal(ToFloat(a["price"]))),
          ("priceCurrency", JString(Coalesce(a, "currency", "GBP")))]))
      else None
  {
    GroupKeyRanks();
    var s1 := CopyIfSet(a, "imageUrl", "image");
    var s2 := OfferFields(a);
    OptionalRank(s1, "image", 5);
    OptionalRank(s2, "offers", 8);
    RanksWiden(s2, 8, 9, 6, 9);
    ProductShape(a);
    ItemGetBySection(a, "image");
    GetSplit(s1, s2, 5, 6, 9, "image");
    ItemGetBySection(a, "offers");
    GetSplit(s1, s2, 5, 6, 9, "offers");
  }

  /** Place, LocalBusiness and Restaurant carry image, a PostalAddress and a telephone, each only when set. */
  lemma PlaceItem(a: Attrs)
    requires IsPlaceType(SchemaType(a))
    ensures Get(Item(a), "image") == AttrString(a, "imageUrl")
    ensures Get(Item(a), "address") ==
      if Empty(a, "address") then None
      else Some(JObject([("@type", JString("PostalAddress")), ("streetAddress", JString(a["address"]))]))
    ensures Get(Item(a), "telephone") == AttrString(a, "telephone")
  {
    GroupKeyRanks();
    PlaceGet(a, "image");
    PlaceGet(a, "address");
    PlaceGet(a, "telephone");
  }

  /** Lookup of a Place key in its section. */
  lemma PlaceGet(a: Attrs, k: string)
    requires IsPlaceType(SchemaType(a)) && (k == "image" || k == "address" || k == "telephone")
    ensures Get(Item(a), k) ==
      if k == "image" then Get(CopyIfSet(a, "imageUrl", "image"), k) else if k == "address" then Get(AddressFields(a), k) else Get(CopyIfSet(a, "telephone", "telephone"), k)
  {
    GroupKeyRanks();
    PlaceShape(a);
    ItemGetBySection(a, k);
    ThreeSections(CopyIfSet(a, "imageUrl", "image"), AddressFields(a), CopyIfSet(a, "telephone", "telephone"), "image", "address", "telephone", k);
  }

  /** Book, Movie and CreativeWork carry image, a Person author and a publication date, each only when set. */
  lemma CreativeItem(a: Attrs)
    requires IsCreativeType(SchemaType(a))
    ensures Get(Item(a), "image") == AttrString(a, "imageUrl")
    ensures Get(Item(a), "author") ==
      if Empty(a, "author") then None
      else Some(JObject([("@type", JString("Person")), ("name", JString(a["author"]))]))
    ensures Get(Item(a), "datePublished") == AttrString(a, "datePublished")
  {
    GroupKeyRanks();
    CreativeGet(a, "image");
    CreativeGet(a, "author");
    CreativeGet(a, "datePublished");
  }

  /** Lookup of a creative-work key in its section. */
  lemma CreativeGet(a: Attrs, k: string)
    requires IsCreativeType(SchemaType(a)) && (k == "image" || k == "author" || k == "datePublished")
    ensures Get(Item(a), k) ==
      if k == "image" then Get(CopyIfSet(a, "imageUrl", "image"), k) else if k == "author" then Get(AuthorFields(a), k) else Get(CopyIfSet(a, "datePublished", "datePublished"), k)
  {
    GroupKeyRanks();
    CreativeShape(a);
    ItemGetBySection(a, k);
    ThreeSections(CopyIfSet(a, "imageUrl", "image"), AuthorFields(a), CopyIfSet(a, "datePublished", "datePublished"), "image", "author", "datePublished", k);
  }

  /**
   * PodcastSeries and PodcastEpisode prefer the hero image over the logo,
   * carry a Person author when set, and only an episode carries a publication date.
   */
  lemma PodcastItem(a: Attrs)
    requires IsPodcastType(SchemaType(a))
    ensures Get(Item(a), "image") ==
      if !Empty(a, "heroImageUrl") then Some(JString(a["heroImageUrl"])) else AttrString(a, "imageUrl")
    ensures Get(Item(a), "author") ==
      if Empty(a, "author") then None
      else Some(JObject([("@type", JString("Person")), ("name", JString(a["author"]))]))
    ensures Get(Item(a), "datePublished") ==
      if SchemaType(a) == "PodcastEpisode" then AttrString(a, "datePublished") else None
  {
    GroupKeyRanks();
    PodcastGet(a, "image");
    PodcastGet(a, "author");
    PodcastGet(a, "datePublished");
  }

  /** Lookup of a podcast key in its section. */
  lemma PodcastGet(a: Attrs, k: string)
    requires IsPodcastType(SchemaType(a)) && (k == "image" || k == "author" || k == "datePublished")
    ensures Get(Item(a), k) ==
      if k == "image" then Get(PodcastImage(a), k) else if k == "author" then Get(AuthorFields(a), k) else Get(EpisodeDate(a), k)
  {
    GroupKeyRanks();
    PodcastShape(a);
    assert PodcastFields(a) == AuthorFields(a) + EpisodeDate(a);
    ItemGetBySection(a, k);
    ThreeSections(PodcastImage(a), AuthorFields(a), EpisodeDate(a), "image", "author", "datePublished", k);
  }

  /** A type outside every group carries its logo as image. */
  lemma UngroupedItem(a: Attrs)
    requires IsUngroupedType(SchemaType(a))
    ensures Get(Item(a), "image") == AttrString(a, "imageUrl")
  {
    UngroupedShape(a);
    ItemGetBySection(a, "image");
  }

  /** The item carries "aggregateRating" exactly when the rating object exists, and then it is that object. */
  lemma ItemRating(a: Attrs)
    ensures Get(Item(a), "aggregateRating") == RatingObject(a)
  {
    CommonKeyRanks();
    ItemGetBySection(a, "aggregateRating");
  }

  /** Lookup in an AggregateRating whose value and count parts are each present or absent. */
  lemma RatingLookup(hasValue: bool, v: real, hasCount: bool, n: int, f: Fields)
    requires f == [("@type", JString("AggregateRating"))]
      + (if hasValue then [("ratingValue", JReal(v)), ("bestRating", JInt(5)), ("worstRating", JInt(0))] else [])
      + (if hasCount then [("reviewCount", JInt(n))] else [])
    ensures UniqueKeys(f)
    ensures Get(f, "ratingValue") == if hasValue then Some(JReal(v)) else None
    ensures Get(f, "bestRating") == if hasValue then Some(JInt(5)) else None
    ensures Get(f, "worstRating") == if hasValue then Some(JInt(0)) else None
    ensures Get(f, "reviewCount") == if hasCount then Some(JInt(n)) else None
  {
    var value: Fields := if hasValue then [("ratingValue", JReal(v)), ("bestRating", JInt(5)), ("worstRating", JInt(0))] else [];
    var count: Fields := if hasCount then [("reviewCount", JInt(n))] else [];
    assert f == [("@type", JString("AggregateRating"))] + (value + count);
    RatingKeysUnique(hasValue, v, hasCount, n);
    RatingGet(hasValue, v, hasCount, n, "ratingValue");
    RatingGet(hasValue, v, hasCount, n, "bestRating");
    RatingGet(hasValue, v, hasCount, n, "worstRating");
    RatingGet(hasValue, v, hasCount, n, "reviewCount");
  }

  /** The rating keys are distinct, so the assembled rating object never repeats a key. */
  lemma RatingKeysUnique(hasValue: bool, v: real, hasCount: bool, n: int)
    ensures UniqueKeys([("@type", JString("AggregateRating"))]
      + (if hasValue then [("ratingValue", JReal(v)), ("bestRating", JInt(5)), ("worstRating", JInt(0))] else [])
      + (if hasCount then [("reviewCount", JInt(n))] else []))
  {
    var t := ("@type", JString("AggregateRating"));
    var rv, best, worst, rc := ("ratingValue", JReal(v)), ("bestRating", JInt(5)), ("worstRating", JInt(0)), ("reviewCount", JInt(n));
    if hasValue && hasCount {
      assert UniqueKeys([t, rv, best, worst, rc]);
    } else if hasValue {
      assert UniqueKeys([t, rv, best, worst]);
    } else if hasCount {
      assert UniqueKeys([t, rc]);
    } else {
      assert UniqueKeys([t]);
    }
  }

  /** Looking up one rating key in [@type] + value + count. */
  lemma RatingGet(hasValue: bool, v: real, hasCount: bool, n: int, k: string)
    requires k != "@type"
    ensures Get([("@type", JString("AggregateRating"))]
        + ((if hasValue then [("ratingValue", JReal(v)), ("bestRating", JInt(5)), ("worstRating", JInt(0))] else [])
        + (if hasCount then [("reviewCount", JInt(n))] else [])), k) ==
      if hasValue && k == "ratingValue" then Some(JReal(v))
      else if hasValue && k == "bestRating" then Some(JInt(5))
      else if hasValue && k == "worstRating" then Some(JInt(0))
      else if hasCount && k == "reviewCount" then Some(JInt(n))
      else None
  {
    var count: Fields := if hasCount then [("reviewCount", JInt(n))] else [];
    var value: Fields := if hasValue then [("ratingValue", JReal(v)), ("bestRating", JInt(5)), ("worstRating", JInt(0))] else [];
    GetCons(("@type", JString("AggregateRating")), value + count, k);
    if hasValue {
      assert value + count == [("ratingValue", JReal(v))] + ([("bestRating", JInt(5))] + ([("worstRating", JInt(0))] + count));
      GetCons(("ratingValue", JReal(v)), [("bestRating", JInt(5))] + ([("worstRating", JInt(0))] + count), k);
      GetCons(("bestRating", JInt(5)), [("worstRating", JInt(0))] + count, k);
      GetCons(("worstRating", JInt(0)), count, k);
    } else {
      assert value + count == count;
    }
    if hasCount {
      GetCons(("reviewCount", JInt(n)), [], k);
      assert [("reviewCount", JInt(n))] + [] == count;
    }
  }

  lemma GetCons(p: (string, Json), rest: Fields, k: string)
    ensures Get([p] + rest, k) == if p.0 == k then Some(p.1) else Get(rest, k)
  {
    assert ([p] + rest)[1..] == rest;
  }

  /**
   * The rating object carries ratingValue with bestRating 5 and worstRating 0
   * exactly when the rating value is accepted, and reviewCount exactly when the
   * review count is accepted.
   */
  lemma RatingContents(a: Attrs)
    requires RatingObject(a).Some?
    ensures UniqueKeys(RatingObject(a).value.fields)
    ensures Get(RatingObject(a).value.fields, "ratingValue") ==
      if RatingValueAccepted(a) then Some(JReal(ToFloat(RawRating(a)))) else None
    ensures Get(RatingObject(a).value.fields, "bestRating") == if RatingValueAccepted(a) then Some(JInt(5)) else None
    ensures Get(RatingObject(a).value.fields, "worstRating") == if RatingValueAccepted(a) then Some(JInt(0)) else None
    ensures Get(RatingObject(a).value.fields, "reviewCount") ==
      if ReviewCountAccepted(a) then Some(JInt(ToInt(RawReviewCount(a)))) else None
  {
    var v := if RatingValueAccepted(a) then ToFloat(RawRating(a)) else 0.0;
    var n := if ReviewCountAccepted(a) then ToInt(RawReviewCount(a)) else 0;
    RatingLookup(RatingValueAccepted(a), v, ReviewCountAccepted(a), n, RatingObject(a).value.fields);
  }

  /**
   * A review count is accepted exactly when it is numeric and at least one;
   * the published count is then the whole number of reviews, truncating any fraction.
   */
  lemma ReviewCountWholeReviews(a: Attrs)
    ensures ReviewCountAccepted(a) <==>
      RawReviewCount(a) != "" && IsNumeric(RawReviewCount(a)) && ToFloat(RawReviewCount(a)) >= 1.0
    ensures ReviewCountAccepted(a) ==>
      1 <= ToInt(RawReviewCount(a))
      && ToInt(RawReviewCount(a)) as real <= ToFloat(RawReviewCount(a)) < ToInt(RawReviewCount(a)) as real + 1.0
  {
    var rc := RawReviewCount(a);
    if rc != "" && IsNumeric(rc) {
      IntegerPartTruncates(rc);
    }
  }

  /** When every trimmed piece survives, sameAs is that one URL, or an array of all URLs in order. */
  lemma SameAsClean(urls: seq<string>)
    requires forall i :: 0 <= i < |urls| ==> !Falsy(urls[i])
    ensures SameAsOfPieces(urls) ==
      if |urls| == 1 then JString(urls[0])
      else JArray(seq(|urls|, i requires 0 <= i < |urls| => JString(urls[i])))
  {
    FilterFalsyKeepsAll(urls);
    var kept := FilterFalsy(urls);
    var entries := UrlEntries(kept);
    assert IsList(entries);
    if |urls| != 1 {
      assert seq(|entries|, j requires 0 <= j < |entries| => entries[j].1)
        == seq(|urls|, i requires 0 <= i < |urls| => JString(urls[i]));
    }
  }

  /** A sameAs value made only of commas and blanks is published as an empty array. */
  lemma SameAsBlank(urls: seq<string>)
    requires forall i :: 0 <= i < |urls| ==> Falsy(urls[i])
    ensures SameAsOfPieces(urls) == JArray([])
  {
    FilterFalsyDropsAll(urls);
  }

  /**
   * A single surviving URL that was not the first piece is looked up as
   * $urls[0], which array_filter has removed: sameAs is published as null.
   */
  lemma SameAsLoneLaterSurvivor(urls: seq<string>, i: nat)
    requires 0 < i < |urls| && !Falsy(urls[i])
    requires forall j :: 0 <= j < |urls| && j != i ==> Falsy(urls[j])
    ensures SameAsOfPieces(urls) == JNull
  {
    var kept := FilterFalsy(urls);
    assert (i, urls[i]) in kept;
    var j0 :| 0 <= j0 < |kept| && kept[j0] == (i, urls[i]);
    forall j | 0 <= j < |kept|
      ensures kept[j].0 == i
    {
      assert !Falsy(urls[kept[j].0]);
    }
    assert kept[0].0 == i;
    FirstKeysIncrease(kept);
    assert |kept| == 1;
  }

  /** Under strictly increasing keys the second entry's key exceeds the first's. */
  lemma FirstKeysIncrease(kept: seq<(nat, string)>)
    requires forall j, l :: 0 <= j < l < |kept| ==> kept[j].0 < kept[l].0
    ensures |kept| >= 2 ==> kept[0].0 < kept[1].0
  {
  }

  /**
   * The shape sameAs takes for any list of pieces. A lone survivor is
   * published as its string only when it is the first piece, and as null
   * otherwise. With no survivor or several, array_filter's keys decide:
   * sameAs is a JSON array exactly when no blank piece precedes a surviving
   * one, and otherwise a JSON object keyed by the survivors' original positions.
   */
  lemma SameAsShape(urls: seq<string>)
    ensures |FilterFalsy(urls)| == 1 ==>
      SameAsOfPieces(urls) == if !Falsy(urls[0]) then JString(urls[0]) else JNull
    ensures |FilterFalsy(urls)| != 1 ==>
      (SameAsOfPieces(urls).JArray? <==> NoBlankBeforeKept(urls))
    ensures |FilterFalsy(urls)| != 1 ==>
      (SameAsOfPieces(urls).JObject? <==> !NoBlankBeforeKept(urls))
  {
    var kept := FilterFalsy(urls);
    if |kept| == 1 {
      if !Falsy(urls[0]) {
        assert (0, urls[0]) in kept;
      }
    } else {
      FilterFalsyIsList(urls);
      var entries := UrlEntries(kept);
      assert IsList(entries) <==> IsList(kept);
    }
  }
}
