/**
 * The item assembly as the code performs it: an array built key by key, with
 * one helper per group assigning into it by reference. Each helper is proved
 * to perform exactly its group's assignments, and the whole build is proved
 * to arrive at the final shape ItemSpec.Item.
 */
module ItemBuilder {
  import opened Wrappers
  import opened JsonValue
  import opened Php
  import opened ItemSpec

  /** Platform: "@type" becomes "Thing" in its slot, then subtitle, images, alternate name and sameAs. */
  method AddPlatformSchema(item: Fields, a: Attrs) returns (r: Fields)
    ensures r == PutAll(item, [("@type", JString("Thing"))] + PlatformFields(a))
    ensures Get(r, "@type") == Some(JString("Thing"))
    ensures forall k :: k !in PlatformKeys ==> Get(r, k) == Get(item, k)
  {
    r := Put(item, "@type", JString("Thing"));
    ghost var r0 := r;
    if !Empty(a, "subtitle") {
      r := Put(r, "disambiguatingDescription", JString(a["subtitle"]));
    }
    PutOptional(r0, CopyIfSet(a, "subtitle", "disambiguatingDescription"));
    ghost var r1 := r;
    var images: seq<string> := [];
    if !Empty(a, "heroImageUrl") {
      images := images + [a["heroImageUrl"]];
    }
    if !Empty(a, "imageUrl") {
      images := images + [a["imageUrl"]];
    }
    assert images == PlatformImages(a);
    if |images| > 0 {
      var image := if |images| == 1 then JString(images[0])
        else JArray(seq(|images|, i requires 0 <= i < |images| => JString(images[i])));
      assert |images| == 2 ==> image == JArray([JString(images[0]), JString(images[1])]);
      r := Put(r, "image", image);
    }
    PutOptional(r1, PlatformImage(a));
    ghost var r2 := r;
    if !Empty(a, "alternateName") {
      r := Put(r, "alternateName", JString(a["alternateName"]));
    }
    PutOptional(r2, CopyIfSet(a, "alternateName", "alternateName"));
    ghost var r3 := r;
    if !Empty(a, "sameAs") {
      r := Put(r, "sameAs", SameAsValue(a["sameAs"]));
    }
    PutOptional(r3, SameAsFields(a));
    PlatformSteps(item, a);
    PlatformKeeps(item, a);
  }

  /** An assignment made only when its entry exists: doing it or not is PutAll over the optional entry. */
  lemma PutOptional(o: Fields, seg: Fields)
    requires |seg| <= 1
    ensures PutAll(o, seg) == if seg == [] then o else Put(o, seg[0].0, seg[0].1)
  {
    if seg != [] {
      assert seg[..0] == [];
    }
  }

  lemma PlatformSteps(item: Fields, a: Attrs)
    ensures PutAll(PutAll(PutAll(PutAll(Put(item, "@type", JString("Thing")),
        CopyIfSet(a, "subtitle", "disambiguatingDescription")), PlatformImage(a)),
        CopyIfSet(a, "alternateName", "alternateName")), SameAsFields(a))
      == PutAll(item, [("@type", JString("Thing"))] + PlatformFields(a))
  {
    var t := [("@type", JString("Thing"))];
    PutOptional(item, t);
    var s1 := CopyIfSet(a, "subtitle", "disambiguatingDescription");
    var s2 := PlatformImage(a);
    var s3 := CopyIfSet(a, "alternateName", "alternateName");
    var s4 := SameAsFields(a);
    PutAllChain(item, t, s1, s2, s3, s4);
    assert PlatformFields(a) == s1 + (s2 + (s3 + s4));
  }

  /** Five runs of assignments performed one after another are their concatenation performed at once. */
  lemma PutAllChain(o: Fields, s0: Fields, s1: Fields, s2: Fields, s3: Fields, s4: Fields)
    ensures PutAll(PutAll(PutAll(PutAll(PutAll(o, s0), s1), s2), s3), s4) == PutAll(o, s0 + (s1 + (s2 + (s3 + s4))))
  {
    var o1 := PutAll(o, s0);
    var o2 := PutAll(o1, s1);
    var o3 := PutAll(o2, s2);
    PutAllAppend(o3, s3, s4);
    PutAllAppend(o2, s2, s3 + s4);
    PutAllAppend(o1, s1, s2 + (s3 + s4));
    PutAllAppend(o, s0, s1 + (s2 + (s3 + s4)));
  }

  /** The keys the Platform helper may assign. */
  const PlatformKeys: set<string> := {"@type", "disambiguatingDescription", "image", "alternateName", "sameAs"}

  /** No entry of ups is under the key k. */
  predicate Avoids(ups: Fields, k: string) {
    forall i :: 0 <= i < |ups| ==> ups[i].0 != k
  }

  lemma AvoidsConcat(x: Fields, y: Fields, k: string)
    requires Avoids(x, k) && Avoids(y, k)
    ensures Avoids(x + y, k)
  {
    forall i | 0 <= i < |x + y| ensures (x + y)[i].0 != k {
      if i < |x| {
        assert (x + y)[i] == x[i];
      } else {
        assert (x + y)[i] == y[i - |x|];
      }
    }
  }

  /** A segment of at most one entry under another key avoids k. */
  lemma OptionalAvoids(o: Fields, key: string, k: string)
    requires AtMostOneUnder(o, key) && key != k
    ensures Avoids(o, k)
  {
  }

  /** Four optional segments under keys other than k avoid k together. */
  lemma FourAvoid(s1: Fields, k1: string, s2: Fields, k2: string, s3: Fields, k3: string, s4: Fields, k4: string, k: string)
    requires AtMostOneUnder(s1, k1) && AtMostOneUnder(s2, k2) && AtMostOneUnder(s3, k3) && AtMostOneUnder(s4, k4)
    requires k != k1 && k != k2 && k != k3 && k != k4
    ensures Avoids(s1 + s2 + s3 + s4, k)
  {
    OptionalAvoids(s1, k1, k);
    OptionalAvoids(s2, k2, k);
    OptionalAvoids(s3, k3, k);
    OptionalAvoids(s4, k4, k);
    AvoidsConcat(s1, s2, k);
    AvoidsConcat(s1 + s2, s3, k);
    AvoidsConcat(s1 + s2 + s3, s4, k);
  }

  /** The platform fields never assign a key outside the Platform helper's keys. */
  lemma PlatformAvoids(a: Attrs, k: string)
    requires k != "disambiguatingDescription" && k != "image" && k != "alternateName" && k != "sameAs"
    ensures Avoids(PlatformFields(a), k)
  {
    PlatformSegments(a);
    FourAvoid(CopyIfSet(a, "subtitle", "disambiguatingDescription"), "disambiguatingDescription",
      PlatformImage(a), "image", CopyIfSet(a, "alternateName", "alternateName"), "alternateName",
      SameAsFields(a), "sameAs", k);
  }

  lemma PlatformKeeps(item: Fields, a: Attrs)
    ensures Get(PutAll(item, [("@type", JString("Thing"))] + PlatformFields(a)), "@type") == Some(JString("Thing"))
    ensures forall k :: k !in PlatformKeys ==>
      Get(PutAll(item, [("@type", JString("Thing"))] + PlatformFields(a)), k) == Get(item, k)
  {
    var head := [("@type", JString("Thing"))];
    var rest := PlatformFields(a);
    var r0 := Put(item, "@type", JString("Thing"));
    PutAllAppend(item, head, rest);
    PutOptional(item, head);
    PutGet(item, "@type", JString("Thing"));
    PlatformAvoids(a, "@type");
    PutAllGetOther(r0, rest, "@type");
    forall k | k !in PlatformKeys
      ensures Get(PutAll(item, head + rest), k) == Get(item, k)
    {
      PlatformAvoids(a, k);
      PutAllGetOther(r0, rest, k);
      PutGetOther(item, "@type", JString("Thing"), k);
    }
  }

  /** Product and SoftwareApplication: an Offer for a numeric, non-empty price; nothing else changes. */
  method AddProductSchema(item: Fields, a: Attrs) returns (r: Fields)
    ensures r == PutAll(item, OfferFields(a))
    ensures forall k :: k != "offers" ==> Get(r, k) == Get(item, k)
  {
    r := item;
    if !Empty(a, "price") && IsNumeric(a["price"]) {
      var offer := JObject([
        ("@type", JString("Offer")),
        ("price", JReal(ToFloat(a["price"]))),
        ("priceCurrency", JString(Coalesce(a, "currency", "GBP")))]);
      r := Put(r, "offers", offer);
    }
    PutOptional(item, OfferFields(a));
    OptionalKeeps(item, OfferFields(a), "offers");
  }

  /** Place, LocalBusiness and Restaurant: a PostalAddress and a telephone when set; nothing else changes. */
  method AddPlaceSchema(item: Fields, a: Attrs) returns (r: Fields)
    ensures r == PutAll(item, AddressFields(a) + CopyIfSet(a, "telephone", "telephone"))
    ensures forall k :: k != "address" && k != "telephone" ==> Get(r, k) == Get(item, k)
  {
    r := item;
    if !Empty(a, "address") {
      var address := JObject([("@type", JString("PostalAddress")), ("streetAddress", JString(a["address"]))]);
      r := Put(r, "address", address);
    }
    PutOptional(item, AddressFields(a));
    ghost var r1 := r;
    if !Empty(a, "telephone") {
      r := Put(r, "telephone", JString(a["telephone"]));
    }
    PutOptional(r1, CopyIfSet(a, "telephone", "telephone"));
    PutAllAppend(item, AddressFields(a), CopyIfSet(a, "telephone", "telephone"));
    OptionalPairKeeps(item, AddressFields(a), "address", CopyIfSet(a, "telephone", "telephone"), "telephone");
  }

  /** Book, Movie and CreativeWork: a Person author and a publication date when set; nothing else changes. */
  method AddCreativeSchema(item: Fields, a: Attrs) returns (r: Fields)
    ensures r == PutAll(item, AuthorFields(a) + CopyIfSet(a, "datePublished", "datePublished"))
    ensures forall k :: k != "author" && k != "datePublished" ==> Get(r, k) == Get(item, k)
  {
    r := item;
    if !Empty(a, "author") {
      var author := JObject([("@type", JString("Person")), ("name", JString(a["author"]))]);
      r := Put(r, "author", author);
    }
    PutOptional(item, AuthorFields(a));
    ghost var r1 := r;
    if !Empty(a, "datePublished") {
      r := Put(r, "datePublished", JString(a["datePublished"]));
    }
    PutOptional(r1, CopyIfSet(a, "datePublished", "datePublished"));
    PutAllAppend(item, AuthorFields(a), CopyIfSet(a, "datePublished", "datePublished"));
    OptionalPairKeeps(item, AuthorFields(a), "author", CopyIfSet(a, "datePublished", "datePublished"), "datePublished");
  }

  /** Two optional assignments under the keys kx and ky leave every other key as it was. */
  lemma OptionalPairKeeps(o: Fields, x: Fields, kx: string, y: Fields, ky: string)
    requires AtMostOneUnder(x, kx) && AtMostOneUnder(y, ky)
    ensures forall k :: k != kx && k != ky ==> Get(PutAll(o, x + y), k) == Get(o, k)
  {
    forall k | k != kx && k != ky ensures Get(PutAll(o, x + y), k) == Get(o, k) {
      OptionalAvoids(x, kx, k);
      OptionalAvoids(y, ky, k);
      AvoidsConcat(x, y, k);
      PutAllGetOther(o, x + y, k);
    }
  }

  /** The image assignment of the podcast helper: the hero image always wins, the logo only fills an empty() slot. */
  function PodcastImageUpdate(item: Fields, a: Attrs): Fields {
    if !Empty(a, "heroImageUrl") then [("image", JString(a["heroImageUrl"]))]
    else if !Empty(a, "imageUrl") && JsonEmpty(Get(item, "image")) then [("image", JString(a["imageUrl"]))]
    else []
  }

  /** The publication date, assigned only for an episode. */
  function EpisodeDateUpdate(a: Attrs, t: string): Fields {
    if t == "PodcastEpisode" then CopyIfSet(a, "datePublished", "datePublished") else []
  }

  /** All assignments of the podcast helper, in order. */
  function PodcastUpdates(item: Fields, a: Attrs, t: string): Fields {
    PodcastImageUpdate(item, a) + AuthorFields(a) + EpisodeDateUpdate(a, t)
  }

  /** PodcastSeries and PodcastEpisode: cover image, host and, for an episode, publication date. */
  method AddPodcastSchema(item: Fields, a: Attrs, t: string) returns (r: Fields)
    ensures r == PutAll(item, PodcastUpdates(item, a, t))
    ensures Get(r, "image") ==
      if !Empty(a, "heroImageUrl") then Some(JString(a["heroImageUrl"]))
      else if !Empty(a, "imageUrl") && JsonEmpty(Get(item, "image")) then Some(JString(a["imageUrl"]))
      else Get(item, "image")
    ensures t != "PodcastEpisode" ==> Get(r, "datePublished") == Get(item, "datePublished")
    ensures forall k :: k !in PodcastKeys ==> Get(r, k) == Get(item, k)
  {
    r := item;
    if !Empty(a, "heroImageUrl") {
      r := Put(r, "image", JString(a["heroImageUrl"]));
    } else if !Empty(a, "imageUrl") && JsonEmpty(Get(r, "image")) {
      r := Put(r, "image", JString(a["imageUrl"]));
    }
    PutOptional(item, PodcastImageUpdate(item, a));
    ghost var r1 := r;
    if !Empty(a, "author") {
      r := Put(r, "author", JObject([("@type", JString("Person")), ("name", JString(a["author"]))]));
    }
    PutOptional(r1, AuthorFields(a));
    ghost var r2 := r;
    if t == "PodcastEpisode" && !Empty(a, "datePublished") {
      r := Put(r, "datePublished", JString(a["datePublished"]));
    }
    PutOptional(r2, EpisodeDateUpdate(a, t));
    PodcastSteps(item, a, t);
    PodcastKeeps(item, a, t);
  }

  /** The keys the podcast helper may assign. */
  const PodcastKeys: set<string> := {"image", "author", "datePublished"}

  lemma PodcastSteps(item: Fields, a: Attrs, t: string)
    ensures PutAll(PutAll(PutAll(item, PodcastImageUpdate(item, a)), AuthorFields(a)), EpisodeDateUpdate(a, t))
      == PutAll(item, PodcastUpdates(item, a, t))
  {
    PutAllAppend(item, PodcastImageUpdate(item, a), AuthorFields(a));
    PutAllAppend(item, PodcastImageUpdate(item, a) + AuthorFields(a), EpisodeDateUpdate(a, t));
  }

  lemma PodcastKeeps(item: Fields, a: Attrs, t: string)
    ensures Get(PutAll(item, PodcastUpdates(item, a, t)), "image") ==
      if !Empty(a, "heroImageUrl") then Some(JString(a["heroImageUrl"]))
      else if !Empty(a, "imageUrl") && JsonEmpty(Get(item, "image")) then Some(JString(a["imageUrl"]))
      else Get(item, "image")
    ensures t != "PodcastEpisode" ==> Get(PutAll(item, PodcastUpdates(item, a, t)), "datePublished") == Get(item, "datePublished")
    ensures forall k :: k !in PodcastKeys ==> Get(PutAll(item, PodcastUpdates(item, a, t)), k) == Get(item, k)
  {
    PodcastImageKept(item, a, t);
    PodcastOthersKept(item, a, t);
    if t != "PodcastEpisode" {
      PodcastSeriesDate(item, a, t);
    }
  }

  lemma PodcastImageKept(item: Fields, a: Attrs, t: string)
    ensures Get(PutAll(item, PodcastUpdates(item, a, t)), "image") ==
      if PodcastImageUpdate(item, a) == [] then Get(item, "image") else Some(PodcastImageUpdate(item, a)[0].1)
  {
    var s1 := PodcastImageUpdate(item, a);
    var tail := AuthorFields(a) + EpisodeDateUpdate(a, t);
    assert PodcastUpdates(item, a, t) == s1 + tail;
    assert AtMostOneUnder(s1, "image");
    PodcastTailAvoids(a, t);
    ImageThenTail(item, s1, tail);
  }

  /** Author and date never touch "image". */
  lemma PodcastTailAvoids(a: Attrs, t: string)
    ensures Avoids(AuthorFields(a) + EpisodeDateUpdate(a, t), "image")
  {
    OptionalAvoids(AuthorFields(a), "author", "image");
    OptionalAvoids(EpisodeDateUpdate(a, t), "datePublished", "image");
    AvoidsConcat(AuthorFields(a), EpisodeDateUpdate(a, t), "image");
  }

  /** An optional image assignment followed by assignments that avoid "image" decides the image. */
  lemma ImageThenTail(item: Fields, s1: Fields, tail: Fields)
    requires AtMostOneUnder(s1, "image") && Avoids(tail, "image")
    ensures Get(PutAll(item, s1 + tail), "image") == if s1 == [] then Get(item, "image") else Some(s1[0].1)
  {
    PutAllAppend(item, s1, tail);
    PutOptional(item, s1);
    if s1 != [] {
      PutGet(item, "image", s1[0].1);
    }
    PutAllGetOther(PutAll(item, s1), tail, "image");
  }

  lemma PodcastOthersKept(item: Fields, a: Attrs, t: string)
    ensures forall k :: k !in PodcastKeys ==> Get(PutAll(item, PodcastUpdates(item, a, t)), k) == Get(item, k)
  {
    var s1 := PodcastImageUpdate(item, a);
    forall k | k !in PodcastKeys ensures Get(PutAll(item, PodcastUpdates(item, a, t)), k) == Get(item, k) {
      OptionalAvoids(s1, "image", k);
      OptionalAvoids(AuthorFields(a), "author", k);
      OptionalAvoids(EpisodeDateUpdate(a, t), "datePublished", k);
      AvoidsConcat(s1, AuthorFields(a), k);
      AvoidsConcat(s1 + AuthorFields(a), EpisodeDateUpdate(a, t), k);
      PutAllGetOther(item, PodcastUpdates(item, a, t), k);
    }
  }

  lemma PodcastSeriesDate(item: Fields, a: Attrs, t: string)
    requires t != "PodcastEpisode"
    ensures Get(PutAll(item, PodcastUpdates(item, a, t)), "datePublished") == Get(item, "datePublished")
  {
    var s1 := PodcastImageUpdate(item, a);
    assert EpisodeDateUpdate(a, t) == [];
    assert PodcastUpdates(item, a, t) == s1 + AuthorFields(a);
    OptionalAvoids(s1, "image", "datePublished");
    OptionalAvoids(AuthorFields(a), "author", "datePublished");
    AvoidsConcat(s1, AuthorFields(a), "datePublished");
    PutAllGetOther(item, s1 + AuthorFields(a), "datePublished");
  }

  /** The aggregate rating: attached only when the rating value or the review count survives its checks. */
  method AddRating(item: Fields, a: Attrs) returns (r: Fields)
    ensures r == PutAll(item, RatingFields(a))
    ensures forall k :: k != "aggregateRating" ==> Get(r, k) == Get(item, k)
  {
    r := item;
    var ratingValue := Coalesce(a, "ratingValue", "");
    var reviewCount := Coalesce(a, "reviewCount", "");
    if ratingValue == "" && reviewCount == "" {
      return;
    }
    var rating, v, n := RatingArray(a);
    RatingAssembled(a, v, n, rating);
    if Get(rating, "ratingValue").Some? || Get(rating, "reviewCount").Some? {
      r := Put(r, "aggregateRating", JObject(rating));
    }
    PutOptional(item, RatingFields(a));
    RatingFieldsShape(a);
    OptionalKeeps(item, RatingFields(a), "aggregateRating");
  }

  /**
   * The rating array the helper assembles before deciding to attach it: the
   * type, then the accepted rating value with its bounds, then the accepted
   * review count.
   */
  method RatingArray(a: Attrs) returns (rating: Fields, v: real, n: int)
    ensures RatingValueAccepted(a) ==> v == ToFloat(RawRating(a))
    ensures ReviewCountAccepted(a) ==> n == ToInt(RawReviewCount(a))
    ensures rating == [("@type", JString("AggregateRating"))]
      + (if RatingValueAccepted(a) then [("ratingValue", JReal(v)), ("bestRating", JInt(5)), ("worstRating", JInt(0))] else [])
      + (if ReviewCountAccepted(a) then [("reviewCount", JInt(n))] else [])
  {
    var ratingValue := Coalesce(a, "ratingValue", "");
    var reviewCount := Coalesce(a, "reviewCount", "");
    rating := [("@type", JString("AggregateRating"))];
    ghost var base := rating;
    v, n := 0.0, 0;
    ghost var valuePart: Fields := [];
    ghost var countPart: Fields := [];
    if ratingValue != "" && IsNumeric(ratingValue) {
      var ratingFloat := ToFloat(ratingValue);
      if ratingFloat >= 0.0 && ratingFloat <= 5.0 {
        ValuePuts(ratingFloat);
        rating := Put(rating, "ratingValue", JReal(ratingFloat));
        rating := Put(rating, "bestRating", JInt(5));
        rating := Put(rating, "worstRating", JInt(0));
        v := ratingFloat;
        valuePart := [("ratingValue", JReal(v)), ("bestRating", JInt(5)), ("worstRating", JInt(0))];
      }
    }
    assert rating == base + valuePart;
    assert valuePart == if RatingValueAccepted(a) then [("ratingValue", JReal(v)), ("bestRating", JInt(5)), ("worstRating", JInt(0))] else [];
    if reviewCount != "" && IsNumeric(reviewCount) {
      var count := ToInt(reviewCount);
      if count > 0 {
        CountPut(rating, v, count);
        rating := Put(rating, "reviewCount", JInt(count));
        n := count;
        countPart := [("reviewCount", JInt(n))];
      }
    }
    assert countPart == if ReviewCountAccepted(a) then [("reviewCount", JInt(n))] else [];
    assert rating == base + valuePart + countPart;
  }

  /** The rating helper assigns at most "aggregateRating". */
  lemma RatingFieldsShape(a: Attrs)
    ensures AtMostOneUnder(RatingFields(a), "aggregateRating")
  {
  }

  /** One optional assignment under kx leaves every other key as it was. */
  lemma OptionalKeeps(o: Fields, x: Fields, kx: string)
    requires AtMostOneUnder(x, kx)
    ensures forall k :: k != kx ==> Get(PutAll(o, x), k) == Get(o, k)
  {
    forall k | k != kx ensures Get(PutAll(o, x), k) == Get(o, k) {
      OptionalAvoids(x, kx, k);
      PutAllGetOther(o, x, k);
    }
  }

  /** The three assignments of an accepted rating value append their keys in order. */
  lemma ValuePuts(v: real)
    ensures Put(Put(Put([("@type", JString("AggregateRating"))], "ratingValue", JReal(v)), "bestRating", JInt(5)), "worstRating", JInt(0))
      == [("@type", JString("AggregateRating")), ("ratingValue", JReal(v)), ("bestRating", JInt(5)), ("worstRating", JInt(0))]
  {
    var t := ("@type", JString("AggregateRating"));
    PutNew([t], "ratingValue", JReal(v));
    PutNew([t, ("ratingValue", JReal(v))], "bestRating", JInt(5));
    PutNew([t, ("ratingValue", JReal(v)), ("bestRating", JInt(5))], "worstRating", JInt(0));
  }

  /** The review count is a key the rating array never holds before it, so it is appended. */
  lemma CountPut(rating: Fields, v: real, n: int)
    requires rating == [("@type", JString("AggregateRating"))]
      || rating == [("@type", JString("AggregateRating")), ("ratingValue", JReal(v)), ("bestRating", JInt(5)), ("worstRating", JInt(0))]
    ensures Put(rating, "reviewCount", JInt(n)) == rating + [("reviewCount", JInt(n))]
  {
    PutNew(rating, "reviewCount", JInt(n));
  }

  /** The array the rating helper assembles is the rating object, and it is attached exactly when the object exists. */
  lemma RatingAssembled(a: Attrs, v: real, n: int, rating: Fields)
    requires RawRating(a) != "" || RawReviewCount(a) != ""
    requires RatingValueAccepted(a) ==> v == ToFloat(RawRating(a))
    requires ReviewCountAccepted(a) ==> n == ToInt(RawReviewCount(a))
    requires rating == [("@type", JString("AggregateRating"))]
      + (if RatingValueAccepted(a) then [("ratingValue", JReal(v)), ("bestRating", JInt(5)), ("worstRating", JInt(0))] else [])
      + (if ReviewCountAccepted(a) then [("reviewCount", JInt(n))] else [])
    ensures (Get(rating, "ratingValue").Some? || Get(rating, "reviewCount").Some?) <==> RatingObject(a).Some?
    ensures RatingObject(a).Some? ==> RatingObject(a) == Some(JObject(rating))
  {
    RatingLookup(RatingValueAccepted(a), v, ReviewCountAccepted(a), n, rating);
  }

  /** Assigning a key no entry carries appends it. */
  lemma PutNew(o: Fields, k: string, v: Json)
    requires forall i :: 0 <= i < |o| ==> o[i].0 != k
    ensures Put(o, k, v) == o + [(k, v)]
  {
    KeysAt(o);
    PutFresh(o, k, v);
  }

  // ---- One item, built as the orchestrator builds it ----

  /** The array the item starts as: the type as given (Platform not yet rewritten) and the title. */
  function Head(a: Attrs): Fields {
    [("@type", JString(SchemaType(a))), ("name", JString(Coalesce(a, "title", "")))]
  }

  /** The logo copied as the common image, for every type but Platform. */
  function CommonImage(a: Attrs): Fields {
    if SchemaType(a) == "Platform" then [] else CopyIfSet(a, "imageUrl", "image")
  }

  /** The item after the common fields, before the group helper runs. */
  function CommonFields(a: Attrs): Fields {
    Head(a) + CopyIfSet(a, "description", "description") + CopyIfSet(a, "url", "url") + CommonImage(a)
  }

  /**
   * Builds one record's schema.org object: the common fields, the group
   * helper chosen by the type, then the rating. The result is exactly the
   * final shape Item(a), so every property proved about Item holds for it.
   */
  method BuildItem(a: Attrs) returns (item: Fields)
    ensures item == Item(a)
  {
    var schemaType := Coalesce(a, "schemaType", "Product");
    var title := Coalesce(a, "title", "");
    item := [("@type", JString(schemaType)), ("name", JString(title))];
    ghost var i0 := item;
    if !Empty(a, "description") {
      item := Put(item, "description", JString(a["description"]));
    }
    PutOptional(i0, CopyIfSet(a, "description", "description"));
    ghost var i1 := item;
    if !Empty(a, "url") {
      item := Put(item, "url", JString(a["url"]));
    }
    PutOptional(i1, CopyIfSet(a, "url", "url"));
    ghost var i2 := item;
    if !Empty(a, "imageUrl") && schemaType != "Platform" {
      item := Put(item, "image", JString(a["imageUrl"]));
    }
    PutOptional(i2, CommonImage(a));
    CommonAssembled(a);
    if schemaType == "Platform" {
      item := AddPlatformSchema(item, a);
      PlatformAssembled(a);
    } else if IsProductType(schemaType) {
      item := AddProductSchema(item, a);
      GroupAssembled(a);
    } else if IsPlaceType(schemaType) {
      item := AddPlaceSchema(item, a);
      GroupAssembled(a);
    } else if IsCreativeType(schemaType) {
      item := AddCreativeSchema(item, a);
      GroupAssembled(a);
    } else if IsPodcastType(schemaType) {
      item := AddPodcastSchema(item, a, schemaType);
      PodcastAssembled(a);
    } else {
      GroupAssembled(a);
    }
    assert item == ItemPrefix(a) + TypeFields(a);
    item := AddRating(item, a);
    RatingAttached(a);
  }

  lemma CommonAssembled(a: Attrs)
    ensures PutAll(PutAll(PutAll(Head(a), CopyIfSet(a, "description", "description")),
        CopyIfSet(a, "url", "url")), CommonImage(a)) == CommonFields(a)
  {
    var d := CopyIfSet(a, "description", "description");
    var u := CopyIfSet(a, "url", "url");
    var m := CommonImage(a);
    PutAllAppend(Head(a), d, u);
    PutAllAppend(Head(a), d + u, m);
    CommonUnique(a);
    PutAllFresh(Head(a), d + u + m);
    assert Head(a) + (d + u + m) == CommonFields(a);
  }

  lemma CommonUnique(a: Attrs)
    ensures UniqueKeys(Head(a) + (CopyIfSet(a, "description", "description") + CopyIfSet(a, "url", "url") + CommonImage(a)))
  {
    var d := CopyIfSet(a, "description", "description");
    var u := CopyIfSet(a, "url", "url");
    var m := CommonImage(a);
    assert RanksWithin(Head(a), 0, 2);
    OptionalRank(d, "description", 2);
    OptionalRank(u, "url", 3);
    OptionalRank(m, "image", 5);
    RanksConcat(d, u, 2, 3, 4);
    RanksConcat(d + u, m, 2, 4, 6);
    RanksConcat(Head(a), d + u + m, 0, 2, 6);
    RanksUnique(Head(a) + (d + u + m), 0, 6);
  }

  /** Outside Platform the common fields are the item's prefix followed by the logo image. */
  lemma CommonIsPrefix(a: Attrs)
    requires SchemaType(a) != "Platform"
    ensures CommonFields(a) == ItemPrefix(a) + CopyIfSet(a, "imageUrl", "image")
  {
  }

  /** The item's prefix and type-specific fields never share a key. */
  lemma PrefixTypeUnique(a: Attrs)
    ensures UniqueKeys(ItemPrefix(a) + TypeFields(a))
  {
    ItemPrefixRanks(a);
    TypeFieldsRanks(a);
    RanksConcat(ItemPrefix(a), TypeFields(a), 0, 4, 13);
    RanksUnique(ItemPrefix(a) + TypeFields(a), 0, 13);
  }

  /** Product, place, creative and ungrouped types: the group's assignments complete the type-specific fields. */
  lemma GroupAssembled(a: Attrs)
    requires SchemaType(a) != "Platform" && !IsPodcastType(SchemaType(a))
    ensures PutAll(CommonFields(a), GroupFields(a)) == ItemPrefix(a) + TypeFields(a)
  {
    var m := CopyIfSet(a, "imageUrl", "image");
    CommonIsPrefix(a);
    assert TypeFields(a) == m + GroupFields(a);
    PrefixTypeUnique(a);
    FreshAfter(ItemPrefix(a), m, GroupFields(a));
  }

  /** Assigning fresh keys after p + m appends them. */
  lemma FreshAfter(p: Fields, m: Fields, g: Fields)
    requires UniqueKeys(p + (m + g))
    ensures PutAll(p + m, g) == p + (m + g)
  {
    assert p + m + g == p + (m + g);
    PutAllFresh(p + m, g);
  }

  /** Platform: rewriting "@type" in its slot and appending the platform fields completes the type-specific fields. */
  lemma PlatformAssembled(a: Attrs)
    requires SchemaType(a) == "Platform"
    ensures PutAll(CommonFields(a), [("@type", JString("Thing"))] + PlatformFields(a)) == ItemPrefix(a) + TypeFields(a)
  {
    var rest := [("name", JString(Coalesce(a, "title", "")))]
      + CopyIfSet(a, "description", "description") + CopyIfSet(a, "url", "url");
    assert CommonFields(a) == [("@type", JString("Platform"))] + rest;
    assert ItemPrefix(a) == [("@type", JString("Thing"))] + rest;
    PrefixTypeUnique(a);
    RetypeThenAppend(rest, JString("Platform"), JString("Thing"), PlatformFields(a));
  }

  /** Rewriting the leading "@type" keeps its slot; fresh keys assigned after it are appended. */
  lemma RetypeThenAppend(rest: Fields, w: Json, v: Json, tail: Fields)
    requires UniqueKeys([("@type", v)] + rest + tail)
    ensures PutAll([("@type", w)] + rest, [("@type", v)] + tail) == [("@type", v)] + rest + tail
  {
    var o := [("@type", w)] + rest;
    PutAllAppend(o, [("@type", v)], tail);
    PutOptional(o, [("@type", v)]);
    PutInSlot([], "@type", w, rest, v);
    assert [] + [("@type", w)] + rest == o;
    assert [] + [("@type", v)] + rest == [("@type", v)] + rest;
    PutAllFresh([("@type", v)] + rest, tail);
  }

  /** Podcast: the image rule yields the podcast image, and author and date are appended after it. */
  lemma PodcastAssembled(a: Attrs)
    requires IsPodcastType(SchemaType(a))
    ensures PutAll(CommonFields(a), PodcastUpdates(CommonFields(a), a, SchemaType(a))) == ItemPrefix(a) + TypeFields(a)
  {
    var c := CommonFields(a);
    var img := PodcastImageUpdate(c, a);
    var tail := AuthorFields(a) + EpisodeDateUpdate(a, SchemaType(a));
    assert PodcastUpdates(c, a, SchemaType(a)) == img + tail;
    assert tail == PodcastFields(a);
    assert TypeFields(a) == PodcastImage(a) + tail;
    PodcastImageAssembled(a);
    PrefixTypeUnique(a);
    AppendAfter(c, img, ItemPrefix(a), PodcastImage(a), tail);
  }

  /** When the run u turns o into p + m, fresh keys assigned after it are appended. */
  lemma AppendAfter(o: Fields, u: Fields, p: Fields, m: Fields, tail: Fields)
    requires PutAll(o, u) == p + m
    requires UniqueKeys(p + (m + tail))
    ensures PutAll(o, u + tail) == p + (m + tail)
  {
    PutAllAppend(o, u, tail);
    FreshAfter(p, m, tail);
  }

  lemma PodcastImageAssembled(a: Attrs)
    requires IsPodcastType(SchemaType(a))
    ensures PutAll(CommonFields(a), PodcastImageUpdate(CommonFields(a), a)) == ItemPrefix(a) + PodcastImage(a)
  {
    var p := ItemPrefix(a);
    var m := CopyIfSet(a, "imageUrl", "image");
    CommonIsPrefix(a);
    ItemPrefixRanks(a);
    KeysAt(p);
    assert "image" !in Keys(p);
    var up := PodcastImageUpdate(CommonFields(a), a);
    PutOptional(CommonFields(a), up);
    if !Empty(a, "heroImageUrl") {
      if m == [] {
        assert p + m == p;
        PutFresh(p, "image", JString(a["heroImageUrl"]));
      } else {
        PutInSlot(p, "image", JString(a["imageUrl"]), [], JString(a["heroImageUrl"]));
        assert p + m == p + [("image", JString(a["imageUrl"]))] + [];
      }
    } else if m != [] {
      GetAppend(p, m, "image");
    }
  }

  /** The rating helper appends "aggregateRating" after everything else, completing the item. */
  lemma RatingAttached(a: Attrs)
    ensures PutAll(ItemPrefix(a) + TypeFields(a), RatingFields(a)) == Item(a)
  {
    ItemKeysUnique(a);
    PutAllFresh(ItemPrefix(a) + TypeFields(a), RatingFields(a));
  }
}
