/** The kit's cached integration attributes: the marketing-cloud id (`mid`),
    the audience-manager location hint (`aamlh`) and blob (`aamb`), how an
    identity-sync response updates them, and how the cloud id is looked up,
    with the fallback to what the legacy Adobe SDK persisted.

    The Kotlin and the Java kit bases differ on purpose: the Kotlin one keeps
    the first cloud id it stores, the Java one overwrites it with every
    response. Both are modelled. */
module CachedAttributes {
  import opened Nullable

  /** The integration attributes, a string-to-string map. */
  type Attributes = map<string, string>

  const MidKey := "mid"
  const RegionKey := "aamlh"
  const BlobKey := "aamb"

  /** The value stored under `key`, or null. */
  function Stored(attrs: Attributes, key: string): Option<string> {
    if key in attrs then Some(attrs[key]) else None
  }

  /** `a` and `b` hold the same value (or both none) under every key outside `keys`. */
  ghost predicate SameExcept(a: Attributes, b: Attributes, keys: set<string>) {
    forall k :: k !in keys ==> Stored(a, k) == Stored(b, k)
  }

  /** Storing one attribute: `integrationAttributes[key] = value` followed by
      saving the map. */
  function Put(attrs: Attributes, key: string, value: string): (r: Attributes)
    ensures Stored(r, key) == Some(value)
    ensures SameExcept(attrs, r, {key})
  {
    attrs[key := value]
  }

  lemma MidKeysDistinct()
    ensures MidKey != RegionKey && MidKey != BlobKey && RegionKey != BlobKey
  {
    assert MidKey[1] == 'i' && RegionKey[1] == 'a' && BlobKey[1] == 'a';
    assert RegionKey[3] == 'l' && BlobKey[3] == 'b';
  }

  // ---------------------------------------------------------------------------
  // Identity-sync responses
  // ---------------------------------------------------------------------------

  /** The fields of the JSON response the kit reads; `None` is a missing key. */
  datatype Response = Response(mid: Option<string>, region: Option<string>, blob: Option<string>)

  /** `JSONObject.optString`: the value, or "" when the key is missing. */
  function OptString(o: Option<string>): (s: string)
    ensures o.Some? ==> s == o.value
    ensures o.None? ==> s == ""
  {
    o.GetOr("")
  }

  /** The Kotlin `parseResponse`. A response without `d_mid` makes `getString`
      throw, which is caught before anything is written. Otherwise the cloud
      id is stored only if none (or an empty one) is stored yet, and the
      location hint and blob are always written, as "" when the response
      lacks them. */
  function ParseResponseFirstWrite(attrs: Attributes, resp: Response): (r: Attributes)
    ensures resp.mid.None? ==> r == attrs
    ensures resp.mid.Some? ==> Stored(r, RegionKey) == Some(OptString(resp.region))
    ensures resp.mid.Some? ==> Stored(r, BlobKey) == Some(OptString(resp.blob))
    ensures !IsEmpty(Stored(attrs, MidKey)) ==> Stored(r, MidKey) == Stored(attrs, MidKey)
    ensures resp.mid.Some? && IsEmpty(Stored(attrs, MidKey)) ==> Stored(r, MidKey) == resp.mid
    ensures SameExcept(attrs, r, {MidKey, RegionKey, BlobKey})
  {
    MidKeysDistinct();
    if resp.mid.None? then attrs
    else
      var withMid := if IsEmpty(Stored(attrs, MidKey)) then Put(attrs, MidKey, resp.mid.value) else attrs;
      Put(Put(withMid, RegionKey, OptString(resp.region)), BlobKey, OptString(resp.blob))
  }

  /** The Java `parseResponse`: the same, except that the cloud id of every
      response with `d_mid` replaces the stored one. */
  function ParseResponseOverwrite(attrs: Attributes, resp: Response): (r: Attributes)
    ensures resp.mid.None? ==> r == attrs
    ensures resp.mid.Some? ==> Stored(r, MidKey) == resp.mid
    ensures resp.mid.Some? ==> Stored(r, RegionKey) == Some(OptString(resp.region))
    ensures resp.mid.Some? ==> Stored(r, BlobKey) == Some(OptString(resp.blob))
    ensures SameExcept(attrs, r, {MidKey, RegionKey, BlobKey})
  {
    MidKeysDistinct();
    if resp.mid.None? then attrs
    else Put(Put(Put(attrs, MidKey, resp.mid.value), RegionKey, OptString(resp.region)),
             BlobKey, OptString(resp.blob))
  }

  /** The two variants differ only in the cloud id, and only once a
      non-empty one is stored. */
  lemma VariantsAgreeUntilStored(attrs: Attributes, resp: Response)
    ensures SameExcept(ParseResponseFirstWrite(attrs, resp), ParseResponseOverwrite(attrs, resp), {MidKey})
    ensures IsEmpty(Stored(attrs, MidKey))
            ==> ParseResponseFirstWrite(attrs, resp) == ParseResponseOverwrite(attrs, resp)
  {
    var a, b := ParseResponseFirstWrite(attrs, resp), ParseResponseOverwrite(attrs, resp);
    if IsEmpty(Stored(attrs, MidKey)) {
      forall k
        ensures Stored(a, k) == Stored(b, k)
      {
        MidKeysDistinct();
      }
      StoredExtensional(a, b);
    }
  }

  /** Two attribute maps that store the same thing under every key are equal. */
  lemma StoredExtensional(a: Attributes, b: Attributes)
    requires forall k :: Stored(a, k) == Stored(b, k)
    ensures a == b
  {
    assert forall k :: k in a <==> Stored(a, k).Some?;
    assert forall k :: k in b <==> Stored(b, k).Some?;
    forall k | k in a
      ensures a[k] == b[k]
    {
      assert Stored(a, k) == Stored(b, k);
    }
  }

  /** A run of responses, each parsed into the attributes the previous one left. */
  function ParseAllFirstWrite(attrs: Attributes, rs: seq<Response>): Attributes
    decreases |rs|
  {
    if |rs| == 0 then attrs else ParseAllFirstWrite(ParseResponseFirstWrite(attrs, rs[0]), rs[1..])
  }

  function ParseAllOverwrite(attrs: Attributes, rs: seq<Response>): Attributes
    decreases |rs|
  {
    if |rs| == 0 then attrs else ParseAllOverwrite(ParseResponseOverwrite(attrs, rs[0]), rs[1..])
  }

  /** The first non-empty `d_mid` among the responses. */
  function FirstCloudId(rs: seq<Response>): Option<string>
    decreases |rs|
  {
    if |rs| == 0 then None
    else if !IsEmpty(rs[0].mid) then rs[0].mid
    else FirstCloudId(rs[1..])
  }

  /** The last response that carries `d_mid` at all. */
  function LastParsed(rs: seq<Response>): Option<Response>
    decreases |rs|
  {
    if |rs| == 0 then None
    else if rs[|rs| - 1].mid.Some? then Some(rs[|rs| - 1])
    else LastParsed(rs[..|rs| - 1])
  }

  /** Kotlin: a stored non-empty cloud id survives any run of responses. */
  lemma {:induction false} StoredCloudIdKept(attrs: Attributes, rs: seq<Response>)
    requires !IsEmpty(Stored(attrs, MidKey))
    ensures Stored(ParseAllFirstWrite(attrs, rs), MidKey) == Stored(attrs, MidKey)
    decreases |rs|
  {
    if |rs| > 0 {
      StoredCloudIdKept(ParseResponseFirstWrite(attrs, rs[0]), rs[1..]);
    }
  }

  /** Kotlin: starting with no cloud id, the first non-empty one a response
      brings is the one that stays. */
  lemma {:induction false} FirstCloudIdWins(attrs: Attributes, rs: seq<Response>)
    requires IsEmpty(Stored(attrs, MidKey))
    requires FirstCloudId(rs).Some?
    ensures Stored(ParseAllFirstWrite(attrs, rs), MidKey) == FirstCloudId(rs)
    decreases |rs|
  {
    var next := ParseResponseFirstWrite(attrs, rs[0]);
    if !IsEmpty(rs[0].mid) {
      StoredCloudIdKept(next, rs[1..]);
    } else {
      assert IsEmpty(Stored(next, MidKey));
      FirstCloudIdWins(next, rs[1..]);
    }
  }

  lemma {:induction false} ParseAllOverwriteSnoc(attrs: Attributes, rs: seq<Response>, r: Response)
    ensures ParseAllOverwrite(attrs, rs + [r]) == ParseResponseOverwrite(ParseAllOverwrite(attrs, rs), r)
    decreases |rs|
  {
    if |rs| > 0 {
      assert (rs + [r])[1..] == rs[1..] + [r];
      ParseAllOverwriteSnoc(ParseResponseOverwrite(attrs, rs[0]), rs[1..], r);
    }
  }

  lemma {:induction false} ParseAllFirstWriteSnoc(attrs: Attributes, rs: seq<Response>, r: Response)
    ensures ParseAllFirstWrite(attrs, rs + [r]) == ParseResponseFirstWrite(ParseAllFirstWrite(attrs, rs), r)
    decreases |rs|
  {
    if |rs| > 0 {
      assert (rs + [r])[1..] == rs[1..] + [r];
      ParseAllFirstWriteSnoc(ParseResponseFirstWrite(attrs, rs[0]), rs[1..], r);
    }
  }

  /** Java: after a run of responses the cloud id, location hint and blob
      are those of the last response that carried `d_mid`. */
  lemma {:induction false} LastResponseWins(attrs: Attributes, rs: seq<Response>)
    requires LastParsed(rs).Some?
    ensures var last := LastParsed(rs).value;
      && Stored(ParseAllOverwrite(attrs, rs), MidKey) == last.mid
      && Stored(ParseAllOverwrite(attrs, rs), RegionKey) == Some(OptString(last.region))
      && Stored(ParseAllOverwrite(attrs, rs), BlobKey) == Some(OptString(last.blob))
    decreases |rs|
  {
    var init, r := rs[..|rs| - 1], rs[|rs| - 1];
    assert rs == init + [r];
    ParseAllOverwriteSnoc(attrs, init, r);
    if r.mid.None? {
      LastResponseWins(attrs, init);
    }
  }

  /** Kotlin: the location hint and blob also come from the last response
      that carried `d_mid`, even though the cloud id does not. */
  lemma {:induction false} LastRegionAndBlobWin(attrs: Attributes, rs: seq<Response>)
    requires LastParsed(rs).Some?
    ensures var last := LastParsed(rs).value;
      && Stored(ParseAllFirstWrite(attrs, rs), RegionKey) == Some(OptString(last.region))
      && Stored(ParseAllFirstWrite(attrs, rs), BlobKey) == Some(OptString(last.blob))
    decreases |rs|
  {
    var init, r := rs[..|rs| - 1], rs[|rs| - 1];
    assert rs == init + [r];
    ParseAllFirstWriteSnoc(attrs, init, r);
    if r.mid.None? {
      LastRegionAndBlobWin(attrs, init);
    }
  }

  /** A response with `d_mid="ABC"` stores "ABC" when no cloud id is
      cached, and leaves a cached "XYZ" in place. */
  lemma FirstWriteExample()
    ensures Stored(ParseResponseFirstWrite(map[], Response(Some("ABC"), None, None)), MidKey) == Some("ABC")
    ensures Stored(ParseResponseFirstWrite(map[MidKey := "XYZ"], Response(Some("ABC"), None, None)), MidKey)
            == Some("XYZ")
  {
  }

  // ---------------------------------------------------------------------------
  // Looking the cloud id up
  // ---------------------------------------------------------------------------

  /** What the legacy Adobe SDK may have persisted: `ADOBEMOBILE_PERSISTED_MID`
      in the `visitorIDServiceDataStore` preferences and
      `ADBMOBILE_PERSISTED_MID` in `APP_MEASUREMENT_CACHE`. */
  datatype LegacyStores = LegacyStores(visitorIdService: Option<string>, appMeasurementCache: Option<string>)

  /** The Kotlin getter: the stored cloud id if non-empty, else the visitor-id
      service's, else the measurement cache's. It reads only. */
  function CloudIdLookup(attrs: Attributes, legacy: LegacyStores): (id: Option<string>)
    ensures !IsEmpty(Stored(attrs, MidKey)) ==> id == Stored(attrs, MidKey)
    ensures IsEmpty(Stored(attrs, MidKey)) && !IsEmpty(legacy.visitorIdService)
            ==> id == legacy.visitorIdService
    ensures IsEmpty(Stored(attrs, MidKey)) && IsEmpty(legacy.visitorIdService)
            ==> id == legacy.appMeasurementCache
  {
    var stored := Stored(attrs, MidKey);
    if !IsEmpty(stored) then stored
    else if !IsEmpty(legacy.visitorIdService) then legacy.visitorIdService
    else legacy.appMeasurementCache
  }

  /** The Kotlin getter finds a non-empty id exactly when one of the three
      places holds one. */
  lemma CloudIdFound(attrs: Attributes, legacy: LegacyStores)
    ensures !IsEmpty(CloudIdLookup(attrs, legacy))
            <==> !IsEmpty(Stored(attrs, MidKey)) || !IsEmpty(legacy.visitorIdService)
                 || !IsEmpty(legacy.appMeasurementCache)
  {
  }

  /** The result of the Java getter: the id and the attributes after it. */
  datatype Lookup = Lookup(id: Option<string>, attrs: Attributes)

  /** The Java getter: the stored cloud id if non-empty, else the
      measurement cache's, which is written back when non-empty. */
  function CloudIdWriteBack(attrs: Attributes, cache: Option<string>): (r: Lookup)
    ensures !IsEmpty(Stored(attrs, MidKey)) ==> r == Lookup(Stored(attrs, MidKey), attrs)
    ensures IsEmpty(Stored(attrs, MidKey)) ==> r.id == cache
    ensures !IsEmpty(r.id) ==> Stored(r.attrs, MidKey) == r.id
    ensures IsEmpty(r.id) ==> r.attrs == attrs
    ensures SameExcept(attrs, r.attrs, {MidKey})
  {
    var stored := Stored(attrs, MidKey);
    if !IsEmpty(stored) then Lookup(stored, attrs)
    else if !IsEmpty(cache) then Lookup(cache, Put(attrs, MidKey, cache.value))
    else Lookup(cache, attrs)
  }

  /** Looking the id up a second time gives the same id and writes nothing. */
  lemma CloudIdWriteBackIdempotent(attrs: Attributes, cache: Option<string>)
    ensures var first := CloudIdWriteBack(attrs, cache);
      CloudIdWriteBack(first.attrs, cache) == first
  {
  }

  // ---------------------------------------------------------------------------
  // The media kit's setter
  // ---------------------------------------------------------------------------

  /** The attributes after a call, and whether they were saved. */
  datatype Write = Write(attrs: Attributes, saved: bool)

  /** The media kit's `setMarketingCloudId`: store and save the id only if it
      is non-empty and differs from the stored one. */
  function SetCloudIdIfChanged(attrs: Attributes, id: string): (w: Write)
    ensures w.saved <==> id != "" && Stored(attrs, MidKey) != Some(id)
    ensures !w.saved ==> w.attrs == attrs
    ensures w.saved ==> Stored(w.attrs, MidKey) == Some(id)
    ensures SameExcept(attrs, w.attrs, {MidKey})
  {
    if |id| > 0 && Stored(attrs, MidKey) != Some(id) then Write(Put(attrs, MidKey, id), true)
    else Write(attrs, false)
  }

  /** The guard only spares a save: the attributes are what an unconditional
      store of a non-empty id would give. */
  lemma SetCloudIdIfChangedIsStore(attrs: Attributes, id: string)
    ensures SetCloudIdIfChanged(attrs, id).attrs == if id == "" then attrs else Put(attrs, MidKey, id)
  {
    if id != "" && Stored(attrs, MidKey) == Some(id) {
      assert attrs[MidKey := id] == attrs;
    }
  }

  /** Setting the same id twice is setting it once; the second call saves nothing. */
  lemma SetCloudIdIfChangedIdempotent(attrs: Attributes, id: string)
    ensures var once := SetCloudIdIfChanged(attrs, id);
      && SetCloudIdIfChanged(once.attrs, id).attrs == once.attrs
      && !SetCloudIdIfChanged(once.attrs, id).saved
  {
  }
}
