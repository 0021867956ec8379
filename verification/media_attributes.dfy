/** `toAdobeAttributes`: the custom attributes of a media event handed to the
    Adobe tracker, with the nineteen mParticle media keys renamed to the
    Adobe metadata keys they stand for and every value turned into text.

    The key constants live in the mParticle and Adobe SDKs, which are not
    part of this model. They are modelled as two enumerations, and a key is
    either one of those constants or any other (custom) string; the model
    assumes no custom key spells one of the constants. */
module MediaAttributes {
  import opened Seqs
  import Decimal

  /** The `MediaAttributeKeys` and `EventAttributes` constants that are renamed. */
  datatype MediaKey =
    | AdAdvertisingId | AdCampaign | AdCreative | AdPlacement | AdSiteId
    | ContentShow | ContentEpisode | ContentAssetId | ContentGenre | ContentFirstAirDate
    | ContentDigitalDate | ContentRating | ContentOriginator | ContentNetwork
    | ContentShowType | ContentMvpd | ContentAuthorized | ContentDaypart | ContentFeed

  /** The `AdMetadataKeys` and `VideoMetadataKeys` constants they become. */
  datatype AdobeKey =
    | Advertiser | CampaignId | CreativeId | PlacementId | SiteId
    | Show | Episode | AssetId | Genre | FirstAirDate
    | FirstDigitalDate | Rating | Originator | Network
    | ShowType | Mvpd | Authorized | DayPart | Feed

  datatype Key = MParticle(media: MediaKey) | Adobe(adobe: AdobeKey) | Custom(name: string)

  /** An attribute value, as far as its `toString` is concerned. */
  datatype AttrValue = Text(s: string) | Whole(n: int) | Flag(b: bool) | Null

  /** `value.toString()`. */
  function ToText(v: AttrValue): (t: string)
    ensures v.Text? ==> t == v.s
    ensures v.Whole? ==> Decimal.Canonical(t) && Decimal.FromDecimal(t) == v.n
    ensures v.Flag? ==> t == (if v.b then "true" else "false")
    ensures v.Null? ==> t == "null"
  {
    match v
    case Text(s) => s
    case Whole(n) => Decimal.DecimalRoundTrip(n); Decimal.ToDecimal(n)
    case Flag(b) => if b then "true" else "false"
    case Null => "null"
  }

  /** The Adobe metadata key an mParticle media key is renamed to. */
  function AdobeFor(m: MediaKey): (a: AdobeKey)
    ensures MediaFor(a) == m
  {
    match m
    case AdAdvertisingId => Advertiser
    case AdCampaign => CampaignId
    case AdCreative => CreativeId
    case AdPlacement => PlacementId
    case AdSiteId => SiteId
    case ContentShow => Show
    case ContentEpisode => Episode
    case ContentAssetId => AssetId
    case ContentGenre => Genre
    case ContentFirstAirDate => FirstAirDate
    case ContentDigitalDate => FirstDigitalDate
    case ContentRating => Rating
    case ContentOriginator => Originator
    case ContentNetwork => Network
    case ContentShowType => ShowType
    case ContentMvpd => Mvpd
    case ContentAuthorized => Authorized
    case ContentDaypart => DayPart
    case ContentFeed => Feed
  }

  /** The mParticle media key that is renamed to `a`. */
  function MediaFor(a: AdobeKey): MediaKey {
    match a
    case Advertiser => AdAdvertisingId
    case CampaignId => AdCampaign
    case CreativeId => AdCreative
    case PlacementId => AdPlacement
    case SiteId => AdSiteId
    case Show => ContentShow
    case Episode => ContentEpisode
    case AssetId => ContentAssetId
    case Genre => ContentGenre
    case FirstAirDate => ContentFirstAirDate
    case FirstDigitalDate => ContentDigitalDate
    case Rating => ContentRating
    case Originator => ContentOriginator
    case Network => ContentNetwork
    case ShowType => ContentShowType
    case Mvpd => ContentMvpd
    case Authorized => ContentAuthorized
    case DayPart => ContentDaypart
    case Feed => ContentFeed
  }

  /** The renaming table is a one-to-one correspondence. */
  lemma RenameTableBijective(a: AdobeKey)
    ensures AdobeFor(MediaFor(a)) == a
  {
    match a
    case Advertiser =>
    case CampaignId =>
    case CreativeId =>
    case PlacementId =>
    case SiteId =>
    case Show =>
    case Episode =>
    case AssetId =>
    case Genre =>
    case FirstAirDate =>
    case FirstDigitalDate =>
    case Rating =>
    case Originator =>
    case Network =>
    case ShowType =>
    case Mvpd =>
    case Authorized =>
    case DayPart =>
    case Feed =>
  }

  /** The `when (key)` of `toAdobeAttributes`. */
  function Rename(k: Key): (r: Key)
    ensures !r.MParticle?
    ensures k.MParticle? ==> r == Adobe(AdobeFor(k.media))
    ensures !k.MParticle? ==> r == k
  {
    match k
    case MParticle(m) => Adobe(AdobeFor(m))
    case _ => k
  }

  /** The keys that are renamed to a given one. */
  lemma RenameSources(k: Key, target: Key)
    ensures target.Custom? ==> (Rename(k) == target <==> k == target)
    ensures target.Adobe? ==> (Rename(k) == target <==> k == target || k == MParticle(MediaFor(target.adobe)))
    ensures target.MParticle? ==> Rename(k) != target
  {
    if target.Adobe? {
      RenameTableBijective(target.adobe);
    }
  }

  type AttrEntry = (Key, AttrValue)

  /** `entries.associate { ... }` over the entries in iteration order: each
      entry is stored under its renamed key, so of two entries renamed to the
      same key the later one wins. */
  function Associate(entries: seq<AttrEntry>): (r: map<Key, string>)
    ensures |r| <= |entries|
    decreases |entries|
  {
    if |entries| == 0 then map[]
    else
      var last := entries[|entries| - 1];
      Associate(entries[..|entries| - 1])[Rename(last.0) := ToText(last.1)]
  }

  /** A key is in the result exactly when some entry is renamed to it. */
  lemma {:induction false} AssociateKey(entries: seq<AttrEntry>, k: Key)
    ensures k in Associate(entries) <==> exists i :: 0 <= i < |entries| && Rename(entries[i].0) == k
    decreases |entries|
  {
    if |entries| > 0 {
      var n := |entries| - 1;
      var init := entries[..n];
      AssociateKey(init, k);
      if Rename(entries[n].0) != k {
        if exists i :: 0 <= i < |entries| && Rename(entries[i].0) == k {
          var i :| 0 <= i < |entries| && Rename(entries[i].0) == k;
          assert init[i] == entries[i];
        }
        if exists i :: 0 <= i < |init| && Rename(init[i].0) == k {
          var i :| 0 <= i < |init| && Rename(init[i].0) == k;
          assert init[i] == entries[i];
        }
      }
    }
  }

  /** The value under a key is that of the last entry renamed to it. */
  lemma {:induction false} AssociateLastWins(entries: seq<AttrEntry>, i: nat)
    requires i < |entries|
    requires forall j :: i < j < |entries| ==> Rename(entries[j].0) != Rename(entries[i].0)
    ensures Rename(entries[i].0) in Associate(entries)
    ensures Associate(entries)[Rename(entries[i].0)] == ToText(entries[i].1)
    decreases |entries|
  {
    var n := |entries| - 1;
    if i < n {
      var init := entries[..n];
      assert init[i] == entries[i];
      forall j | i < j < |init|
        ensures Rename(init[j].0) != Rename(init[i].0)
      {
        assert init[j] == entries[j];
      }
      AssociateLastWins(init, i);
    }
  }

  /** When no two entries are renamed to the same key, nothing is lost. */
  lemma {:induction false} AssociateSize(entries: seq<AttrEntry>)
    requires forall i, j :: 0 <= i < j < |entries| ==> Rename(entries[i].0) != Rename(entries[j].0)
    ensures |Associate(entries)| == |entries|
    decreases |entries|
  {
    if |entries| > 0 {
      var n := |entries| - 1;
      var init := entries[..n];
      forall i, j | 0 <= i < j < |init|
        ensures Rename(init[i].0) != Rename(init[j].0)
      {
        assert init[i] == entries[i] && init[j] == entries[j];
      }
      AssociateSize(init);
      forall i | 0 <= i < |init|
        ensures Rename(init[i].0) != Rename(entries[n].0)
      {
        assert init[i] == entries[i];
      }
      AssociateKey(init, Rename(entries[n].0));
    }
  }

  /** `toAdobeAttributes` over a map iterated in the order `entries`. It
      never has more entries than the map. */
  function ToAdobeAttributes(m: map<Key, AttrValue>, entries: seq<AttrEntry>): (r: map<Key, string>)
    requires IsIterationOrder(entries, m)
    ensures |r| <= |m|
  {
    IterationLength(entries, m);
    Associate(entries)
  }

  /** The index at which an iteration hands out a key of the map. */
  lemma IndexOf(m: map<Key, AttrValue>, entries: seq<AttrEntry>, k: Key) returns (i: nat)
    requires IsIterationOrder(entries, m)
    requires k in m
    ensures i < |entries| && entries[i] == (k, m[k])
    ensures forall j :: 0 <= j < |entries| && entries[j].0 == k ==> j == i
  {
    i :| 0 <= i < |entries| && entries[i] == (k, m[k]);
  }

  /** A custom key passes through with its value turned into text. */
  lemma CustomKeyPasses(m: map<Key, AttrValue>, entries: seq<AttrEntry>, s: string)
    requires IsIterationOrder(entries, m)
    ensures Custom(s) in ToAdobeAttributes(m, entries) <==> Custom(s) in m
    ensures Custom(s) in m ==> ToAdobeAttributes(m, entries)[Custom(s)] == ToText(m[Custom(s)])
  {
    var k := Custom(s);
    AssociateKey(entries, k);
    if k in Associate(entries) {
      var i :| 0 <= i < |entries| && Rename(entries[i].0) == k;
      RenameSources(entries[i].0, k);
      assert entries[i] in entries;
    }
    if k in m {
      var i := IndexOf(m, entries, k);
      forall j | i < j < |entries|
        ensures Rename(entries[j].0) != Rename(entries[i].0)
      {
        RenameSources(entries[j].0, k);
      }
      AssociateLastWins(entries, i);
    }
  }

  /** No mParticle media key survives the renaming. */
  lemma MediaKeyDropped(m: map<Key, AttrValue>, entries: seq<AttrEntry>, mk: MediaKey)
    requires IsIterationOrder(entries, m)
    ensures MParticle(mk) !in ToAdobeAttributes(m, entries)
  {
    AssociateKey(entries, MParticle(mk));
  }

  /** An Adobe key is present when it or the media key renamed to it was;
      it carries the value of whichever of the two the map holds, and of
      one of them when it holds both. */
  lemma AdobeKeyFilled(m: map<Key, AttrValue>, entries: seq<AttrEntry>, a: AdobeKey)
    requires IsIterationOrder(entries, m)
    ensures var r, t, s := ToAdobeAttributes(m, entries), Adobe(a), MParticle(MediaFor(a));
      && (t in r <==> t in m || s in m)
      && (t in m && s !in m ==> r[t] == ToText(m[t]))
      && (s in m && t !in m ==> r[t] == ToText(m[s]))
      && (t in m && s in m ==> r[t] == ToText(m[t]) || r[t] == ToText(m[s]))
  {
    var r, t, s := Associate(entries), Adobe(a), MParticle(MediaFor(a));
    AssociateKey(entries, t);
    if t in r {
      var i :| 0 <= i < |entries| && Rename(entries[i].0) == t;
      RenameSources(entries[i].0, t);
      assert entries[i] in entries;
    }
    if t in m || s in m {
      var k := if t in m then t else s;
      var i := IndexOf(m, entries, k);
      RenameSources(k, t);
      assert Rename(entries[i].0) == t;
    }
    if t in m && s !in m {
      OnlySource(m, entries, t, t, s);
    }
    if s in m && t !in m {
      OnlySource(m, entries, s, t, t);
    }
    if t in m && s in m {
      var i := IndexOf(m, entries, t);
      var j := IndexOf(m, entries, s);
      RenameSources(t, t);
      RenameSources(s, t);
      var later := if i < j then j else i;
      forall l | later < l < |entries|
        ensures Rename(entries[l].0) != Rename(entries[later].0)
      {
        RenameSources(entries[l].0, t);
      }
      AssociateLastWins(entries, later);
    }
  }

  /** When only `k` among the keys renamed to `t` is in the map, `t` gets
      `k`'s value; `other` is the remaining key renamed to `t`. */
  lemma OnlySource(m: map<Key, AttrValue>, entries: seq<AttrEntry>, k: Key, t: Key, other: Key)
    requires IsIterationOrder(entries, m)
    requires k in m && other !in m
    requires Rename(k) == t
    requires forall x :: Rename(x) == t ==> x == k || x == other
    ensures t in Associate(entries) && Associate(entries)[t] == ToText(m[k])
  {
    var i := IndexOf(m, entries, k);
    forall j | i < j < |entries|
      ensures Rename(entries[j].0) != Rename(entries[i].0)
    {
      assert entries[j] in entries;
    }
    AssociateLastWins(entries, i);
  }

  /** No custom attribute uses both an mParticle media key and the Adobe key
      it is renamed to. */
  ghost predicate NoRenameClash(m: map<Key, AttrValue>) {
    forall a :: !(Adobe(a) in m && MParticle(MediaFor(a)) in m)
  }

  /** Without such a clash every attribute survives under its new name. */
  lemma SizeWithoutClash(m: map<Key, AttrValue>, entries: seq<AttrEntry>)
    requires IsIterationOrder(entries, m)
    requires NoRenameClash(m)
    ensures |ToAdobeAttributes(m, entries)| == |m|
  {
    forall i, j | 0 <= i < j < |entries|
      ensures Rename(entries[i].0) != Rename(entries[j].0)
    {
      assert entries[i] in entries && entries[j] in entries;
      var t := Rename(entries[i].0);
      RenameSources(entries[i].0, t);
      RenameSources(entries[j].0, t);
    }
    AssociateSize(entries);
    IterationLength(entries, m);
  }

  /** Without a clash the result does not depend on the iteration order. */
  lemma OrderIndependent(m: map<Key, AttrValue>, e1: seq<AttrEntry>, e2: seq<AttrEntry>)
    requires IsIterationOrder(e1, m) && IsIterationOrder(e2, m)
    requires NoRenameClash(m)
    ensures ToAdobeAttributes(m, e1) == ToAdobeAttributes(m, e2)
  {
    var r1, r2 := ToAdobeAttributes(m, e1), ToAdobeAttributes(m, e2);
    forall k
      ensures k in r1 <==> k in r2
      ensures k in r1 ==> r1[k] == r2[k]
    {
      match k
      case Custom(s) =>
        CustomKeyPasses(m, e1, s);
        CustomKeyPasses(m, e2, s);
      case Adobe(a) =>
        AdobeKeyFilled(m, e1, a);
        AdobeKeyFilled(m, e2, a);
      case MParticle(mk) =>
        MediaKeyDropped(m, e1, mk);
        MediaKeyDropped(m, e2, mk);
    }
  }

  /** A clash is settled by the iteration order: whichever of the two keys
      comes later gives the value. */
  lemma ClashSettledByOrder(v1: AttrValue, v2: AttrValue)
    ensures var m := map[MParticle(AdCampaign) := v1, Adobe(CampaignId) := v2];
      var e1 := [(MParticle(AdCampaign), v1), (Adobe(CampaignId), v2)];
      var e2 := [(Adobe(CampaignId), v2), (MParticle(AdCampaign), v1)];
      && IsIterationOrder(e1, m) && IsIterationOrder(e2, m)
      && ToAdobeAttributes(m, e1)[Adobe(CampaignId)] == ToText(v2)
      && ToAdobeAttributes(m, e2)[Adobe(CampaignId)] == ToText(v1)
  {
    var m := map[MParticle(AdCampaign) := v1, Adobe(CampaignId) := v2];
    var e1 := [(MParticle(AdCampaign), v1), (Adobe(CampaignId), v2)];
    var e2 := [(Adobe(CampaignId), v2), (MParticle(AdCampaign), v1)];
    assert IsIterationOrder(e1, m) by {
      assert e1[0] in e1 && e1[1] in e1;
    }
    assert IsIterationOrder(e2, m) by {
      assert e2[0] in e2 && e2[1] in e2;
    }
    AssociateLastWins(e1, 1);
    AssociateLastWins(e2, 1);
  }
}
