/** `encodeIds` and `getServerString`: the query string of an identity sync.

    The user-identity map is a hash map, so the order in which its entries
    are appended is unspecified; the model takes that iteration as a
    parameter (`entries`, which lists each entry of the map once) and proves
    that the multiset of parameters, which is how the tests compare query
    strings, does not depend on it. */
module IdentityEncoding {
  import opened Nullable
  import opened UrlBuilder
  import Decimal
  import opened Seqs

  const MidParam := "d_mid"
  const OrgIdParam := "d_orgid"
  const BlobParam := "d_blob"
  const RegionParam := "dcs_region"
  const PlatformParam := "d_ptfm"
  const VersionParam := "d_ver"
  const Platform := "android"
  const Version := "2"
  /** Numeric identity code of the push token. */
  const PushTokenCode := 20919
  /** Numeric identity code of the Google advertising id. */
  const AdvertisingIdCode := 20914

  /** mParticle's identity types: the ten the kit names, and any other. */
  datatype IdentityType =
    | Other | CustomerId | Facebook | Twitter | Google | Microsoft | Yahoo
    | Email | Alias | FacebookCustomAudienceId
    | Unlisted(name: string)

  predicate IsLowerAscii(s: string) {
    forall i :: 0 <= i < |s| ==> 'a' <= s[i] <= 'z'
  }

  /** `getServerString`: the vendor's name of an identity type; "" for any
      type outside the fixed table. */
  function ServerString(t: IdentityType): (r: string)
    ensures r == "" <==> t.Unlisted?
  {
    match t
    case Other => "other"
    case CustomerId => "customerid"
    case Facebook => "facebook"
    case Twitter => "twitter"
    case Google => "google"
    case Microsoft => "microsoft"
    case Yahoo => "yahoo"
    case Email => "email"
    case Alias => "alias"
    case FacebookCustomAudienceId => "facebookcustomaudienceid"
    case Unlisted(_) => ""
  }

  /** Server names are lower-case ASCII words. */
  lemma ServerStringLowerAscii(t: IdentityType)
    ensures IsLowerAscii(ServerString(t))
  {
    var r := ServerString(t);
    forall i | 0 <= i < |r|
      ensures 'a' <= r[i] <= 'z'
    {
      match t
      case Other =>
      case CustomerId =>
      case Facebook =>
      case Twitter =>
      case Google =>
      case Microsoft =>
      case Yahoo =>
      case Email =>
      case Alias =>
      case FacebookCustomAudienceId =>
      case Unlisted(_) =>
    }
  }

  /** The table names each listed type differently: a server name identifies
      its identity type. */
  lemma ServerStringInjective(t1: IdentityType, t2: IdentityType)
    requires !t1.Unlisted? && ServerString(t1) == ServerString(t2)
    ensures t1 == t2
  {
    var s := ServerString(t1);
    assert |s| == |ServerString(t2)|;
    assert s[0] == ServerString(t2)[0];
    if |s| > 1 {
      assert s[1] == ServerString(t2)[1];
    }
    if |s| > 8 {
      assert s[8] == ServerString(t2)[8];
    }
  }

  /** One entry of the user-identity map. */
  type Entry = (IdentityType, string)

  /** The call `appendCustomIdentity(getServerString(key), value)`. */
  function IdentityRequest(e: Entry): Request {
    StringIdentity(ServerString(e.0), e.1)
  }

  /** The `d_cid_ic` value of one user identity. */
  function IdentityValue(e: Entry): string {
    ServerString(e.0) + CodeSeparator + e.1
  }

  /** The parameter one user identity contributes. */
  function IdentityToken(e: Entry): Token {
    Token(CustomIdNameParam, IdentityValue(e))
  }

  /** Every identity append is accepted: one parameter per map entry, even for
      an unlisted type (empty server name) or an empty value. */
  lemma {:induction false} IdentityRequestsAccepted(entries: seq<Entry>)
    ensures AcceptedAll(MapSeq(IdentityRequest, entries)) == MapSeq(IdentityToken, entries)
    decreases |entries|
  {
    if |entries| > 0 {
      var rs := MapSeq(IdentityRequest, entries);
      assert rs[1..] == MapSeq(IdentityRequest, entries[1..]);
      IdentityRequestsAccepted(entries[1..]);
    }
  }

  /** The calls `encodeIds` makes on a fresh builder, in order: the four
      optional fields, platform, version, the push token and the advertising
      id, then one call per user identity. (Written as a chain of single
      calls, the way the builder receives them.) */
  function Requests(mid: Option<string>, orgId: Option<string>, blob: Option<string>,
                    region: Option<string>, pushId: Option<string>, gaid: Option<string>,
                    entries: seq<Entry>): seq<Request>
  {
    [Request(Some(MidParam), mid)]
    + ([Request(Some(OrgIdParam), orgId)]
    + ([Request(Some(BlobParam), blob)]
    + ([Request(Some(RegionParam), region)]
    + ([Request(Some(PlatformParam), Some(Platform))]
    + ([Request(Some(VersionParam), Some(Version))]
    + ([IntIdentity(PushTokenCode, pushId)]
    + ([IntIdentity(AdvertisingIdCode, gaid)]
    + MapSeq(IdentityRequest, entries))))))))
  }

  /** The parameters of the query string `encodeIds` builds. */
  function EncodedTokens(mid: Option<string>, orgId: Option<string>, blob: Option<string>,
                         region: Option<string>, pushId: Option<string>, gaid: Option<string>,
                         entries: seq<Entry>): seq<Token>
  {
    AcceptedAll(Requests(mid, orgId, blob, region, pushId, gaid, entries))
  }

  /** `encodeIds`: the query string of an identity sync, for the user
      identities `ids` visited in the order `entries`. Its text is the
      `&`-join of the parameters `EncodedTokens` lists. */
  function EncodeIds(mid: Option<string>, orgId: Option<string>, blob: Option<string>,
                     region: Option<string>, pushId: Option<string>, gaid: Option<string>,
                     ids: map<IdentityType, string>, entries: seq<Entry>): (url: string)
    requires IsIterationOrder(entries, ids)
    ensures url == Render(EncodedTokens(mid, orgId, blob, region, pushId, gaid, entries))
  {
    BuiltText(Requests(mid, orgId, blob, region, pushId, gaid, entries))
  }

  /** The values given for one parameter name, in order. */
  function ValuesOf(ts: seq<Token>, key: string): seq<string>
    decreases |ts|
  {
    if |ts| == 0 then []
    else (if ts[0].key == key then [ts[0].value] else []) + ValuesOf(ts[1..], key)
  }

  lemma {:induction false} ValuesOfConcat(a: seq<Token>, b: seq<Token>, key: string)
    ensures ValuesOf(a + b, key) == ValuesOf(a, key) + ValuesOf(b, key)
    decreases |a|
  {
    if |a| == 0 {
      assert a + b == b;
    } else {
      assert (a + b)[1..] == a[1..] + b;
      ValuesOfConcat(a[1..], b, key);
    }
  }

  lemma ValuesOfSingle(t: Token, key: string)
    ensures ValuesOf([t], key) == (if key == t.key then [t.value] else [])
  {
    assert [t][1..] == [];
  }

  /** A value that is written out exactly when it is neither null nor empty. */
  function Present(o: Option<string>): seq<string> {
    if IsEmpty(o) then [] else [o.value]
  }

  lemma {:induction false} IdentityTokensValues(entries: seq<Entry>, key: string)
    ensures ValuesOf(MapSeq(IdentityToken, entries), key)
            == (if key == CustomIdNameParam then MapSeq(IdentityValue, entries) else [])
    decreases |entries|
  {
    if |entries| > 0 {
      var ts := MapSeq(IdentityToken, entries);
      assert ts[1..] == MapSeq(IdentityToken, entries[1..]);
      IdentityTokensValues(entries[1..], key);
    }
  }

  /** The `d_cid` value for a numeric identity code. */
  function CodedValue(code: int, value: Option<string>): string {
    Decimal.ToDecimal(code) + CodeSeparator + Template(value)
  }

  /** The parameters, append by append: each optional field when present,
      then platform, version, push token and advertising id always, then one
      parameter per user identity. */
  lemma FixedTokens(mid: Option<string>, orgId: Option<string>, blob: Option<string>,
                    region: Option<string>, pushId: Option<string>, gaid: Option<string>,
                    entries: seq<Entry>)
    ensures EncodedTokens(mid, orgId, blob, region, pushId, gaid, entries)
            == Accepted(Some(MidParam), mid)
               + (Accepted(Some(OrgIdParam), orgId)
               + (Accepted(Some(BlobParam), blob)
               + (Accepted(Some(RegionParam), region)
               + ([Token(PlatformParam, Platform)]
               + ([Token(VersionParam, Version)]
               + ([Token(CustomIdParam, CodedValue(PushTokenCode, pushId))]
               + ([Token(CustomIdParam, CodedValue(AdvertisingIdCode, gaid))]
               + MapSeq(IdentityToken, entries))))))))
  {
    var r4 := Request(Some(PlatformParam), Some(Platform));
    var r5 := Request(Some(VersionParam), Some(Version));
    var r6 := IntIdentity(PushTokenCode, pushId);
    var r7 := IntIdentity(AdvertisingIdCode, gaid);
    var s7 := [r7] + MapSeq(IdentityRequest, entries);
    var s6 := [r6] + s7;
    var s5 := [r5] + s6;
    var s4 := [r4] + s5;
    var s3 := [Request(Some(RegionParam), region)] + s4;
    var s2 := [Request(Some(BlobParam), blob)] + s3;
    var s1 := [Request(Some(OrgIdParam), orgId)] + s2;
    AcceptedAllCons(r7, MapSeq(IdentityRequest, entries));
    AcceptedAllCons(r6, s7);
    AcceptedAllCons(r5, s6);
    AcceptedAllCons(r4, s5);
    AcceptedAllCons(Request(Some(RegionParam), region), s4);
    AcceptedAllCons(Request(Some(BlobParam), blob), s3);
    AcceptedAllCons(Request(Some(OrgIdParam), orgId), s2);
    AcceptedAllCons(Request(Some(MidParam), mid), s1);
    assert Accepted(r4.key, r4.value) == [Token(PlatformParam, Platform)];
    assert Accepted(r5.key, r5.value) == [Token(VersionParam, Version)];
    IdentityRequestsAccepted(entries);
  }

  lemma AcceptedValues(name: string, o: Option<string>, key: string)
    requires name != ""
    ensures ValuesOf(Accepted(Some(name), o), key) == (if key == name then Present(o) else [])
  {
    if !IsEmpty(o) {
      assert Accepted(Some(name), o)[1..] == [];
    }
  }

  /** The values of one parameter name, as the sum of what each append
      contributes to it. */
  lemma ValuesByKey(mid: Option<string>, orgId: Option<string>, blob: Option<string>,
                    region: Option<string>, pushId: Option<string>, gaid: Option<string>,
                    entries: seq<Entry>, key: string)
    ensures ValuesOf(EncodedTokens(mid, orgId, blob, region, pushId, gaid, entries), key)
            == (if key == MidParam then Present(mid) else [])
               + ((if key == OrgIdParam then Present(orgId) else [])
               + ((if key == BlobParam then Present(blob) else [])
               + ((if key == RegionParam then Present(region) else [])
               + ((if key == PlatformParam then [Platform] else [])
               + ((if key == VersionParam then [Version] else [])
               + ((if key == CustomIdParam then [CodedValue(PushTokenCode, pushId)] else [])
               + ((if key == CustomIdParam then [CodedValue(AdvertisingIdCode, gaid)] else [])
               + (if key == CustomIdNameParam then MapSeq(IdentityValue, entries) else []))))))))
  {
    FixedTokens(mid, orgId, blob, region, pushId, gaid, entries);
    var t4 := Token(PlatformParam, Platform);
    var t5 := Token(VersionParam, Version);
    var t6 := Token(CustomIdParam, CodedValue(PushTokenCode, pushId));
    var t7 := Token(CustomIdParam, CodedValue(AdvertisingIdCode, gaid));
    var m := MapSeq(IdentityToken, entries);
    var a0, a1 := Accepted(Some(MidParam), mid), Accepted(Some(OrgIdParam), orgId);
    var a2, a3 := Accepted(Some(BlobParam), blob), Accepted(Some(RegionParam), region);
    ValuesOfConcat([t7], m, key);
    ValuesOfConcat([t6], [t7] + m, key);
    ValuesOfConcat([t5], [t6] + ([t7] + m), key);
    ValuesOfConcat([t4], [t5] + ([t6] + ([t7] + m)), key);
    ValuesOfConcat(a3, [t4] + ([t5] + ([t6] + ([t7] + m))), key);
    ValuesOfConcat(a2, a3 + ([t4] + ([t5] + ([t6] + ([t7] + m)))), key);
    ValuesOfConcat(a1, a2 + (a3 + ([t4] + ([t5] + ([t6] + ([t7] + m))))), key);
    ValuesOfConcat(a0, a1 + (a2 + (a3 + ([t4] + ([t5] + ([t6] + ([t7] + m)))))), key);
    ValuesOfSingle(t4, key);
    ValuesOfSingle(t5, key);
    ValuesOfSingle(t6, key);
    ValuesOfSingle(t7, key);
    AcceptedValues(MidParam, mid, key);
    AcceptedValues(OrgIdParam, orgId, key);
    AcceptedValues(BlobParam, blob, key);
    AcceptedValues(RegionParam, region, key);
    IdentityTokensValues(entries, key);
  }

  /** The eight parameter names are pairwise different. */
  lemma ParamNamesDistinct()
    ensures MidParam != OrgIdParam && MidParam != BlobParam && MidParam != RegionParam
    ensures MidParam != PlatformParam && MidParam != VersionParam && MidParam != CustomIdParam
    ensures MidParam != CustomIdNameParam && OrgIdParam != BlobParam && OrgIdParam != RegionParam
    ensures OrgIdParam != PlatformParam && OrgIdParam != VersionParam && OrgIdParam != CustomIdParam
    ensures OrgIdParam != CustomIdNameParam && BlobParam != RegionParam && BlobParam != PlatformParam
    ensures BlobParam != VersionParam && BlobParam != CustomIdParam && BlobParam != CustomIdNameParam
    ensures RegionParam != PlatformParam && RegionParam != VersionParam && RegionParam != CustomIdParam
    ensures RegionParam != CustomIdNameParam && PlatformParam != VersionParam
    ensures PlatformParam != CustomIdParam && PlatformParam != CustomIdNameParam
    ensures VersionParam != CustomIdParam && VersionParam != CustomIdNameParam
    ensures CustomIdParam != CustomIdNameParam
  {
    assert MidParam[2] == 'm' && VersionParam[2] == 'v' && CustomIdParam[2] == 'c';
    assert BlobParam[2] == 'b' && PlatformParam[2] == 'p';
    assert OrgIdParam[2] == 'o' && CustomIdNameParam[2] == 'c';
  }

  /** What the query string of an identity sync contains, parameter name by
      parameter name: each of `d_mid`, `d_orgid`, `d_blob`, `dcs_region` once
      exactly when its argument is non-empty; `d_ptfm=android` and `d_ver=2`
      always; two `d_cid` values, for the push token and the advertising id,
      always (with "null" for a missing value); one `d_cid_ic` value per user
      identity, in iteration order. */
  lemma EncodedTokensContents(mid: Option<string>, orgId: Option<string>, blob: Option<string>,
                              region: Option<string>, pushId: Option<string>, gaid: Option<string>,
                              entries: seq<Entry>, key: string)
    ensures var vs := ValuesOf(EncodedTokens(mid, orgId, blob, region, pushId, gaid, entries), key);
      && (key == MidParam ==> vs == Present(mid))
      && (key == OrgIdParam ==> vs == Present(orgId))
      && (key == BlobParam ==> vs == Present(blob))
      && (key == RegionParam ==> vs == Present(region))
      && (key == PlatformParam ==> vs == [Platform])
      && (key == VersionParam ==> vs == [Version])
      && (key == CustomIdParam ==> vs == [CodedValue(PushTokenCode, pushId), CodedValue(AdvertisingIdCode, gaid)])
      && (key == CustomIdNameParam ==> vs == MapSeq(IdentityValue, entries))
  {
    ParamNamesDistinct();
    ValuesByKey(mid, orgId, blob, region, pushId, gaid, entries, key);
  }

  /** The number of parameters: one per non-empty optional field, four
      fixed ones, one per user identity. */
  lemma EncodedTokensCount(mid: Option<string>, orgId: Option<string>, blob: Option<string>,
                           region: Option<string>, pushId: Option<string>, gaid: Option<string>,
                           entries: seq<Entry>)
    ensures |EncodedTokens(mid, orgId, blob, region, pushId, gaid, entries)|
            == |Present(mid)| + |Present(orgId)| + |Present(blob)| + |Present(region)| + 4 + |entries|
  {
    FixedTokens(mid, orgId, blob, region, pushId, gaid, entries);
  }

  /** The parameters of an identity sync, as a multiset, do not depend on the
      order in which the hash map hands out the user identities. */
  lemma EncodedTokensOrderIndependent(mid: Option<string>, orgId: Option<string>, blob: Option<string>,
                                      region: Option<string>, pushId: Option<string>, gaid: Option<string>,
                                      ids: map<IdentityType, string>, e1: seq<Entry>, e2: seq<Entry>)
    requires IsIterationOrder(e1, ids) && IsIterationOrder(e2, ids)
    ensures multiset(EncodedTokens(mid, orgId, blob, region, pushId, gaid, e1))
            == multiset(EncodedTokens(mid, orgId, blob, region, pushId, gaid, e2))
  {
    FixedTokens(mid, orgId, blob, region, pushId, gaid, e1);
    FixedTokens(mid, orgId, blob, region, pushId, gaid, e2);
    IterationOrdersPermute(e1, e2, ids);
    MapSeqPermute(IdentityToken, e1, e2);
  }

  // ---------------------------------------------------------------------------
  // The query string as text: when no argument contains '&', splitting it at
  // '&' gives back exactly the parameters.
  // ---------------------------------------------------------------------------

  /** A nullable argument whose text holds no '&'. */
  predicate AmpFree(o: Option<string>) {
    o.Some? ==> '&' !in o.value
  }

  /** No argument of `encodeIds` contains the parameter separator. */
  predicate SeparatorFree(mid: Option<string>, orgId: Option<string>, blob: Option<string>,
                          region: Option<string>, pushId: Option<string>, gaid: Option<string>,
                          ids: map<IdentityType, string>)
  {
    && AmpFree(mid) && AmpFree(orgId) && AmpFree(blob) && AmpFree(region)
    && AmpFree(pushId) && AmpFree(gaid)
    && forall k :: k in ids ==> '&' !in ids[k]
  }

  predicate AllClean(ts: seq<Token>) {
    forall i :: 0 <= i < |ts| ==> Clean(ts[i])
  }

  lemma AllCleanConcat(a: seq<Token>, b: seq<Token>)
    requires AllClean(a) && AllClean(b)
    ensures AllClean(a + b)
  {
    forall i | 0 <= i < |a + b|
      ensures Clean((a + b)[i])
    {
      if i >= |a| {
        assert (a + b)[i] == b[i - |a|];
      }
    }
  }

  lemma AcceptedClean(name: string, o: Option<string>)
    requires '&' !in name && AmpFree(o)
    ensures AllClean(Accepted(Some(name), o))
  {
  }

  lemma TemplateAmpFree(o: Option<string>)
    requires AmpFree(o)
    ensures '&' !in Template(o)
  {
    if o.None? {
      assert Template(o) == "null";
      assert forall i :: 0 <= i < 4 ==> "null"[i] != '&';
    }
  }

  lemma CodedValueAmpFree(code: nat, value: Option<string>)
    requires AmpFree(value)
    ensures '&' !in CodedValue(code, value)
  {
    var d := Decimal.ToDecimal(code);
    assert forall i :: 0 <= i < |d| ==> d[i] != '&';
    assert forall i :: 0 <= i < |CodeSeparator| ==> CodeSeparator[i] != '&';
    TemplateAmpFree(value);
  }

  lemma IdentityTokenClean(e: Entry)
    requires '&' !in e.1
    ensures Clean(IdentityToken(e))
  {
    var name := ServerString(e.0);
    ServerStringLowerAscii(e.0);
    ParamNamesAmpFree();
    assert forall i :: 0 <= i < |name| ==> name[i] != '&';
  }

  lemma {:induction false} IdentityTokensClean(entries: seq<Entry>)
    requires forall e :: e in entries ==> '&' !in e.1
    ensures AllClean(MapSeq(IdentityToken, entries))
    decreases |entries|
  {
    if |entries| > 0 {
      var e := entries[0];
      IdentityTokenClean(e);
      IdentityTokensClean(entries[1..]);
      AllCleanConcat([IdentityToken(e)], MapSeq(IdentityToken, entries[1..]));
    }
  }

  lemma ParamNamesAmpFree()
    ensures '&' !in MidParam && '&' !in OrgIdParam && '&' !in BlobParam && '&' !in RegionParam
    ensures '&' !in PlatformParam && '&' !in VersionParam && '&' !in Platform && '&' !in Version
    ensures '&' !in CustomIdParam && '&' !in CustomIdNameParam && '&' !in CodeSeparator
  {
    assert forall i :: 0 <= i < |MidParam| ==> MidParam[i] != '&';
    assert forall i :: 0 <= i < |OrgIdParam| ==> OrgIdParam[i] != '&';
    assert forall i :: 0 <= i < |BlobParam| ==> BlobParam[i] != '&';
    assert forall i :: 0 <= i < |RegionParam| ==> RegionParam[i] != '&';
    assert forall i :: 0 <= i < |PlatformParam| ==> PlatformParam[i] != '&';
    assert forall i :: 0 <= i < |VersionParam| ==> VersionParam[i] != '&';
    assert forall i :: 0 <= i < |Platform| ==> Platform[i] != '&';
    assert forall i :: 0 <= i < |Version| ==> Version[i] != '&';
    assert forall i :: 0 <= i < |CustomIdParam| ==> CustomIdParam[i] != '&';
    assert forall i :: 0 <= i < |CustomIdNameParam| ==> CustomIdNameParam[i] != '&';
    assert forall i :: 0 <= i < |CodeSeparator| ==> CodeSeparator[i] != '&';
  }

  lemma EncodedTokensClean(mid: Option<string>, orgId: Option<string>, blob: Option<string>,
                           region: Option<string>, pushId: Option<string>, gaid: Option<string>,
                           ids: map<IdentityType, string>, entries: seq<Entry>)
    requires IsIterationOrder(entries, ids)
    requires SeparatorFree(mid, orgId, blob, region, pushId, gaid, ids)
    ensures AllClean(EncodedTokens(mid, orgId, blob, region, pushId, gaid, entries))
  {
    FixedTokens(mid, orgId, blob, region, pushId, gaid, entries);
    ParamNamesAmpFree();
    AcceptedClean(MidParam, mid);
    AcceptedClean(OrgIdParam, orgId);
    AcceptedClean(BlobParam, blob);
    AcceptedClean(RegionParam, region);
    CodedValueAmpFree(PushTokenCode, pushId);
    CodedValueAmpFree(AdvertisingIdCode, gaid);
    IdentityTokensClean(entries);
    var t4 := Token(PlatformParam, Platform);
    var t5 := Token(VersionParam, Version);
    var t6 := Token(CustomIdParam, CodedValue(PushTokenCode, pushId));
    var t7 := Token(CustomIdParam, CodedValue(AdvertisingIdCode, gaid));
    var m := MapSeq(IdentityToken, entries);
    var a0, a1 := Accepted(Some(MidParam), mid), Accepted(Some(OrgIdParam), orgId);
    var a2, a3 := Accepted(Some(BlobParam), blob), Accepted(Some(RegionParam), region);
    AllCleanConcat([t7], m);
    AllCleanConcat([t6], [t7] + m);
    AllCleanConcat([t5], [t6] + ([t7] + m));
    AllCleanConcat([t4], [t5] + ([t6] + ([t7] + m)));
    AllCleanConcat(a3, [t4] + ([t5] + ([t6] + ([t7] + m))));
    AllCleanConcat(a2, a3 + ([t4] + ([t5] + ([t6] + ([t7] + m)))));
    AllCleanConcat(a1, a2 + (a3 + ([t4] + ([t5] + ([t6] + ([t7] + m))))));
    AllCleanConcat(a0, a1 + (a2 + (a3 + ([t4] + ([t5] + ([t6] + ([t7] + m)))))));
  }

  /** Splitting the query string at '&' yields exactly its parameters, in
      the order they were appended, when no argument contains '&'. */
  lemma EncodeIdsParams(mid: Option<string>, orgId: Option<string>, blob: Option<string>,
                        region: Option<string>, pushId: Option<string>, gaid: Option<string>,
                        ids: map<IdentityType, string>, entries: seq<Entry>)
    requires IsIterationOrder(entries, ids)
    requires SeparatorFree(mid, orgId, blob, region, pushId, gaid, ids)
    ensures Params(EncodeIds(mid, orgId, blob, region, pushId, gaid, ids, entries))
            == ParamTexts(EncodedTokens(mid, orgId, blob, region, pushId, gaid, entries))
  {
    EncodedTokensClean(mid, orgId, blob, region, pushId, gaid, ids, entries);
    RenderThenSplit(EncodedTokens(mid, orgId, blob, region, pushId, gaid, entries));
  }

  /** Two runs over the same identities, visited in different hash-map
      orders, produce query strings with the same parameters: equal as the
      tests compare them, split at '&' and sorted. */
  lemma EncodeIdsOrderIndependent(mid: Option<string>, orgId: Option<string>, blob: Option<string>,
                                  region: Option<string>, pushId: Option<string>, gaid: Option<string>,
                                  ids: map<IdentityType, string>, e1: seq<Entry>, e2: seq<Entry>)
    requires IsIterationOrder(e1, ids) && IsIterationOrder(e2, ids)
    requires SeparatorFree(mid, orgId, blob, region, pushId, gaid, ids)
    ensures multiset(Params(EncodeIds(mid, orgId, blob, region, pushId, gaid, ids, e1)))
            == multiset(Params(EncodeIds(mid, orgId, blob, region, pushId, gaid, ids, e2)))
  {
    var ts1 := EncodedTokens(mid, orgId, blob, region, pushId, gaid, e1);
    var ts2 := EncodedTokens(mid, orgId, blob, region, pushId, gaid, e2);
    EncodeIdsParams(mid, orgId, blob, region, pushId, gaid, ids, e1);
    EncodeIdsParams(mid, orgId, blob, region, pushId, gaid, ids, e2);
    EncodedTokensOrderIndependent(mid, orgId, blob, region, pushId, gaid, ids, e1, e2);
    ParamTextsMapSeq(ts1);
    ParamTextsMapSeq(ts2);
    MapSeqPermute(Param, ts1, ts2);
  }

  // ---------------------------------------------------------------------------
  // The identity-sync example the kit's unit test checks.
  // ---------------------------------------------------------------------------

  lemma PushCodeText()
    ensures Decimal.ToDecimal(PushTokenCode) == "20919"
  {
    assert Decimal.Digits(2) == "2";
    assert Decimal.Digits(20) == "20";
    assert Decimal.Digits(209) == "209";
    assert Decimal.Digits(2091) == "2091";
  }

  lemma AdvertisingCodeText()
    ensures Decimal.ToDecimal(AdvertisingIdCode) == "20914"
  {
    assert Decimal.Digits(2) == "2";
    assert Decimal.Digits(20) == "20";
    assert Decimal.Digits(209) == "209";
    assert Decimal.Digits(2091) == "2091";
  }

  /** The fixed arguments of the example. */
  const ExampleMid: Option<string> := Some("<MCID>")
  const ExampleOrgId: Option<string> := Some("<ORG ID>")
  const ExampleBlob: Option<string> := Some("<BLOB>")
  const ExampleRegion: Option<string> := Some("<REGION>")
  const ExamplePushId: Option<string> := Some("<PUSH TOKEN>")
  const ExampleGaid: Option<string> := Some("<GAID>")

  /** With every optional field present, the parameters are the eight
      fixed appends, in order, then the user identities. */
  lemma AllPresentTokens(mid: string, orgId: string, blob: string, region: string,
                         pushId: Option<string>, gaid: Option<string>, entries: seq<Entry>)
    requires mid != "" && orgId != "" && blob != "" && region != ""
    ensures EncodedTokens(Some(mid), Some(orgId), Some(blob), Some(region), pushId, gaid, entries)
            == [Token(MidParam, mid), Token(OrgIdParam, orgId), Token(BlobParam, blob),
                Token(RegionParam, region), Token(PlatformParam, Platform), Token(VersionParam, Version),
                Token(CustomIdParam, CodedValue(PushTokenCode, pushId)),
                Token(CustomIdParam, CodedValue(AdvertisingIdCode, gaid))]
               + MapSeq(IdentityToken, entries)
  {
    FixedTokens(Some(mid), Some(orgId), Some(blob), Some(region), pushId, gaid, entries);
    AcceptedPresent(MidParam, mid);
    AcceptedPresent(OrgIdParam, orgId);
    AcceptedPresent(BlobParam, blob);
    AcceptedPresent(RegionParam, region);
    Unnest(Token(MidParam, mid), Token(OrgIdParam, orgId), Token(BlobParam, blob),
           Token(RegionParam, region), Token(PlatformParam, Platform), Token(VersionParam, Version),
           Token(CustomIdParam, CodedValue(PushTokenCode, pushId)),
           Token(CustomIdParam, CodedValue(AdvertisingIdCode, gaid)), MapSeq(IdentityToken, entries));
  }

  lemma AcceptedPresent(name: string, v: string)
    requires name != "" && v != ""
    ensures Accepted(Some(name), Some(v)) == [Token(name, v)]
  {
  }

  lemma Unnest<T>(x0: T, x1: T, x2: T, x3: T, x4: T, x5: T, x6: T, x7: T, m: seq<T>)
    ensures [x0] + ([x1] + ([x2] + ([x3] + ([x4] + ([x5] + ([x6] + ([x7] + m)))))))
            == [x0, x1, x2, x3, x4, x5, x6, x7] + m
  {
  }

  lemma ExampleSeparatorFree()
    ensures SeparatorFree(ExampleMid, ExampleOrgId, ExampleBlob, ExampleRegion,
                          ExamplePushId, ExampleGaid, map[])
  {
    assert forall i :: 0 <= i < |"<MCID>"| ==> "<MCID>"[i] != '&';
    assert forall i :: 0 <= i < |"<ORG ID>"| ==> "<ORG ID>"[i] != '&';
    assert forall i :: 0 <= i < |"<BLOB>"| ==> "<BLOB>"[i] != '&';
    assert forall i :: 0 <= i < |"<REGION>"| ==> "<REGION>"[i] != '&';
    assert forall i :: 0 <= i < |"<PUSH TOKEN>"| ==> "<PUSH TOKEN>"[i] != '&';
    assert forall i :: 0 <= i < |"<GAID>"| ==> "<GAID>"[i] != '&';
  }

  lemma ParamTextsEight(t0: Token, t1: Token, t2: Token, t3: Token,
                        t4: Token, t5: Token, t6: Token, t7: Token,
                        p0: string, p1: string, p2: string, p3: string,
                        p4: string, p5: string, p6: string, p7: string)
    requires Param(t0) == p0 && Param(t1) == p1 && Param(t2) == p2 && Param(t3) == p3
    requires Param(t4) == p4 && Param(t5) == p5 && Param(t6) == p6 && Param(t7) == p7
    ensures ParamTexts([t0, t1, t2, t3, t4, t5, t6, t7]) == [p0, p1, p2, p3, p4, p5, p6, p7]
  {
  }

  lemma ExampleFieldTexts()
    ensures Param(Token(MidParam, "<MCID>")) == "d_mid=<MCID>"
    ensures Param(Token(OrgIdParam, "<ORG ID>")) == "d_orgid=<ORG ID>"
    ensures Param(Token(BlobParam, "<BLOB>")) == "d_blob=<BLOB>"
    ensures Param(Token(RegionParam, "<REGION>")) == "dcs_region=<REGION>"
  {
  }

  lemma ExampleFixedTexts()
    ensures Param(Token(PlatformParam, Platform)) == "d_ptfm=android"
    ensures Param(Token(VersionParam, Version)) == "d_ver=2"
  {
  }

  lemma ExamplePushText()
    ensures Param(Token(CustomIdParam, CodedValue(PushTokenCode, ExamplePushId)))
            == "d_cid=20919%01<PUSH TOKEN>"
  {
    PushCodeText();
  }

  lemma ExampleGaidText()
    ensures Param(Token(CustomIdParam, CodedValue(AdvertisingIdCode, ExampleGaid)))
            == "d_cid=20914%01<GAID>"
  {
    AdvertisingCodeText();
  }

  /** The eight fixed parameters of the example, as tokens and as text. */
  lemma ExampleFixedParams()
    ensures ParamTexts([Token(MidParam, "<MCID>"), Token(OrgIdParam, "<ORG ID>"), Token(BlobParam, "<BLOB>"),
                        Token(RegionParam, "<REGION>"), Token(PlatformParam, Platform),
                        Token(VersionParam, Version),
                        Token(CustomIdParam, CodedValue(PushTokenCode, ExamplePushId)),
                        Token(CustomIdParam, CodedValue(AdvertisingIdCode, ExampleGaid))])
            == ["d_mid=<MCID>", "d_orgid=<ORG ID>", "d_blob=<BLOB>", "dcs_region=<REGION>",
                "d_ptfm=android", "d_ver=2", "d_cid=20919%01<PUSH TOKEN>", "d_cid=20914%01<GAID>"]
  {
    ExampleFieldTexts();
    ExampleFixedTexts();
    ExamplePushText();
    ExampleGaidText();
    ParamTextsEight(Token(MidParam, "<MCID>"), Token(OrgIdParam, "<ORG ID>"), Token(BlobParam, "<BLOB>"),
                    Token(RegionParam, "<REGION>"), Token(PlatformParam, Platform), Token(VersionParam, Version),
                    Token(CustomIdParam, CodedValue(PushTokenCode, ExamplePushId)),
                    Token(CustomIdParam, CodedValue(AdvertisingIdCode, ExampleGaid)),
                    "d_mid=<MCID>", "d_orgid=<ORG ID>", "d_blob=<BLOB>", "dcs_region=<REGION>",
                    "d_ptfm=android", "d_ver=2", "d_cid=20919%01<PUSH TOKEN>", "d_cid=20914%01<GAID>");
  }

  /** Without user identities the query string carries exactly the eight
      parameters the unit test lists. */
  lemma ExampleWithoutIdentities()
    ensures Params(EncodeIds(ExampleMid, ExampleOrgId, ExampleBlob, ExampleRegion,
                             ExamplePushId, ExampleGaid, map[], []))
            == ["d_mid=<MCID>", "d_orgid=<ORG ID>", "d_blob=<BLOB>", "dcs_region=<REGION>",
                "d_ptfm=android", "d_ver=2", "d_cid=20919%01<PUSH TOKEN>", "d_cid=20914%01<GAID>"]
  {
    var fixed := [Token(MidParam, "<MCID>"), Token(OrgIdParam, "<ORG ID>"), Token(BlobParam, "<BLOB>"),
                  Token(RegionParam, "<REGION>"), Token(PlatformParam, Platform), Token(VersionParam, Version),
                  Token(CustomIdParam, CodedValue(PushTokenCode, ExamplePushId)),
                  Token(CustomIdParam, CodedValue(AdvertisingIdCode, ExampleGaid))];
    ExampleSeparatorFree();
    EncodeIdsParams(ExampleMid, ExampleOrgId, ExampleBlob, ExampleRegion,
                    ExamplePushId, ExampleGaid, map[], []);
    AllPresentTokens("<MCID>", "<ORG ID>", "<BLOB>", "<REGION>", ExamplePushId, ExampleGaid, []);
    assert MapSeq(IdentityToken, []) == [];
    assert fixed + [] == fixed;
    ExampleFixedParams();
  }

  /** The user identities of the second half of the example. */
  const ExampleIds: map<IdentityType, string> :=
    map[CustomerId := "<CUSTOMER ID>", Email := "<EMAIL>"]

  /** One of the two orders in which a hash map can hand them out. */
  const ExampleEntries: seq<Entry> := [(CustomerId, "<CUSTOMER ID>"), (Email, "<EMAIL>")]

  lemma ExampleEntriesIterate()
    ensures IsIterationOrder(ExampleEntries, ExampleIds)
  {
    assert ExampleEntries[0].0 != ExampleEntries[1].0;
    forall k | k in ExampleIds
      ensures (k, ExampleIds[k]) in ExampleEntries
    {
      if k == CustomerId {
        assert ExampleEntries[0] == (k, ExampleIds[k]);
      } else {
        assert ExampleEntries[1] == (k, ExampleIds[k]);
      }
    }
  }

  lemma ExampleIdsSeparatorFree()
    ensures SeparatorFree(ExampleMid, ExampleOrgId, ExampleBlob, ExampleRegion,
                          ExamplePushId, ExampleGaid, ExampleIds)
  {
    ExampleSeparatorFree();
    assert forall i :: 0 <= i < |"<CUSTOMER ID>"| ==> "<CUSTOMER ID>"[i] != '&';
    assert forall i :: 0 <= i < |"<EMAIL>"| ==> "<EMAIL>"[i] != '&';
  }

  lemma ExampleCustomerText()
    ensures Param(IdentityToken((CustomerId, "<CUSTOMER ID>"))) == "d_cid_ic=customerid%01<CUSTOMER ID>"
  {
  }

  lemma ExampleEmailText()
    ensures Param(IdentityToken((Email, "<EMAIL>"))) == "d_cid_ic=email%01<EMAIL>"
  {
  }

  lemma ExampleIdentityTexts()
    ensures ParamTexts(MapSeq(IdentityToken, ExampleEntries))
            == ["d_cid_ic=customerid%01<CUSTOMER ID>", "d_cid_ic=email%01<EMAIL>"]
  {
    var m := MapSeq(IdentityToken, ExampleEntries);
    MapSeqIndex(IdentityToken, ExampleEntries, 0);
    MapSeqIndex(IdentityToken, ExampleEntries, 1);
    ExampleCustomerText();
    ExampleEmailText();
    assert Param(m[0]) == "d_cid_ic=customerid%01<CUSTOMER ID>";
    assert Param(m[1]) == "d_cid_ic=email%01<EMAIL>";
  }

  /** Visiting the customer id first, the parameters come out in append order. */
  lemma ExampleEntriesParams()
    ensures Params(EncodeIds(ExampleMid, ExampleOrgId, ExampleBlob, ExampleRegion,
                             ExamplePushId, ExampleGaid, ExampleIds, ExampleEntries))
            == ["d_mid=<MCID>", "d_orgid=<ORG ID>", "d_blob=<BLOB>", "dcs_region=<REGION>",
                "d_ptfm=android", "d_ver=2", "d_cid=20919%01<PUSH TOKEN>", "d_cid=20914%01<GAID>"]
               + ["d_cid_ic=customerid%01<CUSTOMER ID>", "d_cid_ic=email%01<EMAIL>"]
  {
    ExampleEntriesIterate();
    ExampleIdsSeparatorFree();
    EncodeIdsParams(ExampleMid, ExampleOrgId, ExampleBlob, ExampleRegion,
                    ExamplePushId, ExampleGaid, ExampleIds, ExampleEntries);
    var fixed := [Token(MidParam, "<MCID>"), Token(OrgIdParam, "<ORG ID>"), Token(BlobParam, "<BLOB>"),
                  Token(RegionParam, "<REGION>"), Token(PlatformParam, Platform), Token(VersionParam, Version),
                  Token(CustomIdParam, CodedValue(PushTokenCode, ExamplePushId)),
                  Token(CustomIdParam, CodedValue(AdvertisingIdCode, ExampleGaid))];
    AllPresentTokens("<MCID>", "<ORG ID>", "<BLOB>", "<REGION>", ExamplePushId, ExampleGaid, ExampleEntries);
    ParamTextsConcat(fixed, MapSeq(IdentityToken, ExampleEntries));
    ExampleFixedParams();
    ExampleIdentityTexts();
  }

  /** With a customer id and an e-mail address among the user identities,
      the query string carries the eight parameters above and one `d_cid_ic`
      parameter per identity, whichever order the hash map visits them in:
      the ten parameters the unit test lists. */
  lemma ExampleWithIdentities(entries: seq<Entry>)
    requires IsIterationOrder(entries, ExampleIds)
    ensures multiset(Params(EncodeIds(ExampleMid, ExampleOrgId, ExampleBlob, ExampleRegion,
                                      ExamplePushId, ExampleGaid, ExampleIds, entries)))
            == multiset(["d_mid=<MCID>", "d_orgid=<ORG ID>", "d_blob=<BLOB>", "dcs_region=<REGION>",
                         "d_ptfm=android", "d_ver=2", "d_cid=20919%01<PUSH TOKEN>", "d_cid=20914%01<GAID>"]
                        + ["d_cid_ic=customerid%01<CUSTOMER ID>", "d_cid_ic=email%01<EMAIL>"])
  {
    ExampleEntriesIterate();
    ExampleIdsSeparatorFree();
    EncodeIdsOrderIndependent(ExampleMid, ExampleOrgId, ExampleBlob, ExampleRegion,
                              ExamplePushId, ExampleGaid, ExampleIds, entries, ExampleEntries);
    ExampleEntriesParams();
  }
}
