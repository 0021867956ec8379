# Adobe kit for the mParticle Android SDK, modelled in Dafny

The kit forwards mParticle events to Adobe. This project models its four
pieces of sequential logic, for both of its source trees: a Kotlin tree and a
Java tree, whose `AdobeKit.kt` subclasses `AdobeKitBase.java`.

- **The identity-sync query string** (`UrlBuilder`, `encodeIds`,
  `getServerString`), in `url_builder.dfy` and `identity_encoding.dfy`.
  - The builder's real state is a text and a `hasValue` flag. It is paired
    with an abstract view: the sequence of `key=value` parameters appended
    so far.
  - The tests compare query strings by splitting at `&` and sorting. So
    the properties are stated over the parameters, and over their multiset.
  - The user-identity hash map is visited in an order the map does not
    promise. The model takes that order as a parameter (`entries`) and
    proves the multiset of parameters does not depend on it.
- **The cached integration attributes** (`mid`, `aamlh`, `aamb`), in
  `cached_attributes.dfy`: `parseResponse`, the cloud-id getters with their
  legacy fallbacks, the setters, and the media kit's `setMarketingCloudId`.
  - The two trees differ. The Kotlin `parseResponse` keeps the first cloud id
    stored; the Java one overwrites it. Both are modelled.
- **The `requestInProgress` / `deferred` flags of `syncIds`**, in
  `sync_ids.dfy`, as a state machine.
  - It has a call step and a request-completion step, and it counts the
    requests in flight.
- **The media kit's event handling**, in `media_attributes.dfy` and
  `media_kit.dfy`:
  - `logBaseEvent` dispatch;
  - the session-to-tracker map;
  - the recorded playhead;
  - `getMediaType`;
  - the key renaming of `toAdobeAttributes`.

  Adobe's tracker is replaced by a record of the calls made on it
  (`VendorCall`). A tracker is a number handed out when
  `Media.createTracker()` would be called. The mParticle and Adobe key
  constants are not in the source. They are two enumerations (`MediaKey`,
  `AdobeKey`), and every other attribute key is `Custom(name)`. The model
  assumes that no custom key spells one of the constants. Likewise the
  nineteen `MediaEventName` constants are an enumeration, and any other
  event name is `Unlisted(name)`. The `when` of `logBaseEvent` has no `else`,
  so such an event gets only the playhead update.

Shared pieces:
- `nullable.dfy`: `Option`, `KitUtils.isEmpty`, and a template's rendering
  of null as `"null"`.
- `decimal.dfy`: decimal text of integers, with its inverse.
- `seqs.dfy`: mapping over sequences, and hash-map iteration orders.

Where the code and its documented intent disagree, the model follows the code:
- `parseResponse` (both trees) writes `aamlh` and `aamb` whenever `d_mid` is
  present. When the response lacks them it writes `""` (`optString`), rather
  than leaving the old values alone.
- A `syncIds` call made while a request is in progress does not return after
  setting `deferred`. See Findings.

## Model

| member | source | states |
|---|---|---|
| UrlBuilder.Append | src/main/kotlin/com/mparticle/kits/AdobeKitBase.kt:225-238 | A null or empty key or value returns the builder unchanged; otherwise the pair is written and `hasValue` is set |
| UrlBuilder.AppendRepresents | src/main/java/com/mparticle/kits/AdobeKitBase.java:291-304 | After an append the text is still the `&`-join of the accepted pairs: the first pair is written without a separator and every later one after exactly one `&` |
| UrlBuilder.BuildRepresents | src/main/kotlin/com/mparticle/kits/AdobeKitBase.kt:141-153 | A whole chain of appends leaves the text equal to the join of every pair the chain accepted |
| UrlBuilder.BuiltText | src/main/kotlin/com/mparticle/kits/AdobeKitBase.kt:248-250 | `toString` of a fresh builder after a chain of appends is the `&`-join of the accepted pairs |
| UrlBuilder.IntIdentity | src/main/kotlin/com/mparticle/kits/AdobeKitBase.kt:240-242 | A numeric custom identity is always accepted, as `d_cid=<code>%01<value>`, with `null` printed for a missing value |
| UrlBuilder.StringIdentity | src/main/java/com/mparticle/kits/AdobeKitBase.java:310-312 | A named custom identity is always accepted, as `d_cid_ic=<name>%01<value>`, even with an empty name or value |
| UrlBuilder.RenderSeparators | src/main/kotlin/com/mparticle/kits/AdobeKitBase.kt:229-236 | n `&`-free parameters are joined by exactly n-1 separators; the text neither starts nor ends with `&` |
| UrlBuilder.RenderThenSplit | src/test/java/com/mparticle/kits/AdobeBaseTests.kt:49-62 | Splitting a rendered query string at `&` as the test does (dropping trailing empties) gives back exactly its parameters, in order |
| Decimal.DecimalRoundTrip | src/main/kotlin/com/mparticle/kits/AdobeKitBase.kt:240-241 | The decimal text that the template prints for an identity code reads back as that code |
| Decimal.DecimalInjective | src/main/java/com/mparticle/kits/AdobeKitBase.java:306-308 | Different identity codes print differently |
| Decimal.CanonicalUnique | src/main/kotlin/com/mparticle/kits/AdobeKit.kt:324 | A canonical decimal text is the `ToDecimal` text of the number it reads as, so canonical text that reads back to n is exactly the text `toString` gives for n |
| IdentityEncoding.ServerString | src/main/kotlin/com/mparticle/kits/AdobeKitBase.kt:272-285 | The server name is `""` exactly for types outside the ten-entry table |
| IdentityEncoding.ServerStringLowerAscii | src/main/kotlin/com/mparticle/kits/AdobeKitBase.kt:273-284 | Every server name is lower-case ASCII |
| IdentityEncoding.ServerStringInjective | src/main/java/com/mparticle/kits/AdobeKitBase.java:256-281 | Two identity types share a server name only if they are the same listed type |
| IdentityEncoding.EncodeIds | src/main/kotlin/com/mparticle/kits/AdobeKitBase.kt:132-154 | The query string is the `&`-join of the parameters the appends contribute, for any iteration order of the identity map |
| IdentityEncoding.FixedTokens | src/main/java/com/mparticle/kits/AdobeKitBase.java:169-184 | In append order: each of `d_mid`, `d_orgid`, `d_blob`, `dcs_region` if non-empty; then `d_ptfm=android`, `d_ver=2`, the push `d_cid` and the advertising `d_cid`; then one `d_cid_ic` per identity |
| IdentityEncoding.IdentityRequestsAccepted | src/main/kotlin/com/mparticle/kits/AdobeKitBase.kt:150-152 | Every user-identity entry yields exactly one `d_cid_ic` parameter, in iteration order |
| IdentityEncoding.ValuesByKey | src/main/kotlin/com/mparticle/kits/AdobeKitBase.kt:141-152 | The values under any parameter name are the sum of what each append contributes to that name |
| IdentityEncoding.EncodedTokensContents | src/main/kotlin/com/mparticle/kits/AdobeKitBase.kt:142-152 | Parameter by name: each optional field appears once iff non-empty; `android` and `2` always; the two `d_cid` values `20919%01<push>` and `20914%01<gaid>` always; one `d_cid_ic` value `<serverName>%01<value>` per identity |
| IdentityEncoding.EncodedTokensCount | src/main/java/com/mparticle/kits/AdobeKitBase.java:171-183 | The number of parameters is the number of non-empty optional fields, plus four, plus the number of identities |
| IdentityEncoding.EncodedTokensOrderIndependent | src/main/java/com/mparticle/kits/AdobeKitBase.java:180-182 | Two iteration orders of the same identity map give the same multiset of parameters |
| IdentityEncoding.EncodeIdsParams | src/main/kotlin/com/mparticle/kits/AdobeKitBase.kt:141-153 | When no argument contains `&`, splitting the query string at `&` gives exactly its parameters in append order |
| IdentityEncoding.EncodeIdsOrderIndependent | src/test/java/com/mparticle/kits/AdobeBaseTests.kt:49-62 | Under the test's comparison (split at `&`, then sort), the query strings of two iteration orders are equal |
| IdentityEncoding.ExampleWithoutIdentities | src/test/java/com/mparticle/kits/AdobeBaseTests.kt:19-21 | With no user identities, the test's arguments give exactly the eight expected parameters |
| IdentityEncoding.ExampleEntriesParams | src/test/java/com/mparticle/kits/AdobeBaseTests.kt:23-26 | With a customer id visited before an e-mail, the parameters come out as the eight fixed ones followed by the two `d_cid_ic` ones |
| IdentityEncoding.ExampleWithIdentities | src/test/java/com/mparticle/kits/AdobeBaseTests.kt:23-28 | For either iteration order of the test's two identities, the parameters equal the ten expected ones as a multiset |
| CachedAttributes.Put | src/main/java/com/mparticle/kits/AdobeKitBase.java:228-252 | A setter stores its value under its own key and leaves every other attribute unchanged |
| CachedAttributes.ParseResponseFirstWrite | src/main/kotlin/com/mparticle/kits/AdobeKitBase.kt:160-174 | Without `d_mid` nothing changes. Otherwise `mid` is written only when the stored one is null or empty, and `aamlh` and `aamb` are set to the response's values or `""`. No other key changes |
| CachedAttributes.ParseResponseOverwrite | src/main/java/com/mparticle/kits/AdobeKitBase.java:199-210 | Without `d_mid` nothing changes; otherwise `mid`, `aamlh` and `aamb` take the response's values (`""` for missing ones) and nothing else changes |
| CachedAttributes.VariantsAgreeUntilStored | src/main/kotlin/com/mparticle/kits/AdobeKitBase.kt:165-168 | The two variants differ only in `mid`, and not at all while no non-empty `mid` is stored |
| CachedAttributes.StoredCloudIdKept | src/main/kotlin/com/mparticle/kits/AdobeKitBase.kt:165-168 | A stored non-empty cloud id survives any run of responses |
| CachedAttributes.FirstCloudIdWins | src/main/kotlin/com/mparticle/kits/AdobeKitBase.kt:160-170 | Starting without a cloud id, the first non-empty `d_mid` of a run of responses is the one stored at the end |
| CachedAttributes.FirstWriteExample | src/main/kotlin/com/mparticle/kits/AdobeKitBase.kt:166-167 | A response with `d_mid=ABC` stores `ABC` into an empty cache, and leaves a cached `XYZ` in place |
| CachedAttributes.LastResponseWins | src/main/java/com/mparticle/kits/AdobeKitBase.java:201-206 | After a run of responses, `mid`, `aamlh` and `aamb` are those of the last response that carried `d_mid` |
| CachedAttributes.LastRegionAndBlobWin | src/main/kotlin/com/mparticle/kits/AdobeKitBase.kt:163-170 | `aamlh` and `aamb` come from the last response that carried `d_mid`, even where `mid` does not |
| CachedAttributes.CloudIdLookup | src/main/kotlin/com/mparticle/kits/AdobeKitBase.kt:180-197 | The getter returns the stored `mid` if non-empty, else `ADOBEMOBILE_PERSISTED_MID` if non-empty, else `ADBMOBILE_PERSISTED_MID`; it writes nothing |
| CachedAttributes.CloudIdFound | src/main/kotlin/com/mparticle/kits/AdobeKitBase.kt:182-196 | The getter finds a non-empty id exactly when one of the three places holds one |
| CachedAttributes.CloudIdWriteBack | src/main/java/com/mparticle/kits/AdobeKitBase.java:216-226 | The getter returns the stored `mid` if non-empty, else the measurement cache's value. It writes that value back only when it is non-empty and touches no other key |
| CachedAttributes.CloudIdWriteBackIdempotent | src/main/java/com/mparticle/kits/AdobeKitBase.java:217-223 | A second lookup returns the same id and writes nothing |
| CachedAttributes.SetCloudIdIfChanged | src/main/kotlin/com/mparticle/kits/AdobeKit.kt:120-126 | The media kit saves `mid` exactly when the id is non-empty and differs from the stored one; otherwise nothing changes |
| CachedAttributes.SetCloudIdIfChangedIsStore | src/main/kotlin/com/mparticle/kits/AdobeKit.kt:122-124 | The guard only saves a write: the attributes equal an unconditional store of a non-empty id |
| CachedAttributes.SetCloudIdIfChangedIdempotent | src/main/kotlin/com/mparticle/kits/AdobeKit.kt:120-126 | Setting the same id twice equals setting it once, and the second call saves nothing |
| SyncIds.Call | src/main/kotlin/com/mparticle/kits/AdobeKitBase.kt:94-99 | A call marks `deferred` when a request is in progress, always sets `requestInProgress`, and always schedules a request |
| SyncIds.Complete | src/main/kotlin/com/mparticle/kits/AdobeKitBase.kt:111-115 | A completion clears `requestInProgress`. If `deferred` was set, it clears it and calls again, which schedules another request |
| SyncIds.InvariantKept | src/main/java/com/mparticle/kits/AdobeKitBase.java:125-152 | Along any run, `deferred` implies `requestInProgress`, and `requestInProgress` implies a request is in flight |
| SyncIds.DrainSettles | src/main/java/com/mparticle/kits/AdobeKitBase.java:146-150 | Once every request has finished, both flags are clear, and exactly one more request was scheduled if a sync was deferred |
| SyncIds.BurstState | src/main/kotlin/com/mparticle/kits/AdobeKitBase.kt:94-117 | The flags and counts after n calls in a row, for the code as written and for the early-return variant |
| SyncIds.BurstOverlaps | src/main/kotlin/com/mparticle/kits/AdobeKitBase.kt:95-100 | As written, n >= 2 calls in a row put n requests in flight at once and schedule n+1 in all |
| SyncIds.TwoCallsOverlap | src/main/java/com/mparticle/kits/AdobeKitBase.java:126-131 | As written, two calls in a row put two requests in flight |
| SyncIds.CallDebounced | src/main/java/com/mparticle/kits/AdobeKitBase.java:125-129 | With a return after `deferred = true`, a busy call only records the deferral and schedules nothing |
| SyncIds.AtMostOneInFlight | src/main/kotlin/com/mparticle/kits/AdobeKitBase.kt:93-117 | With the early return, `requestInProgress` holds exactly when one request is in flight, and never more than one is |
| SyncIds.DebouncedDrainSettles | src/main/kotlin/com/mparticle/kits/AdobeKitBase.kt:111-116 | With the early return, a deferred sync is still carried out, by exactly one more request |
| SyncIds.DebouncedBurst | src/main/java/com/mparticle/kits/AdobeKitBase.java:125-152 | With the early return, n >= 2 calls in a row schedule exactly two requests, one at a time |
| SyncIds.Abort | src/main/kotlin/com/mparticle/kits/AdobeKitBase.kt:99-117 | A request whose runnable throws something other than `IOException` ends without clearing `requestInProgress` and without the deferred re-sync: only the in-flight count drops |
| SyncIds.AbortStrands | src/main/java/com/mparticle/kits/AdobeKitBase.java:131-152 | Aborting the only request in flight leaves `requestInProgress` set with nothing in flight, and a deferred sync is never carried out |
| SyncIds.AsWrittenRecovers | src/main/kotlin/com/mparticle/kits/AdobeKitBase.kt:94-99 | As written, the next call after such an abort still schedules a request; it also defers, so two requests follow and both flags end clear |
| SyncIds.DebouncedStaysStranded | src/main/java/com/mparticle/kits/AdobeKitBase.java:125-129 | With the early return, flags stranded by an abort are never cleared and no request is ever scheduled again, whatever calls follow |
| MediaAttributes.ToText | src/main/kotlin/com/mparticle/kits/AdobeKit.kt:324 | `toString` of a value: text as is, `true`/`false` for a flag, `null` for null, and for an integer canonical decimal text (no leading zero, no `-0`) that reads back to it; by `Decimal.CanonicalUnique` that text is unique |
| MediaAttributes.AdobeFor | src/main/kotlin/com/mparticle/kits/AdobeKit.kt:303-322 | The nineteen-entry renaming table, with `MediaFor` as its inverse |
| MediaAttributes.RenameTableBijective | src/main/java/com/mparticle/kits/AdobeKit.kt:219-238 | Every Adobe key of the table is the image of exactly the media key `MediaFor` names |
| MediaAttributes.Rename | src/main/kotlin/com/mparticle/kits/AdobeKit.kt:302-324 | A media key becomes its Adobe key; every other key is kept as it is |
| MediaAttributes.RenameSources | src/main/java/com/mparticle/kits/AdobeKit.kt:218-239 | Only a custom key itself is renamed to that custom key; exactly an Adobe key and its media key are renamed to that Adobe key; nothing is renamed to a media key |
| MediaAttributes.Associate | src/main/kotlin/com/mparticle/kits/AdobeKit.kt:301-302 | The result never has more entries than the input |
| MediaAttributes.AssociateKey | src/main/kotlin/com/mparticle/kits/AdobeKit.kt:301-325 | A key is in the result exactly when some entry is renamed to it |
| MediaAttributes.AssociateLastWins | src/main/java/com/mparticle/kits/AdobeKit.kt:217-241 | The value under a key is the text of the last entry renamed to it |
| MediaAttributes.AssociateSize | src/main/kotlin/com/mparticle/kits/AdobeKit.kt:301-325 | When no two entries are renamed alike, the result has as many entries as the input |
| MediaAttributes.ToAdobeAttributes | src/main/java/com/mparticle/kits/AdobeKit.kt:217-241 | The renamed map of a hash map iterated in some order has at most as many entries as the input |
| MediaAttributes.CustomKeyPasses | src/main/kotlin/com/mparticle/kits/AdobeKit.kt:323-324 | A key outside the table passes through, with its value turned into text |
| MediaAttributes.MediaKeyDropped | src/main/kotlin/com/mparticle/kits/AdobeKit.kt:303-322 | No media key of the table survives the renaming |
| MediaAttributes.AdobeKeyFilled | src/main/java/com/mparticle/kits/AdobeKit.kt:219-240 | An Adobe key is present iff it or its media key was. It carries the value of whichever one the input holds, and the value of one of them when it holds both |
| MediaAttributes.SizeWithoutClash | src/main/kotlin/com/mparticle/kits/AdobeKit.kt:301-325 | Unless a media key and its Adobe key are both present, the result has exactly as many entries as the input |
| MediaAttributes.OrderIndependent | src/main/java/com/mparticle/kits/AdobeKit.kt:217-241 | Without such a clash, the result does not depend on the iteration order |
| MediaAttributes.ClashSettledByOrder | src/main/kotlin/com/mparticle/kits/AdobeKit.kt:302-305 | With both `AD_CAMPAIGN` and `CAMPAIGN_ID` present, the one iterated later gives the value |
| MediaKit.GetMediaType | src/main/kotlin/com/mparticle/kits/AdobeKit.kt:293-299 | `AUDIO` becomes `Audio`, `VIDEO` becomes `Video`, and a missing content type becomes null |
| MediaKit.MediaTypeRoundTrip | src/main/java/com/mparticle/kits/AdobeKit.kt:209-215 | Each media type comes from its own content type: `AUDIO` gives `Audio` and `VIDEO` gives `Video` |
| MediaKit.MediaObject | src/main/kotlin/com/mparticle/kits/AdobeKit.kt:270-278 | The media object carries the media type of the content, and the duration in seconds, 0 when missing |
| MediaKit.QoeObject | src/main/kotlin/com/mparticle/kits/AdobeKit.kt:198-206 | Missing QoS fields become 0; the startup time is converted to seconds, the frame rate is passed as it is |
| MediaKit.AdBreakObject | src/main/java/com/mparticle/kits/AdobeKit.kt:196-202 | The ad-break object starts at the kit's playhead, in seconds |
| MediaKit.AdObject | src/main/kotlin/com/mparticle/kits/AdobeKit.kt:288-291 | The ad object's position is the ad's, or 0 |
| MediaKit.ChapterObject | src/main/java/com/mparticle/kits/AdobeKit.kt:178-184 | The chapter object starts at the kit's playhead, passed as a plain number |
| MediaKit.OnSession | src/main/java/com/mparticle/kits/AdobeKit.kt:106-112 | A `?.` call on the session's tracker is made once if the tracker exists, and not at all otherwise |
| MediaKit.StartSession | src/main/kotlin/com/mparticle/kits/AdobeKit.kt:177-182 | A null session id changes nothing. Otherwise the id gets a fresh tracker, replacing any old one, and the start is tracked on it with the media object and renamed attributes |
| MediaKit.EndSession | src/main/java/com/mparticle/kits/AdobeKit.kt:100-104 | A null session id changes nothing. Otherwise the end is tracked on the session's tracker if there is one, and only that session's entry is removed |
| MediaKit.RecordPlayhead | src/main/kotlin/com/mparticle/kits/AdobeKit.kt:145-148 | A playhead carried by the event is recorded, and the tracker maps are left alone |
| MediaKit.LogBaseEvent | src/main/kotlin/com/mparticle/kits/AdobeKit.kt:143-175 | Always returns null. A non-media event changes nothing. A media event leaves the playhead at the event's value, or at the old one if it has none |
| MediaKit.NoTrackerNoCalls | src/main/kotlin/com/mparticle/kits/AdobeKit.kt:190-259 | An event whose session has no tracker makes no tracker call, unless it starts that session |
| MediaKit.CallsGoToSessionTracker | src/main/java/com/mparticle/kits/AdobeKit.kt:59-98 | Every call goes to the tracker the event's session has before or after the event |
| MediaKit.OtherSessionsUntouched | src/main/kotlin/com/mparticle/kits/AdobeKit.kt:177-188 | No event changes the tracker of a session other than its own |
| MediaKit.TrackersChangeOnlyOnSessions | src/main/java/com/mparticle/kits/AdobeKit.kt:65-88 | Only session start and session end change the tracker map |
| MediaKit.AdSkipIsAdEnd | src/main/kotlin/com/mparticle/kits/AdobeKit.kt:157 | An ad skip is handled exactly as an ad end: `AdComplete` with the same ad object |
| MediaKit.SilentEvents | src/main/java/com/mparticle/kits/AdobeKit.kt:82-87 | Ad clicks, playhead updates and events whose name no branch of the `when` matches make no call beyond the playhead update, and change only the playhead |
| MediaKit.PlayheadFirst | src/main/java/com/mparticle/kits/AdobeKit.kt:59-127 | The playhead is recorded before dispatch, so an ad-break or segment start carrying a playhead sends the playhead update and then an ad-break or chapter object starting at that playhead |
| MediaKit.AtMostTwoCalls | src/main/kotlin/com/mparticle/kits/AdobeKit.kt:143-175 | Every media event makes at most two tracker calls |
| MediaKit.SessionCalls | src/main/java/com/mparticle/kits/AdobeKit.kt:66-67 | Session start and end make the playhead calls, then the calls of `sessionStart` and `sessionEnd` on the kit with the playhead recorded |
| MediaKit.PlayerCalls | src/main/kotlin/com/mparticle/kits/AdobeKit.kt:152-153 | After the playhead calls: play sends `trackPlay`, pause `trackPause`, and a QoS update the QoE object, or nothing when it carries no QoS data (kt:198-206) |
| MediaKit.AdCalls | src/main/java/com/mparticle/kits/AdobeKit.kt:70-72 | After the playhead calls: ad-break start and end send `AdBreakStart` and `AdBreakComplete` with the break object starting at the recorded playhead, and ad start sends `AdStart` with the ad object (handlers at 124-137) |
| MediaKit.ContentCalls | src/main/kotlin/com/mparticle/kits/AdobeKit.kt:159-162 | After the playhead calls: seek start and end and buffer start and end send `SeekStart`, `SeekComplete`, `BufferStart` and `BufferComplete` with the media object (handlers at 227-245) |
| MediaKit.SegmentCalls | src/main/java/com/mparticle/kits/AdobeKit.kt:79-81 | After the playhead calls: segment start, skip and end send `ChapterStart`, `ChapterSkip` and `ChapterComplete` with the chapter object starting at the recorded playhead (handlers at 163-176) |
| MediaKit.TrackersFreshKept | src/main/kotlin/com/mparticle/kits/AdobeKit.kt:177-188 | Every event keeps the property that tracker numbers are fresh and that no two sessions share a tracker |
| MediaKit.TrackersFreshAlways | src/main/java/com/mparticle/kits/AdobeKit.kt:93-104 | So does any run of events |
| MediaKit.StartThenEnd | src/main/kotlin/com/mparticle/kits/AdobeKit.kt:180-187 | Starting a new session and ending it restores the tracker map, with the start and end tracked on one fresh tracker |

## Left out

- HTTP: the connection, timeouts, status check and `IOException`, and the
  threading of `executeNetworkRequest`. A request is an abstract event of the
  sync machine. A response that is never parsed is simply not an event.
- JSON parsing: a response is a record of three optional strings. A missing
  `d_mid` stands for the exception `getString` throws.
- Android `SharedPreferences` and `Context`: the legacy stores are parameters
  of the getters. The pushed attribute map stands for `setIntegrationAttributes`.
- Ad-id lookup and the push instance id: they are plain arguments of
  `EncodeIds`. The Kotlin wrapper keeps the ad id only when its advertiser is
  Google; the Java wrapper asks for the Google ad id directly. Both wrappers
  are I/O glue.
- Java identity values that are null print as `null`. The identity map of the
  model has no null values.
- Adobe SDK registration, `MobileCore.start`, `configureWithAppID`, and the
  `Identity.getExperienceCloudId` callback. The callback's only effect is
  `SetCloudIdIfChanged`. `getInstance` and `AdobeApi` are also left out.
- `onKitCreate`'s reading of the org id and the audience-manager server: these
  are settings lookups.
- The listener callbacks that call `syncIds` (foreground, background,
  attributes, identities, push registration): each is one `SyncCalled` event.
- `logError` on the default tracker: a single forwarding call with no logic.
- Floating point: `toSeconds` and the double conversions are kept as integers
  tagged `SecondsOf` or `Plain`. Two tagged numbers that denote the same
  double are different values of the model (`Plain(0)` and `SecondsOf(0)`,
  `Plain(1)` and `SecondsOf(1000)`). Missing numbers use the tag of the
  present case. `toString` of a double attribute value and null attribute
  keys are not modelled.
- Sync machine: a completion with nothing in flight cannot happen, and `Run`
  skips it.
- SyncIds.Complete: models a request that ends normally or by a caught
  `IOException`. A request ended by another exception (for instance a null
  response reaching `parseResponse`) is the separate step `SyncIds.Abort`,
  which `Run` does not include. So `InvariantKept`, `DrainSettles` and
  `AtMostOneInFlight` cover only runs without such an exit. `AbortStrands`,
  `AsWrittenRecovers` and `DebouncedStaysStranded` say what happens after one.
- MediaAttributes.AdobeKeyFilled: when both a media key and its Adobe key are
  present, it says only that the value is one of the two. Which one depends
  on the hash-map order; `ClashSettledByOrder` shows both outcomes.
- IdentityEncoding.EncodedTokensContents: it lists the values of the eight
  names the kit writes. Other names get none, which `ValuesByKey` states.

## Findings

| source | as written | input that shows it | evidently intended | confidence | as-written member | corrected member |
|---|---|---|---|---|---|---|
| src/main/kotlin/com/mparticle/kits/AdobeKitBase.kt:94-99 | A call made while a request is in progress sets `deferred` but does not return. It schedules its own request anyway, and the completion of the first request schedules one more | Two `syncIds` calls before the first request completes: two requests in flight at once, three scheduled in all | A busy call only defers, so any burst gives at most one request in flight and two requests in all | medium; not executed | SyncIds.BurstOverlaps | SyncIds.AtMostOneInFlight |
| src/main/java/com/mparticle/kits/AdobeKitBase.java:125-129 | The same missing return in the Java tree | Two calls in a row, as above | As above | medium; not executed | SyncIds.TwoCallsOverlap | SyncIds.DebouncedBurst |

The early return is safe only if the flags are also cleared when a request
ends by an exception other than `IOException`. As written, the missing return
happens to recover from such an exit (`SyncIds.AsWrittenRecovers`). With the
return added and nothing else changed, syncing stops for good
(`SyncIds.DebouncedStaysStranded`).
