/**
 * The GetUpdates protocol state of the Brave Sync v2 client
 * (chromium_sync/client.py): store birthday, per-type progress markers and
 * the Nigori keys, entity decryption, and the parsing of bookmark, session
 * and history entities.
 *
 * The HTTP transport is left out: each request method takes the server's
 * reply as an input. Protobuf parsing of decrypted bytes is the uninterpreted
 * `parse` field of `Crypto`. Times stay in microseconds; "now" is an input.
 */
module SyncClient {
  import opened Util
  import opened Primitives
  import opened NigoriCrypto

  // Data type ids (sync_enums.proto / entity_specifics.proto field numbers).
  const BookmarkTypeId: int := 32904
  const SessionTypeId: int := 50119
  const TypedUrlTypeId: int := 40781
  const HistoryTypeId: int := 963985
  const NigoriTypeId: int := 47745
  const DeviceInfoTypeId: int := 154522

  const ProtocolVersion: int := 99
  /** SyncEnums.ErrorType.SUCCESS */
  const ErrorSuccess: int := 0

  datatype KeyDerivationMethod = Unspecified | Pbkdf2HmacSha1Iter1003 | Scrypt8192R8P11

  datatype NigoriSpecifics = NigoriSpecifics(derivation: KeyDerivationMethod, saltB64: string)
  datatype BookmarkSpecifics = BookmarkSpecifics(url: string, title: string, creationTimeUs: int, isFolderType: bool)
  datatype Navigation = Navigation(virtualUrl: string, title: string, faviconUrl: Option<string>)
  datatype TabSpecifics = TabSpecifics(navigations: seq<Navigation>, timestampUsec: int)
  /** `header` carries the header's client_name when the header field is set. */
  datatype SessionSpecifics = SessionSpecifics(sessionTag: string, header: Option<string>, tab: Option<TabSpecifics>)
  datatype TypedUrlSpecifics = TypedUrlSpecifics(url: string, title: string, visits: seq<int>)
  datatype HistorySpecifics = HistorySpecifics(url: Option<string>, title: Option<string>,
                                               lastVisitTimeUsec: int, visitCount: Option<int>)

  datatype Variant =
    | NoVariant
    | BookmarkVariant(bookmark: BookmarkSpecifics)
    | SessionVariant(session: SessionSpecifics)
    | TypedUrlVariant(typedUrl: TypedUrlSpecifics)
    | HistoryVariant(history: HistorySpecifics)
    | NigoriVariant(nigori: NigoriSpecifics)

  /** EntitySpecifics: the `encrypted` blob (base64 text) and the specifics variant. */
  datatype Specifics = Specifics(encrypted: Option<string>, variant: Variant)
  datatype SyncEntity = SyncEntity(idString: string, parentIdString: string, specifics: Specifics)

  datatype ProgressMarker = ProgressMarker(dataTypeId: int, token: Option<Bytes>)
  datatype NewMarker = NewMarker(dataTypeId: int, token: Bytes)
  datatype GetUpdatesMessage = GetUpdatesMessage(protocolVersion: int, storeBirthday: Option<string>,
                                                 origin: int, fromProgressMarkers: seq<ProgressMarker>)
  /** What the server answers: HTTP status and body text, then the decoded ClientToServerResponse. */
  datatype Reply = Reply(statusCode: int, text: string, errorCode: int, errorMessage: string,
                         storeBirthday: string, newProgressMarkers: seq<NewMarker>, entries: seq<SyncEntity>)

  datatype Bookmark = Bookmark(id: string, url: string, title: string, parentId: Option<string>,
                               creationTimeUs: Option<int>, isFolder: bool, position: int)
  datatype Tab = Tab(url: string, title: string, faviconUrl: Option<string>, lastActiveUs: Option<int>)
  datatype Device = Device(name: string, deviceType: string, tabs: seq<Tab>)
  datatype HistoryEntry = HistoryEntry(url: string, title: string, visitTimeUs: int, visitCount: int)

  datatype Crypto = Crypto(ciphers: Ciphers, codec: Codec, parse: Bytes -> Option<Specifics>)

  /**
   * `_decrypt_entity`: nothing without keys (even for plain specifics); plain
   * specifics unchanged; any base64, MAC or parse failure becomes None.
   */
  function DecryptEntity(cr: Crypto, keys: Option<NigoriKeys>, e: SyncEntity): (r: Option<Specifics>)
    requires CiphersSound(cr.ciphers)
    ensures keys.None? ==> r == None
    ensures keys.Some? && e.specifics.encrypted.None? ==> r == Some(e.specifics)
    ensures keys.Some? && e.specifics.encrypted.Some? ==>
              var d := DecryptEncryptedData(cr.ciphers, cr.codec, e.specifics.encrypted.value, keys.value);
              r == (if d.Ok? then cr.parse(d.value) else None)
  {
    if keys.None? then None
    else if e.specifics.encrypted.None? then Some(e.specifics)
    else
      match DecryptEncryptedData(cr.ciphers, cr.codec, e.specifics.encrypted.value, keys.value)
      case Err(_) => None
      case Ok(bytes) => cr.parse(bytes)
  }

  /** An entity encrypted under the client's keys decrypts back to the specifics that were serialised. */
  lemma DecryptEntityRoundTrip(cr: Crypto, keys: NigoriKeys, iv: Bytes, plain: Bytes, sp: Specifics,
                               id: string, parent: string, v: Variant)
    requires CiphersSound(cr.ciphers) && CodecSound(cr.codec) && |iv| == IvLength
    requires cr.parse(plain) == Some(sp)
    ensures var blob := cr.codec.b64encode(Encrypt(cr.ciphers, keys, iv, plain));
            DecryptEntity(cr, Some(keys), SyncEntity(id, parent, Specifics(Some(blob), v))) == Some(sp)
  {
    RoundTrip(cr.ciphers, keys, iv, plain);
  }

  // ---- progress markers ----

  /** The marker table after writing the reply's markers in order (a later marker for a type wins). */
  function ApplyMarkers(m: map<int, Bytes>, ms: seq<NewMarker>): map<int, Bytes> {
    if |ms| == 0 then m
    else ApplyMarkers(m, ms[..|ms| - 1])[ms[|ms| - 1].dataTypeId := ms[|ms| - 1].token]
  }

  predicate Mentions(ms: seq<NewMarker>, t: int) {
    exists i :: 0 <= i < |ms| && ms[i].dataTypeId == t
  }

  /** The token of the last marker for `t`. */
  function LastToken(ms: seq<NewMarker>, t: int): Bytes
    requires Mentions(ms, t)
  {
    if ms[|ms| - 1].dataTypeId == t then ms[|ms| - 1].token
    else
      var i :| 0 <= i < |ms| && ms[i].dataTypeId == t;
      assert ms[..|ms| - 1][i] == ms[i];
      LastToken(ms[..|ms| - 1], t)
  }

  /**
   * `get_updates` writes exactly the types named in `new_progress_marker`:
   * each gets the token of its last marker, and every other type keeps its
   * old token (or stays absent).
   */
  lemma {:induction false} ApplyMarkersExactly(m: map<int, Bytes>, ms: seq<NewMarker>, t: int)
    ensures Mentions(ms, t) ==> t in ApplyMarkers(m, ms) && ApplyMarkers(m, ms)[t] == LastToken(ms, t)
    ensures !Mentions(ms, t) ==> (t in ApplyMarkers(m, ms) <==> t in m)
                                 && (t in m ==> ApplyMarkers(m, ms)[t] == m[t])
  {
    if |ms| > 0 {
      var init := ms[..|ms| - 1];
      ApplyMarkersExactly(m, init, t);
      assert forall i :: 0 <= i < |init| ==> init[i] == ms[i];
      if ms[|ms| - 1].dataTypeId != t && Mentions(ms, t) {
        var i :| 0 <= i < |ms| && ms[i].dataTypeId == t;
        assert init[i] == ms[i];
      }
    }
  }

  // ---- nigori ----

  /** The Nigori specifics of the first entity that carries one. */
  function FirstNigori(entities: seq<SyncEntity>): (r: Option<NigoriSpecifics>)
    ensures r.None? <==> forall k :: 0 <= k < |entities| ==> !entities[k].specifics.variant.NigoriVariant?
    ensures r.Some? ==> exists k :: 0 <= k < |entities| && entities[k].specifics.variant == NigoriVariant(r.value)
                                    && forall j :: 0 <= j < k ==> !entities[j].specifics.variant.NigoriVariant?
  {
    if |entities| == 0 then None
    else if entities[0].specifics.variant.NigoriVariant? then Some(entities[0].specifics.variant.nigori)
    else
      var r := FirstNigori(entities[1..]);
      assert forall j :: 1 <= j < |entities| ==> entities[j] == entities[1..][j - 1];
      r
  }

  /**
   * The key-setting decision of `initialize_encryption` once a Nigori entity
   * is found: (salt to store, keys) or the error it raises.
   */
  function KeysFromNigori(cr: Crypto, nigori: NigoriSpecifics, passphrase: string): (r: Result<(Option<Bytes>, NigoriKeys)>)
    requires CiphersSound(cr.ciphers)
    ensures nigori.derivation == Scrypt8192R8P11 && nigori.saltB64 == "" ==> r == Err("Nigori uses scrypt but no salt provided")
    ensures nigori.derivation == Scrypt8192R8P11 && r.Ok? ==>
              var salt := cr.codec.b64decode(nigori.saltB64);
              salt.Some? && r.value == (salt, DeriveKeysScrypt(cr.ciphers, cr.codec, passphrase, salt.value))
    ensures nigori.derivation == Scrypt8192R8P11 && nigori.saltB64 != "" ==>
              (r.Ok? <==> cr.codec.b64decode(nigori.saltB64).Some?)
    ensures nigori.derivation == Scrypt8192R8P11 && nigori.saltB64 != "" && cr.codec.b64decode(nigori.saltB64).None? ==>
              r == Err("Invalid base64-encoded string")
    ensures nigori.derivation != Scrypt8192R8P11 ==> r == Ok((None, DeriveKeysPbkdf2(cr.ciphers, cr.codec, passphrase)))
  {
    if nigori.derivation == Scrypt8192R8P11 then
      if nigori.saltB64 == "" then Err("Nigori uses scrypt but no salt provided")
      else
        match cr.codec.b64decode(nigori.saltB64)
        case None => Err("Invalid base64-encoded string")
        case Some(salt) => Ok((Some(salt), DeriveKeysScrypt(cr.ciphers, cr.codec, passphrase, salt)))
    else Ok((None, DeriveKeysPbkdf2(cr.ciphers, cr.codec, passphrase)))
  }

  // ---- bookmarks ----

  function BookmarkOf(e: SyncEntity, b: BookmarkSpecifics): (r: Bookmark)
    ensures r.id == e.idString && r.position == 0
    ensures r.parentId.None? <==> e.parentIdString == ""
    ensures r.isFolder <==> b.isFolderType
  {
    Bookmark(e.idString, b.url, b.title,
             if e.parentIdString == "" then None else Some(e.parentIdString),
             if b.creationTimeUs == 0 then None else Some(b.creationTimeUs),
             b.isFolderType, 0)
  }

  /** What `fetch_bookmarks` returns for these entities: one entry per decryptable bookmark, in order. */
  function Bookmarks(cr: Crypto, keys: Option<NigoriKeys>, entities: seq<SyncEntity>): (r: seq<Bookmark>)
    requires CiphersSound(cr.ciphers)
    ensures |r| <= |entities|
    ensures keys.None? ==> r == []
  {
    if |entities| == 0 then []
    else
      var e := entities[|entities| - 1];
      var rest := Bookmarks(cr, keys, entities[..|entities| - 1]);
      match DecryptEntity(cr, keys, e)
      case Some(Specifics(_, BookmarkVariant(b))) => rest + [BookmarkOf(e, b)]
      case _ => rest
  }

  // ---- sessions ----

  /** The `devices` dict of `fetch_sessions`: tags in first-seen order and the device per tag. */
  datatype DeviceTable = DeviceTable(tags: seq<string>, byTag: map<string, Device>)

  ghost predicate TableValid(t: DeviceTable) {
    (forall k :: k in t.byTag <==> k in t.tags)
    && (forall i, j :: 0 <= i < j < |t.tags| ==> t.tags[i] != t.tags[j])
  }

  const UnknownDevice := "Unknown Device"

  function TabOf(nav: Navigation, tab: TabSpecifics): Tab {
    Tab(nav.virtualUrl, nav.title, nav.faviconUrl, if tab.timestampUsec == 0 then None else Some(tab.timestampUsec))
  }

  /** One session record: a header opens its device only for an unseen tag; a tab adds its last navigation. */
  function SessionStep(t: DeviceTable, s: SessionSpecifics): (r: DeviceTable)
    requires TableValid(t)
    ensures TableValid(r)
    ensures t.tags <= r.tags
    ensures forall k :: k in t.byTag ==> r.byTag[k].name == t.byTag[k].name
    ensures forall k :: k in r.byTag <==> k in t.byTag || (k == s.sessionTag && (s.header.Some? || s.tab.Some?))
    ensures s.sessionTag !in t.byTag && (s.header.Some? || s.tab.Some?) ==>
              s.sessionTag in r.byTag && r.byTag[s.sessionTag].name == (if s.header.Some? && s.header.value != "" then s.header.value else UnknownDevice)
    ensures s.header.None? && s.tab.Some? ==>
              var before := if s.sessionTag in t.byTag then t.byTag[s.sessionTag].tabs else [];
              var navs := s.tab.value.navigations;
              s.sessionTag in r.byTag && r.byTag[s.sessionTag].tabs == before + (if |navs| > 0 then [TabOf(navs[|navs| - 1], s.tab.value)] else [])
  {
    var tag := s.sessionTag;
    if s.header.Some? then
      if tag in t.byTag then t
      else
        var name := if s.header.value != "" then s.header.value else UnknownDevice;
        DeviceTable(t.tags + [tag], t.byTag[tag := Device(name, "unknown", [])])
    else if s.tab.Some? then
      var t1 := if tag in t.byTag then t
                else DeviceTable(t.tags + [tag], t.byTag[tag := Device(UnknownDevice, "unknown", [])]);
      var navs := s.tab.value.navigations;
      if |navs| > 0 then
        var d := t1.byTag[tag];
        DeviceTable(t1.tags, t1.byTag[tag := d.(tabs := d.tabs + [TabOf(navs[|navs| - 1], s.tab.value)])])
      else t1
    else t
  }

  /** The session specifics `fetch_sessions` looks at: those that decrypt and carry a session. */
  function SessionOf(cr: Crypto, keys: Option<NigoriKeys>, e: SyncEntity): Option<SessionSpecifics>
    requires CiphersSound(cr.ciphers)
  {
    match DecryptEntity(cr, keys, e)
    case Some(Specifics(_, SessionVariant(s))) => Some(s)
    case _ => None
  }

  function SessionTable(cr: Crypto, keys: Option<NigoriKeys>, entities: seq<SyncEntity>): (r: DeviceTable)
    requires CiphersSound(cr.ciphers)
    ensures TableValid(r)
  {
    if |entities| == 0 then DeviceTable([], map[])
    else
      var t := SessionTable(cr, keys, entities[..|entities| - 1]);
      match SessionOf(cr, keys, entities[|entities| - 1])
      case None => t
      case Some(s) => SessionStep(t, s)
  }

  /** The name a device gets: decided by the first record with its tag. */
  function FirstName(cr: Crypto, keys: Option<NigoriKeys>, entities: seq<SyncEntity>, tag: string): Option<string>
    requires CiphersSound(cr.ciphers)
  {
    if |entities| == 0 then None
    else
      match SessionOf(cr, keys, entities[0])
      case Some(s) =>
        if s.sessionTag == tag && s.header.Some? then Some(if s.header.value != "" then s.header.value else UnknownDevice)
        else if s.sessionTag == tag && s.tab.Some? then Some(UnknownDevice)
        else FirstName(cr, keys, entities[1..], tag)
      case None => FirstName(cr, keys, entities[1..], tag)
  }

  /** Two tables agree on `tag`: both hold it or neither does, and the device names match. */
  predicate AgreeOn(t1: DeviceTable, t2: DeviceTable, tag: string) {
    (tag in t1.byTag <==> tag in t2.byTag)
    && (tag in t1.byTag ==> t1.byTag[tag].name == t2.byTag[tag].name)
  }

  lemma StepAgrees(t1: DeviceTable, t2: DeviceTable, s: SessionSpecifics, tag: string)
    requires TableValid(t1) && TableValid(t2) && AgreeOn(t1, t2, tag)
    ensures AgreeOn(SessionStep(t1, s), SessionStep(t2, s), tag)
  {
  }

  lemma StepKeepsName(t: DeviceTable, s: SessionSpecifics, tag: string)
    requires TableValid(t) && tag in t.byTag
    ensures tag in SessionStep(t, s).byTag && SessionStep(t, s).byTag[tag].name == t.byTag[tag].name
  {
  }

  /** Once a device is in the table, later records keep it and never rename it. */
  lemma {:induction false} NameKept(cr: Crypto, keys: Option<NigoriKeys>, entities: seq<SyncEntity>, n: nat, tag: string)
    requires CiphersSound(cr.ciphers)
    requires n <= |entities| && tag in SessionTable(cr, keys, entities[..n]).byTag
    ensures tag in SessionTable(cr, keys, entities).byTag
    ensures SessionTable(cr, keys, entities).byTag[tag].name == SessionTable(cr, keys, entities[..n]).byTag[tag].name
    decreases |entities|
  {
    if n == |entities| {
      assert entities[..n] == entities;
    } else {
      var init := entities[..|entities| - 1];
      assert init[..n] == entities[..n];
      NameKept(cr, keys, init, n, tag);
      var last := SessionOf(cr, keys, entities[|entities| - 1]);
      if last.Some? {
        StepKeepsName(SessionTable(cr, keys, init), last.value, tag);
      }
    }
  }

  /** When the first record does not open `tag`, the table agrees on `tag` with the one built without that record. */
  lemma {:induction false} FirstRecordIrrelevant(cr: Crypto, keys: Option<NigoriKeys>, first: SyncEntity, rest: seq<SyncEntity>, tag: string)
    requires CiphersSound(cr.ciphers)
    requires tag !in SessionTable(cr, keys, [first]).byTag
    ensures AgreeOn(SessionTable(cr, keys, [first] + rest), SessionTable(cr, keys, rest), tag)
    decreases |rest|
  {
    if |rest| == 0 {
      assert [first] + rest == [first];
    } else {
      var all := [first] + rest;
      assert all[..|all| - 1] == [first] + rest[..|rest| - 1];
      FirstRecordIrrelevant(cr, keys, first, rest[..|rest| - 1], tag);
      var t1 := SessionTable(cr, keys, [first] + rest[..|rest| - 1]);
      var t2 := SessionTable(cr, keys, rest[..|rest| - 1]);
      var last := SessionOf(cr, keys, rest[|rest| - 1]);
      if last.Some? {
        StepAgrees(t1, t2, last.value, tag);
      }
    }
  }

  /**
   * A device's name is fixed by the first session record with its tag: a
   * header arriving after a tab for the same tag leaves "Unknown Device".
   */
  lemma {:induction false} DeviceNameFromFirstRecord(cr: Crypto, keys: Option<NigoriKeys>, entities: seq<SyncEntity>, tag: string)
    requires CiphersSound(cr.ciphers)
    ensures var t := SessionTable(cr, keys, entities);
            tag in t.byTag <==> FirstName(cr, keys, entities, tag).Some?
    ensures var t := SessionTable(cr, keys, entities);
            tag in t.byTag ==> t.byTag[tag].name == FirstName(cr, keys, entities, tag).value
    decreases |entities|
  {
    if |entities| > 0 {
      var first, rest := entities[0], entities[1..];
      assert entities == [first] + rest;
      assert [first][..0] == [];
      if tag in SessionTable(cr, keys, [first]).byTag {
        assert entities[..1] == [first];
        NameKept(cr, keys, entities, 1, tag);
      } else {
        FirstRecordIrrelevant(cr, keys, first, rest, tag);
        DeviceNameFromFirstRecord(cr, keys, rest, tag);
      }
    }
  }

  function DeviceList(t: DeviceTable): (r: seq<Device>)
    requires TableValid(t)
    ensures |r| == |t.tags|
  {
    seq(|t.tags|, i requires 0 <= i < |t.tags| => t.byTag[t.tags[i]])
  }

  // ---- history ----

  function MaxOf(s: seq<int>): (m: int)
    requires |s| > 0
    ensures m in s
    ensures forall i :: 0 <= i < |s| ==> s[i] <= m
  {
    if |s| == 1 then s[0]
    else
      var m := MaxOf(s[..|s| - 1]);
      assert s[..|s| - 1] + [s[|s| - 1]] == s;
      if s[|s| - 1] > m then s[|s| - 1] else m
  }

  /**
   * One `fetch_history` record: a typed URL counts its visits and takes the
   * latest one; a history record defaults its count to 1; anything else is skipped.
   */
  function HistoryEntryOf(sp: Specifics, nowUs: int): (r: Option<HistoryEntry>)
    ensures sp.variant.TypedUrlVariant? ==>
              var v := sp.variant.typedUrl.visits;
              r.Some? && r.value.visitCount == |v|
              && r.value.visitTimeUs == (if |v| > 0 && MaxOf(v) != 0 then MaxOf(v) else nowUs)
    ensures sp.variant.HistoryVariant? ==>
              var h := sp.variant.history;
              r.Some? && r.value.visitCount == (if h.visitCount.Some? then h.visitCount.value else 1)
              && r.value.visitTimeUs == (if h.lastVisitTimeUsec != 0 then h.lastVisitTimeUsec else nowUs)
    ensures !sp.variant.TypedUrlVariant? && !sp.variant.HistoryVariant? ==> r.None?
  {
    match sp.variant
    case TypedUrlVariant(tu) =>
      var latest := if |tu.visits| > 0 then MaxOf(tu.visits) else 0;
      Some(HistoryEntry(tu.url, tu.title, if latest != 0 then latest else nowUs, |tu.visits|))
    case HistoryVariant(h) =>
      Some(HistoryEntry(if h.url.Some? then h.url.value else "",
                        if h.title.Some? then h.title.value else "",
                        if h.lastVisitTimeUsec != 0 then h.lastVisitTimeUsec else nowUs,
                        if h.visitCount.Some? then h.visitCount.value else 1))
    case _ => None
  }

  function History(cr: Crypto, keys: Option<NigoriKeys>, entities: seq<SyncEntity>, nowUs: int): (r: seq<HistoryEntry>)
    requires CiphersSound(cr.ciphers)
    ensures |r| <= |entities|
  {
    if |entities| == 0 then []
    else
      var rest := History(cr, keys, entities[..|entities| - 1], nowUs);
      match DecryptEntity(cr, keys, entities[|entities| - 1])
      case None => rest
      case Some(sp) =>
        match HistoryEntryOf(sp, nowUs)
        case None => rest
        case Some(h) => rest + [h]
  }

  const NoNigori := "No Nigori entity found - sync chain may not exist"

  class Client {
    const crypto: Crypto
    const cacheGuid: string
    var storeBirthday: Option<string>
    var progressMarkers: map<int, Bytes>
    var nigoriKeys: Option<NigoriKeys>
    var nigoriSalt: Option<Bytes>

    ghost predicate Valid() {
      CiphersSound(crypto.ciphers)
    }

    /** A fresh client: no birthday, no markers, no keys; the cache guid is a fresh uuid4 (an input). */
    constructor (crypto: Crypto, cacheGuid: string)
      requires CiphersSound(crypto.ciphers)
      ensures Valid()
      ensures this.crypto == crypto && this.cacheGuid == cacheGuid
      ensures storeBirthday == None && progressMarkers == map[] && nigoriKeys == None && nigoriSalt == None
    {
      this.crypto := crypto;
      this.cacheGuid := cacheGuid;
      storeBirthday := None;
      progressMarkers := map[];
      nigoriKeys := None;
      nigoriSalt := None;
    }

    /**
     * `_request`: a non-200 status or a non-SUCCESS error code is a SyncError;
     * otherwise a non-empty birthday in the reply overwrites the stored one,
     * without comparing it to the old value.
     */
    method Request(reply: Reply) returns (r: Result<Reply>)
      modifies this`storeBirthday
      ensures r.Ok? <==> reply.statusCode == 200 && reply.errorCode == ErrorSuccess
      ensures r.Ok? ==> r.value == reply
      ensures reply.statusCode != 200 ==>
                r == Err("Sync request failed: " + IntDecimal(reply.statusCode) + " " + reply.text)
      ensures storeBirthday == (if r.Ok? && reply.storeBirthday != "" then Some(reply.storeBirthday) else old(storeBirthday))
    {
      if reply.statusCode != 200 {
        return Err("Sync request failed: " + IntDecimal(reply.statusCode) + " " + reply.text);
      }
      if reply.errorCode != ErrorSuccess {
        return Err("Sync error: " + reply.errorMessage + " (code " + IntDecimal(reply.errorCode) + ")");
      }
      if reply.storeBirthday != "" {
        storeBirthday := Some(reply.storeBirthday);
      }
      return Ok(reply);
    }

    /**
     * `_create_get_updates_message`: the birthday is sent iff one is known,
     * and there is one marker per requested type, in request order, carrying
     * the stored token iff the type has one.
     */
    method CreateGetUpdatesMessage(dataTypes: seq<int>, origin: int) returns (msg: GetUpdatesMessage)
      ensures msg.protocolVersion == ProtocolVersion && msg.origin == origin
      ensures msg.storeBirthday.Some? <==> storeBirthday.Some? && storeBirthday.value != ""
      ensures msg.storeBirthday.Some? ==> msg.storeBirthday == storeBirthday
      ensures |msg.fromProgressMarkers| == |dataTypes|
      ensures forall i :: 0 <= i < |dataTypes| ==>
                msg.fromProgressMarkers[i].dataTypeId == dataTypes[i]
                && (msg.fromProgressMarkers[i].token.Some? <==> dataTypes[i] in progressMarkers)
                && (dataTypes[i] in progressMarkers ==> msg.fromProgressMarkers[i].token == Some(progressMarkers[dataTypes[i]]))
    {
      var birthday := if storeBirthday.Some? && storeBirthday.value != "" then storeBirthday else None;
      var markers: seq<ProgressMarker> := [];
      var i := 0;
      while i < |dataTypes|
        invariant 0 <= i <= |dataTypes|
        invariant |markers| == i
        invariant forall k :: 0 <= k < i ==>
                    markers[k].dataTypeId == dataTypes[k]
                    && (markers[k].token.Some? <==> dataTypes[k] in progressMarkers)
                    && (dataTypes[k] in progressMarkers ==> markers[k].token == Some(progressMarkers[dataTypes[k]]))
      {
        var t := dataTypes[i];
        var token := if t in progressMarkers then Some(progressMarkers[t]) else None;
        markers := markers + [ProgressMarker(t, token)];
        i := i + 1;
      }
      msg := GetUpdatesMessage(ProtocolVersion, birthday, origin, markers);
    }

    /** `get_updates`, given the server's reply to the request it builds. */
    method GetUpdates(dataTypes: seq<int>, origin: int, reply: Reply) returns (r: Result<seq<SyncEntity>>)
      modifies this`storeBirthday, this`progressMarkers
      ensures r.Ok? <==> reply.statusCode == 200 && reply.errorCode == ErrorSuccess
      ensures r.Ok? ==> r.value == reply.entries
      ensures progressMarkers == if r.Ok? then ApplyMarkers(old(progressMarkers), reply.newProgressMarkers)
                                 else old(progressMarkers)
      ensures storeBirthday == (if r.Ok? && reply.storeBirthday != "" then Some(reply.storeBirthday) else old(storeBirthday))
    {
      var msg := CreateGetUpdatesMessage(dataTypes, origin);
      var resp := Request(reply);
      if resp.Err? {
        return Err(resp.message);
      }
      var ms := reply.newProgressMarkers;
      var i := 0;
      while i < |ms|
        invariant 0 <= i <= |ms|
        invariant storeBirthday == (if reply.storeBirthday != "" then Some(reply.storeBirthday) else old(storeBirthday))
        invariant progressMarkers == ApplyMarkers(old(progressMarkers), ms[..i])
      {
        assert ms[..i + 1][..i] == ms[..i];
        progressMarkers := progressMarkers[ms[i].dataTypeId := ms[i].token];
        i := i + 1;
      }
      assert ms[..|ms|] == ms;
      return Ok(reply.entries);
    }

    /** The search loop of `fetch_nigori`. */
    static method FindNigori(entities: seq<SyncEntity>) returns (n: Option<NigoriSpecifics>)
      ensures n == FirstNigori(entities)
    {
      var i := 0;
      while i < |entities|
        invariant 0 <= i <= |entities|
        invariant FirstNigori(entities) == FirstNigori(entities[i..])
      {
        if entities[i].specifics.variant.NigoriVariant? {
          return Some(entities[i].specifics.variant.nigori);
        }
        assert entities[i..][1..] == entities[i + 1..];
        i := i + 1;
      }
      return None;
    }

    /**
     * `initialize_encryption`: no Nigori entity is an error; otherwise the keys
     * (and for scrypt the decoded salt) come from `KeysFromNigori`.
     */
    method InitializeEncryption(passphrase: string, origin: int, reply: Reply) returns (r: Result<bool>)
      requires Valid()
      modifies this`storeBirthday, this`progressMarkers, this`nigoriKeys, this`nigoriSalt
      ensures r.Ok? ==> r.value
      ensures reply.statusCode == 200 && reply.errorCode == ErrorSuccess && FirstNigori(reply.entries).None?
              ==> r == Err(NoNigori)
      ensures r.Ok? <==> reply.statusCode == 200 && reply.errorCode == ErrorSuccess
                         && FirstNigori(reply.entries).Some?
                         && KeysFromNigori(crypto, FirstNigori(reply.entries).value, passphrase).Ok?
      ensures r.Ok? ==>
                var d := KeysFromNigori(crypto, FirstNigori(reply.entries).value, passphrase).value;
                nigoriKeys == Some(d.1) && nigoriSalt == (if d.0.Some? then d.0 else old(nigoriSalt))
      ensures r.Err? ==> nigoriKeys == old(nigoriKeys) && nigoriSalt == old(nigoriSalt)
    {
      var entities := GetUpdates([NigoriTypeId], origin, reply);
      if entities.Err? {
        return Err(entities.message);
      }
      var nigori := FindNigori(entities.value);
      if nigori.None? {
        return Err(NoNigori);
      }
      var derived := KeysFromNigori(crypto, nigori.value, passphrase);
      if derived.Err? {
        return Err(derived.message);
      }
      if derived.value.0.Some? {
        nigoriSalt := derived.value.0;
      }
      nigoriKeys := Some(derived.value.1);
      return Ok(true);
    }

    /** The loop of `fetch_bookmarks` over the entities of the BOOKMARK request. */
    method BookmarksFrom(entities: seq<SyncEntity>) returns (bookmarks: seq<Bookmark>)
      requires Valid()
      ensures bookmarks == Bookmarks(crypto, nigoriKeys, entities)
    {
      bookmarks := [];
      var i := 0;
      while i < |entities|
        invariant 0 <= i <= |entities|
        invariant bookmarks == Bookmarks(crypto, nigoriKeys, entities[..i])
      {
        assert entities[..i + 1][..i] == entities[..i];
        var e := entities[i];
        var sp := DecryptEntity(crypto, nigoriKeys, e);
        if sp.Some? && sp.value.variant.BookmarkVariant? {
          bookmarks := bookmarks + [BookmarkOf(e, sp.value.variant.bookmark)];
        }
        i := i + 1;
      }
      assert entities[..|entities|] == entities;
    }

    /** The loop of `fetch_sessions`: devices keyed by session tag, returned in first-seen order. */
    method DevicesFrom(entities: seq<SyncEntity>) returns (devices: seq<Device>)
      requires Valid()
      ensures devices == DeviceList(SessionTable(crypto, nigoriKeys, entities))
    {
      var table := DeviceTable([], map[]);
      var i := 0;
      while i < |entities|
        invariant 0 <= i <= |entities|
        invariant table == SessionTable(crypto, nigoriKeys, entities[..i])
      {
        assert entities[..i + 1][..i] == entities[..i];
        var s := SessionOf(crypto, nigoriKeys, entities[i]);
        if s.Some? {
          table := SessionStep(table, s.value);
        }
        i := i + 1;
      }
      assert entities[..|entities|] == entities;
      devices := DeviceList(table);
    }

    /** The loop of `fetch_history` over the TYPED_URL and HISTORY entities. */
    method HistoryFrom(entities: seq<SyncEntity>, nowUs: int) returns (history: seq<HistoryEntry>)
      requires Valid()
      ensures history == History(crypto, nigoriKeys, entities, nowUs)
    {
      history := [];
      var i := 0;
      while i < |entities|
        invariant 0 <= i <= |entities|
        invariant history == History(crypto, nigoriKeys, entities[..i], nowUs)
      {
        assert entities[..i + 1][..i] == entities[..i];
        var sp := DecryptEntity(crypto, nigoriKeys, entities[i]);
        if sp.Some? {
          var h := HistoryEntryOf(sp.value, nowUs);
          if h.Some? {
            history := history + [h.value];
          }
        }
        i := i + 1;
      }
      assert entities[..|entities|] == entities;
    }

    /** `fetch_bookmarks`: one GetUpdates for BOOKMARK, then the entity loop. */
    method FetchBookmarks(origin: int, reply: Reply) returns (r: Result<seq<Bookmark>>)
      requires Valid()
      modifies this`storeBirthday, this`progressMarkers
      ensures r.Ok? <==> reply.statusCode == 200 && reply.errorCode == ErrorSuccess
      ensures r.Ok? ==> r.value == Bookmarks(crypto, nigoriKeys, reply.entries)
    {
      var entities := GetUpdates([BookmarkTypeId], origin, reply);
      if entities.Err? {
        return Err(entities.message);
      }
      var bookmarks := BookmarksFrom(entities.value);
      return Ok(bookmarks);
    }

    /** `fetch_sessions`: one GetUpdates for SESSION, then the entity loop. */
    method FetchSessions(origin: int, reply: Reply) returns (r: Result<seq<Device>>)
      requires Valid()
      modifies this`storeBirthday, this`progressMarkers
      ensures r.Ok? <==> reply.statusCode == 200 && reply.errorCode == ErrorSuccess
      ensures r.Ok? ==> r.value == DeviceList(SessionTable(crypto, nigoriKeys, reply.entries))
    {
      var entities := GetUpdates([SessionTypeId], origin, reply);
      if entities.Err? {
        return Err(entities.message);
      }
      var devices := DevicesFrom(entities.value);
      return Ok(devices);
    }

    /** `fetch_history`: one GetUpdates for TYPED_URL and HISTORY, then the entity loop. */
    method FetchHistory(origin: int, reply: Reply, nowUs: int) returns (r: Result<seq<HistoryEntry>>)
      requires Valid()
      modifies this`storeBirthday, this`progressMarkers
      ensures r.Ok? <==> reply.statusCode == 200 && reply.errorCode == ErrorSuccess
      ensures r.Ok? ==> r.value == History(crypto, nigoriKeys, reply.entries, nowUs)
    {
      var entities := GetUpdates([TypedUrlTypeId, HistoryTypeId], origin, reply);
      if entities.Err? {
        return Err(entities.message);
      }
      var history := HistoryFrom(entities.value, nowUs);
      return Ok(history);
    }
  }
}
