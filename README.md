# A verified model of five small code bases

This project models the core logic of five code bases that live side by side in one repository, and proves properties of that model in Dafny. Every module names the source file it models. The model keeps that file's own form: pure code becomes functions and lemmas, and code that updates objects in place becomes classes whose methods state their new state.

## What is modelled

**chromium-sync** is a Brave Sync v2 client.
- `SyncCrypto` covers the Nigori payload envelope: `IV(16) ++ AES-128-CTR ciphertext ++ HMAC-SHA256(32)`. It also covers the order in which decryption checks length, then tag, then decrypts, and the two key derivations that split 128 bytes of key material into three keys.
- `SyncAuth` decodes a BIP-0039 phrase and derives the Ed25519 key pair with HKDF-SHA512. It builds the bearer token `base64(hex(ts)|hex(sig)|hex(pub))`.
- `SyncClient` holds the GetUpdates protocol state: store birthday, progress markers and Nigori keys. It decrypts entities and turns bookmark, session and history entities into records.
- `SyncCache` is the replace-all table store with its metadata map.
- `SyncLocal` reads a local browser profile: profile resolution, the bookmark tree walk, Chromium timestamps and tab de-duplication.
- `SyncServer` holds the MCP server's browser-selection state, its tool dispatcher and its text formatters.
- The cryptographic primitives and the text codecs (`Primitives`) are uninterpreted function fields. Only their output lengths are known, and CTR mode is XOR with a keystream fixed by key and IV.

**claude-code-game** is an incremental game, with an older single-file version and a first clicker prototype.
- `GameTechTree` covers the tech-tree unlock rule.
- `GameState` is the state record.
- `GamePrs` covers PR generation and merging.
- `GameEvents` covers the bounded newest-first event log, narrative triggers, the trending-technology rotation, hidden bugs and the rival project.
- `GameActions` and `GamePlay` cover action costs, guards and deductions, and the deterministic action bodies.
- `GameUpgrades` covers upgrade accept and decline bookkeeping.
- `LegacyGame` is claude-code-game/game.js.
- `Clicker` is the top-level game.js.

**tab-overview-extension** is a browser extension.
- `TabsOverview` covers grouping by tab group and by domain, filtering, the local move after a drag, closing tabs and the pending-close set.
- `TabsPopup` covers the popup's colours, search highlight and shortened URLs.
- `TabsBackground` covers the screenshot cache: its keys, invalidation, eviction sweep and capture loops.

**clarvis** is a web front end for agent sessions.
- The server side:
  - `ClarvisConfig`: the layered configuration and argument parsing;
  - `ClarvisIndex`: the static file handler's path sanitising;
  - `ClarvisAuth`: the password;
  - `ClarvisSessions`: the session registry;
  - `ClarvisPermissions`: the permission request table;
  - `ClarvisWs` and `ClarvisHub`: the WebSocket subscription registries;
  - `ClarvisApi`: the REST routes.
- The browser side:
  - `ClarvisState`: shared state and listeners;
  - `ClarvisRender`: rendering helpers and incremental message append;
  - `ClarvisSocket`: the reconnect state machine;
  - `ClarvisApp`: the message reducer, with uuid de-duplication and replacement of pending local echoes.

**clarvis-old** is the earlier version of clarvis.
- `ClarvisOldSessions` covers sessions with FIFO prompt queues, auto-archiving, previews and the merged command list.
- `ClarvisOldPersistence` covers one JSON file per session.
- `ClarvisOldAuth` covers the bearer-token middleware.
- `ClarvisOldScroll` covers virtual scrolling.

`JsMap` models JavaScript's insertion-ordered `Map`. `Util` holds the shared string and sequence helpers, such as JavaScript's `trim` and `parseInt`, hexadecimal text and stable sorting.

The model follows the code wherever the code and its documentation part ways:
- `clarvis/server/index.js` imports an `ensureToken` that `clarvis/server/auth.js` does not define.
- `clarvis/server/ws-handler.js` imports session functions that `clarvis/server/sessions.js` does not export. Those calls are parameters of `ClarvisWs`.
- `claude-code-game/js/state.js` declares fewer fields than the other game files use. `GameState` declares them all.

## Model

| member | source | states |
|---|---|---|
| NigoriCrypto.Xor | chromium-sync/src/chromium_sync/crypto.py:49-51 | XOR with a keystream keeps the data's length (the CTR mode the encryptor applies) |
| NigoriCrypto.Ctr | chromium-sync/src/chromium_sync/crypto.py:49-51 | AES-128-CTR under (key, iv) yields exactly as many bytes as it is given |
| NigoriCrypto.CtrInvolution | chromium-sync/src/chromium_sync/crypto.py:82-84 | CTR decryption undoes CTR encryption under the same key and IV |
| NigoriCrypto.Encrypt | chromium-sync/src/chromium_sync/crypto.py:42-56 | the blob is the 16-byte IV, then a ciphertext as long as the plaintext, then the 32-byte HMAC-SHA256 of IV and ciphertext under the MAC key |
| NigoriCrypto.Decrypt | chromium-sync/src/chromium_sync/crypto.py:58-84 | fails with "too short" exactly below 48 bytes; otherwise fails with "HMAC verification failed" exactly when the last 32 bytes differ from the HMAC of the rest; only then returns the CTR decryption of the middle bytes |
| NigoriCrypto.RoundTrip | chromium-sync/src/chromium_sync/crypto.py:42-84 | decrypting an encryption under the same keys gives the plaintext back, the empty plaintext included |
| NigoriCrypto.TamperedCiphertextRejected | chromium-sync/src/chromium_sync/crypto.py:77-80 | changing any ciphertext byte of a valid blob to another value makes decryption fail the MAC check, given that HMAC separates different messages |
| NigoriCrypto.SplitDerived | chromium-sync/src/chromium_sync/crypto.py:109-119 | the derived bytes are cut into a 16-byte user key, a 16-byte encryption key and a 32-byte MAC key, which together are the first 64 bytes |
| NigoriCrypto.DeriveKeysScrypt | chromium-sync/src/chromium_sync/crypto.py:87-119 | the keys are the [0,16), [16,32) and [32,64) slices of scrypt(N=8192, r=8, p=11, 128 bytes) of the UTF-8 passphrase and the salt |
| NigoriCrypto.Pbkdf2Salt | chromium-sync/src/chromium_sync/crypto.py:129 | the constant salt "saltsalt" is 8 bytes |
| NigoriCrypto.DeriveKeysPbkdf2 | chromium-sync/src/chromium_sync/crypto.py:122-148 | the keys are the same three slices of PBKDF2-HMAC-SHA1 with salt "saltsalt" and 1003 iterations, so equal passphrases give equal keys |
| NigoriCrypto.NigoriKeyLiteral | chromium-sync/src/chromium_sync/crypto.py:39 | the constant "nigori-key" is 10 bytes |
| NigoriCrypto.DecryptEncryptedData | chromium-sync/src/chromium_sync/crypto.py:151-165 | undecodable base64 is an error; otherwise the result is the decryption of the decoded bytes |
| NigoriCrypto.KeyNameDecrypts | chromium-sync/src/chromium_sync/crypto.py:36-40 | the key name, base64 of the encryption of "nigori-key", decodes and decrypts back to "nigori-key" |
| SyncAuth.WordLength | chromium-sync/src/chromium_sync/auth.py:65 | the word at the head of the text is a maximal non-empty run of non-white-space characters |
| SyncAuth.Words | chromium-sync/src/chromium_sync/auth.py:65 | `phrase.strip().split()` yields non-empty words free of white space |
| SyncAuth.WordsAreRuns | chromium-sync/src/chromium_sync/auth.py:65 | the words are the maximal runs of non-white-space characters, in order: joined by single spaces they give the phrase with leading and trailing white space dropped and every inner run of it collapsed to one space |
| SyncAuth.WordsCount | chromium-sync/src/chromium_sync/auth.py:65 | there are exactly as many words as positions where a run of non-white-space characters begins |
| SyncAuth.SqueezeWord | chromium-sync/src/chromium_sync/auth.py:65 | inside a word its characters are copied unchanged and no new word begins |
| SyncAuth.DecodeSeedPhrase | chromium-sync/src/chromium_sync/auth.py:51-73 | a word count other than 12 or 24 fails with "Expected 12 or 24 words, got n" before the checksum is looked at; a failed checksum fails with "Invalid mnemonic phrase"; success exactly when both pass, with 16 bytes of entropy for 12 words and 32 for 24 |
| SyncAuth.UserSecretInfo | chromium-sync/src/chromium_sync/auth.py:89 | the HKDF info "user-secret" is 11 bytes |
| SyncAuth.DeriveKeypair | chromium-sync/src/chromium_sync/auth.py:76-97 | the private key is HKDF-SHA512(seed, no salt, "user-secret", 32 bytes), the public key is its Ed25519 public key, both 32 bytes; it depends on the seed alone |
| SyncAuth.CreateCredentials | chromium-sync/src/chromium_sync/auth.py:100-116 | a decoding error is passed on unchanged; on success the credentials hold the decoded seed and the key pair derived from it |
| SyncAuth.HexDigit | chromium-sync/src/chromium_sync/auth.py:39 | a digit value below 16 renders as the lower-case hexadecimal digit that reads back as that value |
| SyncAuth.Hex | chromium-sync/src/chromium_sync/auth.py:39 | `format(ts, "x")` is non-empty and made of lower-case hexadecimal digits |
| SyncAuth.HexRoundTrip | chromium-sync/src/chromium_sync/auth.py:39 | reading the hexadecimal text back gives the timestamp, so nothing is lost |
| SyncAuth.HexNoLeadingZero | chromium-sync/src/chromium_sync/auth.py:39 | there is no padding: the first digit is '0' exactly for zero |
| Util.Hex | chromium-sync/src/chromium_sync/auth.py:43-45 | `bytes.hex()` gives two hexadecimal digits per byte |
| Util.ByteHex | chromium-sync/src/chromium_sync/auth.py:43-45 | a byte renders as two lower-case hexadecimal digits, high nibble first, that read back as the byte |
| Util.HexIsHex | chromium-sync/src/chromium_sync/auth.py:43-45 | every character of `bytes.hex()` is a lower-case hexadecimal digit |
| SyncAuth.HexHasNoBar | chromium-sync/src/chromium_sync/auth.py:47 | hexadecimal text never contains the separator '\|' |
| SyncAuth.TokenParts | chromium-sync/src/chromium_sync/auth.py:25-48 | the token base64-decodes to `hex(ts)\|hex(sig)\|hex(pub)`, with ts the given timestamp or else the clock; splitting it on '\|' gives exactly three parts, the first `format(ts, "x")`, the second 128 characters, the third the 64-character hex of the public key |
| SyncClient.DecryptEntity | chromium-sync/src/chromium_sync/client.py:228-254 | without keys the result is None even for unencrypted specifics; with keys, unencrypted specifics come back unchanged; encrypted ones give the parsed decryption, and any base64, MAC or parse failure gives None |
| SyncClient.DecryptEntityRoundTrip | chromium-sync/src/chromium_sync/client.py:244-252 | an entity holding the base64 encryption of serialised specifics under the client's keys decrypts back to those specifics |
| SyncClient.ApplyMarkersExactly | chromium-sync/src/chromium_sync/client.py:183-185 | after the reply's markers are written, a type they name holds the token of its last marker, and every other type keeps what it had, absent ones included |
| SyncClient.FirstNigori | chromium-sync/src/chromium_sync/client.py:193-197 | None exactly when no entity carries Nigori specifics; otherwise the Nigori specifics of one that does |
| SyncClient.Client.FindNigori | chromium-sync/src/chromium_sync/client.py:189-197 | the loop returns the Nigori specifics of the first entity that has them |
| SyncClient.KeysFromNigori | chromium-sync/src/chromium_sync/client.py:212-224 | scrypt with an empty salt is the error "Nigori uses scrypt but no salt provided"; scrypt with a non-empty salt succeeds exactly when the salt is valid base64, then storing the decoded salt and deriving with scrypt, and otherwise fails with "Invalid base64-encoded string"; any other method derives with PBKDF2 and stores no salt |
| SyncClient.BookmarkOf | chromium-sync/src/chromium_sync/client.py:266-275 | the bookmark keeps the entity id, has no parent exactly when the parent id is empty, and is a folder exactly when its type is FOLDER |
| SyncClient.Bookmarks | chromium-sync/src/chromium_sync/client.py:256-277 | at most one bookmark per entity, and none at all without keys |
| SyncClient.SessionStep | chromium-sync/src/chromium_sync/client.py:289-321 | a header or tab record for an unseen tag adds its device, named by the header's client name or else "Unknown Device"; a known device is never renamed; a tab record appends a tab built from its last navigation, and nothing when it has none; tags keep first-seen order |
| SyncClient.SessionTable | chromium-sync/src/chromium_sync/client.py:279-321 | the devices table built from the decryptable session records stays consistent (tags distinct, one device per tag) |
| SyncClient.StepAgrees | chromium-sync/src/chromium_sync/client.py:297-309 | one record treats two tables that agree on a tag alike |
| SyncClient.StepKeepsName | chromium-sync/src/chromium_sync/client.py:297 | a record never renames a device already present |
| SyncClient.NameKept | chromium-sync/src/chromium_sync/client.py:297-309 | once a tag has a device, every later record keeps it and keeps its name |
| SyncClient.FirstRecordIrrelevant | chromium-sync/src/chromium_sync/client.py:284-309 | a first record that does not open a tag leaves the outcome for that tag as if it were absent |
| SyncClient.DeviceNameFromFirstRecord | chromium-sync/src/chromium_sync/client.py:292-309 | a tag has a device exactly when some record names it, and the device's name is decided by the first such record, so a header after a tab leaves "Unknown Device" |
| SyncClient.DeviceList | chromium-sync/src/chromium_sync/client.py:323 | one device per tag, in first-seen order |
| SyncClient.MaxOf | chromium-sync/src/chromium_sync/client.py:340 | `max(visit_times)` is one of the visits and no visit exceeds it |
| SyncClient.HistoryEntryOf | chromium-sync/src/chromium_sync/client.py:336-358 | a typed URL counts its visits and takes the latest non-zero visit time, else now; a history record takes its visit count or 1 and its last visit time or now; any other record is skipped |
| SyncClient.History | chromium-sync/src/chromium_sync/client.py:325-360 | at most one history entry per entity |
| SyncClient.Client.constructor | chromium-sync/src/chromium_sync/client.py:90-104 | a new client has no store birthday, no progress markers and no Nigori keys or salt |
| SyncClient.Client.Request | chromium-sync/src/chromium_sync/client.py:110-140 | succeeds exactly on status 200 with error code SUCCESS; a non-200 status gives "Sync request failed: <status> <text>"; a non-empty birthday in a successful reply replaces the stored one without comparison, and nothing else changes it |
| SyncClient.Client.CreateGetUpdatesMessage | chromium-sync/src/chromium_sync/client.py:142-167 | protocol version 99 and the given origin; the birthday is sent exactly when one is known; one marker per requested type in request order, carrying the stored token exactly when the type has one |
| SyncClient.Client.GetUpdates | chromium-sync/src/chromium_sync/client.py:169-187 | on success returns the reply's entries and applies its new progress markers; on failure the markers are unchanged |
| SyncClient.Client.InitializeEncryption | chromium-sync/src/chromium_sync/client.py:199-226 | no Nigori entity is the error "No Nigori entity found"; success exactly when the request succeeds, a Nigori entity is found and the keys can be derived; on success the keys (and for scrypt the salt) are set; on failure neither changes |
| SyncClient.Client.BookmarksFrom | chromium-sync/src/chromium_sync/client.py:261-277 | the loop yields the bookmarks of the decryptable bookmark entities, in order |
| SyncClient.Client.DevicesFrom | chromium-sync/src/chromium_sync/client.py:284-323 | the loop yields the device list of the session table |
| SyncClient.Client.HistoryFrom | chromium-sync/src/chromium_sync/client.py:331-360 | the loop yields the history entries of the decryptable typed-URL and history records, in order |
| SyncClient.Client.FetchBookmarks | chromium-sync/src/chromium_sync/client.py:256-277 | fails exactly when the BOOKMARK request fails; otherwise the bookmarks of its entities |
| SyncClient.Client.FetchSessions | chromium-sync/src/chromium_sync/client.py:279-323 | fails exactly when the SESSION request fails; otherwise the devices built from its entities |
| SyncClient.Client.FetchHistory | chromium-sync/src/chromium_sync/client.py:325-360 | fails exactly when the TYPED_URL and HISTORY request fails; otherwise the history of its entities |
| SyncCache.Ids | chromium-sync/src/chromium_sync/cache.py:39-41 | the ids of the bookmark rows, one per row in order (the primary-key column) |
| SyncCache.ChildrenOf | chromium-sync/src/chromium_sync/cache.py:163-165 | a bookmark is returned iff it is a stored row whose parent is the requested folder |
| SyncCache.MatchingBookmarks | chromium-sync/src/chromium_sync/cache.py:192-196 | the search never returns more rows than are stored |
| SyncCache.MatchingBookmarksMembers | chromium-sync/src/chromium_sync/cache.py:192-196 | a bookmark is found iff it is stored and its title or url matches `LIKE '%q%'`: '%' and '_' in the query are wildcards, ASCII letters match without regard to case |
| SyncCache.DeviceIdInjective | chromium-sync/src/chromium_sync/cache.py:221-222 | distinct device positions get distinct "device_i" ids |
| SyncCache.TabRowsFor | chromium-sync/src/chromium_sync/cache.py:229-240 | one tab row per tab, in order, each linked to the device's id |
| SyncCache.DeviceRowsOf | chromium-sync/src/chromium_sync/cache.py:221-227 | the i-th device row holds id "device_i" and the i-th device's name and type |
| SyncCache.TabsOf | chromium-sync/src/chromium_sync/cache.py:260-270 | the tabs selected for a device are never more than the stored tab rows |
| SyncCache.DevicesOf | chromium-sync/src/chromium_sync/cache.py:250-274 | one device per device row, with its name, its type and the tabs linked to its id |
| SyncCache.TabsOfAppend | chromium-sync/src/chromium_sync/cache.py:260-263 | selecting a device's tabs distributes over concatenated tab tables |
| SyncCache.TabsOfOneDevice | chromium-sync/src/chromium_sync/cache.py:229-240 | the tab rows written for one device give back its tabs for its own id and nothing for any other id |
| SyncCache.TabsOfDevice | chromium-sync/src/chromium_sync/cache.py:218-240 | after saving, the tabs selected for "device_i" are exactly device i's tabs |
| SyncCache.NoTabsBeyond | chromium-sync/src/chromium_sync/cache.py:221-240 | no tab row is linked to an id beyond the saved devices |
| SyncCache.DevicesRoundTrip | chromium-sync/src/chromium_sync/cache.py:213-274 | reading back saved devices gives exactly the devices saved, each with its own tabs in order |
| SyncCache.MatchingHistory | chromium-sync/src/chromium_sync/cache.py:313-326 | the WHERE clause keeps every stored entry whose title or url matches `LIKE '%q%'` (wildcards included) and whose visit is at or after the cutoff, and only those, without adding any |
| SyncCache.CollectEntries | chromium-sync/src/chromium_sync/cache.py:335-343 | the row loop rebuilds one entry per selected row, in order, with a visit count of 0 read back as 1 |
| SyncCache.CollectMatches | chromium-sync/src/chromium_sync/cache.py:191-209 | the search's row loop returns exactly the rows whose title or url matches `LIKE '%q%'`, wildcards included, in table order |
| SyncCache.HistoryQueryProperties | chromium-sync/src/chromium_sync/cache.py:300-345 | at most `limit` entries, all matching the `LIKE '%q%'` search (wildcards included) and the cutoff, newest visit first, each one a stored row |
| SyncCache.HistoryQueryAll | chromium-sync/src/chromium_sync/cache.py:326-333 | with no search, no cutoff and a large enough limit, every stored entry is returned |
| Util.LikeContainsLiteral | chromium-sync/src/chromium_sync/cache.py:191-194 | for a query without '%' or '_', `LIKE '%q%'` holds exactly when the text contains the query, ignoring ASCII case |
| Util.UnderscoreIsWildcard | chromium-sync/src/chromium_sync/cache.py:191-194 | a '_' in the query matches any character: "a_c" finds "abc", which does not contain "a_c" |
| SyncCache.MatchingAll | chromium-sync/src/chromium_sync/cache.py:326 | with no condition ("1=1") the filter keeps the whole table |
| SyncCache.Cache.constructor | chromium-sync/src/chromium_sync/cache.py:27-29 | a new cache is not connected and all tables are empty |
| SyncCache.Cache.Initialize | chromium-sync/src/chromium_sync/cache.py:31-90 | the cache becomes connected and keeps the rows the file already holds |
| SyncCache.Cache.Close | chromium-sync/src/chromium_sync/cache.py:92-96 | the connection is dropped and the stored rows stay |
| SyncCache.Cache.GetMetadata | chromium-sync/src/chromium_sync/cache.py:98-107 | None without a connection; otherwise Some exactly when the key is stored, with its value |
| SyncCache.Cache.SetMetadata | chromium-sync/src/chromium_sync/cache.py:109-119 | insert or replace the key's value when connected; no change otherwise |
| SyncCache.Cache.GetLastSyncTime | chromium-sync/src/chromium_sync/cache.py:121-124 | Some exactly when connected with a non-empty last_sync_time value, and then that value |
| SyncCache.Cache.SetLastSyncTime | chromium-sync/src/chromium_sync/cache.py:126-129 | stores the given time, or now when none is given |
| SyncCache.Cache.SaveBookmarks | chromium-sync/src/chromium_sync/cache.py:133-156 | with distinct ids the table becomes exactly the list and the sync time is set; a repeated id stops at its row with an error and no sync time; nothing without a connection |
| SyncCache.Cache.GetBookmarks | chromium-sync/src/chromium_sync/cache.py:158-184 | [] without a connection; a non-empty folder id gives that folder's children, otherwise every row |
| SyncCache.Cache.SearchBookmarks | chromium-sync/src/chromium_sync/cache.py:186-209 | [] without a connection; otherwise exactly the rows whose title or url matches `LIKE '%q%'`, wildcards included, in table order |
| SyncCache.Cache.SaveDevices | chromium-sync/src/chromium_sync/cache.py:213-243 | both tables replaced by the rows for the given devices and the sync time set; nothing without a connection |
| SyncCache.Cache.InsertTabs | chromium-sync/src/chromium_sync/cache.py:229-240 | appends exactly the device's tab rows to the tab table |
| SyncCache.Cache.GetDevices | chromium-sync/src/chromium_sync/cache.py:245-274 | [] without a connection; otherwise every device row with the tabs linked to it |
| SyncCache.Cache.SaveHistory | chromium-sync/src/chromium_sync/cache.py:278-298 | the history table becomes the given entries and the sync time is set; nothing without a connection |
| SyncCache.Cache.GetHistory | chromium-sync/src/chromium_sync/cache.py:300-345 | [] without a connection; otherwise the history query over the table, with the cutoff at local midnight minus days_back days |
| SyncLocal.ChromiumTimeToUnix | chromium-sync/src/chromium_sync/local.py:26-33 | None exactly for zero or pre-1970 timestamps; otherwise a non-negative Unix time that adds back to the input with the 1601 epoch offset |
| SyncLocal.BrowserPaths | chromium-sync/src/chromium_sync/local.py:78-97 | three browsers, brave, chrome and chromium, in that order |
| SyncLocal.FirstExisting | chromium-sync/src/chromium_sync/local.py:107-111 | the first candidate path that exists, and None only when none exists |
| SyncLocal.Profiles | chromium-sync/src/chromium_sync/local.py:100-112 | at most one profile per browser |
| SyncLocal.ProfilesListed | chromium-sync/src/chromium_sync/local.py:100-112 | a browser is listed iff one of its paths exists, and then with its first existing path |
| SyncLocal.FindAllBrowserProfiles | chromium-sync/src/chromium_sync/local.py:100-112 | the loops return exactly the per-browser first existing paths |
| SyncLocal.FirstExistingPath | chromium-sync/src/chromium_sync/local.py:108-111 | the inner loop stops at the first path that exists |
| SyncLocal.LoadSavedProfile | chromium-sync/src/chromium_sync/local.py:115-124 | Some exactly when the config file was read and its stripped text names an existing path, and then that path |
| SyncLocal.ResolveBrowserProfile | chromium-sync/src/chromium_sync/local.py:141-185 | a set environment path wins or fails; then the saved profile; then the one detected browser; several detected browsers raise with all of them |
| SyncLocal.BookmarkOf | chromium-sync/src/chromium_sync/local.py:279-299 | the recorded bookmark is a folder iff the node's type is "folder", and it is linked to the given parent under the node's id or guid |
| SyncLocal.Filter | chromium-sync/src/chromium_sync/local.py:291 | a bookmark is kept iff it is in the list and its parent is the folder |
| SyncLocal.FilterAppend | chromium-sync/src/chromium_sync/local.py:291 | the folder filter distributes over concatenation |
| SyncLocal.WalkFiltered | chromium-sync/src/chromium_sync/local.py:279-303 | filtering by folder while walking equals walking everything and then filtering |
| SyncLocal.WalkChildrenFiltered | chromium-sync/src/chromium_sync/local.py:302-303 | the same for a list of children |
| SyncLocal.Walk | chromium-sync/src/chromium_sync/local.py:279-303 | a node is recorded first, linked to its parent, whenever there is no folder filter or its parent is the folder; with a filter every recorded bookmark is a direct child of the folder |
| SyncLocal.WalkChildren | chromium-sync/src/chromium_sync/local.py:302-303 | with a folder filter every bookmark recorded under the children is a direct child of the folder |
| SyncLocal.ProcessNode | chromium-sync/src/chromium_sync/local.py:279-303 | the recursive closure appends exactly the preorder walk of the node to the shared list |
| SyncLocal.GetBookmarks | chromium-sync/src/chromium_sync/local.py:268-310 | the bookmarks are the walks of the object roots in order |
| SyncLocal.SearchBookmarks | chromium-sync/src/chromium_sync/local.py:312-319 | a bookmark is found iff it is one of all bookmarks and its lower-cased title or url contains the lower-cased query |
| SyncLocal.MatchingRows | chromium-sync/src/chromium_sync/local.py:231-246 | a row is selected exactly when it is stored, its url or title is not NULL and matches `LIKE '%q%'` (wildcards included), and its last visit is at or after the cutoff; no row is selected twice more than it is stored |
| SyncLocal.EntriesOf | chromium-sync/src/chromium_sync/local.py:255-264 | no more entries than rows; every entry has a non-zero visit count and a non-negative time |
| SyncLocal.EntriesOfKeepsConvertible | chromium-sync/src/chromium_sync/local.py:255-264 | one entry per row whose time converts, in order, with a NULL or zero visit count read as 1 |
| SyncLocal.MatchingConvertible | chromium-sync/src/chromium_sync/local.py:257-258 | a row is kept exactly when it is one of the rows and its time converts, and no row more often than it occurs |
| SyncLocal.GetHistory | chromium-sync/src/chromium_sync/local.py:218-266 | the entries are those of the selected rows, newest first, at most the limit |
| SyncLocal.Urls | chromium-sync/src/chromium_sync/local.py:406 | the urls of a device's tabs, in order |
| SyncLocal.AddUrls | chromium-sync/src/chromium_sync/local.py:397-413 | existing tabs are kept; tabs with distinct urls stay distinct; each new tab is a non-skipped url of the record |
| SyncLocal.FirstMentioned | chromium-sync/src/chromium_sync/local.py:392-393 | the first device id in map order that occurs in the record; None only when no id occurs |
| SyncLocal.ParseSessionEntry | chromium-sync/src/chromium_sync/local.py:389-414 | only the first device mentioned gets the record's new URLs; every other device is untouched; the map keeps its ids and distinct tab urls |
| SyncLocal.AppendNewUrls | chromium-sync/src/chromium_sync/local.py:397-413 | the URL loop yields exactly the tabs after adding the record's URLs |
| SyncLocal.FirstMentionedAt | chromium-sync/src/chromium_sync/local.py:392-393 | when id i occurs and no earlier id does, device i is the one found |
| SyncLocal.SessionEntry | chromium-sync/src/chromium_sync/local.py:389-414 | one session record keeps the map well formed, with the same ids and distinct tab urls |
| SyncLocal.Registered | chromium-sync/src/chromium_sync/local.py:337-342 | registering the device records gives a well-formed map whose devices have distinct tab urls |
| SyncLocal.AfterSessions | chromium-sync/src/chromium_sync/local.py:344-347 | all session records keep the map well formed with distinct tab urls |
| SyncLocal.Put | chromium-sync/src/chromium_sync/local.py:342 | the entry for the device's id becomes the device, and the map stays well formed |
| SyncLocal.WithTabs | chromium-sync/src/chromium_sync/local.py:352 | only devices with at least one tab are returned |
| SyncLocal.GetTabs | chromium-sync/src/chromium_sync/local.py:321-352 | the devices after all records that have a tab, each with distinct tab urls |
| SyncLocal.RegisterDevices | chromium-sync/src/chromium_sync/local.py:337-342 | the first loop yields exactly the registered map |
| SyncLocal.ApplySessions | chromium-sync/src/chromium_sync/local.py:344-347 | the second loop yields exactly the map after every session record |
| SyncLocal.CollectWithTabs | chromium-sync/src/chromium_sync/local.py:352 | the comprehension's loop yields exactly the devices with tabs in map order |
| SyncLocal.WithTabsDistinct | chromium-sync/src/chromium_sync/local.py:352 | every returned device has distinct tab urls |
| SyncServer.Names | chromium-sync/src/chromium_sync/server.py:64 | the names of the candidate browsers, in order |
| SyncServer.PromptLines | chromium-sync/src/chromium_sync/server.py:81-88 | the head line, then one "  - **name**: path" line per candidate in order, then the two instructions |
| SyncServer.SelectionPrompt | chromium-sync/src/chromium_sync/server.py:79-89 | the prompt starts with the "Multiple browser profiles detected" head |
| SyncServer.PromptListsCandidates | chromium-sync/src/chromium_sync/server.py:84-85 | the prompt names every candidate browser together with its path |
| SyncServer.SavedChoiceWins | chromium-sync/src/chromium_sync/server.py:69-70 | a path saved as default is what the next resolution picks while the environment variable is unset and the path exists |
| SyncServer.TabLine | chromium-sync/src/chromium_sync/server.py:238-241 | a tab line is the bare url exactly when the title is empty |
| SyncServer.DeviceLines | chromium-sync/src/chromium_sync/server.py:233-241 | the device heading, then "  No open tabs" or one line per tab in order |
| SyncServer.DevicesLinesHold | chromium-sync/src/chromium_sync/server.py:232-241 | every line of every device appears in the lines of the whole list |
| SyncServer.DevicesLinesStart | chromium-sync/src/chromium_sync/server.py:232-233 | the list's lines start with the first device's heading |
| SyncServer.FormatDevices | chromium-sync/src/chromium_sync/server.py:226-243 | the "No devices" message exactly when there are no devices, else text starting with the first heading |
| SyncServer.DevicesListed | chromium-sync/src/chromium_sync/server.py:226-243 | every device heading and every tab line occurs in the formatted text |
| SyncServer.VisitsSuffix | chromium-sync/src/chromium_sync/server.py:254 | the visit suffix is present exactly when the page was visited more than once |
| SyncServer.HistoryLineShape | chromium-sync/src/chromium_sync/server.py:253-255 | a history line names the title, url and visit time, and ends with the visit suffix |
| SyncServer.HistoryLines | chromium-sync/src/chromium_sync/server.py:251-255 | the count line, then one line per entry |
| SyncServer.HistoryLineAt | chromium-sync/src/chromium_sync/server.py:252-255 | line k + 1 is the line of entry k |
| SyncServer.FormatHistory | chromium-sync/src/chromium_sync/server.py:246-257 | the "No history" message exactly when there are no entries, else text starting with the count line |
| SyncServer.HistoryListed | chromium-sync/src/chromium_sync/server.py:246-257 | every entry's line occurs in the formatted text |
| SyncServer.BookmarkLineShape | chromium-sync/src/chromium_sync/server.py:267-270 | a folder line shows the folder marker and its id; a link line ends with its url |
| SyncServer.BookmarkLines | chromium-sync/src/chromium_sync/server.py:265-270 | the count line, then one line per bookmark |
| SyncServer.BookmarkLineAt | chromium-sync/src/chromium_sync/server.py:266-270 | line k + 1 is the line of bookmark k |
| SyncServer.FormatBookmarks | chromium-sync/src/chromium_sync/server.py:260-272 | the "No bookmarks" message exactly when there are none, else text starting with the count line |
| SyncServer.BookmarksListed | chromium-sync/src/chromium_sync/server.py:260-272 | every bookmark's line occurs in the formatted text |
| SyncServer.Server.constructor | chromium-sync/src/chromium_sync/server.py:33-35 | no reader and no pending candidates at start |
| SyncServer.Server.GetReader | chromium-sync/src/chromium_sync/server.py:38-53 | a cached reader is returned unchanged; otherwise a resolved profile opens a reader, several candidates are recorded as pending, and no profile is an error |
| SyncServer.Server.SelectBrowser | chromium-sync/src/chromium_sync/server.py:56-76 | an unknown lower-cased name changes nothing and lists the candidates; a known one opens its reader, clears the pending set and saves the path when asked |
| SyncServer.Server.CallTool | chromium-sync/src/chromium_sync/server.py:175-223 | the selection tool needs no reader and behaves exactly as `select_browser` with the browser name (default "") and the save flag (default false): an unknown name changes nothing, a known one opens that reader, clears the candidates and saves the path when asked; every other tool leaves the saved default alone and answers with the selection prompt (recording the candidates) when several profiles are found, the resolution error when none is, and the tool's text against the cached or newly resolved profile otherwise |
| SyncServer.RunTool | chromium-sync/src/chromium_sync/server.py:197-223 | the data-tool branches give the formatted text of the reader's tabs, history, bookmarks or search, or "Unknown tool" |
| SyncServer.PendingGivesPrompt | chromium-sync/src/chromium_sync/server.py:188-192 | every data tool, called while several browsers are detected and none is chosen, answers with the prompt listing each candidate |
| GameTechTree.AvailableAmong | claude-code-game/js/tech-tree.js:125-134 | a task is offered iff it is in the list, all its requirements are completed and it is not a completed one-off |
| GameTechTree.GetAvailableTasks | claude-code-game/js/tech-tree.js:121-137 | exactly the tree's tasks whose requirements are all completed, minus completed one-offs |
| GameTechTree.GetTask | claude-code-game/js/tech-tree.js:142-146 | Some exactly when a task has that id, and then that task; null for an unknown id |
| GameTechTree.FindTask | claude-code-game/js/tech-tree.js:143-145 | the lookup over a task list finds a task exactly when one has the id |
| GameTechTree.DependentsAmong | claude-code-game/js/tech-tree.js:153-157 | a task is listed iff it is in the list and requires the id |
| GameTechTree.GetDependents | claude-code-game/js/tech-tree.js:151-159 | exactly the tree's tasks that directly require the id |
| GameTechTree.GetStartingTasks | claude-code-game/js/tech-tree.js:164-166 | exactly the tasks with no requirements |
| GameTechTree.StartingTasksArePrototype | claude-code-game/js/tech-tree.js:10-17 | the prototype is the only starting task |
| GameTechTree.LaterTasksHaveRequirements | claude-code-game/js/tech-tree.js:20-115 | every task after the prototype requires something |
| GameTechTree.IdsDistinct | claude-code-game/js/tech-tree.js:9-116 | task ids are unique |
| GameTechTree.RequirementsPrecede | claude-code-game/js/tech-tree.js:9-116 | every requirement names a task declared earlier |
| GameTechTree.RequiredIsEarlier | claude-code-game/js/tech-tree.js:9-116 | a task's requirement sits at a smaller table position |
| GameTechTree.ChainDescends | claude-code-game/js/tech-tree.js:1-7 | following requirements strictly moves up the table |
| GameTechTree.TreeIsAcyclic | claude-code-game/js/tech-tree.js:1-7 | the requirement graph is a DAG: no task transitively requires itself |
| GameTechTree.AllRequirementsNeeded | claude-code-game/js/tech-tree.js:90-95 | task decomposition, which requires both the filesystem server and the agent loop, is offered exactly when both are completed |
| GameTechTree.RepeatableStaysAvailable | claude-code-game/js/tech-tree.js:27-32 | a repeatable task stays available after completion |
| GameTechTree.OneOffDisappears | claude-code-game/js/tech-tree.js:126-127 | a completed one-off task is no longer offered |
| GameTechTree.SafetyChecksIsALeaf | claude-code-game/js/tech-tree.js:110-115 | nothing depends on the safety checks |
| GameTechTree.NothingRequiresSafetyChecks | claude-code-game/js/tech-tree.js:110-115 | no task's requirements name the safety checks |
| GameTechTree.DependentsNone | claude-code-game/js/tech-tree.js:153-157 | a list in which no task requires the id has no dependents |
| GameState.Set | claude-code-game/js/actions.js:541 | the written resource holds the new value and every other resource is unchanged |
| GameState.DeductedSubtractsEachCost | claude-code-game/js/actions.js:540-542 | each resource drops by exactly the total cost entries naming it |
| GameState.DeductCosts | claude-code-game/js/actions.js:540-542 | the cost loop yields the deducted resources, each reduced by its own cost |
| GameState.AffordableKeepsNonNegative | claude-code-game/js/actions.js:527-542 | an affordable cost with distinct resources leaves every charged resource non-negative and every other resource as it was |
| GameState.CostOfDistinct | claude-code-game/js/actions.js:529-532 | with distinct entries, a resource's total cost is its one entry, or 0 when none names it |
| GameState.Count | claude-code-game/js/actions.js:18 | a counter flag reads as 0 when absent and as its number otherwise |
| GameState.InitialResources | claude-code-game/js/state.js:8-14 | a new game starts with no codebase, debt, credits or money and trust 50 |
| GameState.Game.constructor | claude-code-game/js/state.js:6-56 | every field starts as state.js declares it |
| GameState.VisibilityOf | claude-code-game/js/state.js:63-70 | tech debt is shown iff positive; the multiplier, credits and toggle iff Claude Code is unlocked; money iff revealed or unlocked with under 50 credits |
| GameState.NothingVisibleAtStart | claude-code-game/js/state.js:63-70 | a new game shows none of the optional resources |
| GameState.MoneyShownWhenCreditsRunLow | claude-code-game/js/state.js:67-68 | with Claude Code unlocked and credits under 50, money is shown whatever moneyRevealed says |
| GamePrs.TitlesFor | claude-code-game/js/prs.js:63-64 | the title pool starts with the general titles |
| GamePrs.NoFocusRepeatsGeneral | claude-code-game/js/prs.js:63-64 | with no focus the pool is the general titles twice (20 titles) |
| GamePrs.UnknownFocusIsGeneralOnly | claude-code-game/js/prs.js:64 | a focus with no title list adds nothing to the pool |
| GamePrs.GainsBounded | claude-code-game/js/prs.js:68-69 | for quality in [0, 1] the codebase gain is 3 to 10 and the debt gain 0 to 3; debt is gained iff quality is at most 1/3 |
| GamePrs.GainsMonotone | claude-code-game/js/prs.js:68-69 | a better PR never gains less codebase nor adds more debt |
| GamePrs.GainsAtSamplePoints | claude-code-game/js/prs.js:68-69 | 3 codebase at quality 0 and 10 at 1; debt 1 at 0.2 and none at 0.8 |
| GamePrs.PrCounter.constructor | claude-code-game/js/prs.js:9 | the id counter starts at 0 |
| GamePrs.PrCounter.GeneratePR | claude-code-game/js/prs.js:62-79 | the counter goes up by one and is the PR's id; the title is from the pool; a bug exactly when quality < 0.4 and the second draw < 0.5; gains by the formulas |
| GamePrs.NewPRKeepsIdsDistinct | claude-code-game/js/prs.js:72 | queuing a freshly generated PR keeps queued ids distinct and issued |
| GamePrs.FindPR | claude-code-game/js/prs.js:82 | the first position holding the id, or None exactly when no PR has it |
| GamePrs.MergedResources | claude-code-game/js/prs.js:88-93 | codebase and debt rise by the PR's gains; trust drops by at most 3, only for a buggy PR, and never below 0; nothing else changes |
| GamePrs.MergeEvent | claude-code-game/js/prs.js:91-98 | the merge is logged as a warning for a bug, success above quality 0.7, neutral otherwise |
| GamePrs.MergePR | claude-code-game/js/prs.js:81-102 | an unknown id changes nothing; otherwise the first PR with that id leaves the queue, its gains apply, the merge is logged and the triggers run |
| GamePrs.ApplyMerge | claude-code-game/js/prs.js:88-100 | the gains, the log line and the triggers applied to the merged PR |
| GamePrs.RemoveAt | claude-code-game/js/prs.js:86 | splicing out position i shifts later entries down by one and keeps the rest |
| GamePrs.MergeRemovesExactlyOne | claude-code-game/js/prs.js:82-86 | with distinct ids, merging removes exactly the PR with that id and keeps every other PR |
| GamePrs.MergeTrust | claude-code-game/js/prs.js:91-93 | a bug-free merge keeps trust; a buggy one costs 3 trust when there are 3 and never makes it negative |
| GameEvents.LogAll | claude-code-game/js/events.js:8-18 | after logging, the newest event is first and the log holds at most 20 |
| GameEvents.LogAllBounded | claude-code-game/js/events.js:15-18 | the log never grows past 20, and holds every event until it is full |
| GameEvents.LogAllAppend | claude-code-game/js/events.js:8-18 | logging two batches in turn is logging their concatenation |
| GameEvents.AddEvent | claude-code-game/js/events.js:8-21 | the new event goes first and only the 20 most recent are kept |
| GameEvents.Record | claude-code-game/js/events.js:8-21 | addEvent extends the record of events logged by one |
| GameEvents.TriggeredAt | claude-code-game/js/events.js:23-44 | the first-success flag is raised at codebase 50 after shipping; the money warning is set below 100 and kept until money reaches 500; other flags unchanged |
| GameEvents.CheckNarrativeTriggers | claude-code-game/js/events.js:23-44 | the flags become the triggered flags and the events the triggers log are added |
| GameEvents.RecordTriggers | claude-code-game/js/events.js:23-44 | the same, extending the record of events logged |
| GameEvents.KeptByTriggers | claude-code-game/js/events.js:28-43 | flags other than the two the triggers own pass through unchanged |
| GameEvents.TriggersIdempotent | claude-code-game/js/events.js:29-43 | a second check against the same resources changes nothing and logs nothing |
| GameEvents.FirstSuccessOnce | claude-code-game/js/events.js:29-32 | the first-success trigger fires at most once |
| GameEvents.MoneyWarningCycle | claude-code-game/js/events.js:35-43 | money below 100 sets the warning, recovery to 500 clears it, and a new drop sets it again |
| GameEvents.Pick | claude-code-game/js/events.js:55 | a draw in [0, 1) picks an element of the list |
| GameEvents.RotateTrendingTech | claude-code-game/js/events.js:49-78 | draws are repeated until a trend differs from the current one; the new trend is a listed one and differs from the old; the message depends on the project's tech |
| GameEvents.CodebaseAfterBug | claude-code-game/js/events.js:128-132 | a bug of severity 2 or more costs twice its severity in codebase, floored at 0; a lesser one costs nothing |
| GameEvents.DiscoverBug | claude-code-game/js/events.js:114-134 | the bug branch is taken when the chance draw is below 0.15 per hidden bug; it removes one hidden bug, adds the severity to debt and logs a negative event; otherwise nothing changes |
| GameEvents.BugKeepsCountersNonNegative | claude-code-game/js/events.js:125-132 | a surfacing bug leaves the hidden-bug count and the codebase non-negative and always adds debt |
| GameEvents.SlowedMomentum | claude-code-game/js/events.js:277 | momentum drops by 0.1 but never below 0.5 |
| GameEvents.GrownStars | claude-code-game/js/events.js:257-259 | the rival never loses stars in its weekly growth |
| GameEvents.GrowRival | claude-code-game/js/events.js:255-286 | the rival keeps its name and tech; its stars become the week's growth (3% of its stars times its momentum, rounded down, plus 2 when its tech is trending, plus a random 0-4) plus the star boost of the random rival event drawn with probability 0.15, which is then the first event logged; so it never loses stars; it loses momentum exactly when the player is far ahead; every event logged is a warning or neutral |
| GameEvents.UpdateCompetitorTick | claude-code-game/js/events.js:239-293 | a rival spawns once the player has 30 stars, with 60% of them and a momentum in [1, 1.5); an existing rival grows weekly to exactly the stars and momentum `GrowRival` states; the 1000-star flag is the only flag touched and its event is logged exactly when the rival first reaches 1000; every event is logged |
| GameEvents.TriggerGameOver | claude-code-game/js/events.js:295-304 | the game-over flag and reason are set; only a "broke" ending logs an event |
| GameActions.ParseAction | claude-code-game/js/actions.js:536 | an action found under an id has that id as its key; an unknown id finds nothing |
| GameActions.ParseActionKey | claude-code-game/js/actions.js:10-525 | every action is found under its own key |
| GameActions.PayingForAnAction | claude-code-game/js/actions.js:537-542 | paying for an affordable action leaves each charged resource non-negative, takes exactly the listed cost, and only promoting costs money |
| GameActions.RestAlwaysAffordable | claude-code-game/js/actions.js:199-205 | resting costs nothing, so it is always affordable and charges nothing |
| GameActions.CodeOrVibe | claude-code-game/js/actions.js:41-86 | exactly one of manual coding and vibe coding is offered |
| GameActions.ShipComesFirst | claude-code-game/js/actions.js:321-414 | shipping is offered only before the first ship; release, promote and support only after it |
| GameActions.FreshGameOffersCode | claude-code-game/js/actions.js:10-525 | a fresh game offers manual coding and nothing else |
| GameActions.IterateOutcome | claude-code-game/js/actions.js:94-111 | below codebase 10 nothing changes; otherwise the codebase gains 2 to 10 and up to 3 debt is paid down; nothing else changes |
| GameActions.IterateImprovementCapped | claude-code-game/js/actions.js:99 | the improvement is a fifth of the codebase rounded down, and 10 from codebase 50 on |
| GameActions.RefactorOutcome | claude-code-game/js/actions.js:126-138 | debt at least halves and drops by 5 or more when there was that much; only a break draw below 0.15 loses code, at most a tenth |
| GameActions.ClientsFor | claude-code-game/js/actions.js:160 | a client is offered iff it is listed and has no reputation floor or the floor is met |
| GameActions.OfferedClients | claude-code-game/js/actions.js:151-160 | the startup client is always offered and every offered client is one of the five |
| GameActions.EnterpriseNeedsReputation | claude-code-game/js/actions.js:153-160 | the enterprise contract is offered exactly from reputation 10; the other four always |
| GameActions.FreelancePayBounds | claude-code-game/js/actions.js:163-166 | with reputation in [0, 100] the pay is at least the client's floor and below twice its ceiling |
| GameActions.FreelanceResources | claude-code-game/js/actions.js:168-193 | the pay is added; reputation is capped at 100 and never falls; a nightmare client's energy drain stops at 0; an insight adds 2 codebase; nothing else changes |
| GameActions.FreelanceEarns | claude-code-game/js/actions.js:149-194 | a freelance job earns at least 50 and keeps reputation between its old value and 100 |
| GameActions.NetworkGain | claude-code-game/js/actions.js:246-257 | an outing earns at least the activity's reputation, and 2 more exactly with the follower bonus |
| GameActions.NetworkResources | claude-code-game/js/actions.js:249-261 | a client lead pays 50; reputation is capped at 100 and never falls; nothing else changes |
| GameActions.NetworkChanceGrows | claude-code-game/js/actions.js:245 | the bonus chance grows with reputation, from 0.3 at 0 to 0.8 at 100 |
| GameActions.RestOutcome | claude-code-game/js/actions.js:205 | 40 energy back, capped at 100, and nothing else changes |
| GameActions.EffectiveQuality | claude-code-game/js/actions.js:281-283 | effective quality is non-negative, at most the codebase, and the codebase itself without debt |
| GameActions.LaunchUsers | claude-code-game/js/actions.js:286-293 | day-one users are never negative with non-negative reputation |
| GameActions.ShipOutcome | claude-code-game/js/actions.js:274-318 | below codebase 30 nothing changes; otherwise only reputation changes, by the tier's amount |
| GameActions.LaunchMonotone | claude-code-game/js/actions.js:281-318 | more code never makes a launch worse and more debt never makes it better |
| GameActions.DebtSinksLaunch | claude-code-game/js/actions.js:282-297 | a debt-free launch of codebase 70 or more is a hit; with 20 debt or more, a codebase under 110 is not |
| GameUpgrades.ParseUpgrade | claude-code-game/js/upgrades.js:584-585 | an upgrade found under a key has that key; an unknown key finds nothing |
| GameUpgrades.UpgradeKeyRoundTrip | claude-code-game/js/upgrades.js:9-573 | every upgrade is found under its own key and under no other |
| GameUpgrades.FreeUpgradesAffordable | claude-code-game/js/upgrades.js:575-581 | an upgrade with an empty cost object is always affordable |
| GameUpgrades.ChargedOnlyWhenAccepting | claude-code-game/js/upgrades.js:590-595 | skip and reject cost nothing; any other decision pays each cost entry exactly once |
| GameUpgrades.AffordableUpgradeKeepsNonNegative | claude-code-game/js/upgrades.js:575-595 | accepting an affordable upgrade keeps every non-negative resource non-negative |
| GameUpgrades.DecidedNeverOffered | claude-code-game/js/upgrades.js:9-573 | each condition checks its own upgrade, so a decided upgrade is never offered again |
| GameUpgrades.VcFundingRulesOutSustainable | claude-code-game/js/upgrades.js:548 | once VC money is taken the sustainable ending is not offered |
| GameUpgrades.MonthlyCostsNonNegative | claude-code-game/js/upgrades.js:543-544 | the summed monthly costs are non-negative when each is |
| GameUpgrades.SustainableNeedsIncome | claude-code-game/js/upgrades.js:540-550 | when the sustainable ending is offered, weekly income is at least half the rent, positive when rent is due, and the project has 500 stars |
| GameUpgrades.SponsorIncomeBounds | claude-code-game/js/upgrades.js:260-265 | sponsor income is never negative, at most stars / 40, and grows with stars |
| GameUpgrades.PivotKeepsMostOfCodebase | claude-code-game/js/upgrades.js:353-354 | a pivot keeps between four fifths and all of a non-negative codebase |
| GameUpgrades.FindEffect | claude-code-game/js/upgrades.js:405 | the first effect with the id, or None exactly when no effect has it |
| GameUpgrades.BoostedNeverShrinks | claude-code-game/js/upgrades.js:407 | the 500-star boost never shrinks a whole non-negative income and changes nothing else |
| GameUpgrades.BoostRevenue | claude-code-game/js/upgrades.js:405-408 | the boost applies to the first product-revenue effect and leaves every other effect as it was |
| GameUpgrades.Apply | claude-code-game/js/upgrades.js:11-572 | every decision effect leaves the trending technology as it was |
| GameUpgrades.VcTakeKeepsUserTrust | claude-code-game/js/upgrades.js:459-468 | taking VC money adds 5000, sets vcFunded and the funded branch, and leaves userTrust at 20 or more |
| GameUpgrades.VcFundingIsPermanent | claude-code-game/js/upgrades.js:466 | no decision clears vcFunded |
| GameUpgrades.EndingsOnlySetTheEnding | claude-code-game/js/upgrades.js:494-569 | the three ending decisions set the ending flag and change nothing else |
| GameUpgrades.ExecuteUpgradeDecision | claude-code-game/js/upgrades.js:583-606 | an unknown upgrade or decision changes nothing; otherwise the cost is paid unless skipping or rejecting, the effect runs, the upgrade is recorded (and as declined for skip, reject or noTracking) and is never offered again |
| GameUpgrades.Logged | claude-code-game/js/upgrades.js:267-534 | a decision's message, when it has one, is logged once |
| GameUpgrades.RunDecision | claude-code-game/js/upgrades.js:590-597 | the charge, then the effect on the charged state, with its message logged |
| GameUpgrades.Store | claude-code-game/js/upgrades.js:597 | writing the effect's state back gives exactly that state |
| GamePlay.Clicked | claude-code-game/js/actions.js:18 | a click adds one to the manual click counter and leaves every other flag as it was |
| GamePlay.ExecuteCode | claude-code-game/js/actions.js:16-38 | a PR is made exactly when progress reaches 100; it gets the next id and is queued, or merged at once under auto-merge; queued ids stay issued |
| GamePlay.QueueFinished | claude-code-game/js/actions.js:28-35 | a finished PR is logged first, then queued, or merged at once under auto-merge, and the triggers run |
| GamePlay.MergeQueued | claude-code-game/js/actions.js:32-34 | merging the PR just queued removes exactly it, applies its gains and logs the merge and the triggers |
| GamePlay.Practised | claude-code-game/js/actions.js:113-115 | craft mastery rises by one when the path tracks it; nothing else changes |
| GamePlay.ExecuteIterate | claude-code-game/js/actions.js:94-117 | the resources become the iterate outcome; below codebase 10 only a refusal is logged |
| GamePlay.ExecuteRefactor | claude-code-game/js/actions.js:126-140 | the resources become the refactor outcome; the line is negative exactly when something broke; the triggers run |
| GamePlay.ExecuteFreelance | claude-code-game/js/actions.js:149-195 | the resources become the freelance outcome, the pay line is logged and the triggers run |
| GamePlay.FreelanceNews | claude-code-game/js/actions.js:177-185 | the hassle line is logged as a warning exactly when the hassle test passed |
| GamePlay.ExecuteNetwork | claude-code-game/js/actions.js:232-264 | the resources become the network outcome; a success line is logged exactly when there was a bonus |
| GamePlay.NetworkBonusStep | claude-code-game/js/actions.js:249-258 | a client lead adds 50 to the money and nothing else changes the resources; the bonus line is logged as a success exactly when there is a bonus |
| GamePlay.ExecuteRest | claude-code-game/js/actions.js:204-221 | 40 energy back and exactly one rest line logged |
| GamePlay.LaunchFlags | claude-code-game/js/actions.js:280-299 | a launch sets hasShipped and the user count, and marks a successful launch for a hit |
| GamePlay.LaunchRevenue | claude-code-game/js/actions.js:297-318 | a product-revenue effect starts exactly when the launch is not a flop |
| GamePlay.ExecuteShip | claude-code-game/js/actions.js:273-320 | below codebase 30 only a refusal is logged; otherwise the game is launched |
| GamePlay.Launch | claude-code-game/js/actions.js:279-319 | the launch gives the ship outcome, sets the launch flags and runs the triggers; the game has shipped |
| GamePlay.LaunchNews | claude-code-game/js/actions.js:290-293 | the bug warning is logged exactly when debt is above 10 |
| GamePlay.ExecuteAction | claude-code-game/js/actions.js:535-546 | an unknown, unavailable or unaffordable action changes nothing; otherwise the costs are deducted once each and the body runs on the charged resources |
| GamePlay.RunAction | claude-code-game/js/actions.js:544 | the body leaves the action's outcome on the charged resources; only code makes a PR |
| GamePlay.RunOtherAction | claude-code-game/js/actions.js:89-525 | the bodies other than code give the action's outcome and leave the PR queue alone |
| GamePlay.RunWorkAction | claude-code-game/js/actions.js:89-197 | iterate, refactor and freelance give the action's outcome |
| GamePlay.RunBreakAction | claude-code-game/js/actions.js:199-322 | network, rest and ship give the action's outcome |
| LegacyGame.Set | claude-code-game/game.js:617 | the written resource holds the new value and every other resource is unchanged |
| LegacyGame.DeductedSubtractsEachCost | claude-code-game/game.js:616-618 | each resource drops by exactly the total of the cost entries naming it |
| LegacyGame.Initial | claude-code-game/game.js:12-61 | 500 money, 100 hours, full energy, no codebase, week 1, rent 1500, the start branch, no events and no flags |
| LegacyGame.Log | claude-code-game/game.js:384-398 | the new event, stamped with the current week, goes first, at most 20 are kept, and nothing else changes |
| LegacyGame.Triggers | claude-code-game/game.js:400-421 | the flags follow the same two trigger rules as the modular game; resources, week, path and upgrades are unchanged |
| LegacyGame.ParseAction | claude-code-game/game.js:612 | the action found under an id is the one with that key, and every action is found under its own key |
| LegacyGame.VibeCodeStep | claude-code-game/game.js:64-88 | only the codebase changes, by 1 to 15, and by 15 exactly when the roll is above 0.7 |
| LegacyGame.IterateStep | claude-code-game/game.js:89-111 | only the codebase changes; below 10 nothing changes; otherwise it gains 2 to 10 |
| LegacyGame.FreelanceStep | claude-code-game/game.js:112-131 | money rises by 200 to under 300, and the codebase by 2 exactly when the idea draw is above 0.7 |
| LegacyGame.RestStep | claude-code-game/game.js:132-149 | only energy changes, capped at 100 and never lowered from at most 100; one rest line is logged |
| LegacyGame.ShipStep | claude-code-game/game.js:150-181 | resources are unchanged; from codebase 30 the game has shipped; a successful launch is set from codebase 80 |
| LegacyGame.ActionStep | claude-code-game/game.js:620 | an action body neither moves the week nor spends hours |
| LegacyGame.GameOver | claude-code-game/game.js:576-585 | the game-over flag is set and resources and week are unchanged |
| LegacyGame.ParseUpgrade | claude-code-game/game.js:631-632 | the upgrade found under an id is the one with that key, and every upgrade is found under its own key |
| LegacyGame.ChairEffect | claude-code-game/game.js:185-209 | the chair decisions leave the upgrade lists and the week as they were |
| LegacyGame.CoffeeEffect | claude-code-game/game.js:211-235 | the coffee decisions leave the upgrade lists and the week as they were |
| LegacyGame.AnalyticsEffect | claude-code-game/game.js:238-272 | the analytics decisions leave the upgrade lists and the week as they were |
| LegacyGame.RevenueEffect | claude-code-game/game.js:275-317 | the monetisation decisions leave the upgrade lists and the week as they were |
| LegacyGame.AiEffect | claude-code-game/game.js:320-382 | the AI-assistant decisions leave the upgrade lists and the week as they were |
| LegacyGame.DecisionEffect | claude-code-game/game.js:644 | no decision effect touches the upgrade lists or the week |
| LegacyGame.Game.constructor | claude-code-game/game.js:12-61 | a new game is in the initial state |
| LegacyGame.Game.Load | claude-code-game/game.js:916-929 | loading a saved state makes it the game's state |
| LegacyGame.Game.AddEvent | claude-code-game/game.js:384-398 | the state after logging the event |
| LegacyGame.Game.CheckNarrativeTriggers | claude-code-game/game.js:400-421 | the state after the trigger rules |
| LegacyGame.Game.DeductCosts | claude-code-game/game.js:616-618 | the cost loop leaves the deducted resources |
| LegacyGame.Game.Tick | claude-code-game/game.js:439-453 | the state after one tick of energy regeneration |
| LegacyGame.Game.TriggerGameOver | claude-code-game/game.js:576-585 | the state after the game ends |
| LegacyGame.Game.PayRent | claude-code-game/game.js:460-475 | the state after rent day |
| LegacyGame.Game.AdvanceWeek | claude-code-game/game.js:455-481 | the state after the week advances |
| LegacyGame.Game.GenerateWeeklyEvent | claude-code-game/game.js:483-575 | the state after the weekly event the roll and pick select |
| LegacyGame.Game.ApplyWeeklyEvent | claude-code-game/game.js:483-575 | the state after one drawn weekly event |
| LegacyGame.Game.RunAction | claude-code-game/game.js:620 | the state after the action's body |
| LegacyGame.Game.RunVibeCode | claude-code-game/game.js:64-88 | the state after vibe coding |
| LegacyGame.Game.RunFreelance | claude-code-game/game.js:112-131 | the state after freelancing |
| LegacyGame.Game.RunRest | claude-code-game/game.js:132-149 | the state after resting |
| LegacyGame.Game.RunIterate | claude-code-game/game.js:89-111 | the state after iterating |
| LegacyGame.Game.RunShip | claude-code-game/game.js:150-181 | the state after shipping |
| LegacyGame.Game.ExecuteAction | claude-code-game/game.js:611-628 | the state after executeAction: guard, charge, body, and the week advance when the hours run out |
| LegacyGame.Game.ExecuteUpgradeDecision | claude-code-game/game.js:630-653 | the state after executeUpgradeDecision |
| LegacyGame.LogStampsWeek | claude-code-game/game.js:384-395 | the log stays within 20 entries, newest first, stamped with the current week |
| LegacyGame.TickStep | claude-code-game/game.js:439-447 | a tick changes only the energy, which never passes 100, and non-negative regeneration never lowers it |
| LegacyGame.RegenAtLeastOne | claude-code-game/game.js:441-446 | regeneration is at least 1 when every effect's is non-negative |
| LegacyGame.RestCapsEnergy | claude-code-game/game.js:137 | resting leaves at most 100 energy, never less than before from at most 100, and touches neither money nor flags |
| LegacyGame.WeeklyEventKeeps | claude-code-game/game.js:483-575 | a weekly event never touches the money, the hours, the week or the story flags |
| LegacyGame.ApplyWeeklyKeeps | claude-code-game/game.js:483-575 | the same for one drawn event |
| LegacyGame.AdvanceWeekCharges | claude-code-game/game.js:455-481 | the next week starts with 100 hours; every fourth week charges rent and recurring costs, and the game is over exactly when money is then negative |
| LegacyGame.RentDayAtLeastRent | claude-code-game/game.js:460-469 | with non-negative recurring costs, rent day takes at least the rent |
| LegacyGame.ExecuteActionStep | claude-code-game/game.js:611-628 | a failed guard changes nothing; otherwise the week advances exactly when the charged hours are used up, and then the new week starts with 100 hours |
| LegacyGame.ActionKeepsWeek | claude-code-game/game.js:620 | an action body spends no hours and never moves the week |
| LegacyGame.ActionsCostTime | claude-code-game/game.js:63-181 | every action costs at least 10 hours |
| LegacyGame.ShipOnlyOnce | claude-code-game/game.js:150-181 | shipping needs codebase 30 and is never offered again once done |
| LegacyGame.ImprovementBounds | claude-code-game/game.js:99 | from codebase 10 an iteration adds 2 to 10, and 10 from 50 on |
| LegacyGame.DecisionBookkeeping | claude-code-game/game.js:630-653 | unknown ids change nothing; a known decision records the upgrade, and records it as declined exactly for skip, reject or noTracking |
| LegacyGame.PaidDecisionCharges | claude-code-game/game.js:637-650 | a decision other than skip or reject charges each cost entry exactly once, then runs its effect on the charged state and records the upgrade |
| LegacyGame.DecidedNeverOffered | claude-code-game/game.js:183-382 | once decided, an upgrade is never offered again |
| Clicker.FindUpgrade | game.js:118-136 | an upgrade is found exactly for the auto fixer's id, and then it has that id |
| Clicker.AvailableUpgrades | game.js:233-234 | the auto fixer is offered exactly from 10 clicks; every offered upgrade is defined and its click threshold is met |
| Clicker.ClickerGame.constructor | game.js:12-46 | no resources, the early phase, no clicks, automation locked, no upgrades and no events |
| Clicker.ClickerGame.AddEvent | game.js:191-203 | the new event goes first and only the ten newest are kept |
| Clicker.ClickerGame.CheckUnlocks | game.js:166-175 | automation is unlocked from 20 clicks and never locked again; the announcement is logged only the first time |
| Clicker.ClickerGame.FixBug | game.js:85-103 | one more click, one more utility, a tenth of a dollar more, the line logged and the unlock check run |
| Clicker.ClickerGame.PerformMainAction | game.js:74-83 | the early phase fixes a bug: one more click, one more utility, a tenth of a dollar more, the fixed-bug line logged and automation unlocked (with its announcement) the first time clicks reach 20; any other phase changes nothing |
| Clicker.ClickerGame.DeductCost | game.js:149-151 | each resource drops by exactly the cost entries naming it |
| Clicker.ClickerGame.PurchaseUpgrade | game.js:134-160 | an unknown id changes nothing; an unaffordable upgrade only logs a refusal; an affordable one is paid for, recorded and logged; a purchase happens exactly when the upgrade exists and is affordable |
| Clicker.AutoFixerCost | game.js:124 | the auto fixer costs 10 money and nothing else |
| TabsOverview.GroupKey | tab-overview-extension/overview.js:534 | a tab's group key is never 0: a group id of 0 (falsy) reads as -1, any other id is kept |
| TabsOverview.ExtendMembers | tab-overview-extension/overview.js:536-545 | one more tab of the loop appends exactly that tab to the concatenated groups |
| TabsOverview.ExtendMaximal | tab-overview-extension/overview.js:536-545 | one more tab of the loop keeps the groups maximal runs (non-empty, one key each, neighbours differ) |
| TabsOverview.RunsMembers | tab-overview-extension/overview.js:529-551 | the groups of groupTabsByGroup, concatenated, give back the tabs in their order |
| TabsOverview.Runs | tab-overview-extension/overview.js:529-551 | the runs the loop builds are maximal: none empty, every tab in a run has the run's key, neighbouring runs have different keys |
| TabsOverview.GroupTabsByGroup | tab-overview-extension/overview.js:529-551 | the loop with the open group in `current` returns exactly the maximal runs of equal group key |
| TabsOverview.OfDomain | tab-overview-extension/overview.js:375-381 | a domain's list holds exactly the tabs whose URL has that domain |
| TabsOverview.CollectGet | tab-overview-extension/overview.js:375-381 | the Map holds a domain exactly when some tab has it, with that domain's tabs in their original order |
| TabsOverview.CollectDistinct | tab-overview-extension/overview.js:375-381 | the Map's keys are distinct |
| TabsOverview.LexLeTotal | tab-overview-extension/overview.js:389 | the domain comparison (code-point order) is total |
| TabsOverview.LexLeTrans | tab-overview-extension/overview.js:389 | the domain comparison is transitive |
| TabsOverview.GroupBeforeTotal | tab-overview-extension/overview.js:384-390 | the sort comparator (more tabs first, then domain) is total |
| TabsOverview.GroupBeforeTrans | tab-overview-extension/overview.js:384-390 | the sort comparator is transitive |
| TabsOverview.InsertGroupSorted | tab-overview-extension/overview.js:384-390 | inserting one group into a sorted list keeps it sorted and adds exactly that group |
| TabsOverview.InsertGroupMultiset | tab-overview-extension/overview.js:384-390 | inserting one group adds exactly that group to the bag of groups |
| TabsOverview.HeadBeforeInserted | tab-overview-extension/overview.js:384-390 | the head of a sorted list stays before every element of the rest after an insertion it precedes |
| TabsOverview.SortGroups | tab-overview-extension/overview.js:384-390 | the sorted groups are ordered by the comparator and are a permutation of the Map's entries |
| TabsOverview.TwiceInMultiset | tab-overview-extension/overview.js:384-390 | an element at two positions occurs at least twice in the bag (used to show the sorted domains stay distinct) |
| TabsOverview.GroupTabsByDomain | tab-overview-extension/overview.js:372-391 | groupTabsByDomain gives every tab's domain exactly one non-empty group holding that domain's tabs in order, with distinct domains, sorted by tab count descending then domain |
| TabsOverview.ShownWindows | tab-overview-extension/overview.js:416-420 | the window filter keeps exactly the normal windows, and only the chosen one unless the filter is "all", in their original order |
| TabsOverview.MatchingTabs | tab-overview-extension/overview.js:425-428 | the search keeps exactly the tabs whose lower-cased title or URL contains the query, in their original order |
| TabsOverview.SearchWindows | tab-overview-extension/overview.js:423-430 | with a query, the result is exactly the windows narrowed to their matching tabs that still have a tab, in the order of the windows |
| TabsOverview.GetFilteredTabs | tab-overview-extension/overview.js:415-433 | every window returned is normal and passes the window filter; without a query exactly the shown windows are returned whole, in order; with one the result is exactly the shown windows narrowed to their matching tabs that still have a tab, so none is empty and no matching tab of a shown window is lost; either way the windows keep their original order |
| TabsOverview.FindWindow | tab-overview-extension/overview.js:804-805 | `windows.find` by id: the first window with the id, or none exactly when no window has it |
| TabsOverview.FindTab | tab-overview-extension/overview.js:809 | `findIndex` by id: the first position holding the id, or -1 exactly when no tab has it |
| TabsOverview.UnpinnedIds | tab-overview-extension/overview.js:997-1000 | an id is chosen exactly when an unpinned tab has it |
| TabsOverview.OtherUnpinnedIds | tab-overview-extension/overview.js:986-988 | an id is chosen exactly when it is not the clicked tab's and an unpinned tab has it |
| TabsOverview.CloseOthersSelection | tab-overview-extension/overview.js:983-991 | "close other tabs" does nothing exactly when the window is gone, else closes the window's unpinned tabs other than the clicked one |
| TabsOverview.RightOf | tab-overview-extension/overview.js:996-1000 | "close to the right" chooses exactly the unpinned tabs after the first position of the clicked tab |
| TabsOverview.RightOfMissing | tab-overview-extension/overview.js:996-998 | a clicked tab missing from its window (findIndex -1, slice(0)) makes "close to the right" choose every unpinned tab |
| TabsOverview.CloseRightSelection | tab-overview-extension/overview.js:993-1003 | "close to the right" does nothing exactly when the window is gone, else closes the unpinned tabs to the right of the clicked one |
| TabsOverview.SpliceStart | tab-overview-extension/overview.js:817 | the start `splice` uses: the index itself when it is in range, the length when it is past the end, never beyond the length |
| TabsOverview.InsertAt | tab-overview-extension/overview.js:817 | inserting by `splice` adds one element, at the clamped start, and keeps every other element |
| TabsOverview.RemoveAt | tab-overview-extension/overview.js:812 | removing by `splice` takes out exactly the element at the position |
| TabsOverview.DropWithinWindow | tab-overview-extension/overview.js:683-693 | within one window the dropped tab lands immediately before or after the target card, as the drop position says |
| TabsOverview.DropAcrossWindows | tab-overview-extension/overview.js:683-693 | into another window the dropped tab lands immediately before or after the target card |
| TabsOverview.Ids | tab-overview-extension/overview.js:79 | the ids of the tabs, position by position |
| TabsOverview.WithoutIds | tab-overview-extension/overview.js:889-890 | the filter keeps exactly the tabs whose id is not being closed |
| TabsOverview.WindowsWithout | tab-overview-extension/overview.js:891-894 | every window is kept, with exactly its closed tabs taken out |
| TabsOverview.Renumbered | tab-overview-extension/overview.js:820-823 | every tab's index becomes its position, nothing else changes |
| TabsOverview.RenumberedIds | tab-overview-extension/overview.js:820-823 | renumbering keeps the ids in place |
| TabsOverview.IdBagUpdate | tab-overview-extension/overview.js:812-817 | replacing one window changes the bag of all tab ids by exactly that window's ids |
| TabsOverview.MultisetShift | tab-overview-extension/overview.js:812-817 | adding a common part to both sides of an equation between bags keeps it |
| TabsOverview.RemoveAtIds | tab-overview-extension/overview.js:812 | taking out a position removes exactly its id from the bag of ids |
| TabsOverview.InsertAtIds | tab-overview-extension/overview.js:817 | inserting a tab adds exactly its id to the bag of ids |
| TabsOverview.ReplaceIds | tab-overview-extension/overview.js:812-817 | taking a tab out of a window and replacing the window changes the bag of all ids by the moved id and the added ids |
| TabsOverview.RelocateWithinIds | tab-overview-extension/overview.js:812-823 | moving a tab within its own window keeps the bag of all tab ids |
| TabsOverview.RelocateAcrossIds | tab-overview-extension/overview.js:812-823 | moving a tab into another window keeps the bag of all tab ids |
| TabsOverview.RelocateIds | tab-overview-extension/overview.js:811-824 | relocating keeps every tab id when the destination window exists and loses exactly the moved one when it does not |
| TabsOverview.MoveKeepsTabs | tab-overview-extension/overview.js:802-831 | updateLocalTabOrder changes nothing when the source window or the tab is missing, keeps every tab id when the destination window exists, and loses exactly the moved tab when it does not |
| TabsOverview.RelocatePlaces | tab-overview-extension/overview.js:811-824 | with the destination present the moved tab sits in it at the splice position with the new window id, and the affected windows are numbered by position |
| TabsOverview.MovePlacesTab | tab-overview-extension/overview.js:802-831 | after a local move to an existing window the tab is in that window at the clamped target index with its window id updated |
| TabsOverview.Overview.constructor | tab-overview-extension/overview.js:8-24 | the state starts with no windows, no tabs, no screenshots and no pending closes |
| TabsOverview.Overview.LoadTabs | tab-overview-extension/overview.js:72-84 | loadTabs stores the fetched windows and their flattened tabs, and keeps exactly the pending ids still present, in their order, without duplicates |
| TabsOverview.Overview.CloseTabs | tab-overview-extension/overview.js:882-896 | an empty list changes nothing; otherwise the ids join the pending set, their tabs leave the flat list and every window, and their screenshots are deleted |
| TabsOverview.Overview.UpdateLocalTabOrder | tab-overview-extension/overview.js:802-831 | the windows become the relocated windows and the flat tab list is rebuilt from them |
| TabsOverview.AddAllMembers | tab-overview-extension/overview.js:887 | after adding, the pending set holds exactly the old ids and the closed ones, each once |
| TabsOverview.KeepCurrent | tab-overview-extension/overview.js:79-84 | the pruned set is no longer than before |
| TabsOverview.KeepCurrentMembers | tab-overview-extension/overview.js:79-84 | the pruning keeps exactly the pending ids that are still current |
| TabsOverview.KeepCurrentNoDup | tab-overview-extension/overview.js:79-84 | the pruned set's ids stay distinct |
| TabsOverview.PruneStep | tab-overview-extension/overview.js:80-83 | one round of the loop keeps a current id in place and, for a stale one, deletes it from the part not yet visited |
| TabsOverview.PruneDropped | tab-overview-extension/overview.js:80-83 | deleting a stale id during iteration leaves the rest of the iteration unchanged |
| TabsOverview.PrunePending | tab-overview-extension/overview.js:79-84 | the pruning loop, deleting from the Set while iterating it, leaves exactly the current pending ids in insertion order |
| TabsOverview.RenumberTabs | tab-overview-extension/overview.js:820-823 | the forEach that sets `t.index = i` numbers every tab by its position and changes nothing else |
| TabsPopup.GroupColor | tab-overview-extension/popup.js:267-280 | a known Chrome group colour name gives its table colour, any other name gives grey's colour |
| TabsPopup.Highlight | tab-overview-extension/popup.js:322 | the global replace never shortens the text, and text shorter than the query has nothing to replace |
| TabsPopup.HighlightSearch | tab-overview-extension/popup.js:318-323 | an empty query leaves the text unchanged |
| TabsPopup.HighlightWraps | tab-overview-extension/popup.js:321-322 | a case-insensitive match at the scan position is wrapped in the highlight span, keeping its own letters, and the scan resumes after it |
| TabsPopup.HighlightSkips | tab-overview-extension/popup.js:321-322 | where no match starts, the character is kept as it is and the scan moves on by one |
| TabsPopup.NoOpenIn | tab-overview-extension/popup.js:322 | text without '<' holds no opening highlight span |
| TabsPopup.HighlightMarksMatch | tab-overview-extension/popup.js:318-323 | on escaped text a highlight span appears exactly when the query occurs in the text, ignoring case |
| TabsPopup.HighlightUnmark | tab-overview-extension/popup.js:318-327 | on escaped text the highlight only adds markup: taking the highlight spans out gives back the text |
| TabsPopup.HighlightNoMatch | tab-overview-extension/popup.js:318-323 | text without a case-insensitive occurrence of the query is returned unchanged |
| TabsPopup.Cut | tab-overview-extension/popup.js:338 | `slice(0, n)` keeps n characters, or all when there are fewer |
| TabsPopup.FormatUrl | tab-overview-extension/popup.js:335-342 | a parsable URL gives the host then the path, cut to 30 characters and followed by "..." exactly when the path is longer; an unparsable one gives its first 40 characters |
| TabsBackground.KeyTabIdOfKey | tab-overview-extension/background.js:40 | `parseInt(key.split('-')[0])` gives back the tab id of the key `${tabId}-${url}`, and NaN for a negative id |
| TabsBackground.DecimalDashPrefix | tab-overview-extension/background.js:181 | a numeral followed by '-' starts another such key only when the two numbers are equal |
| TabsBackground.PrefixMatchesOwnTab | tab-overview-extension/background.js:181-190 | a key's text starts with `${tabId}-` exactly when the key belongs to that tab, whatever its URL |
| TabsBackground.KeyTextInjective | tab-overview-extension/background.js:57 | two cache keys have the same text exactly when they have the same tab id and URL |
| TabsBackground.CachedMap | tab-overview-extension/background.js:38-44 | the reply holds a tab id exactly when some cached key carries it (non-negative), with the value of one of that tab's entries |
| TabsBackground.DroppedMembers | tab-overview-extension/background.js:189-193 | dropping a tab's entries keeps exactly the entries of other tabs |
| TabsBackground.FirstActive | tab-overview-extension/background.js:96-124 | `tabs.find(t => t.active)`: the first active tab, or none exactly when no tab is active |
| TabsBackground.ScreenshotCache.constructor | tab-overview-extension/background.js:4 | the cache starts empty |
| TabsBackground.ScreenshotCache.CaptureTab | tab-overview-extension/background.js:51-78 | a missing tab gives null; a cached shot for the tab's current URL is returned without change; otherwise an active tab's successful capture is returned and appended to the cache, and anything else gives null and changes nothing |
| TabsBackground.ScreenshotCache.InvalidateTab | tab-overview-extension/background.js:188-194 | deleting while iterating over the keys removes exactly the entries of that tab and keeps the rest in order, distinct |
| TabsBackground.ScreenshotCache.OnUpdated | tab-overview-extension/background.js:177-186 | a URL change or a completed load drops the tab's entries; any other update leaves the cache as it is |
| TabsBackground.ScreenshotCache.Sweep | tab-overview-extension/background.js:197-202 | past 100 entries the 50 oldest are deleted and the rest keep their order; at 100 or fewer nothing changes |
| TabsBackground.ScreenshotCache.GetCachedScreenshots | tab-overview-extension/background.js:36-47 | the loop filling `cached[tabId]` computes exactly the reply map, later entries of a tab overwriting earlier ones |
| TabsBackground.ScreenshotCache.CaptureWindow | tab-overview-extension/background.js:128-160 | the loop over one window stores every unrestricted, captured tab under its key and records it by id |
| TabsBackground.ScreenshotCache.CaptureAllTabPreviews | tab-overview-extension/background.js:114-174 | every unrestricted tab of every normal window with an active tab whose capture succeeds is stored under its key and returned by id; other windows change nothing |
| TabsBackground.CaptureAllTabsInWindow | tab-overview-extension/background.js:81-111 | each normal window whose capture succeeded gives its shot to its first active tab; no other tab gets one |
| TabsBackground.InvalidateRemovesExactlyTab | tab-overview-extension/background.js:188-194 | after invalidation no entry of the tab is left, under any URL, and every entry of another tab is kept |
| TabsBackground.WindowShotsAllowed | tab-overview-extension/background.js:128-137 | every shot of a window pass is of one of its tabs, and never of a restricted URL |
| TabsBackground.PreviewShotsAllowed | tab-overview-extension/background.js:120-137 | every shot of the preview pass is of an unrestricted tab in a normal window that has an active tab |
| TabsBackground.KeyedIndex | tab-overview-extension/background.js:154-155 | the cache entries written are the shots, one for one, under their keys |
| TabsBackground.PreviewSkipsRestricted | tab-overview-extension/background.js:131-137 | the preview pass leaves the cache entry of any restricted URL as it was |
| TabsBackground.CachedMapTabs | tab-overview-extension/background.js:39-43 | a non-negative tab id is in the reply exactly when some cached key carries it |
| TabsBackground.ActiveShotsFromActiveTabs | tab-overview-extension/background.js:87-99 | every tab credited with a shot is an active tab of a normal window |
| TabsBackground.CaptureLoop | tab-overview-extension/background.js:128-160 | the loop over one window's tabs, on the cache entries and the returned map, gives the window's shots appended to both |
| TabsBackground.WindowStepSkipped | tab-overview-extension/background.js:131-159 | a restricted tab or a failed capture adds no shot |
| TabsBackground.WindowStepTaken | tab-overview-extension/background.js:146-155 | a captured, unrestricted tab is one more cache `set` and one more id |
| TabsBackground.PreviewStep | tab-overview-extension/background.js:120-125 | a window that is not normal or has no active tab adds nothing; any other adds its window pass |
| TabsBackground.DropKeeps | tab-overview-extension/background.js:189-192 | passing over an entry of another tab keeps the entries |
| TabsBackground.DropRemoves | tab-overview-extension/background.js:189-192 | deleting an entry of the tab extends the dropped part by one |
| TabsBackground.DroppedKeepsDistinct | tab-overview-extension/background.js:189-192 | dropping entries never introduces a duplicate key |
| ClarvisConfig.Defaults | clarvis/server/config.js:7-10 | the defaults are port 3000 and the home directory joined with "projects" |
| ClarvisConfig.PortOf | clarvis/server/config.js:16-41 | `parseInt(text, 10)` is NaN exactly when the text does not start with a number, else that number |
| ClarvisConfig.Over | clarvis/server/config.js:55-60 | object spread: each key the upper layer sets replaces the lower one, the others are kept |
| ClarvisConfig.Apply | clarvis/server/config.js:55-60 | spreading a layer over a whole configuration replaces exactly the keys the layer sets |
| ClarvisConfig.OverAssociative | clarvis/server/config.js:55-60 | spreading layers is associative, so the four-layer spread is one precedence order |
| ClarvisConfig.ParseArgs | clarvis/server/config.js:12-24 | the loop with its `i++` skip computes the keys set by the arguments |
| ClarvisConfig.ArgsFrom | clarvis/server/config.js:12-24 | a port set by the arguments is the parse of the non-empty value right after some `--port` flag, and a projects root set by them is the non-empty value right after some `--projects-root` flag |
| ClarvisConfig.ArgsWithoutFlags | clarvis/server/config.js:12-24 | arguments holding neither flag set nothing |
| ClarvisConfig.LoadConfigFile | clarvis/server/config.js:26-36 | a missing or unparsable file contributes nothing; otherwise its parsed keys |
| ClarvisConfig.LoadEnvVars | clarvis/server/config.js:38-47 | a key is set exactly when its variable is set to a non-empty value, the port parsed and the root as given |
| ClarvisConfig.ExpandHome | clarvis/server/config.js:63-65 | a root starting with '~' becomes the home joined with the rest; any other root is kept |
| ClarvisConfig.LoadConfig | clarvis/server/config.js:49-68 | the port comes from the arguments, else the environment, else the file, else 3000; the projects root comes with the same precedence, and its '~' is expanded after the choice |
| ClarvisConfig.NothingGivenIsDefaults | clarvis/server/config.js:49-68 | with no arguments, no variables and no file the configuration is the defaults |
| ClarvisConfig.PortThenRoot | clarvis/server/config.js:12-24 | `--port <p> --projects-root <root>` with non-empty values sets both keys |
| ClarvisConfig.CliOverridesAll | clarvis/server/config.js:54-60 | both flags given override whatever the environment and the file hold |
| ClarvisConfig.InvalidPortIsNaN | clarvis/server/config.js:16 | `--port invalid` gives a NaN port, not the default |
| ClarvisConfig.TildeExpanded | clarvis/server/config.js:63-65 | `--projects-root ~/my-projects` is joined onto the home directory |
| ClarvisIndex.StripQuery | clarvis/server/index.js:27-30 | the result is the URL up to its first '?', and holds no '?' |
| ClarvisIndex.RequestPath | clarvis/server/index.js:24-30 | '/' asks for the index page; any other URL asks for its text before the first '?' |
| ClarvisIndex.Extname | clarvis/server/index.js:49 | a non-empty extension starts with '.' |
| ClarvisIndex.ContentType | clarvis/server/index.js:13-50 | a table extension gets its type, any other the octet-stream default; never empty |
| ClarvisIndex.NoDotDot | clarvis/server/index.js:33 | text with no two dots in a row does not contain ".." |
| ClarvisIndex.IndexHtmlSafe | clarvis/server/index.js:24-33 | the index page's name passes the traversal check |
| ClarvisIndex.ServeStatic | clarvis/server/index.js:23-58 | 403 exactly when the requested path holds "..", before the filesystem is consulted; 404 exactly when it passes that check and the file does not exist; 500 exactly when it exists but cannot be read; otherwise the file itself is served with a non-empty type |
| ClarvisIndex.IndexPage | clarvis/server/index.js:23-58 | '/' is served as the index page with the HTML type whenever that file exists and reads |
| ClarvisIndex.QueryIgnored | clarvis/server/index.js:27-30 | appending a query string changes nothing about the answer, except on the bare root |
| ClarvisIndex.QueryOnRoot | clarvis/server/index.js:24-30 | "/?x" is not the bare root, so it asks for the public directory itself rather than the index page |
| ClarvisIndex.QueryOnRootFails | clarvis/server/index.js:24-56 | so "/?x", with the public directory present and unreadable as a file, is answered 500 |
| ClarvisIndex.TraversalForbidden | clarvis/server/index.js:33-37 | the answer is 403 exactly when the requested path holds "..", whatever the filesystem holds |
| ClarvisIndex.DotDotForbidden | clarvis/server/index.js:33-37 | a URL without a query string is refused when it holds ".." |
| ClarvisIndex.MissingIsNotFound | clarvis/server/index.js:41-45 | a missing file is 404 exactly when the path passes the traversal check |
| ClarvisIndex.ServedType | clarvis/server/index.js:47-53 | a served file carries one of the table's types or the default |
| ClarvisIndex.ExtnameOfFile | clarvis/server/index.js:49 | the extension of `<dir>/<stem><ext>` is `ext` for a dot-free stem and a dotted name |
| ClarvisIndex.CssType | clarvis/server/index.js:15-50 | a stylesheet is served as text/css |
| ClarvisIndex.JsType | clarvis/server/index.js:16-50 | a script is served as application/javascript |
| ClarvisIndex.TableType | clarvis/server/index.js:13-50 | every extension of the table gets its own type |
| ClarvisIndex.MimeKeysDistinct | clarvis/server/index.js:13-21 | no extension is listed twice in the type table |
| ClarvisIndex.DotFileType | clarvis/server/index.js:49-50 | a name that only starts with a dot has no extension and gets the default type |
| ClarvisAuth.ChosenPassword | clarvis/server/auth.js:9-17 | the environment's password when it is set and non-empty, else 32 hexadecimal digits from the random bytes; never empty |
| ClarvisAuth.GeneratedPassword | clarvis/server/auth.js:15 | a generated password is 32 lower-case hexadecimal digits, and different bytes give different passwords |
| ClarvisAuth.Auth.constructor | clarvis/server/auth.js:5-6 | the password starts null and not generated |
| ClarvisAuth.Auth.InitPassword | clarvis/server/auth.js:8-20 | the password becomes the chosen one, and `wasGenerated` says whether it came from the random bytes |
| ClarvisAuth.Auth.ValidatePassword | clarvis/server/auth.js:22-27 | false while no password is set; with a non-empty password, true exactly for that password |
| ClarvisAuth.RefusedBeforeInit | clarvis/server/auth.js:22-25 | before initPassword every password is refused |
| ClarvisAuth.AcceptedAfterInit | clarvis/server/auth.js:8-27 | after initPassword exactly the chosen password is accepted |
| ClarvisSessions.Or | clarvis/server/sessions.js:46-57 | `value \|\| fallback`: the value when it is non-empty, else the fallback |
| ClarvisSessions.Summarize | clarvis/server/sessions.js:10-18 | a summary carries the session's id, status, working directory and message count |
| ClarvisSessions.CreatedDefaults | clarvis/server/sessions.js:44-62 | a session created with every option left out takes the process directory, its base name, 'default' and 'claude-sonnet-4-5', and starts idle with no messages |
| ClarvisSessions.Forked | clarvis/server/sessions.js:177-188 | a fork has the new id, the name with " (fork)", status idle, the original's configuration, messages and count, and no query running |
| ClarvisSessions.Started | clarvis/server/sessions.js:89-91 | before the query starts the session is running with an abort controller |
| ClarvisSessions.Finished | clarvis/server/sessions.js:133-142 | after the query the session is idle on completion or 'error' with the error's message on failure, and never keeps its abort controller |
| ClarvisSessions.AssistantMessages | clarvis/server/sessions.js:121-128 | a stream yields at most one recorded message per streamed message |
| ClarvisSessions.AssistantMessagesSnoc | clarvis/server/sessions.js:121-128 | one more streamed message adds its assistant record, if it is one, at the end |
| ClarvisSessions.ReceivedAllRecords | clarvis/server/sessions.js:114-131 | the stream appends exactly its assistant messages, in order, counts each one, and keeps the id, configuration and status |
| ClarvisSessions.ReceivedOne | clarvis/server/sessions.js:115-128 | one streamed message appends its assistant record, if any, and keeps the id, configuration and status |
| ClarvisSessions.RunPromptOutcome | clarvis/server/sessions.js:83-143 | a whole run records each assistant message once, never leaves the session running, and ends idle or in error with the message |
| ClarvisSessions.LoadedKeeps | clarvis/server/sessions.js:26-34 | loading never replaces a session already present, leaves every saved id present, and only adds directories |
| ClarvisSessions.PutWellKeyed | clarvis/server/sessions.js:63 | storing a session under its own id keeps every key the id of its session |
| ClarvisSessions.RemoveWellKeyed | clarvis/server/sessions.js:79 | deleting a key keeps every key the id of its session |
| ClarvisSessions.GetWellKeyed | clarvis/server/sessions.js:40-42 | a session found under an id has that id |
| ClarvisSessions.LoadedWellKeyed | clarvis/server/sessions.js:26-34 | loading saved sessions keeps every key the id of its session |
| ClarvisSessions.Store.constructor | clarvis/server/sessions.js:6-7 | the store starts with no sessions and no known directories |
| ClarvisSessions.Store.GetAllSessions | clarvis/server/sessions.js:9-19 | one summary per session, in insertion order |
| ClarvisSessions.Store.GetSession | clarvis/server/sessions.js:40-42 | the session stored under the id, which carries that id, or none |
| ClarvisSessions.Store.InitSessions | clarvis/server/sessions.js:21-38 | the directory is known, saved sessions with new ids are added in order without an abort controller, their directories become known, and the count of saved sessions is returned |
| ClarvisSessions.Store.CreateSession | clarvis/server/sessions.js:44-68 | the new session is stored under its id and its directory becomes known |
| ClarvisSessions.Store.DeleteSession | clarvis/server/sessions.js:70-81 | true exactly for a known id, and afterwards no session has that id |
| ClarvisSessions.Store.RunPrompt | clarvis/server/sessions.js:83-143 | an unknown id fails with "Session <id> not found" and changes nothing; otherwise every streamed message is yielded, in order, the session is replaced by its state after the run, and a failure is rethrown after the messages already yielded |
| ClarvisSessions.Store.AddUserMessage | clarvis/server/sessions.js:145-159 | none exactly for an unknown id; otherwise one user message is appended, counted and returned, and the activity time updated |
| ClarvisSessions.Store.InterruptSession | clarvis/server/sessions.js:161-169 | true exactly for a session with a running query, which becomes idle; otherwise nothing changes |
| ClarvisSessions.Store.ForkSession | clarvis/server/sessions.js:171-193 | an unknown id fails and changes nothing; otherwise the fork is stored under the new id and returned |
| ClarvisSessions.ForkKeepsOriginal | clarvis/server/sessions.js:171-193 | forking under a fresh id leaves the original session as it was and makes the fork findable |
| ClarvisPermissions.PendingOf | clarvis/server/permissions.js:65-73 | a session's listing is no longer than the registry |
| ClarvisPermissions.PendingOfMembers | clarvis/server/permissions.js:65-73 | a request is listed for a session exactly when it is pending for that session |
| ClarvisPermissions.Permissions.constructor | clarvis/server/permissions.js:3 | no request is pending and none resolved |
| ClarvisPermissions.Permissions.Request | clarvis/server/permissions.js:6-42 | a read-only tool is allowed at once and registers nothing; any other tool is registered under the request id, with a timeout only for a positive one, and waits |
| ClarvisPermissions.Permissions.Resolve | clarvis/server/permissions.js:32-36 | resolving removes the entry and hands back the decision |
| ClarvisPermissions.Permissions.HandlePermissionResponse | clarvis/server/permissions.js:44-63 | false and no change for an unknown request; otherwise the entry goes, 'allow' allows with the edited input when a non-empty one is given, anything else denies as "User denied permission" |
| ClarvisPermissions.EditedInput | clarvis/server/permissions.js:53 | a falsy edited input (the empty text) adds no field, exactly as a missing one; any other is passed on as it is |
| ClarvisPermissions.Permissions.TimeoutFires | clarvis/server/permissions.js:24-29 | a timed request still pending is removed and denied as timed out; anything else changes nothing |
| ClarvisPermissions.Permissions.GetPendingPermissions | clarvis/server/permissions.js:65-73 | the loop returns the session's requests in the Map's order |
| ClarvisPermissions.AnswerTwice | clarvis/server/permissions.js:44-63 | a request answered once cannot be answered again: the second response is refused |
| ClarvisHub.Recipients | clarvis/server/ws-hub.js:51-57 | a broadcast reaches at most every client |
| ClarvisHub.OpenClients | clarvis/server/ws-hub.js:64-68 | broadcastAll reaches at most every client |
| ClarvisHub.RecipientsMembers | clarvis/server/ws-hub.js:46-58 | a broadcast reaches a client exactly when its socket is open and it follows the session or the message is session:created |
| ClarvisHub.CreatedReachesAllOpen | clarvis/server/ws-hub.js:52-69 | a session:created broadcast reaches exactly the clients broadcastAll reaches |
| ClarvisHub.Hub.constructor | clarvis/server/ws-hub.js:3-4 | no server and no clients |
| ClarvisHub.Hub.InitWebSocket | clarvis/server/ws-hub.js:6-7 | the server exists and the clients are unchanged |
| ClarvisHub.Hub.Connect | clarvis/server/ws-hub.js:9-11 | a new client is registered following no session |
| ClarvisHub.Hub.HandleClientMessage | clarvis/server/ws-hub.js:32-44 | subscribe adds and unsubscribe removes the session for a known client only; anything else changes nothing |
| ClarvisHub.Hub.Close | clarvis/server/ws-hub.js:22-24 | the closing client is dropped |
| ClarvisHub.Hub.Broadcast | clarvis/server/ws-hub.js:46-58 | nothing is sent before initWebSocket; otherwise exactly the recipients receive it |
| ClarvisHub.Hub.BroadcastAll | clarvis/server/ws-hub.js:60-69 | nothing before initWebSocket; otherwise every open client |
| ClarvisHub.Hub.SendToClient | clarvis/server/ws-hub.js:71-76 | sent exactly when the client is known and its socket is open |
| ClarvisHub.Hub.ConnectedClients | clarvis/server/ws-hub.js:78-80 | the number of registered clients |
| ClarvisApi.Segment | clarvis/server/api.js:30 | a captured id is a non-empty segment without '/' that, between the prefix and the suffix, makes up the whole path |
| ClarvisApi.SegmentOf | clarvis/server/api.js:30 | every non-empty segment without '/' between the prefix and the suffix is captured |
| ClarvisApi.SegmentStopsAtSlash | clarvis/server/api.js:30 | a segment followed by '/' and more of the path is not captured by a pattern ending at the id |
| ClarvisApi.RouteOf | clarvis/server/api.js:19-87 | each route is taken only with its method and its path pattern, in the source's order |
| ClarvisApi.OtherMethodNoRoute | clarvis/server/api.js:19-87 | a method other than GET, POST and DELETE matches no route |
| ClarvisApi.SessionRoutes | clarvis/server/api.js:30-50 | `/api/sessions/<id>` reads with GET and deletes with DELETE, for any id without '/' |
| ClarvisApi.PromptRoute | clarvis/server/api.js:52-53 | POST `/api/sessions/<id>/prompt` is the prompt route, not a session route |
| ClarvisApi.InterruptRoute | clarvis/server/api.js:72-73 | POST `/api/sessions/<id>/interrupt` is the interrupt route |
| ClarvisApi.PermissionRoute | clarvis/server/api.js:79-80 | POST `/api/permission/<requestId>` answers that permission request |
| ClarvisApi.TruncateResult | clarvis/server/api.js:173-178 | a string result longer than 5000 characters keeps its first 5000 and ends with the truncation marker; any other result is unchanged |
| ClarvisApi.TruncateIdempotent | clarvis/server/api.js:173-178 | truncating an already truncated result changes nothing |
| ClarvisApi.ReadBody | clarvis/server/api.js:185-197 | an empty body and a body JSON.parse rejects both read as `{}`; otherwise the parsed body |
| ClarvisApi.StatusName | clarvis/server/api.js:157 | every session state has a non-empty status name |
| ClarvisApi.NoticeOf | clarvis/server/api.js:100-145 | an init system message, an assistant message, a tool call, a tool result and an error each give one notice to the running session; any other message gives none |
| ClarvisApi.NoticesOf | clarvis/server/api.js:99-146 | a stream gives at most one notice per message |
| ClarvisApi.NoticesOfSession | clarvis/server/api.js:99-146 | every notice of a run goes to the session that runs |
| ClarvisApi.PostPrompt | clarvis/server/api.js:52-70 | an unknown session gets 404 and a missing prompt 400, both changing nothing; otherwise the user message is added and broadcast, the run follows, and the answer is 202 "running" |
| ClarvisApi.HandleApiRequest | clarvis/server/api.js:13-88 | every route's answer, notices and effect on the store: the list, a created session broadcast to all, a session's detail or 404, a deletion broadcast to all or 404, the prompt route, the interrupt's success with a running session set idle, a permission answer 200 with the entry removed and its decision resolved, or 404 with nothing changed, and 404 "Not found" for anything else; only the permission route touches the pending permissions |
| ClarvisApi.RunPromptAsync | clarvis/server/api.js:90-159 | nothing for an unknown session; otherwise a running status, the notices of the messages yielded, an error notice when the run fails, and the session's final status, with the session replaced by its state after the run |
| ClarvisSocket.Pow2 | clarvis/public/js/ws.js:53 | a power of two is at least 1 |
| ClarvisSocket.Delay | clarvis/public/js/ws.js:8 | a reconnect delay is never below the one-second base |
| ClarvisSocket.DelayDoubles | clarvis/public/js/ws.js:53 | each reconnect delay is twice the one before |
| ClarvisSocket.Connection.constructor | clarvis/public/js/ws.js:3-8 | a new connection has a socket not yet open, no attempts, no timer, and has called no callback |
| ClarvisSocket.Connection.Connect | clarvis/public/js/ws.js:10-14 | a new socket, not yet open; nothing else changes |
| ClarvisSocket.Connection.OnOpen | clarvis/public/js/ws.js:16-19 | the socket is open, the attempt counter is back to zero, and onConnect is called |
| ClarvisSocket.Connection.ScheduleReconnect | clarvis/public/js/ws.js:47-61 | after ten attempts only onMaxReconnectAttempts is called; otherwise a timer of 1000·2^attempts is armed, the counter goes up by one and onReconnecting reports it |
| ClarvisSocket.Connection.OnClose | clarvis/public/js/ws.js:21-31 | the socket is dropped; close code 4001 calls onAuthError and arms nothing; any other code calls onDisconnect and schedules a reconnect |
| ClarvisSocket.Connection.TimerFires | clarvis/public/js/ws.js:58-60 | the armed timer runs connect: a new socket, not yet open |
| ClarvisSocket.Connection.Send | clarvis/public/js/ws.js:63-69 | true and sent exactly while the socket exists and is open; otherwise false and nothing sent |
| ClarvisSocket.Connection.Close | clarvis/public/js/ws.js:71-80 | a pending reconnect is cancelled and the socket dropped |
| ClarvisSocket.Connection.IsConnected | clarvis/public/js/ws.js:82-84 | connected exactly while the socket exists and is open |
| ClarvisSocket.Backoff | clarvis/public/js/ws.js:21-61 | against a server that never answers, ten reconnects wait 1, 2, 4, ... 512 seconds, and the eleventh close gives up without arming a timer |
| ClarvisSocket.RefusedStaysClosed | clarvis/public/js/ws.js:24-27 | once the server refused the password (4001) no reconnect is armed and onAuthError is the last callback |
| ClarvisSocket.OpenResetsBackoff | clarvis/public/js/ws.js:16-53 | an open after failed attempts makes the next reconnect wait one second again |
| ClarvisWs.Send | clarvis/server/ws-handler.js:37-41 | a message is written to the socket exactly when it is open, and to no other socket |
| ClarvisWs.Broadcast | clarvis/server/ws-handler.js:25-35 | a broadcast is written exactly to the open sockets that follow the session |
| ClarvisWs.AddedKeeps | clarvis/server/ws-handler.js:8-13 | adding a socket makes it follow the session, keeps every set non-empty and touches no other session |
| ClarvisWs.RemovedKeeps | clarvis/server/ws-handler.js:15-23 | removing a socket takes exactly it out of the session's followers, deletes an emptied set and touches no other session |
| ClarvisWs.RemovedAllClears | clarvis/server/ws-handler.js:72-77 | after leaving its sessions one by one the socket follows none of them, and other sessions are untouched |
| ClarvisWs.Handler.constructor | clarvis/server/ws-handler.js:6 | no session has followers, no socket is registered, no query is active |
| ClarvisWs.Handler.HandleConnection | clarvis/server/ws-handler.js:43-81 | a missing or wrong password gets the error and close code 4001 and registers nothing; otherwise the socket starts with no subscriptions and is told it is connected |
| ClarvisWs.Handler.Subscribe | clarvis/server/ws-handler.js:111-113 | the session is added to the socket's own set and the socket to the session's followers |
| ClarvisWs.KindRoundTrip | clarvis/server/ws-handler.js:84-333 | each case of the `switch (message.type)` is selected by its own type string and by no other |
| ClarvisWs.Answer | clarvis/server/ws-handler.js:85-333 | the reply-only cases answer with an error exactly for an unknown session's history or rename, and for a project without a name, one that exists or one whose directory could not be made; a created project's reply carries its path `<root>/<name>`; delete_session's `success` is the unawaited Promise of the async `deleteSession`, sent as `{}` |
| ClarvisWs.DeleteReplyIgnoresOutcome | clarvis/server/ws-handler.js:313-317 | the session_deleted reply is the same whether or not the session existed, and never says `true` |
| ClarvisWs.Handler.HandleMessage | clarvis/server/ws-handler.js:83-334 | subscribe and unsubscribe with a session id change the follower sets and confirm, and without one do nothing; a query without prompt or cwd is refused, else the socket follows the session (given or fresh), which is told it is running; resume of an unknown session is refused, else the socket follows it and gets session_info; a permission answer for no active query or an unknown request is refused, else the request is resolved allow/deny, dropped and confirmed; list_projects, list_sessions, get_models, get_commands, get_history, interrupt, create_project, delete_session (with `success` sent as `{}`) and rename_session send their one answer and change nothing here; an unknown type gets "Unknown message type" and changes nothing |
| ClarvisWs.Handler.Close | clarvis/server/ws-handler.js:72-77 | a closing socket leaves every session it subscribed to and no other set changes |
| ClarvisState.Find | clarvis/public/js/state.js:37-69 | `sessions.find` by id: the first session with the id, or none exactly when no session has it |
| ClarvisState.Filtered | clarvis/public/js/state.js:61 | the filter keeps exactly the sessions with another id, in order |
| ClarvisState.FilteredAppend | clarvis/public/js/state.js:61 | filtering a concatenation filters each part |
| ClarvisState.RemovedNotActive | clarvis/public/js/state.js:60-66 | after removing the active session the removed id is never active, and removing another session keeps the active one |
| ClarvisState.Assigned | clarvis/public/js/state.js:55 | `Object.assign` replaces exactly the fields the update sets and keeps the id and messages |
| ClarvisState.Pushed | clarvis/public/js/state.js:71-72 | a message pushed onto a session goes after its messages, a missing list counting as empty |
| ClarvisState.State.constructor | clarvis/public/js/state.js:1-18 | the initial state: no sessions, none active, no messages, no tool, no permission, the default config, both panels closed, no listeners |
| ClarvisState.State.Subscribe | clarvis/public/js/state.js:20-23 | the listener joins the Set once |
| ClarvisState.State.Unsubscribe | clarvis/public/js/state.js:22 | the returned function removes the listener, and reports whether it was there |
| ClarvisState.State.Notify | clarvis/public/js/state.js:25-33 | every listener is called, in insertion order; exactly the throwing ones are logged, and the loop goes on |
| ClarvisState.State.SetActiveSession | clarvis/public/js/state.js:35-45 | the id becomes active; a known session's messages and config are shown, an unknown id shows no messages |
| ClarvisState.State.AddSession | clarvis/public/js/state.js:47-50 | the session goes last with an empty message list |
| ClarvisState.State.UpdateSession | clarvis/public/js/state.js:52-58 | the first session with the id takes the update and listeners are notified; an unknown id changes nothing and notifies no one |
| ClarvisState.State.RemoveSession | clarvis/public/js/state.js:60-66 | every session with the id goes; an active removed session hands over to the first remaining one, or none |
| ClarvisState.State.AddMessage | clarvis/public/js/state.js:68-78 | the message is pushed onto the first session with the id and shown when that session is active; an unknown session changes nothing |
| ClarvisState.State.SetCurrentTool | clarvis/public/js/state.js:80-83 | the tool is set and listeners notified |
| ClarvisState.State.SetPendingPermission | clarvis/public/js/state.js:85-88 | the permission is set and listeners notified |
| ClarvisState.State.ToggleSidebar | clarvis/public/js/state.js:90-93 | a given value is taken, no value flips the sidebar; the config panel is untouched |
| ClarvisState.State.ToggleConfigPanel | clarvis/public/js/state.js:95-98 | a given value is taken, no value flips the config panel; the sidebar is untouched |
| ClarvisState.ToggleTwice | clarvis/public/js/state.js:90-93 | toggling the sidebar twice without a value leaves it as it was |
| ClarvisState.MessageForUnknownSession | clarvis/public/js/state.js:68-78 | a message for an unknown session is dropped |
| ClarvisState.MessageForActiveSession | clarvis/public/js/state.js:35-78 | a message for the active session is shown at once |
| ClarvisRender.ReplaceChar | clarvis/public/js/render.js:186-190 | replacing every occurrence of a character by text without it leaves none |
| ClarvisRender.ReplaceCharAppend | clarvis/public/js/render.js:186-190 | a global replace of a concatenation is the concatenation of the replaces |
| ClarvisRender.ReplaceCharAbsent | clarvis/public/js/render.js:186-190 | replacing a character that does not occur changes nothing |
| ClarvisRender.EscapeChar | clarvis/public/js/render.js:185-191 | a character escapes to text without '<', '>' or '"', and any other character than those and '&' stays as it is |
| ClarvisRender.EscapeEach | clarvis/public/js/render.js:185-191 | escaping character by character leaves no '<', '>' or '"' |
| ClarvisRender.EscapeOne | clarvis/public/js/render.js:185-191 | the four chained replaces on one character give its escape |
| ClarvisRender.FourPassesEach | clarvis/public/js/render.js:185-191 | the four chained global replaces, '&' first, escape each character once, so no entity is escaped twice |
| ClarvisRender.EscapeHtml | clarvis/public/js/render.js:185-191 | `escapeHtml` equals escaping each character on its own, and its result holds no '<', '>' or '"' |
| ClarvisRender.EscapeHtmlSafe | clarvis/public/js/render.js:185-191 | escaped text has no '<', '>' or '"', and text without special characters is unchanged |
| ClarvisRender.EscapeEachPlain | clarvis/public/js/render.js:185-191 | text without special characters escapes to itself |
| ClarvisRender.NonEmpty | clarvis/public/js/render.js:171 | `filter(Boolean)` keeps exactly the non-empty parts |
| ClarvisRender.ShortenPath | clarvis/public/js/render.js:169-174 | no path gives 'Unknown'; a path of at most two segments is kept; a longer one becomes '.../' and its last two segments |
| ClarvisRender.ThreeSegments | clarvis/public/js/render.js:171 | `a/b/c` splits into the three segments |
| ClarvisRender.NonEmptyThree | clarvis/public/js/render.js:171 | three non-empty parts are all kept |
| ClarvisRender.ShortenPathIdempotent | clarvis/public/js/render.js:169-174 | shortening a shortened path changes nothing |
| ClarvisRender.SplitPartsNoSlash | clarvis/public/js/render.js:171 | no part of a split on '/' holds '/' |
| ClarvisRender.TimeAgo | clarvis/public/js/render.js:176-183 | '' exactly for a missing timestamp; 'now' exactly under a minute, a timestamp in the future included; otherwise a count followed by 'm' under an hour, 'h' under a day and 'd' from a day on |
| ClarvisRender.TimeAgoHours | clarvis/public/js/render.js:176-183 | between h and h+1 whole hours (under a day) shows as `<h>h` |
| ClarvisRender.TimeAgoMinutes | clarvis/public/js/render.js:176-183 | between m and m+1 whole minutes (under an hour) shows as `<m>m` |
| ClarvisRender.TimeAgoBounds | clarvis/public/js/render.js:176-183 | under a minute, a future timestamp included, shows 'now'; a day or more shows whole days |
| ClarvisRender.Rendered | clarvis/public/js/render.js:44-51 | an element keeps the message's role, and a non-assistant message's HTML holds no '<' of its own |
| ClarvisRender.RenderedAll | clarvis/public/js/render.js:43-53 | one element per message |
| ClarvisRender.RenderedAllAppend | clarvis/public/js/render.js:43-53 | rendering a concatenation renders each part |
| ClarvisRender.MessageView.constructor | clarvis/public/js/render.js:28 | the container starts with no message elements |
| ClarvisRender.MessageView.RenderMessages | clarvis/public/js/render.js:27-56 | with no active session the elements are removed; otherwise the messages past those already on the page are appended and the others left as they are |
| ClarvisRender.RenderCatchesUp | clarvis/public/js/render.js:40-53 | a page showing the earlier messages shows every message once after the render |
| ClarvisRender.RenderTwice | clarvis/public/js/render.js:40-53 | rendering the same messages twice adds nothing the second time |
| ClarvisApp.FirstPendingUser | clarvis/public/js/app.js:120 | the result is None exactly when no message is a pending user message, and otherwise the index of the first one |
| ClarvisApp.Uuids | clarvis/public/js/app.js:198-202 | a uuid is in the set exactly when some message of the list carries it and it is not empty |
| ClarvisApp.WithMessage | clarvis/public/js/app.js:113-130 | a confirmed user message with a uuid takes the place of the first pending user message when there is one, every other message staying where it was; any other message is appended at the end, the list before it unchanged |
| ClarvisApp.PendingCount | clarvis/public/js/app.js:116-124 | the number of local echoes waiting for confirmation never exceeds the length of the list |
| ClarvisApp.PendingCountReplace | clarvis/public/js/app.js:120-124 | replacing a pending user message by a confirmed one lowers the pending count by exactly one |
| ClarvisApp.PendingCountAppend | clarvis/public/js/app.js:128-129 | appending a message raises the pending count by one exactly when that message is a pending user message |
| ClarvisApp.WithMessagePending | clarvis/public/js/app.js:113-130 | a confirmed user message with a uuid replaces a local echo while one exists, keeping the length and lowering the pending count by one; otherwise the message is appended and the pending count is unchanged |
| ClarvisApp.PendingCountNone | clarvis/public/js/app.js:120-121 | a list without pending user messages has a pending count of zero |
| ClarvisApp.WithStatus | clarvis/public/js/app.js:135-139 | the list keeps its length, and exactly the sessions with the given id get the new status with every other field kept |
| ClarvisApp.WithSdkId | clarvis/public/js/app.js:141-146 | the list keeps its length, and exactly the sessions with the given id get the new SDK session id |
| ClarvisApp.WithName | clarvis/public/js/app.js:181-185 | the list keeps its length, and exactly the sessions with the given id get the new name |
| ClarvisApp.WithoutSession | clarvis/public/js/app.js:172-173 | a session remains exactly when it was in the list and its id differs from the deleted one; the list never grows |
| ClarvisApp.TextOf | clarvis/public/js/app.js:635-637 | a plain string is shown as it is, missing content as ''; for a list of blocks what is shown is exactly the texts of the text blocks, in block order, joined with '\n', so the text of every text block occurs in it |
| Util.TextsOfAppend | clarvis/public/js/app.js:637 | `filter(c => c.type === 'text').map(c => c.text)` keeps the blocks' order: the texts of two runs of blocks are the first run's texts then the second's |
| Util.TextsOfOne | clarvis/public/js/app.js:637 | one block gives its text exactly when it is a text block, and nothing otherwise |
| ClarvisApp.NoTextBlocks | clarvis/public/js/app.js:635-637 | content made of blocks none of which is a text block shows no text |
| ClarvisApp.Preview | clarvis/public/js/app.js:643 | a text of at most 100 characters is shown whole; a longer one shows its first 100 characters followed by '...' |
| ClarvisApp.App.constructor | clarvis/public/js/app.js:18-30 | the client starts with no sessions, no active session, no messages, no projects, no permission requests and no seen uuids |
| ClarvisApp.App.SeenOf | clarvis/public/js/app.js:100-103 | a session without a Set of seen uuids has seen none |
| ClarvisApp.App.MessagesOf | clarvis/public/js/app.js:114 | a session without a message list has no messages |
| ClarvisApp.App.ReceiveMessage | clarvis/public/js/app.js:90-133 | an init message changes nothing; a message whose uuid was already seen changes no message list; any other message marks its uuid as seen and is stored in its session's list, and nothing else changes |
| ClarvisApp.App.ReceiveHistory | clarvis/public/js/app.js:187-208 | the session's list becomes the history, every uuid in it is added to the session's seen set, and nothing else changes |
| ClarvisApp.App.HandleMessage | clarvis/public/js/app.js:71-213 | for each server message type, the state it changes and how: the session and project lists replaced, the subscription sent on query_started, messages deduplicated by uuid, status, SDK id and name updates, permission requests set and cleared, the session list requested on query_complete, a created project inserted in name order, a deleted session and its messages dropped, and history replacing the list; 'connected', 'error' and unknown types change nothing |
| ClarvisApp.ReplayIgnored | clarvis/public/js/app.js:105-108 | a message with a uuid delivered twice is stored once |
| ClarvisApp.InitNeverStored | clarvis/public/js/app.js:94-97 | an init message is never stored |
| ClarvisApp.HistoryThenReplay | clarvis/public/js/app.js:105-108 | after a history arrives, a replay of any of its messages that carries a uuid leaves the list as the history |
| ClarvisApp.DeleteAndResolve | clarvis/public/js/app.js:155-178 | after a session is deleted and its permission request resolved, neither its messages nor its request remain |
| ClarvisOldSessions.CollapseSpaces | clarvis-old/server/sessions.js:38 | the result is never longer than the text, is empty exactly when the text is, starts with a space exactly where the text starts with white space, and holds no white space but single spaces |
| ClarvisOldSessions.CollapseCollapsed | clarvis-old/server/sessions.js:38 | text that already holds only single spaces is left as it is |
| ClarvisOldSessions.Cleaned | clarvis-old/server/sessions.js:38 | the cleaned text holds only single spaces, is no longer than the text, and neither starts nor ends with a space |
| ClarvisOldSessions.TrimCollapsed | clarvis-old/server/sessions.js:38 | trimming text that holds only single spaces keeps that property |
| ClarvisOldSessions.CleanedIdempotent | clarvis-old/server/sessions.js:38 | cleaning cleaned text changes nothing |
| ClarvisOldSessions.TruncatePreview | clarvis-old/server/sessions.js:36-41 | a value that is not a string gives ''; a cleaned text of at most maxLength characters is returned whole; a longer one gives its first maxLength characters followed by '...'; the result holds no white space but spaces and is at most maxLength + 3 long |
| ClarvisOldSessions.PreviewStable | clarvis-old/server/sessions.js:36-41 | a preview left whole is its own preview |
| ClarvisOldSessions.ExtractTextContent | clarvis-old/server/sessions.js:45-54 | missing content gives '' and a string is returned as it is |
| ClarvisOldSessions.ExtractedHasEveryText | clarvis-old/server/sessions.js:50-53 | the text of every text block appears in the extracted text |
| ClarvisOldSessions.ExtractedNoText | clarvis-old/server/sessions.js:50-53 | blocks none of which is a text block extract to '' |
| ClarvisOldSessions.Or | clarvis-old/server/sessions.js:81 | JavaScript's `value \|\| fallback` on strings: a non-empty value wins, '' gives the fallback |
| ClarvisOldSessions.QueueOf | clarvis-old/server/sessions.js:29 | a session without a queue has an empty one |
| ClarvisOldSessions.Summarize | clarvis-old/server/sessions.js:15-33 | the queue length is the queue's length; there is a preview exactly when the last message has content, and it is at most 103 characters long |
| ClarvisOldSessions.Created | clarvis-old/server/sessions.js:79-99 | a new session is idle with no messages and an empty queue; its directory defaults to the process directory, its name to the directory's last segment and its model to 'sonnet' |
| ClarvisOldSessions.Forked | clarvis-old/server/sessions.js:244-256 | a fork has the new id, the original's name with ' (fork)', the same configuration, messages and message count, an empty queue, and is idle, not running and not archived |
| ClarvisOldSessions.Renamed | clarvis-old/server/sessions.js:306 | the trimmed new name replaces the old one unless it is empty, in which case the session is unchanged; no other field changes |
| ClarvisOldSessions.FindPrompt | clarvis-old/server/sessions.js:287 | the result is None exactly when no queued prompt has the id, and otherwise an index of a prompt with that id |
| ClarvisOldSessions.RemoveAt | clarvis-old/server/sessions.js:290 | the queue loses exactly the one entry at the index, and all others are kept |
| ClarvisOldSessions.CancelRemovesIt | clarvis-old/server/sessions.js:283-292 | when prompt ids are unique, cancelling leaves them unique and leaves no entry with the cancelled id |
| ClarvisOldSessions.NamesOf | clarvis-old/server/sessions.js:389 | a name is in the set exactly when some command carries it |
| ClarvisOldSessions.BuiltInNamesUnique | clarvis-old/server/sessions.js:369-385 | no two built-in commands share a name |
| ClarvisOldSessions.Merged | clarvis-old/server/sessions.js:387-403 | the merged list starts with the built-ins and is no longer than the built-ins and the skills together |
| ClarvisOldSessions.MergedMembers | clarvis-old/server/sessions.js:387-403 | the merge lists only given commands, lists a command for every skill's name, and keeps names unique when the built-ins' names are |
| ClarvisOldSessions.MergeCommands | clarvis-old/server/sessions.js:388-403 | the two loops with their set of seen names build exactly the merged list |
| ClarvisOldSessions.SortedMerge | clarvis-old/server/sessions.js:387-408 | the result is a reordering of the merged list, holds every built-in, a command for every skill's name and nothing else, is sorted by name, and lists each name once |
| ClarvisOldSessions.GetAvailableCommands | clarvis-old/server/sessions.js:365-409 | with or without cached skill commands: every built-in, a command for every skill name and nothing else, sorted by name, each name once |
| ClarvisOldSessions.SameMembers | clarvis-old/server/sessions.js:406 | sorting keeps the commands and their names |
| ClarvisOldSessions.ArchiveIfInactive | clarvis-old/server/sessions.js:345-352 | a session ends archived exactly when it was archived or is inactive (not archived, not running, idle longer than the threshold); nothing else changes |
| ClarvisOldSessions.ArchivedAll | clarvis-old/server/sessions.js:343-353 | one pass keeps every key and position and archives exactly the inactive sessions |
| ClarvisOldSessions.InactiveMembers | clarvis-old/server/sessions.js:343-355 | the pass returns the id of exactly each inactive session, saves one archived copy per returned id, and returns nothing exactly when no session is inactive |
| ClarvisOldSessions.InactiveStep | clarvis-old/server/sessions.js:343-353 | each session visited adds its id and its archived copy exactly when it is inactive |
| ClarvisOldSessions.ArchiveSettles | clarvis-old/server/sessions.js:337-356 | a second pass at the same moment archives nothing more and changes nothing |
| ClarvisOldSessions.Store.constructor | clarvis-old/server/sessions.js:6-7 | the store starts with no sessions, no known directories and nothing saved |
| ClarvisOldSessions.Store.Find | clarvis-old/server/sessions.js:75-77 | `getSession` is the Map's lookup |
| ClarvisOldSessions.Store.GetAllSessions | clarvis-old/server/sessions.js:14-34 | one summary per session, in Map order |
| ClarvisOldSessions.Store.CreateSession | clarvis-old/server/sessions.js:79-105 | the new session is put in the Map under its id, saved, and its directory becomes known |
| ClarvisOldSessions.Store.InterruptSession | clarvis-old/server/sessions.js:228-236 | the result is true exactly when the session exists and runs a query, and then only its status becomes idle; otherwise nothing changes |
| ClarvisOldSessions.Store.ForkSession | clarvis-old/server/sessions.js:238-261 | an unknown id fails with "Session <id> not found" and changes nothing; otherwise the fork is put under the new id and saved |
| ClarvisOldSessions.Store.QueuePrompt | clarvis-old/server/sessions.js:263-276 | an unknown session gives null and changes nothing; otherwise the prompt is appended to the session's queue, created when missing |
| ClarvisOldSessions.Store.GetQueue | clarvis-old/server/sessions.js:278-281 | no session or no queue gives [], otherwise the session's queue |
| ClarvisOldSessions.Store.CancelQueuedPrompt | clarvis-old/server/sessions.js:283-292 | the result is true exactly when the session has a queue holding the id, and then exactly the first entry with it is removed; otherwise nothing changes |
| ClarvisOldSessions.Store.DequeuePrompt | clarvis-old/server/sessions.js:294-298 | an empty or missing queue gives null and changes nothing; otherwise the front entry is returned and removed |
| ClarvisOldSessions.Store.RenameSession | clarvis-old/server/sessions.js:300-309 | an unknown id fails and changes nothing; otherwise the renamed session replaces the old one and is saved |
| ClarvisOldSessions.Store.ArchiveSession | clarvis-old/server/sessions.js:311-320 | an unknown id fails and changes nothing; otherwise the session gets the given archived flag and is saved |
| ClarvisOldSessions.Store.ClearSessionMessages | clarvis-old/server/sessions.js:322-333 | an unknown id fails and changes nothing; otherwise the session has no messages, a message count of zero and the current time as last activity, and is saved |
| ClarvisOldSessions.Store.ArchiveAt | clarvis-old/server/sessions.js:344-352 | the session at the position is archived, saved and its id returned exactly when it is inactive |
| ClarvisOldSessions.Store.AutoArchiveInactiveSessions | clarvis-old/server/sessions.js:337-356 | a threshold that is not positive returns [] and changes nothing; otherwise every inactive session is archived and saved in Map order and their ids are returned |
| ClarvisOldSessions.Store.ArchivePass | clarvis-old/server/sessions.js:343-355 | the loop leaves the Map as one archiving pass, returns the inactive ids and saves their archived copies |
| ClarvisOldSessions.QueueIsFifo | clarvis-old/server/sessions.js:263-298 | two queued prompts are dequeued in the order they were queued, and a third dequeue gives null |
| ClarvisOldPersistence.StoragePath | clarvis-old/server/persistence.js:8-10 | the storage directory is the '.clarvis' directory under the working directory |
| ClarvisOldPersistence.FileNameOfId | clarvis-old/server/persistence.js:26 | every session's file name passes the filter `loadAllSessions` applies, and the id can be read back from it |
| ClarvisOldPersistence.FileNameInjective | clarvis-old/server/persistence.js:26 | distinct sessions are stored in distinct files |
| ClarvisOldPersistence.Serialized | clarvis-old/server/persistence.js:28-38 | the saved status is never 'running' and otherwise is the session's; a non-empty name is kept; the archived flag is kept |
| ClarvisOldPersistence.SerializedAsWritten | clarvis-old/server/persistence.js:28-38 | the record the code builds carries no archived flag |
| ClarvisOldPersistence.Restored | clarvis-old/server/sessions.js:61-66 | a restored session keeps the saved id, status and archived flag, has no queue and runs nothing |
| ClarvisOldPersistence.SaveRestoreSave | clarvis-old/server/persistence.js:28-38 | saving a restored record writes the same record again, and the archived flag survives the round trip |
| ClarvisOldPersistence.ArchiveLostAsWritten | clarvis-old/server/persistence.js:28-38 | as written, an archived session comes back from disk unarchived |
| ClarvisOldPersistence.Disk.Entries | clarvis-old/server/persistence.js:78 | a missing directory lists nothing |
| ClarvisOldPersistence.Disk.SaveSession | clarvis-old/server/persistence.js:16-42 | the storage directory lists the session's file, the file holds the saved record, and the session's path is returned |
| ClarvisOldPersistence.Disk.LoadSession | clarvis-old/server/persistence.js:44-55 | a missing file gives null; a stored record is returned; a failing read or an unparsable file gives an error |
| ClarvisOldPersistence.Disk.DeleteSessionFile | clarvis-old/server/persistence.js:57-68 | a failing removal gives its error and changes nothing; a missing file gives false and changes nothing; otherwise the file is removed from the disk and its directory's listing, and the result is true |
| ClarvisOldPersistence.Disk.Readable | clarvis-old/server/persistence.js:79-89 | the readable records never outnumber the listed names |
| ClarvisOldPersistence.Disk.ReadableFromFiles | clarvis-old/server/persistence.js:79-89 | every record read comes from a listed, readable file whose name passes the session-file filter |
| ClarvisOldPersistence.Disk.LoadAllSessions | clarvis-old/server/persistence.js:70-96 | a missing directory gives []; otherwise the readable session files' records, sorted by last activity with the newest first, and a reordering of the records read |
| ClarvisOldPersistence.Disk.LoadFromDirectories | clarvis-old/server/persistence.js:98-107 | the result is exactly every directory's readable sessions, directory by directory, stably sorted by last activity with the newest first: sorting each directory first changes nothing |
| ClarvisOldPersistence.Disk.ByDirectoryKeys | clarvis-old/server/persistence.js:101-104 | the sessions collected directory by directory, each directory already sorted, hold the sessions of any one last activity in the same order as the unsorted listings |
| Util.SortDescStable | clarvis-old/server/persistence.js:106 | the sort is stable: the elements of one key keep their relative order |
| Util.SortedDescUnique | clarvis-old/server/persistence.js:106 | two descending sequences that hold the elements of each key in the same order are equal, so a stable sort has one result |
| ClarvisOldPersistence.SaveThenLoad | clarvis-old/server/persistence.js:24-96 | a saved session loads back as the record written, and is the only session its fresh directory lists |
| ClarvisOldPersistence.DeleteTwice | clarvis-old/server/persistence.js:44-68 | a file is removed once: the second removal returns false and loading then gives null |
| ClarvisOldAuth.TokenPath | clarvis-old/server/auth.js:11-12 | the token file is 'auth-token' under the working directory |
| ClarvisOldAuth.RemoveFirst | clarvis-old/server/auth.js:76 | text without the pattern is unchanged; text starting with it loses that prefix; otherwise exactly one occurrence is cut out |
| ClarvisOldAuth.AuthDecision | clarvis-old/server/auth.js:57-85 | unguarded URLs and an unset token pass; a missing header gives 401 'Authorization required'; a request passes exactly when it is unguarded, no token is set, or the header with its first "Bearer " removed equals the token; every refusal is 401 or 403 |
| ClarvisOldAuth.ValidWsToken | clarvis-old/server/auth.js:87-90 | with no token set every token is valid; otherwise exactly the equal one |
| ClarvisOldAuth.BearerChecked | clarvis-old/server/auth.js:76-84 | a guarded request with "Bearer " and the token passes, and one with any other bearer token gets 403 'Invalid token' |
| ClarvisOldAuth.BareHexAccepted | clarvis-old/server/auth.js:76-84 | a generated token sent without "Bearer " is accepted as well |
| ClarvisOldAuth.GeneratedToken | clarvis-old/server/auth.js:23 | a generated token is 64 hexadecimal digits, and different random bytes give different tokens |
| ClarvisOldAuth.TokenAuth.constructor | clarvis-old/server/auth.js:7-8 | the module starts with no token and no token path |
| ClarvisOldAuth.TokenAuth.InitAuth | clarvis-old/server/auth.js:10-29 | the token path is set; a readable token file gives its trimmed text and writes nothing; an unreadable one gives a new token, which is written to the token path |
| ClarvisOldAuth.TokenAuth.RegenerateToken | clarvis-old/server/auth.js:49-55 | the new token is the 64 hexadecimal digits of the random bytes; it is written to the token path when one is set, and nothing is written otherwise |
| ClarvisOldAuth.BlankTokenFileOpensEverything | clarvis-old/server/auth.js:63-66 | a token file holding only white space leaves the token empty, and then every request and every socket token passes |
| ClarvisOldAuth.TrimJsAllSpace | clarvis-old/server/auth.js:19 | text made only of white space trims to '' |
| ClarvisOldAuth.RegenerateRevokes | clarvis-old/server/auth.js:49-84 | after a regeneration the previous token gets 403 and the new one passes |
| ClarvisOldScroll.GetVisibleMessages | clarvis-old/public/js/virtual-scroll.js:6-15 | at most 100 messages are all visible with nothing hidden; more give 100 visible and the rest counted as hidden; hidden and visible add up to the whole |
| ClarvisOldScroll.HiddenThenVisible | clarvis-old/public/js/virtual-scroll.js:6-15 | the hidden messages followed by the visible ones are the whole conversation, so the visible ones are the newest |
| ClarvisOldScroll.OneMoreMessage | clarvis-old/public/js/virtual-scroll.js:6-15 | a new message is the last visible one; below 100 it is appended, and from then on the window moves by one and one more message is hidden |
| ClarvisOldScroll.RenderLoadMoreBanner | clarvis-old/public/js/virtual-scroll.js:24-33 | the banner is '' exactly when nothing is hidden, and otherwise shows the count followed by ' older messages hidden' |
| ClarvisOldScroll.BannerExactlyWhenHidden | clarvis-old/public/js/virtual-scroll.js:6-33 | a banner appears exactly when the conversation has more than 100 messages |

## Left out

Across the model:
- Cryptographic primitives (AES-128-CTR, HMAC-SHA256, scrypt, PBKDF2, HKDF-SHA512, Ed25519, SHA-256), the BIP-0039 word list and checksum, base64 and UTF-8 are function fields known only by their output lengths. These are library code that is not part of this model.
- I/O and the outside world become parameters or recorded outputs:
  - the network and HTTP transport;
  - protobuf (de)serialisation, SQL, LevelDB and temporary file copies;
  - the file system, environment variables and clocks;
  - randomness: `Math.random`, `os.urandom`, `randomBytes` and `randomUUID`;
  - timers, the DOM, Preact components and `chrome.*` calls;
  - WebSocket I/O and console output.
- Asynchrony is sequential: every `await` completes before the next step, and no other event interleaves.
- Util.IsSpace: white space is the ASCII white space of Python's `str.isspace()`. Python's `split()` and `strip()` also split on and strip Unicode white space such as U+00A0 and U+2028 (chromium-sync/src/chromium_sync/auth.py:65, chromium-sync/src/chromium_sync/local.py:115-124); the model keeps those characters as part of a word.
- Lower-casing and case-insensitive matching cover ASCII letters only. `localeCompare` is code-point order, and `path.join` and `path.basename` are plain '/' concatenation and the last segment. This avoids modelling Unicode and locale tables.
- JavaScript numbers in the game are exact reals, so floating-point rounding is not modelled.
- Integer values are unbounded. No source operation here depends on machine-width wrap-around.

chromium-sync:
- SyncAuth.Words: its own contract gives only the shape of each word (non-empty, no white space). `SyncAuth.WordsAreRuns` states that the words are exactly the maximal runs of non-white-space characters, in order, and `SyncAuth.WordsCount` gives their number, which the 12/24-word check of `decode_seed_phrase` relies on.
- `_parse_device_info` (chromium-sync/src/chromium_sync/local.py:354-387) scrapes device names and types out of LevelDB bytes with regular expressions. The device's name and type are an input.
- `save_profile_choice` (chromium-sync/src/chromium_sync/local.py:127-130) writes a file. The saved choice is the `configText` field of `SyncServer.Server`.
- datetime and ISO-8601 conversions are left out. Times stay in integer microseconds and the current time's text is an input.

claude-code-game:
- GameTechTree.GetTask, GameActions.ParseAction, GamePlay.ExecuteAction, GameUpgrades.ParseUpgrade, GameUpgrades.ExecuteUpgradeDecision, LegacyGame.ParseAction, LegacyGame.ParseUpgrade, Clicker.FindUpgrade and Clicker.PurchaseUpgrade: these look ids up in the own keys of their tables only. The source indexes plain objects, so an id that names an inherited object property, such as "constructor", behaves differently there. `getTask("constructor")` returns `{id: "constructor"}` (claude-code-game/js/tech-tree.js:143). `executeAction`, `executeUpgradeDecision` and `purchaseUpgrade` throw a TypeError: the inherited value has no `available`, `decisions` or `cost` (claude-code-game/js/actions.js:536, claude-code-game/js/upgrades.js:584, claude-code-game/game.js:612 and 631, game.js:135). The model treats such an id as unknown, so nothing happens. The callers only pass ids taken from the tables.
- `GameEvents.DiscoverBug`: only the hidden-bug branch of `generateRandomEvent` is modelled. The flavour branches (claude-code-game/js/events.js:81-230) only log random text and nudge energy or reputation.
- `GamePlay.RunOtherAction`: the `execute` bodies of vibeCode, releaseUpdate, market, support, postToHN and openSource are not modelled. Their costs are still charged, and they are taken to change nothing else and log nothing.
- claude-code-game/js/main.js is not part of this model: the game loop, timers, keyboard wiring and the per-tick float income and rent drain. save.js's localStorage and render.js are not part of it either.
- `Clicker`: the animation-frame loop, the DOM display and localStorage save/load are left out.

tab-overview-extension:
- `closeTab` (tab-overview-extension/overview.js:843-880) has the same effect on the overview's state as `TabsOverview.Overview.CloseTabs` with one id. It has no member of its own.
- `moveTab` (tab-overview-extension/overview.js:760-800): only its local reorder, `updateLocalTabOrder`, is modelled. The chrome move, the DOM and the delayed clearing of `pendingMoveTabIds` are left out.
- `getDomain` is the parameter `hostOf`, which stands for `new URL`.
- popup.js:
  - `loadTabs`, `render`, `closeTab` and `handleContextAction` are direct chrome calls and DOM updates.
  - Its grouping, filtering and context selection are the same code as the overview's and are modelled once, in `TabsOverview`.
- `TabsPopup.HighlightSearch`: its own contract covers only the empty query. `TabsPopup.HighlightWraps`, `TabsPopup.HighlightSkips`, `TabsPopup.HighlightMarksMatch`, `TabsPopup.HighlightUnmark` and `TabsPopup.HighlightNoMatch` state the rest. The query is taken as already lower-case and is matched literally, which is what `escapeRegex` achieves. HTML escaping is left out.
- `TabsPopup.GroupColor`: a colour name that is an inherited object property (such as "constructor") is not modelled. Chrome only gives the nine listed colour names.
- `TabsBackground.KeyTabId`: reading the tab id back from a key uses decimal `parseInt` only. A key never starts with a sign, white space or "0x", because it begins with a tab id printed in decimal.
- background.js:
  - its `onMessage` dispatch and the `getTabGroups` relay;
  - restoring the originally active tab and the 150 ms delay between captures;
  - capture failures, which are `Option` inputs.

clarvis:
- `ClarvisConfig`: only the `port` and `projectsRoot` keys are modelled. Other keys and values of other JSON types are left out.
- `ClarvisIndex`: the `main()` start-up of clarvis/server/index.js and its `ensureToken` import are left out, since auth.js does not define `ensureToken`.
- clarvis/server/sessions.js imports persistence.js, which is not part of this model. Saved sessions are a parameter, and saves are not recorded.
- clarvis/server/ws-handler.js:
  - It calls `saveSession`, `updateSession`, `discoverProjects` and `loadSessionHistory`. sessions.js does not export them, so they are parameters.
  - The answers of list_projects, list_sessions, get_models, get_commands, get_history, interrupt, create_project and rename_session come from those functions and are inputs, given as text. What `interruptQuery`, `deleteSession`, `updateSession` and `mkdirSync` change outside the handler is not modelled.
  - delete_session: `deleteSession` (clarvis/server/sessions.js:70) is async and the handler does not await it, so the reply's `success` is a pending Promise, sent as `{}` for every id. The model sends that constant; the removal itself happens outside the handler and is not modelled.
  - Also left out: the query runner's streamed broadcasts (clarvis/server/ws-handler.js:160-207), the invalid-JSON reply and the catch-all error reply.
- `ClarvisPermissions`: the permission:request broadcast and the timer are left out. Only whether a timeout was armed is kept.
- `ClarvisHub`: the 'connected' greeting and JSON parse errors are left out.
- `ClarvisState`: the source shares session objects between `state.sessions` and its messages. The model keeps values, so aliasing is not captured.
- clarvis/public/js/render.js: `renderSessionList`, `renderSessionHeader`, `renderToolPanel`, `renderPermissionModal`, `renderConfigPanel`, `renderSidebar`, `renderQueuePanel` and `renderAll` only build DOM. `renderQueuePanel` reads a `state.promptQueue` that state.js does not define.
- clarvis/public/js/app.js:
  - `sendPrompt`, `startNewSession`, `handlePermission`, `deleteSession` and `renameSession` only send over the socket.
  - `sendPrompt`'s local echo enters the model as a message whose `pending` flag is set.
  - The Preact components are left out, except the text the message components show.

clarvis-old:
- clarvis-old/server/sessions.js:
  - `initSessions`, `deleteSession`, `runPrompt`, `addUserMessage`, `getAvailableModels` and `setSessionModel` are left out.
  - Sessions restored from disk have no `promptQueue` until a prompt is queued.
- clarvis-old/server/persistence.js:
  - A `readdir` that fails on an existing directory is left out. The model treats every listed directory as readable.
  - Write failures are left out.
- clarvis-old/server/auth.js: `getToken` and `printNewToken` (console and QR output) are left out, and so is the directory creation in `initAuth`.
- clarvis-old/public/js/virtual-scroll.js: `createLoadMoreHandler` only wires a DOM listener.

Behaviour the model shows as the code is written:
- In clarvis/server/index.js, "/?x" asks for the public directory itself (an error response, 500) rather than index.html (`ClarvisIndex.QueryOnRoot`, `ClarvisIndex.QueryOnRootFails`).
- In clarvis/public/js/state.js, `removeSession` sets no active session when the first remaining session's id is empty.
- In clarvis/public/js/render.js, `timeAgo` of a future time gives 'now'.
- In clarvis-old/server/auth.js:
  - a token file holding only white space disables authentication (`ClarvisOldAuth.BlankTokenFileOpensEverything`);
  - a hexadecimal token is accepted without "Bearer " (`ClarvisOldAuth.BareHexAccepted`).

## Findings

| source | as written | input that shows it | evidently intended | confidence | as-written member | corrected member |
|---|---|---|---|---|---|---|
| clarvis-old/server/persistence.js:28-38 | `saveSession` writes a record without the session's `archived` flag | archive a session, save it, then restore it from its file: it comes back unarchived | the archived flag persists across a restart, as `archiveSession` saves right after setting it | not executed | ClarvisOldPersistence.ArchiveLostAsWritten (on ClarvisOldPersistence.SerializedAsWritten) | ClarvisOldPersistence.SaveRestoreSave (on ClarvisOldPersistence.Serialized) |
