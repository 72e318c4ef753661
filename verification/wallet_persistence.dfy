/** `WalletPersistence`: the last wallet connection, kept in `localStorage` under four
    fixed keys so that a reload can reconnect. */
module WalletPersistence {
  import opened Wrappers
  import opened JsNumber
  import JsonStringList
  import opened BrowserStorage

  const ConnectorIdKey := "wallet.lastConnectorId"
  const AccountsKey := "wallet.lastAccounts"
  const ChainIdKey := "wallet.lastChainId"
  const ConnectedKey := "wallet.connected"

  /** `Object.values(KEYS)`, in declaration order. */
  const Keys: seq<string> := [ConnectorIdKey, AccountsKey, ChainIdKey, ConnectedKey]

  /** The keys `clear` removes. */
  function KeySet(): set<string> {
    set k | k in Keys
  }

  datatype WalletState = WalletState(
    lastConnectorId: Option<string>,
    lastAccounts: seq<string>,
    lastChainId: Option<Number>,
    connected: bool)

  /** A property of a `Partial<WalletState>`: left out (`undefined`) or given. */
  datatype Field<T> = Omitted | Given(value: T)

  datatype PartialWalletState = PartialWalletState(
    lastConnectorId: Field<Option<string>>,
    lastAccounts: Field<seq<string>>,
    lastChainId: Field<Option<Number>>,
    connected: Field<bool>)

  /** The stored accounts text is not the JSON of an array of strings: `JSON.parse` would throw,
      or would give something else (`null`, a number, an object). */
  datatype LoadError = AccountsNotParsed

  /** What `load` returns when nothing is stored or there is no window. */
  const Default := WalletState(None, [], None, false)

  /** Every field of a full state, as `save` receives it from a caller that passes a whole record. */
  function Whole(w: WalletState): PartialWalletState {
    PartialWalletState(Given(w.lastConnectorId), Given(w.lastAccounts), Given(w.lastChainId), Given(w.connected))
  }

  /** `lastConnectorId || ""`. */
  function EncodeConnectorId(c: Option<string>): string {
    c.GetOr("")
  }

  /** `String(lastChainId || "")`: a falsy chain id (null, 0, NaN) becomes "". */
  function EncodeChainId(c: Option<Number>): string {
    if c.None? || IsFalsy(c.value) then "" else DecimalString(c.value.value)
  }

  function EncodeConnected(b: bool): string {
    if b then "true" else "false"
  }

  /** The store after `save(p)`: one entry written per given field, in the source's order. */
  function Saved(store: map<string, string>, p: PartialWalletState): map<string, string> {
    var s1 := if p.lastConnectorId.Given? then store[ConnectorIdKey := EncodeConnectorId(p.lastConnectorId.value)] else store;
    var s2 := if p.lastAccounts.Given? then s1[AccountsKey := JsonStringList.Encode(p.lastAccounts.value)] else s1;
    var s3 := if p.lastChainId.Given? then s2[ChainIdKey := EncodeChainId(p.lastChainId.value)] else s2;
    if p.connected.Given? then s3[ConnectedKey := EncodeConnected(p.connected.value)] else s3
  }

  /** The keys `save(p)` writes. */
  function WrittenKeys(p: PartialWalletState): set<string> {
    (if p.lastConnectorId.Given? then {ConnectorIdKey} else {}) +
    (if p.lastAccounts.Given? then {AccountsKey} else {}) +
    (if p.lastChainId.Given? then {ChainIdKey} else {}) +
    (if p.connected.Given? then {ConnectedKey} else {})
  }

  /** `getItem(CONNECTOR_ID) || null`: a missing or empty entry is no connector. */
  function LoadedConnectorId(store: map<string, string>): Option<string> {
    match Lookup(store, ConnectorIdKey)
    case Some(s) => if s == "" then None else Some(s)
    case None => None
  }

  /** `str ? JSON.parse(str) : []`; `None` when the text is not the JSON of an array of strings. */
  function LoadedAccounts(store: map<string, string>): Option<seq<string>> {
    match Lookup(store, AccountsKey)
    case Some(s) => if s == "" then Some([]) else JsonStringList.Decode(s)
    case None => Some([])
  }

  /** `str ? parseInt(str, 10) : null`. */
  function LoadedChainId(store: map<string, string>): Option<Number> {
    match Lookup(store, ChainIdKey)
    case Some(s) => if s == "" then None else Some(ParseInt(s, 10))
    case None => None
  }

  /** `getItem(CONNECTED) === "true"`. */
  function LoadedConnected(store: map<string, string>): bool {
    Lookup(store, ConnectedKey) == Some("true")
  }

  /** The record `load` builds from the store. */
  function Loaded(store: map<string, string>): Result<WalletState, LoadError> {
    match LoadedAccounts(store)
    case None => Failure(AccountsNotParsed)
    case Some(accounts) =>
      Success(WalletState(LoadedConnectorId(store), accounts, LoadedChainId(store), LoadedConnected(store)))
  }

  /** What a saved state reads back as: an empty connector id and a falsy chain id become null. */
  function Normalized(w: WalletState): WalletState {
    w.(lastConnectorId := if w.lastConnectorId == Some("") then None else w.lastConnectorId,
       lastChainId := if w.lastChainId.Some? && IsFalsy(w.lastChainId.value) then None else w.lastChainId)
  }

  /** `WalletPersistence.save(state)`. */
  method Save(env: Browser, state: PartialWalletState)
    modifies env
    ensures env.localStorage == if env.hasWindow then Saved(old(env.localStorage), state) else old(env.localStorage)
  {
    if !env.hasWindow {
      return;
    }
    if state.lastConnectorId.Given? {
      env.SetItem(ConnectorIdKey, EncodeConnectorId(state.lastConnectorId.value));
    }
    if state.lastAccounts.Given? {
      env.SetItem(AccountsKey, JsonStringList.Encode(state.lastAccounts.value));
    }
    if state.lastChainId.Given? {
      env.SetItem(ChainIdKey, EncodeChainId(state.lastChainId.value));
    }
    if state.connected.Given? {
      env.SetItem(ConnectedKey, EncodeConnected(state.connected.value));
    }
  }

  /** `WalletPersistence.load()`; a failure stands for accounts text that `JSON.parse` would
      reject or would read as something other than an array of strings. */
  method Load(env: Browser) returns (r: Result<WalletState, LoadError>)
    ensures env.hasWindow ==> r == Loaded(env.localStorage)
    ensures !env.hasWindow ==> r == Success(Default)
  {
    if !env.hasWindow {
      return Success(Default);
    }
    var connectorId := env.GetItem(ConnectorIdKey);
    var accountsStr := env.GetItem(AccountsKey);
    var chainIdStr := env.GetItem(ChainIdKey);
    var connectedStr := env.GetItem(ConnectedKey);
    var lastConnectorId := if connectorId == Some("") then None else connectorId;
    assert lastConnectorId == LoadedConnectorId(env.localStorage);
    var lastAccounts: seq<string>;
    if accountsStr.Some? && accountsStr.value != "" {
      var parsed := JsonStringList.Decode(accountsStr.value);
      assert parsed == LoadedAccounts(env.localStorage);
      if parsed.None? {
        return Failure(AccountsNotParsed);
      }
      lastAccounts := parsed.value;
    } else {
      lastAccounts := [];
    }
    assert LoadedAccounts(env.localStorage) == Some(lastAccounts);
    var lastChainId := if chainIdStr.Some? && chainIdStr.value != "" then Some(ParseInt(chainIdStr.value, 10)) else None;
    assert lastChainId == LoadedChainId(env.localStorage);
    var connected := connectedStr == Some("true");
    assert connected == LoadedConnected(env.localStorage);
    r := Success(WalletState(lastConnectorId, lastAccounts, lastChainId, connected));
  }

  /** `WalletPersistence.clear()`: removes the four keys one after another. */
  method Clear(env: Browser)
    modifies env
    ensures env.hasWindow ==> env.localStorage == old(env.localStorage) - KeySet()
    ensures !env.hasWindow ==> env.localStorage == old(env.localStorage)
  {
    if !env.hasWindow {
      return;
    }
    var i := 0;
    while i < |Keys|
      invariant 0 <= i <= |Keys|
      invariant env.localStorage == old(env.localStorage) - (set k | k in Keys[..i])
    {
      env.RemoveItem(Keys[i]);
      assert Keys[..i + 1] == Keys[..i] + [Keys[i]];
      i := i + 1;
    }
    assert Keys[..i] == Keys;
  }

  /** `save` changes no key other than those of the fields it was given. */
  lemma SaveFrame(store: map<string, string>, p: PartialWalletState, k: string)
    requires k !in WrittenKeys(p)
    ensures Lookup(Saved(store, p), k) == Lookup(store, k)
  {
  }

  /** Every given field is written. */
  lemma SaveWrites(store: map<string, string>, p: PartialWalletState)
    ensures Saved(store, p).Keys == store.Keys + WrittenKeys(p)
  {
  }

  lemma ConnectedRoundTrip(store: map<string, string>, p: PartialWalletState)
    requires p.connected.Given?
    ensures LoadedConnected(Saved(store, p)) == p.connected.value
  {
  }

  lemma ChainIdRoundTrip(store: map<string, string>, p: PartialWalletState)
    requires p.lastChainId.Given?
    ensures var c := p.lastChainId.value;
      LoadedChainId(Saved(store, p)) == if c.None? || IsFalsy(c.value) then None else c
  {
    var c := p.lastChainId.value;
    if !(c.None? || IsFalsy(c.value)) {
      DecimalRoundTrip(c.value.value);
    }
  }

  lemma ConnectorIdRoundTrip(store: map<string, string>, p: PartialWalletState)
    requires p.lastConnectorId.Given?
    ensures var c := p.lastConnectorId.value;
      LoadedConnectorId(Saved(store, p)) == if c == Some("") then None else c
  {
  }

  lemma AccountsRoundTrip(store: map<string, string>, p: PartialWalletState)
    requires p.lastAccounts.Given?
    ensures LoadedAccounts(Saved(store, p)) == Some(p.lastAccounts.value)
  {
    JsonStringList.RoundTrip(p.lastAccounts.value);
  }

  /** Saving a whole record and loading it gives the record back, up to the encoding's
      lossy spots (empty connector id, falsy chain id). */
  lemma SaveLoadRoundTrip(store: map<string, string>, w: WalletState)
    ensures Loaded(Saved(store, Whole(w))) == Success(Normalized(w))
  {
    ConnectedRoundTrip(store, Whole(w));
    ChainIdRoundTrip(store, Whole(w));
    ConnectorIdRoundTrip(store, Whole(w));
    AccountsRoundTrip(store, Whole(w));
  }

  /** A record survives `save` and `load` exactly when it has none of the lossy values. */
  lemma SaveLoadExact(store: map<string, string>, w: WalletState)
    ensures Loaded(Saved(store, Whole(w))) == Success(w) <==>
      w.lastConnectorId != Some("") && (w.lastChainId.Some? ==> !IsFalsy(w.lastChainId.value))
  {
    SaveLoadRoundTrip(store, w);
  }

  /** After `clear`, `load` gives the default record. */
  lemma LoadAfterClear(store: map<string, string>)
    ensures Loaded(store - KeySet()) == Success(Default)
  {
  }

  /** `clear` leaves every entry under another key untouched. */
  lemma ClearFrame(store: map<string, string>, k: string)
    requires k !in Keys
    ensures Lookup(store - KeySet(), k) == Lookup(store, k)
  {
  }
}
