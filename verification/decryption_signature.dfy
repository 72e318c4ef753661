/** `FhevmDecryptionSignature`: one user-decryption signature per account, kept in
    `localStorage` under a fixed prefix followed by the lower-cased account. */
module FhevmDecryptionSignature {
  import opened Wrappers
  import opened JsString
  import opened BrowserStorage

  const SignaturePrefix := "fhevm.decryptionSignature."

  /** The storage key of an account's signature. */
  function StorageKey(account: string): (key: string)
    ensures StartsWith(key, SignaturePrefix)
    ensures key[|SignaturePrefix|..] == ToLower(account)
  {
    SignaturePrefix + ToLower(account)
  }

  /** The store after `set(account, signature)`. */
  function WithSignature(store: map<string, string>, account: string, signature: string): map<string, string> {
    store[StorageKey(account) := signature]
  }

  /** What `get(account)` reads. */
  function SignatureOf(store: map<string, string>, account: string): Option<string> {
    Lookup(store, StorageKey(account))
  }

  /** The store after `remove(account)`. */
  function WithoutSignature(store: map<string, string>, account: string): map<string, string> {
    store - {StorageKey(account)}
  }

  /** The store after `clear()`: every prefixed entry dropped. */
  function WithoutSignatures(store: map<string, string>): map<string, string> {
    map k | k in store && !StartsWith(k, SignaturePrefix) :: store[k]
  }

  method Set(env: Browser, account: string, signature: string)
    modifies env
    ensures env.localStorage == if env.hasWindow then WithSignature(old(env.localStorage), account, signature) else old(env.localStorage)
  {
    if !env.hasWindow {
      return;
    }
    env.SetItem(StorageKey(account), signature);
  }

  method Get(env: Browser, account: string) returns (r: Option<string>)
    ensures r == if env.hasWindow then SignatureOf(env.localStorage, account) else None
  {
    if !env.hasWindow {
      return None;
    }
    r := env.GetItem(StorageKey(account));
  }

  method Remove(env: Browser, account: string)
    modifies env
    ensures env.localStorage == if env.hasWindow then WithoutSignature(old(env.localStorage), account) else old(env.localStorage)
  {
    if !env.hasWindow {
      return;
    }
    env.RemoveItem(StorageKey(account));
  }

  /** `clear()`: walks a snapshot of the keys and removes those with the prefix. The
      order of `Object.keys` does not affect the outcome, so the walk takes any order. */
  method Clear(env: Browser)
    modifies env
    ensures env.localStorage == if env.hasWindow then WithoutSignatures(old(env.localStorage)) else old(env.localStorage)
  {
    if !env.hasWindow {
      return;
    }
    var keys := env.localStorage.Keys;
    while keys != {}
      invariant env.hasWindow
      invariant keys <= old(env.localStorage).Keys
      invariant env.localStorage ==
        map k | k in old(env.localStorage) && (k in keys || !StartsWith(k, SignaturePrefix)) :: old(env.localStorage)[k]
      decreases keys
    {
      var key :| key in keys;
      if StartsWith(key, SignaturePrefix) {
        env.RemoveItem(key);
      }
      keys := keys - {key};
    }
  }

  /** `get` right after `set` returns the signature just stored. */
  lemma GetAfterSet(store: map<string, string>, account: string, signature: string)
    ensures SignatureOf(WithSignature(store, account, signature), account) == Some(signature)
  {
  }

  /** Two spellings of an account share one entry exactly when they agree after lower-casing. */
  lemma KeyIgnoresCase(a: string, b: string)
    ensures StorageKey(a) == StorageKey(b) <==> ToLower(a) == ToLower(b)
  {
    if StorageKey(a) == StorageKey(b) {
      assert StorageKey(a)[|SignaturePrefix|..] == StorageKey(b)[|SignaturePrefix|..];
    }
  }

  /** A signature stored for one spelling of an account is read under any other spelling. */
  lemma GetIgnoresCase(store: map<string, string>, a: string, b: string, signature: string)
    requires ToLower(a) == ToLower(b)
    ensures SignatureOf(WithSignature(store, a, signature), b) == Some(signature)
  {
  }

  lemma GetAfterRemove(store: map<string, string>, account: string)
    ensures SignatureOf(WithoutSignature(store, account), account) == None
  {
  }

  /** `set` and `remove` touch no entry but the account's own. */
  lemma SetRemoveFrame(store: map<string, string>, account: string, signature: string, k: string)
    requires k != StorageKey(account)
    ensures k in WithSignature(store, account, signature) <==> k in store
    ensures k in WithoutSignature(store, account) <==> k in store
    ensures k in store ==> WithSignature(store, account, signature)[k] == store[k] && WithoutSignature(store, account)[k] == store[k]
  {
  }

  /** `clear` removes exactly the prefixed keys and keeps every other entry as it was. */
  lemma ClearFrame(store: map<string, string>, k: string)
    ensures k in WithoutSignatures(store) <==> k in store && !StartsWith(k, SignaturePrefix)
    ensures k in WithoutSignatures(store) ==> WithoutSignatures(store)[k] == store[k]
  {
  }

  /** After `clear`, no account has a signature. */
  lemma GetAfterClear(store: map<string, string>, account: string)
    ensures SignatureOf(WithoutSignatures(store), account) == None
  {
  }
}
