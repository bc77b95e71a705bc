/**
 * The session identity provider: on mount it reads the stored session id,
 * creates and stores a generated one when there is none, and hands the chosen
 * id to the HTTP client and to its own context state. Durable storage is a
 * key/value map; the identifier generator is a parameter.
 */
module SessionProvider {
  import opened Optional
  import opened ApiClient

  /** The storage key of the session id. */
  const StorageKey := "quickpoll-session-id"

  const MissingProviderError := "useSession must be used within a SessionProvider"

  /** A freshly generated version-4 UUID in its 36-character text form. */
  type Uuid = s: string | |s| == 36 witness "00000000-0000-4000-8000-000000000000"

  /** The id the effect settles on, and the storage afterwards. */
  datatype Choice = Choice(sessionId: string, storage: map<string, string>)

  /** `localStorage.getItem(key) || ''`. */
  function Stored(storage: map<string, string>): string {
    if StorageKey in storage then storage[StorageKey] else ""
  }

  /**
   * Get or create: in a browser a non-empty stored id is reused and
   * storage is left as it is; otherwise `generated` is used and stored. Without
   * a window `generated` is used and storage is not touched. The chosen id is
   * never empty.
   */
  function GetOrCreate(storage: map<string, string>, inBrowser: bool, generated: Uuid): (c: Choice)
    ensures c.sessionId != ""
    ensures inBrowser && Stored(storage) != "" ==> c.sessionId == storage[StorageKey] && c.storage == storage
    ensures inBrowser && Stored(storage) == "" ==> c.sessionId == generated && c.storage == storage[StorageKey := generated]
    ensures !inBrowser ==> c.sessionId == generated && c.storage == storage
    ensures inBrowser ==> Stored(c.storage) == c.sessionId
  {
    if inBrowser then
      var stored := Stored(storage);
      if stored == "" then Choice(generated, storage[StorageKey := generated]) else Choice(stored, storage)
    else
      Choice(generated, storage)
  }

  /** In a browser, running the effect again (say on the next page load) finds the same id, whatever the generator yields. */
  lemma GetOrCreateStable(storage: map<string, string>, first: Uuid, second: Uuid)
    ensures var c := GetOrCreate(storage, true, first);
      GetOrCreate(c.storage, true, second) == c
  {
  }

  /** `useSession()`: the context, or the error thrown outside a provider. */
  function UseSession(context: Option<string>): (r: Result<string, string>)
    ensures r.Err? <==> context.None?
    ensures r.Err? ==> r.error == MissingProviderError
    ensures r.Ok? ==> r.value == context.value
  {
    if context.None? then Err(MissingProviderError) else Ok(context.value)
  }

  /** The browser's `localStorage`. */
  class LocalStorage {
    var items: map<string, string>

    constructor (items: map<string, string>)
      ensures this.items == items
    {
      this.items := items;
    }
  }

  class SessionProvider {
    const client: ApiClient
    /** The context state, empty until the effect has run. */
    var sessionId: string

    constructor (client: ApiClient)
      ensures this.client == client && sessionId == ""
    {
      this.client := client;
      sessionId := "";
    }

    /**
     * The mount effect. `window` is the browser's storage, absent when
     * there is no window; `generated` is what the generator returns.
     */
    method RunEffect(window: Option<LocalStorage>, generated: Uuid)
      modifies this, client, if window.Some? then {window.value} else {}
      ensures var c := GetOrCreate(if window.Some? then old(window.value.items) else map[], window.Some?, generated);
        && sessionId == c.sessionId
        && client.sessionId == Some(c.sessionId)
        && (window.Some? ==> window.value.items == c.storage)
    {
      var storedSessionId: string;
      if window.Some? {
        storedSessionId := Stored(window.value.items);
        if storedSessionId == "" {
          storedSessionId := generated;
          window.value.items := window.value.items[StorageKey := storedSessionId];
        }
      } else {
        storedSessionId := generated;
      }
      client.SetSessionId(storedSessionId);
      sessionId := storedSessionId;
    }
  }

  /**
   * After the effect has run in a browser whose storage already holds a
   * session id, every outgoing request carries exactly that id.
   */
  method StoredSessionReachesRequests(stored: string, generated: Uuid, url: string) returns (sent: Request)
    requires stored != ""
    ensures SessionHeader in sent.headers && sent.headers[SessionHeader] == stored
  {
    var client := new ApiClient("http://localhost:8787/api");
    var provider := new SessionProvider(client);
    var storage := new LocalStorage(map[StorageKey := stored]);
    provider.RunEffect(Some(storage), generated);
    sent := client.Intercept(Request(Get, client.baseUrl, url, DefaultHeaders, None));
  }
}
