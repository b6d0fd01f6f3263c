/** The settings page as a stateful object: the current record, the browser's local
    storage (only the settings entry of it), the banner message and the two in-flight
    flags. The token, the outcome of the remote calls and whether the storage write
    throws are parameters of the handlers. */
module SettingsPage {
  import opened Common
  import opened SettingsModel

  /** The storage key the page reads at startup and writes on save. */
  const SettingsKey: string := "faultmaven_settings"

  /** A stored entry as `JSON.parse` sees it: a record with some of the keys, or text
      that does not parse. */
  datatype Stored = Json(fields: PartialSettings) | Unparsable

  datatype MessageType = Success | Error
  datatype Message = Message(kind: MessageType, text: string)

  const SavedText: string := "Settings saved successfully!"
  const SaveFailedText: string := "Failed to save settings. Please try again."
  const ConnectedText: string := "Connection successful!"
  const ConnectionFailedPrefix: string := "Connection failed: "
  const CannotConnectText: string := "Cannot connect to API. Please check the URL."

  /** The startup effect as a value: a stored entry that parses is merged over the
      current record; a missing or unparsable one leaves it as it is. */
  function Restore(prev: Settings, entry: Option<Stored>): (r: Settings)
    ensures entry.None? || entry.value.Unparsable? ==> r == prev
    ensures entry.Some? && entry.value.Json? ==> r == Merge(prev, entry.value.fields)
  {
    match entry
    case None => prev
    case Some(Unparsable) => prev
    case Some(Json(fields)) => Merge(prev, fields)
  }

  /** Whether the remote mirror's outcome is logged as a warning: a transport failure,
      or a non-2xx status other than 404. It never reaches the caller. */
  predicate MirrorWarns(outcome: HttpOutcome<()>) {
    outcome.Threw? || (!IsOk(outcome.status) && outcome.status != 404)
  }

  /** The banner `testConnection` sets for a probe outcome. */
  function ProbeMessage(outcome: HttpOutcome<()>): (m: Message)
    ensures m.kind == Success <==> outcome.Response? && IsOk(outcome.status)
    ensures outcome.Response? && IsOk(outcome.status) ==> m == Message(Success, ConnectedText)
    ensures outcome.Response? && !IsOk(outcome.status) ==>
      m == Message(Error, ConnectionFailedPrefix + outcome.statusText)
    ensures outcome.Threw? ==> m == Message(Error, CannotConnectText)
  {
    match outcome
    case Response(status, statusText, _) =>
      if IsOk(status) then Message(Success, ConnectedText)
      else Message(Error, ConnectionFailedPrefix + statusText)
    case Threw(_) => Message(Error, CannotConnectText)
  }

  /** The body of a `PUT {apiUrl}/v1/settings` mirror. */
  function MirrorRequest(s: Settings, token: string): Request<Settings> {
    Request("PUT", s.apiUrl + "/v1/settings", Some(token), Some(s))
  }

  /** The unauthenticated `GET {apiUrl}/health` of the connection test. */
  function ProbeRequest(s: Settings): Request<()> {
    Request("GET", s.apiUrl + "/health", None, None)
  }

  class SettingsPage {
    var settings: Settings
    var store: map<string, Stored>
    var saveMessage: Option<Message>
    var saving: bool
    var testingConnection: bool

    /** Mounting the page over an existing storage: the default record, no banner,
        nothing in flight. */
    constructor (env: Option<string>, storage: map<string, Stored>)
      ensures settings == Defaults(env) && store == storage
      ensures saveMessage == None && !saving && !testingConnection
    {
      settings := Defaults(env);
      store := storage;
      saveMessage := None;
      saving := false;
      testingConnection := false;
    }

    /** The startup effect: merges a stored record that parses over the current one. */
    method LoadSaved()
      modifies this`settings
      ensures settings == Restore(old(settings), if SettingsKey in store then Some(store[SettingsKey]) else None)
    {
      if SettingsKey in store {
        match store[SettingsKey] {
          case Json(parsed) =>
            settings := Merge(settings, parsed);
          case Unparsable =>
        }
      }
    }

    /** Any `onChange` of the form. */
    method OnChange(e: Edit)
      modifies this`settings
      ensures settings == Apply(old(settings), e)
    {
      settings := Apply(settings, e);
    }

    /** `handleSave`: the local write decides success. When it succeeds the settings
        entry holds exactly the current record and the banner reports success whatever
        the remote mirror does; the mirror is sent only with a token, and its failures
        are only logged (`warned`). When the write throws, nothing is stored or sent
        and the banner reports the failure. `saving` ends false. */
    method HandleSave(token: Option<string>, writeSucceeds: bool, mirror: HttpOutcome<()>)
      returns (sent: Option<Request<Settings>>, warned: bool)
      modifies this`saving, this`saveMessage, this`store
      ensures !saving
      ensures writeSucceeds ==> store == old(store)[SettingsKey := Json(Serialized(settings))]
      ensures writeSucceeds ==> saveMessage == Some(Message(Success, SavedText))
      ensures writeSucceeds ==> sent == if Truthy(token) then Some(MirrorRequest(settings, token.value)) else None
      ensures warned <==> writeSucceeds && Truthy(token) && MirrorWarns(mirror)
      ensures !writeSucceeds ==>
        store == old(store) && sent == None && saveMessage == Some(Message(Error, SaveFailedText))
    {
      saving := true;
      saveMessage := None;
      sent := None;
      warned := false;
      if !writeSucceeds {
        saveMessage := Some(Message(Error, SaveFailedText));
      } else {
        store := store[SettingsKey := Json(Serialized(settings))];
        if Truthy(token) {
          sent := Some(MirrorRequest(settings, token.value));
          warned := MirrorWarns(mirror);
        }
        saveMessage := Some(Message(Success, SavedText));
      }
      saving := false;
    }

    /** `testConnection`: one unauthenticated probe of the current URL; the banner says
        how it went, and `testingConnection` ends false. */
    method TestConnection(outcome: HttpOutcome<()>) returns (sent: Request<()>)
      modifies this`testingConnection, this`saveMessage
      ensures sent == ProbeRequest(settings)
      ensures saveMessage == Some(ProbeMessage(outcome))
      ensures !testingConnection
    {
      testingConnection := true;
      saveMessage := None;
      sent := ProbeRequest(settings);
      saveMessage := Some(ProbeMessage(outcome));
      testingConnection := false;
    }
  }

  /** Saving and then mounting the page again over the same storage restores exactly
      the saved record, whatever the new page started from and whatever the remote
      mirror did. */
  lemma SaveThenRestoreRoundTrip(store: map<string, Stored>, s: Settings, start: Settings)
    ensures var saved := store[SettingsKey := Json(Serialized(s))];
      Restore(start, Some(saved[SettingsKey])) == s
  {
  }

  /** A 503 answer to the probe shows its status text after the failure prefix. */
  lemma ProbeReportsStatusText(text: string)
    ensures ProbeMessage(Response(503, text, ())) == Message(Error, "Connection failed: " + text)
  {
  }
}
