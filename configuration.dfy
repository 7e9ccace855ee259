/** The behaviour of the configuration manager (Conform/ConformConfiguration.cs) as
    functions over its observable state: the live settings, the Status text, the
    persisted settings file and the subscribers to the ConfigurationChanged event. */
module Configuration {
  import opened ConformSettings

  /** What the settings file holds when it is read. Holds is a document that
      deserialises to a settings value; Corrupt is one the JSON parser rejects;
      Unreadable is any other failure on the load path (an I/O or path error). */
  datatype Store = Absent | Holds(settings: SettingsRecord) | Corrupt | Unreadable

  /** A reading of the clock, as the HH:mm:ss.f text that goes into the Status. */
  datatype Time = Time(text: string)

  /** The Status property; every value has exactly one text (StatusText). */
  datatype Status =
    | ReadSuccessfully
    | FirstTimeDefaults
    | FileCorrupted
    | ReadException
    | SavedAt(savedAt: Time)
    | ResetAt(resetAt: Time)

  /** The text of the Status property. The saved and reset texts quote the clock
      reading verbatim between their fixed prefix and the final period. */
  function StatusText(s: Status): (t: string)
    ensures s.SavedAt? ==> IsTimed(t, "Settings saved at ", s.savedAt)
    ensures s.ResetAt? ==> IsTimed(t, "Settings reset at ", s.resetAt)
  {
    match s
    case ReadSuccessfully => "Settings read successfully"
    case FirstTimeDefaults => "Settings set to defaults on first time use."
    case FileCorrupted => "Settings file corrupted, please reset to default values"
    case ReadException => "Exception reading settings, default values are in use."
    case SavedAt(t) => TimedText("Settings saved at ", t)
    case ResetAt(t) => TimedText("Settings reset at ", t)
  }

  /** `m` is `prefix`, then the clock reading, then a period. */
  predicate IsTimed(m: string, prefix: string, time: Time)
  {
    && |m| == |prefix| + |time.text| + 1
    && m[..|prefix|] == prefix
    && m[|prefix|..|m| - 1] == time.text
    && m[|m| - 1] == '.'
  }

  function TimedText(prefix: string, time: Time): (m: string)
    ensures IsTimed(m, prefix, time)
  {
    var m := prefix + time.text + ".";
    assert m[..|prefix|] == prefix;
    assert m[|prefix|..|m| - 1] == time.text;
    m
  }

  /** The identity of an event handler added to ConfigurationChanged. */
  datatype Handler = Handler(id: nat)

  /** One invocation of a handler, with what the handler observes if it reads the
      manager it is given as sender (its settings and Status) or the file at that
      moment. */
  datatype Notification = Notification(handler: Handler, settings: SettingsRecord, status: Status, store: Store)

  /** The manager's state: the live settings' content, the Status, the settings file,
      the event's invocation list and the handler invocations so far. */
  datatype Config = Config(
    settings: SettingsRecord,
    status: Status,
    store: Store,
    subscribers: seq<Handler>,
    log: seq<Notification>)

  // ---------------------------------------------------------------------------
  // Validation

  const NO_DEVICE_MESSAGE: string := "No device has been selected."
  const EMPTY_PROG_ID_MESSAGE: string := "CurrentComDevice.ProgId  is empty."

  function TechnologyMessage(technology: string): string
  {
    "Technology type is not Alpaca or COM: '" + technology + "'"
  }

  predicate IsKnownTechnology(technology: string)
  {
    technology == TECHNOLOGY_ALPACA || technology == TECHNOLOGY_COM
  }

  /** Settings that name a real device over a recognised technology, with a ProgId
      whenever the technology is COM. */
  predicate IsValid(s: SettingsRecord)
  {
    && s.currentDeviceName != NO_DEVICE_SELECTED
    && IsKnownTechnology(s.currentDeviceTechnology)
    && (s.currentDeviceTechnology == TECHNOLOGY_COM ==> s.currentDeviceProgId != "")
  }

  /** The diagnostic for the first problem found, in the order device name,
      technology, COM ProgId; empty when there is none. */
  function Validate(s: SettingsRecord): (msg: string)
    ensures msg == "" <==> IsValid(s)
    ensures s.currentDeviceName == NO_DEVICE_SELECTED ==> msg == NO_DEVICE_MESSAGE
    ensures s.currentDeviceName != NO_DEVICE_SELECTED && !IsKnownTechnology(s.currentDeviceTechnology)
      ==> msg == TechnologyMessage(s.currentDeviceTechnology)
    ensures s.currentDeviceName != NO_DEVICE_SELECTED && s.currentDeviceTechnology == TECHNOLOGY_COM
      ==> msg == (if s.currentDeviceProgId == "" then EMPTY_PROG_ID_MESSAGE else "")
    ensures s.currentDeviceName != NO_DEVICE_SELECTED && s.currentDeviceTechnology == TECHNOLOGY_ALPACA
      ==> msg == ""
  {
    if s.currentDeviceName == NO_DEVICE_SELECTED then NO_DEVICE_MESSAGE
    else if s.currentDeviceTechnology != TECHNOLOGY_ALPACA && s.currentDeviceTechnology != TECHNOLOGY_COM then
      TechnologyMessage(s.currentDeviceTechnology)
    else if s.currentDeviceTechnology == TECHNOLOGY_COM && s.currentDeviceProgId == "" then
      EMPTY_PROG_ID_MESSAGE
    else ""
  }

  // ---------------------------------------------------------------------------
  // Persisting and notifying

  /** The file after an attempt to write `r` to it: the write either replaces the
      content or, when it fails, leaves the file as it was. */
  function Persist(store: Store, r: SettingsRecord, writeOk: bool): (store': Store)
    ensures writeOk ==> store' == Holds(r)
    ensures !writeOk ==> store' == store
  {
    if writeOk then Holds(r) else store
  }

  /** Invoking a multicast handler list: each handler in turn, every one seeing the
      same settings, Status and file. */
  function Dispatch(handlers: seq<Handler>, settings: SettingsRecord, status: Status, store: Store)
    : (ns: seq<Notification>)
    ensures |ns| == |handlers|
    ensures forall i :: 0 <= i < |handlers| ==>
      && ns[i].handler == handlers[i] && ns[i].settings == settings
      && ns[i].status == status && ns[i].store == store
  {
    if handlers == [] then []
    else [Notification(handlers[0], settings, status, store)] + Dispatch(handlers[1..], settings, status, store)
  }

  /** The handlers a run of notifications invoked, in order. */
  function Handlers(ns: seq<Notification>): (hs: seq<Handler>)
    ensures |hs| == |ns|
    ensures forall i :: 0 <= i < |ns| ==> hs[i] == ns[i].handler
  {
    seq(|ns|, i requires 0 <= i < |ns| => ns[i].handler)
  }

  /** RaiseConfigurationChnagedEvent: the event fires only when the invocation list is
      not empty, and then every subscriber is invoked once, in subscription order,
      observing the current settings, Status and file. */
  function Raise(c: Config): (c': Config)
    ensures c'.settings == c.settings && c'.status == c.status && c'.store == c.store
    ensures c'.subscribers == c.subscribers
    ensures |c'.log| == |c.log| + |c.subscribers|
    ensures c'.log[..|c.log|] == c.log
    ensures Handlers(c'.log[|c.log|..]) == c.subscribers
    ensures forall i :: |c.log| <= i < |c'.log| ==>
      c'.log[i].settings == c.settings && c'.log[i].status == c.status && c'.log[i].store == c.store
  {
    if c.subscribers == [] then c
    else
      var ns := Dispatch(c.subscribers, c.settings, c.status, c.store);
      var c' := c.(log := c.log + ns);
      assert c'.log[|c.log|..] == ns;
      c'
  }

  // ---------------------------------------------------------------------------
  // The lifecycle

  /** The constructor: the state that loading the file gives, for every content the
      file can have; it never fails. */
  function Load(stored: Store, writeOk: bool): (c: Config)
    ensures c.subscribers == [] && c.log == []
    ensures c.settings == (if stored.Holds? then stored.settings else Defaults())
    ensures c.store == (if stored.Absent? && writeOk then Holds(Defaults()) else stored)
    ensures c.store.Holds? ==> c.store.settings == c.settings
    ensures stored.Absent? ==> c.status == FirstTimeDefaults
    ensures stored.Holds? ==> c.status == ReadSuccessfully
    ensures stored.Corrupt? ==> c.status == FileCorrupted
    ensures stored.Unreadable? ==> c.status == ReadException
  {
    match stored
    case Absent => Config(Defaults(), FirstTimeDefaults, Persist(stored, Defaults(), writeOk), [], [])
    case Holds(r) => Config(r, ReadSuccessfully, stored, [], [])
    case Corrupt => Config(Defaults(), FileCorrupted, stored, [], [])
    case Unreadable => Config(Defaults(), ReadException, stored, [], [])
  }

  /** Save: write the live settings, stamp the Status, then notify: every handler
      already sees the new Status and the written file. A failed write is swallowed:
      the Status and the notifications happen all the same. */
  function Save(c: Config, now: Time, writeOk: bool): (c': Config)
    ensures c'.settings == c.settings && c'.subscribers == c.subscribers
    ensures c'.store == (if writeOk then Holds(c.settings) else c.store)
    ensures c'.status == SavedAt(now)
    ensures |c'.log| == |c.log| + |c.subscribers|
    ensures c'.log[..|c.log|] == c.log && Handlers(c'.log[|c.log|..]) == c.subscribers
    ensures forall i :: |c.log| <= i < |c'.log| ==>
      && c'.log[i].settings == c'.settings && c'.log[i].store == c'.store
      && c'.log[i].status == SavedAt(now)
  {
    Raise(c.(store := Persist(c.store, c.settings, writeOk), status := SavedAt(now)))
  }

  /** Reset: replace the live settings with defaults, write them, stamp the Status,
      then notify, so that every handler sees the defaults, the new Status and the
      written file; a failed write is swallowed as in Save. */
  function Reset(c: Config, now: Time, writeOk: bool): (c': Config)
    ensures c'.settings == Defaults() && c'.subscribers == c.subscribers
    ensures c'.store == (if writeOk then Holds(Defaults()) else c.store)
    ensures c'.status == ResetAt(now)
    ensures |c'.log| == |c.log| + |c.subscribers|
    ensures c'.log[..|c.log|] == c.log && Handlers(c'.log[|c.log|..]) == c.subscribers
    ensures forall i :: |c.log| <= i < |c'.log| ==>
      && c'.log[i].settings == Defaults() && c'.log[i].store == c'.store
      && c'.log[i].status == ResetAt(now)
  {
    Raise(c.(settings := Defaults(), store := Persist(c.store, Defaults(), writeOk), status := ResetAt(now)))
  }

  // ---------------------------------------------------------------------------
  // Subscribing to ConfigurationChanged

  /** `ConfigurationChanged += h`: the handler joins the end of the invocation list. */
  function Subscribe(c: Config, h: Handler): (c': Config)
    ensures c'.subscribers == c.subscribers + [h]
    ensures c'.settings == c.settings && c'.status == c.status && c'.store == c.store && c'.log == c.log
  {
    c.(subscribers := c.subscribers + [h])
  }

  /** The position of the last occurrence of `h`, or -1 when there is none. */
  function LastIndexOf(hs: seq<Handler>, h: Handler): (i: int)
    ensures -1 <= i < |hs|
    ensures i == -1 <==> h !in hs
    ensures 0 <= i ==> hs[i] == h && h !in hs[i + 1..]
  {
    if hs == [] then -1
    else if hs[|hs| - 1] == h then |hs| - 1
    else
      var i := LastIndexOf(hs[..|hs| - 1], h);
      assert hs[..|hs| - 1][i + 1..] + [hs[|hs| - 1]] == hs[i + 1..];
      i
  }

  /** `ConfigurationChanged -= h`: the last occurrence of the handler leaves the
      invocation list; removing a handler that is not subscribed changes nothing. */
  function Unsubscribe(c: Config, h: Handler): (c': Config)
    ensures h !in c.subscribers ==> c' == c
    ensures h in c.subscribers ==> |c'.subscribers| == |c.subscribers| - 1
    ensures c'.settings == c.settings && c'.status == c.status && c'.store == c.store && c'.log == c.log
  {
    var i := LastIndexOf(c.subscribers, h);
    if i < 0 then c
    else c.(subscribers := c.subscribers[..i] + c.subscribers[i + 1..])
  }
}
