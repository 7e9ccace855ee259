# Conform configuration manager, modelled in Dafny

This project models the configuration core of ConformU, a tool that tests
astronomical-device drivers for conformance. The core is two classes. `Settings`
is the mutable record of everything the user configures: the device under
test, its transport technology (Alpaca or COM), per-category device slots,
test toggles and bookkeeping. `ConformConfiguration` owns the one live
`Settings` object. It loads that object from a per-user settings file,
validates it, saves or resets it, and raises `ConfigurationChanged` to every
subscriber afterwards.

Files:

- `settings.dfy` (module `ConformSettings`) holds the constants
  `NO_DEVICE_SELECTED`, `TECHNOLOGY_ALPACA` and `TECHNOLOGY_COM`.
  It also holds `SettingsRecord`, the value of a settings object and what the
  file stores, and `Defaults()`, the source's property initialisers.
  Finally it holds class `Settings`: one mutable field per property, with
  `Value()` giving the record.
- `configuration.dfy` (module `Configuration`) specifies the manager as
  functions over an abstract state `Config`. The state is the live settings
  value, the `Status`, the settings file (`Store`), the `ConfigurationChanged`
  invocation list and a log of handler invocations. The functions are
  `Validate`, `Load` (the constructor), `Save`, `Reset`, `Persist`, `Raise`,
  `Subscribe` and `Unsubscribe`.
- `manager.dfy` (module `ConfigurationManager`) holds class
  `ConformConfiguration`, with the source's fields and methods. It also holds
  class `SettingsFile`, the file on disk. The constructor and the methods
  `RaiseConfigurationChangedEvent`, `Save`, `Reset`, `Subscribe` and
  `Unsubscribe` equate the new `Abstract()` state with the matching function
  of `Configuration` applied to the old state. `SettingsFile.Write` and
  `PersistSettings` touch only the file, and state its new content with
  `Configuration.Persist`. The handler log is a ghost field: it exists only to
  state what handlers observe.
- `lemmas.dfy` (module `ConfigurationLemmas`) proves properties that relate
  several outcomes or operations.

How the outside world is represented:

- The file's content on a read is one of four cases: `Absent` (no file),
  `Holds(r)` (a document that deserialises to `r`), `Corrupt` (the JSON parser
  throws) or `Unreadable` (any other exception on the load path).
- Whether a write reaches the disk is the `writeOk` parameter. A failed write
  leaves the file as it was.
- The clock is a `Time` parameter: the `HH:mm:ss.f` text that `Save` and
  `Reset` put into the Status.
- A handler is an identity. Invoking it appends a `Notification` to the log.
  The entry records the settings value, the Status and the file content the
  handler would see if it read them from its `sender` or the disk at that
  moment. This is how "handlers run after the file is written and the Status
  is set" is stated.

Some properties hold by construction in the model:

- The `Settings` and `Status` accessors are the fields `settings` and
  `status`; `StatusText()` gives the Status string.
- Each property of `Settings` is a separate field. Assigning one field
  therefore leaves the others unchanged.
- `Validate` is a function, so it cannot change `settings` or `status`.
- The constructor catches every failure of the read path: each one is a case
  of `Store` or `writeOk`, so the constructor always completes. `Save` and
  `Reset` catch every failure of the write (the `writeOk` flag). Handlers
  that throw are not modelled; see `Configuration.Raise` under "Left out".

Assumptions and observations about the code:

- The source file of `ConformConstants` is not part of this model. The model
  takes `NO_DEVICE_SELECTED = "No device selected"` and
  `TECHNOLOGY_ALPACA = "Alpaca"`, the values the `Settings` initialisers use,
  and takes `TECHNOLOGY_COM = "COM"`.
- `Validate` reads `CurrentComDevice.ProgId`, but `Settings` declares
  `CurrentDeviceProgId`. The model has one ProgId field,
  `currentDeviceProgId`.
- `Validate` does not check `CurrentAlpacaDevice`: with Alpaca selected and
  a real device name it returns `""` (ConformConfiguration.cs:71-74).
- `Save` and `Reset` set the Status even when the write failed and was
  swallowed (ConformConfiguration.cs:94-95, 115-116). On first use the code
  likewise reports "Settings set to defaults on first time use." even when
  writing the defaults failed.

## Model

| member | source | states |
|---|---|---|
| `ConformSettings.Settings.constructor` | Conform/Settings.cs:13-51 | A new Settings has value `Defaults()`. The device name is "No device selected", the technology "Alpaca", the type "Telescope". ProgId and every device slot are "", except `DeviceCoverCalibrator`, which is null (`None`). TestProperties, TestMethods and UpdateCheck are true. Every other toggle is false. UpdateDate is DateTime.MinValue and LogFileFolder is "". |
| `ConformSettings.Settings.FromRecord` | Conform/ConformConfiguration.cs:41 | The deserialised Settings object carries exactly the stored value. |
| `Configuration.Validate` | Conform/ConformConfiguration.cs:66-86 | The result is "" exactly when the name is not the sentinel, the technology is Alpaca or COM, and COM has a non-empty ProgId. Otherwise the checks run in order: the sentinel name gives "No device has been selected." whatever else holds. Next, an unknown technology gives "Technology type is not Alpaca or COM: '<tech>'". Next, COM with an empty ProgId gives "CurrentComDevice.ProgId  is empty.". Alpaca is accepted with no further check. |
| `ConfigurationManager.ConformConfiguration.Validate` | Conform/ConformConfiguration.cs:66-86 | Reads only. The result is "" exactly when the live settings are valid, and is the diagnostic of `Configuration.Validate` for their current value. |
| `ConfigurationLemmas.ValidateIdentifiesFailedCheck` | Conform/ConformConfiguration.cs:68-77 | Each diagnostic is returned exactly when its check is the first to fail (both directions), so the message tells which check failed. |
| `ConfigurationLemmas.TechnologyMessageInjective` | Conform/ConformConfiguration.cs:69 | Different technology strings give different diagnostics. The diagnostic quotes the technology verbatim. |
| `ConfigurationLemmas.DefaultsFailValidation` | Conform/ConformConfiguration.cs:68 | Default settings name the sentinel device and fail with "No device has been selected.". |
| `ConfigurationLemmas.DefaultsWithDeviceNameAreValid` | Conform/ConformConfiguration.cs:71-85 | Defaults with any real device name pass, because the default technology is Alpaca, which needs nothing else. |
| `Configuration.Load` | Conform/ConformConfiguration.cs:24-61 | No file: defaults are live, written to the file when the write succeeds, status "Settings set to defaults on first time use.". A parsable file: its value is live, status "Settings read successfully". A corrupt file: defaults are live, the file is untouched, status "Settings file corrupted, …". Any other failure: defaults, file untouched, status "Exception reading settings, …". There are no subscribers yet. Whenever the file holds a value afterwards, it is the live settings. |
| `ConfigurationManager.ConformConfiguration.constructor` | Conform/ConformConfiguration.cs:24-61 | The new manager's state is `Load` of the file's prior content. The live settings object is fresh. |
| `Configuration.Persist` | Conform/ConformConfiguration.cs:132-160 | A write that goes through makes the file hold the given value. A failed write is swallowed and leaves the file unchanged. |
| `ConfigurationManager.SettingsFile.Write` | Conform/ConformConfiguration.cs:146-153 | The file afterwards is `Persist` of its old content. |
| `ConfigurationManager.ConformConfiguration.PersistSettings` | Conform/ConformConfiguration.cs:132-160 | A null argument or a failed write leaves the file unchanged. Otherwise the file holds the argument's current value. Nothing is thrown. |
| `Configuration.Dispatch` | Conform/ConformConfiguration.cs:106 | Invoking the invocation list produces one notification per handler, in list order. Each one observes the same settings, Status and file. |
| `Configuration.Raise` | Conform/ConformConfiguration.cs:100-109 | With no subscribers, nothing happens. Otherwise the log grows by exactly the subscribers, in order, each seeing the current settings, Status and file. Settings, status, file and subscribers are unchanged. |
| `ConfigurationManager.ConformConfiguration.RaiseConfigurationChangedEvent` | Conform/ConformConfiguration.cs:100-109 | The new state is `Raise` of the old one, and the settings object is the same. |
| `Configuration.Save` | Conform/ConformConfiguration.cs:91-98 | The settings are unchanged. The file holds them if the write succeeded and is unchanged otherwise. The status is "saved at now". Every subscriber is notified once, in order, and each notification observes the file as already written and the Status already "saved at now". |
| `ConfigurationManager.ConformConfiguration.Save` | Conform/ConformConfiguration.cs:91-98 | The new state is `Save` of the old one, and the live settings object is the same object. The Status is set before the event is raised. |
| `Configuration.Reset` | Conform/ConformConfiguration.cs:111-119 | The settings become the defaults. The file holds the defaults if the write succeeded. The status is "reset at now". Every subscriber is notified once, in order, each observing the defaults, the written file and the Status already "reset at now". |
| `ConfigurationManager.ConformConfiguration.Reset` | Conform/ConformConfiguration.cs:111-119 | The new state is `Reset` of the old one, and the live settings object is a fresh one. The Status is set before the event is raised. |
| `ConfigurationLemmas.ResetTwiceIsResetOnce` | Conform/ConformConfiguration.cs:111-119 | Two Resets leave the same settings, status and subscribers as one Reset. They leave the same file when the second write succeeds (or the first failed), and the defaults whenever the first succeeded. The second Reset adds exactly one more round of notifications: each subscriber once, in order, observing the defaults and the file as the second write left it. |
| `ConfigurationLemmas.SaveTwiceIsSaveOnce` | Conform/ConformConfiguration.cs:91-98 | Saving twice without edits keeps the settings. The file holds them if either write succeeded. |
| `ConfigurationLemmas.NotifiedAfterPersisting` | Conform/ConformConfiguration.cs:94-97 | After a successful Save the file holds the live settings. Every notification a successful Save or Reset raises observes a file that holds exactly the settings it observes. |
| `ConfigurationLemmas.HandlersSeeNewStatus` | Conform/ConformConfiguration.cs:94-97 | During Save, every handler reads a Status text of "Settings saved at ", this call's time and a period; during Reset, "Settings reset at " the same way (lines 115-117). |
| `ConfigurationLemmas.NoSubscribersNoNotification` | Conform/ConformConfiguration.cs:102 | With no subscribers, Save and Reset leave the log as it was. |
| `ConfigurationLemmas.FailedSaveStillNotifies` | Conform/ConformConfiguration.cs:155-158 | A failed write is swallowed: Save keeps the old file, still sets "saved at now", and still notifies every subscriber in order. |
| `ConfigurationLemmas.StatusTextInjective` | Conform/ConformConfiguration.cs:42-116 | Distinct Status values have distinct texts. The saved and reset texts carry their time recoverably. |
| `ConfigurationLemmas.LoadStatusDistinguishesOutcomes` | Conform/ConformConfiguration.cs:42-59 | The four load outcomes give four different Status texts. None of them equals a saved or reset text. |
| `Configuration.StatusText` | Conform/ConformConfiguration.cs:42-116 | The six exact Status texts: the four load texts verbatim, and "Settings saved at <time>." / "Settings reset at <time>.", whose time text sits verbatim between the fixed prefix and the final period. |
| `ConfigurationManager.ConformConfiguration.StatusText` | Conform/ConformConfiguration.cs:130 | The `Status` property reads as the text of the manager's current Status value. |
| `Configuration.Subscribe` | Conform/ConformConfiguration.cs:123 | `+=` appends the handler to the invocation list and changes nothing else. |
| `Configuration.LastIndexOf` | Conform/ConformConfiguration.cs:123 | The result is the position of the handler's last occurrence, or -1 exactly when it is not subscribed. |
| `Configuration.Unsubscribe` | Conform/ConformConfiguration.cs:123 | `-=` of an unsubscribed handler changes nothing. Otherwise the list shrinks by one and nothing else changes. |
| `ConfigurationManager.ConformConfiguration.Subscribe` | Conform/ConformConfiguration.cs:123 | The new state is `Subscribe` of the old one. |
| `ConfigurationManager.ConformConfiguration.Unsubscribe` | Conform/ConformConfiguration.cs:123 | The new state is `Unsubscribe` of the old one. |
| `ConfigurationLemmas.UnsubscribeUndoesSubscribe` | Conform/ConformConfiguration.cs:123 | Unsubscribing a handler right after subscribing it restores the state exactly. |
| `ConfigurationLemmas.UnsubscribeRemovesLastOccurrence` | Conform/ConformConfiguration.cs:123 | Unsubscribing a subscribed handler removes exactly one occurrence, the last one. The multiset loses one copy and the other handlers keep their order. |

## Left out

- Conform/Devices/Facades/TelescopeFacade.cs is not part of this model. Each of its members forwards one call to a driver object outside the repository, so it has no logic of its own to verify.
- JSON serialisation is abstracted: the file holds a settings value. That serialising and then deserialising preserves every field is assumed, not proved. A document holding only the JSON literal `null` is not modelled. The source would then leave `settings` null, and a later `Validate` would throw.
- Deserialised properties holding JSON `null` (other than `DeviceCoverCalibrator`) are not modelled: each string property is a Dafny `string`.
- Folder lookup, path building, directory creation and file reads and writes appear only as the four read outcomes and the `writeOk` flag. A write that fails part-way is taken to leave the file unchanged.
- The formatting of `DateTime.Now` as `HH:mm:ss.f` is left out; the formatted text is the `Time` parameter.
- Logging through `ConformLogger` is left out; it has no effect on the modelled state.
- `AscomDevice` comes from a library that is not part of this model. It is a value with a distinguished default (`NewAscomDevice`). `DateTime` is a tick count.
- What handlers do, and the unused `MessageEventHandler` delegate type, are left out. A handler is an identity, and its invocation is recorded in the log.
- Concurrency is left out: handlers are invoked synchronously in the model, as in the source.
- `Configuration.Raise`: handlers are assumed to return normally and to leave the settings, the file and the invocation list untouched. In the source a handler receives the manager as `sender` and could edit the live `Settings`, call `Save` or `Reset` again, or unsubscribe before later handlers run. A handler that throws skips the handlers after it, and the exception propagates out of `Save` and `Reset` after the write and the Status update. The contracts of `Configuration.Dispatch`, `Configuration.Raise`, `Configuration.Save`, `Configuration.Reset` and `ConfigurationLemmas.NotifiedAfterPersisting` hold under this assumption.
