/** The configuration manager object (Conform/ConformConfiguration.cs): it owns the
    one live Settings object, the Status, the ConfigurationChanged invocation list,
    and writes the settings file. Each method is proved against the function of the
    same name in module Configuration. */
module ConfigurationManager {
  import opened ConformSettings
  import Configuration

  /** The per-user settings file. Serialising and deserialising are abstracted away:
      the file holds a settings value, or is missing, corrupt or unreadable. */
  class SettingsFile {
    var content: Configuration.Store

    constructor (content: Configuration.Store)
      ensures this.content == content
    {
      this.content := content;
    }

    /** Create the folder and write the indented serialisation of `r`; `writeOk` is
        whether the file system lets the write through. A failed write leaves the file
        as it was. */
    method Write(r: SettingsRecord, writeOk: bool)
      modifies this
      ensures content == Configuration.Persist(old(content), r, writeOk)
    {
      if writeOk {
        content := Configuration.Holds(r);
      }
    }
  }

  class ConformConfiguration {
    /** The live settings, handed out by reference and edited in place by callers. */
    var settings: Settings
    var status: Configuration.Status
    const file: SettingsFile
    /** The ConfigurationChanged invocation list; empty when the event is null. */
    var subscribers: seq<Configuration.Handler>
    /** Every handler invocation so far, with what the handler could observe; a
        ghost record kept for the specification only. */
    ghost var log: seq<Configuration.Notification>

    /** The state the functions of module Configuration speak about. */
    ghost function Abstract(): Configuration.Config
      reads this, settings, file
    {
      Configuration.Config(settings.Value(), status, file.content, subscribers, log)
    }

    /** Load the settings from the file; every outcome of the read is caught. */
    constructor (file: SettingsFile, writeOk: bool)
      modifies file
      ensures this.file == file && fresh(settings)
      ensures Abstract() == Configuration.Load(old(file.content), writeOk)
    {
      this.file := file;
      settings := new Settings();
      subscribers := [];
      log := [];
      new;
      var stored := file.content;
      if stored.Absent? {
        PersistSettings(settings, writeOk);
        status := Configuration.FirstTimeDefaults;
      } else if stored.Holds? {
        settings := new Settings.FromRecord(stored.settings);
        status := Configuration.ReadSuccessfully;
      } else if stored.Corrupt? {
        status := Configuration.FileCorrupted;
      } else {
        status := Configuration.ReadException;
      }
    }

    /** The first problem with the live settings, or "" when there is none; reads
        only. */
    function Validate(): (msg: string)
      reads this, settings
      ensures msg == "" <==> Configuration.IsValid(settings.Value())
      ensures msg == Configuration.Validate(settings.Value())
    {
      Configuration.Validate(settings.Value())
    }

    /** The Status property's text. */
    function StatusText(): (t: string)
      reads this
      ensures t == Configuration.StatusText(status)
    {
      Configuration.StatusText(status)
    }

    /** Write the given settings to the file; a null argument or a failed write is
        caught and leaves the file as it was. */
    method PersistSettings(toPersist: Settings?, writeOk: bool)
      modifies file
      ensures toPersist == null ==> file.content == old(file.content)
      ensures toPersist != null ==>
        file.content == Configuration.Persist(old(file.content), toPersist.Value(), writeOk)
    {
      if toPersist != null {
        file.Write(toPersist.Value(), writeOk);
      }
    }

    /** Invoke every subscriber once, in order, if there is any. */
    method RaiseConfigurationChangedEvent()
      modifies this
      ensures settings == old(settings)
      ensures Abstract() == Configuration.Raise(old(Abstract()))
    {
      if subscribers != [] {
        log := log + Configuration.Dispatch(subscribers, settings.Value(), status, file.content);
      }
    }

    /** Persist the live settings, stamp the Status with `now`, then notify. */
    method Save(now: Configuration.Time, writeOk: bool)
      modifies this, file
      ensures settings == old(settings)
      ensures Abstract() == Configuration.Save(old(Abstract()), now, writeOk)
    {
      PersistSettings(settings, writeOk);
      status := Configuration.SavedAt(now);
      RaiseConfigurationChangedEvent();
    }

    /** Replace the live settings with a new default object, persist it, stamp the
        Status with `now`, then notify. */
    method Reset(now: Configuration.Time, writeOk: bool)
      modifies this, file
      ensures fresh(settings)
      ensures Abstract() == Configuration.Reset(old(Abstract()), now, writeOk)
    {
      settings := new Settings();
      PersistSettings(settings, writeOk);
      status := Configuration.ResetAt(now);
      RaiseConfigurationChangedEvent();
    }

    /** `ConfigurationChanged += h`. */
    method Subscribe(h: Configuration.Handler)
      modifies this
      ensures settings == old(settings)
      ensures Abstract() == Configuration.Subscribe(old(Abstract()), h)
    {
      subscribers := subscribers + [h];
    }

    /** `ConfigurationChanged -= h`. */
    method Unsubscribe(h: Configuration.Handler)
      modifies this
      ensures settings == old(settings)
      ensures Abstract() == Configuration.Unsubscribe(old(Abstract()), h)
    {
      var i := Configuration.LastIndexOf(subscribers, h);
      if i >= 0 {
        subscribers := subscribers[..i] + subscribers[i + 1..];
      }
    }
  }
}
