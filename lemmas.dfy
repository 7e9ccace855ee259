/** Properties of the configuration manager's behaviour that relate several
    operations or several outcomes. */
module ConfigurationLemmas {
  import opened ConformSettings
  import opened Configuration

  // ---------------------------------------------------------------------------
  // Validation

  /** A freshly defaulted Settings names no device, so it fails validation with the
      no-device diagnostic. */
  lemma DefaultsFailValidation()
    ensures Defaults().currentDeviceName == NO_DEVICE_SELECTED
    ensures Defaults().currentDeviceTechnology == TECHNOLOGY_ALPACA
    ensures Validate(Defaults()) == NO_DEVICE_MESSAGE
  {
  }

  /** Choosing a real device is all the defaults lack: the default technology is
      Alpaca, for which no further field is checked. */
  lemma DefaultsWithDeviceNameAreValid(name: string)
    requires name != NO_DEVICE_SELECTED
    ensures Validate(Defaults().(currentDeviceName := name)) == ""
  {
  }

  /** The three diagnostics differ from one another and from "", so the text alone
      says which check failed: each message occurs exactly when its check is the
      first to fail. */
  lemma ValidateIdentifiesFailedCheck(s: SettingsRecord)
    ensures Validate(s) == NO_DEVICE_MESSAGE <==> s.currentDeviceName == NO_DEVICE_SELECTED
    ensures Validate(s) == TechnologyMessage(s.currentDeviceTechnology) <==>
      s.currentDeviceName != NO_DEVICE_SELECTED && !IsKnownTechnology(s.currentDeviceTechnology)
    ensures Validate(s) == EMPTY_PROG_ID_MESSAGE <==>
      s.currentDeviceName != NO_DEVICE_SELECTED && s.currentDeviceTechnology == TECHNOLOGY_COM
      && s.currentDeviceProgId == ""
  {
  }

  /** The technology diagnostic quotes the technology verbatim: different
      technologies give different diagnostics. */
  lemma TechnologyMessageInjective(t1: string, t2: string)
    ensures TechnologyMessage(t1) == TechnologyMessage(t2) ==> t1 == t2
  {
    if TechnologyMessage(t1) == TechnologyMessage(t2) {
      var prefix := "Technology type is not Alpaca or COM: '";
      var m := TechnologyMessage(t1);
      assert m == prefix + t1 + "'";
      assert TechnologyMessage(t2) == prefix + t2 + "'";
      assert |t1| == |t2|;
      assert t1 == m[|prefix|..|m| - 1];
      assert t2 == m[|prefix|..|m| - 1];
    }
  }

  // ---------------------------------------------------------------------------
  // Status

  /** Each Status value has its own text, and the saved/reset texts carry their time:
      the Status text determines the outcome that produced it. */
  lemma StatusTextInjective(a: Status, b: Status)
    ensures StatusText(a) == StatusText(b) ==> a == b
  {
    if StatusText(a) == StatusText(b) {
      StatusTextPrefix(a);
      StatusTextPrefix(b);
      if a.SavedAt? && b.SavedAt? {
        assert a.savedAt.text == StatusText(a)[18..|StatusText(a)| - 1];
      } else if a.ResetAt? && b.ResetAt? {
        assert a.resetAt.text == StatusText(a)[18..|StatusText(a)| - 1];
      }
    }
  }

  /** The first twelve characters of a Status text, different for every kind of
      Status. */
  function Prefix(s: Status): string
  {
    match s
    case ReadSuccessfully => "Settings rea"
    case FirstTimeDefaults => "Settings set"
    case FileCorrupted => "Settings fil"
    case ReadException => "Exception re"
    case SavedAt(_) => "Settings sav"
    case ResetAt(_) => "Settings res"
  }

  lemma StatusTextPrefix(s: Status)
    ensures |StatusText(s)| >= 12 && StatusText(s)[..12] == Prefix(s)
  {
    match s
    case SavedAt(t) =>
      assert StatusText(s)[..12] == StatusText(s)[..18][..12];
    case ResetAt(t) =>
      assert StatusText(s)[..12] == StatusText(s)[..18][..12];
    case ReadSuccessfully =>
      HeadOf("Settings rea", "d successfully");
    case FirstTimeDefaults => FirstTimeDefaultsPrefix();
    case FileCorrupted => FileCorruptedPrefix();
    case ReadException => ReadExceptionPrefix();
  }

  lemma HeadOf(head: string, tail: string)
    ensures (head + tail)[..|head|] == head
  {
  }

  lemma FirstTimeDefaultsPrefix()
    ensures |StatusText(FirstTimeDefaults)| >= 12
    ensures StatusText(FirstTimeDefaults)[..12] == "Settings set"
  {
    assert StatusText(FirstTimeDefaults) == "Settings set" + " to defaults on first time use.";
  }

  lemma FileCorruptedPrefix()
    ensures |StatusText(FileCorrupted)| >= 12
    ensures StatusText(FileCorrupted)[..12] == "Settings fil"
  {
    assert StatusText(FileCorrupted) == "Settings file corrupted, " + "please reset to default values";
    assert StatusText(FileCorrupted)[..25] == "Settings file corrupted, ";
  }

  lemma ReadExceptionPrefix()
    ensures |StatusText(ReadException)| >= 12
    ensures StatusText(ReadException)[..12] == "Exception re"
  {
    assert StatusText(ReadException) == "Exception reading settings, " + "default values are in use.";
    assert StatusText(ReadException)[..28] == "Exception reading settings, ";
  }

  // ---------------------------------------------------------------------------
  // Load, Save and Reset

  /** The four load outcomes give four different Status texts, all of them different
      from the texts Save and Reset produce. */
  lemma LoadStatusDistinguishesOutcomes(s1: Store, s2: Store, ok1: bool, ok2: bool, now: Time)
    ensures s1 != s2 && !(s1.Holds? && s2.Holds?) ==>
      StatusText(Load(s1, ok1).status) != StatusText(Load(s2, ok2).status)
    ensures StatusText(Load(s1, ok1).status) != StatusText(SavedAt(now))
    ensures StatusText(Load(s1, ok1).status) != StatusText(ResetAt(now))
  {
    StatusTextInjective(Load(s1, ok1).status, Load(s2, ok2).status);
    StatusTextInjective(Load(s1, ok1).status, SavedAt(now));
    StatusTextInjective(Load(s1, ok1).status, ResetAt(now));
  }

  /** Two Resets in a row leave the settings, the file (when the second write goes
      through) and the subscribers as one Reset does; the Status differs only by its
      time, and the second Reset adds exactly one more round of notifications: every
      subscriber once, in order, observing the defaults and the file as the second
      write left it. */
  lemma ResetTwiceIsResetOnce(c: Config, t1: Time, t2: Time, ok1: bool, ok2: bool)
    ensures Reset(Reset(c, t1, ok1), t2, ok2).settings == Reset(c, t2, ok2).settings
    ensures ok2 || !ok1 ==> Reset(Reset(c, t1, ok1), t2, ok2).store == Reset(c, t2, ok2).store
    ensures ok1 ==> Reset(Reset(c, t1, ok1), t2, ok2).store == Holds(Defaults())
    ensures Reset(Reset(c, t1, ok1), t2, ok2).status == Reset(c, t2, ok2).status
    ensures Reset(Reset(c, t1, ok1), t2, ok2).subscribers == c.subscribers
    ensures Reset(Reset(c, t1, ok1), t2, ok2).log
      == Reset(c, t1, ok1).log
         + Dispatch(c.subscribers, Defaults(), ResetAt(t2), Reset(Reset(c, t1, ok1), t2, ok2).store)
  {
    var once := Reset(c, t1, ok1);
    var twice := Reset(once, t2, ok2);
    var ns := Dispatch(c.subscribers, Defaults(), ResetAt(t2), twice.store);
    forall i | |once.log| <= i < |twice.log|
      ensures twice.log[i] == ns[i - |once.log|]
    {
      var added := twice.log[|once.log|..];
      assert added[i - |once.log|] == twice.log[i];
    }
    assert twice.log == twice.log[..|once.log|] + twice.log[|once.log|..];
  }

  /** Save is idempotent on the settings and the file: saving again without edits
      writes the same value. */
  lemma SaveTwiceIsSaveOnce(c: Config, t1: Time, t2: Time, ok1: bool, ok2: bool)
    ensures Save(Save(c, t1, ok1), t2, ok2).settings == c.settings
    ensures ok1 || ok2 ==> Save(Save(c, t1, ok1), t2, ok2).store == Holds(c.settings)
  {
  }

  /** Right after a successful Save or Reset, and in every notification it raises, the
      file holds exactly the live settings: subscribers are called after the file
      reflects the change. */
  lemma NotifiedAfterPersisting(c: Config, now: Time, i: int)
    requires |c.log| <= i < |c.log| + |c.subscribers|
    ensures Save(c, now, true).store == Holds(c.settings)
    ensures Save(c, now, true).log[i].store == Holds(Save(c, now, true).log[i].settings)
    ensures Reset(c, now, true).log[i].store == Holds(Defaults())
    ensures Reset(c, now, true).log[i].settings == Defaults()
  {
  }

  /** The Status is stamped before the event is raised: a handler that reads the
      sender's Status during Save or Reset already reads the saved or reset text with
      this call's time. */
  lemma HandlersSeeNewStatus(c: Config, now: Time, ok: bool, i: int)
    requires |c.log| <= i < |c.log| + |c.subscribers|
    ensures IsTimed(StatusText(Save(c, now, ok).log[i].status), "Settings saved at ", now)
    ensures IsTimed(StatusText(Reset(c, now, ok).log[i].status), "Settings reset at ", now)
  {
  }

  /** With nobody subscribed, Save and Reset notify nobody. */
  lemma NoSubscribersNoNotification(c: Config, now: Time, ok: bool)
    requires c.subscribers == []
    ensures Save(c, now, ok).log == c.log && Reset(c, now, ok).log == c.log
  {
  }

  /** A write that fails is swallowed: Save still stamps the Status and notifies, and
      the file keeps what it had. */
  lemma FailedSaveStillNotifies(c: Config, now: Time)
    ensures Save(c, now, false).store == c.store
    ensures Save(c, now, false).status == SavedAt(now)
    ensures Handlers(Save(c, now, false).log[|c.log|..]) == c.subscribers
  {
  }

  // ---------------------------------------------------------------------------
  // Subscribing

  /** Removing a handler right after adding it restores the invocation list. */
  lemma UnsubscribeUndoesSubscribe(c: Config, h: Handler)
    ensures Unsubscribe(Subscribe(c, h), h) == c
  {
    var hs := c.subscribers + [h];
    assert LastIndexOf(hs, h) == |c.subscribers|;
    assert hs[..|c.subscribers|] + hs[|c.subscribers| + 1..] == c.subscribers;
  }

  /** Removing a subscribed handler takes away exactly one of its occurrences, the
      last one, and keeps the others in their order. */
  lemma UnsubscribeRemovesLastOccurrence(c: Config, h: Handler)
    requires h in c.subscribers
    ensures multiset(Unsubscribe(c, h).subscribers) == multiset(c.subscribers) - multiset{h}
    ensures exists i ::
      && 0 <= i < |c.subscribers| && c.subscribers[i] == h && h !in c.subscribers[i + 1..]
      && Unsubscribe(c, h).subscribers == c.subscribers[..i] + c.subscribers[i + 1..]
  {
    var i := LastIndexOf(c.subscribers, h);
    RemoveAtMultiset(c.subscribers, i);
  }

  lemma RemoveAtMultiset<T>(s: seq<T>, i: int)
    requires 0 <= i < |s|
    ensures multiset(s[..i] + s[i + 1..]) == multiset(s) - multiset{s[i]}
  {
    assert s == s[..i] + [s[i]] + s[i + 1..];
  }
}
