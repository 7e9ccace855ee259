/** The user-configurable state of Conform (Conform/Settings.cs), and the
    constants it is validated against (ConformConstants, whose source is not
    part of this model: the values below are the ones the Settings defaults
    and the validator agree on). */
module ConformSettings {

  /** The sentinel device name meaning "no valid target is configured". */
  const NO_DEVICE_SELECTED: string := "No device selected"
  /** The two recognised transport technologies. */
  const TECHNOLOGY_ALPACA: string := "Alpaca"
  const TECHNOLOGY_COM: string := "COM"

  /** A value that may be absent; models a reference-typed property that can be null. */
  datatype Option<T> = None | Some(value: T)

  /** The network identity of an Alpaca device (AlpacaDiscovery.AscomDevice, not part
      of this model): only the value a parameterless `new()` gives is distinguished. */
  datatype AscomDevice = NewAscomDevice | Discovered(identity: nat)

  /** A .NET DateTime, as its tick count; tick 0 is DateTime.MinValue. */
  datatype DateTime = DateTime(ticks: nat)
  const MIN_DATE_TIME: DateTime := DateTime(0)

  /** The content of a Settings object: one component per property, which is what the
      settings file stores. */
  datatype SettingsRecord = SettingsRecord(
    currentAlpacaDevice: AscomDevice,
    currentDeviceName: string,
    currentDeviceProgId: string,
    currentDeviceTechnology: string,
    currentDeviceType: string,
    debug: bool,
    deviceCamera: string,
    deviceCoverCalibrator: Option<string>,
    deviceDome: string,
    deviceFilterWheel: string,
    deviceFocuser: string,
    deviceObservingConditions: string,
    deviceRotator: string,
    deviceSafetyMonitor: string,
    deviceSwitch: string,
    deviceTelescope: string,
    deviceVideo: string,
    displayMethodCalls: bool,
    logFileFolder: string,
    testProperties: bool,
    testMethods: bool,
    testPerformance: bool,
    testSideOfPierRead: bool,
    testSideOfPierWrite: bool,
    updateCheck: bool,
    updateDate: DateTime,
    warningMessageDisplayed: bool)

  /** The property initialisers of Settings, as one value. */
  function Defaults(): SettingsRecord
  {
    SettingsRecord(
      currentAlpacaDevice := NewAscomDevice,
      currentDeviceName := NO_DEVICE_SELECTED,
      currentDeviceProgId := "",
      currentDeviceTechnology := TECHNOLOGY_ALPACA,
      currentDeviceType := "Telescope",
      debug := false,
      deviceCamera := "",
      deviceCoverCalibrator := None,
      deviceDome := "",
      deviceFilterWheel := "",
      deviceFocuser := "",
      deviceObservingConditions := "",
      deviceRotator := "",
      deviceSafetyMonitor := "",
      deviceSwitch := "",
      deviceTelescope := "",
      deviceVideo := "",
      displayMethodCalls := false,
      logFileFolder := "",
      testProperties := true,
      testMethods := true,
      testPerformance := false,
      testSideOfPierRead := false,
      testSideOfPierWrite := false,
      updateCheck := true,
      updateDate := MIN_DATE_TIME,
      warningMessageDisplayed := false)
  }

  /** The live, mutable Settings object. Every property is an independent field that
      callers assign in place. */
  class Settings {
    var currentAlpacaDevice: AscomDevice
    var currentDeviceName: string
    var currentDeviceProgId: string
    var currentDeviceTechnology: string
    var currentDeviceType: string
    var debug: bool
    var deviceCamera: string
    var deviceCoverCalibrator: Option<string>
    var deviceDome: string
    var deviceFilterWheel: string
    var deviceFocuser: string
    var deviceObservingConditions: string
    var deviceRotator: string
    var deviceSafetyMonitor: string
    var deviceSwitch: string
    var deviceTelescope: string
    var deviceVideo: string
    var displayMethodCalls: bool
    var logFileFolder: string
    var testProperties: bool
    var testMethods: bool
    var testPerformance: bool
    var testSideOfPierRead: bool
    var testSideOfPierWrite: bool
    var updateCheck: bool
    var updateDate: DateTime
    var warningMessageDisplayed: bool

    /** The current content of this object. */
    function Value(): SettingsRecord
      reads this
    {
      SettingsRecord(
        currentAlpacaDevice, currentDeviceName, currentDeviceProgId,
        currentDeviceTechnology, currentDeviceType, debug,
        deviceCamera, deviceCoverCalibrator, deviceDome, deviceFilterWheel,
        deviceFocuser, deviceObservingConditions, deviceRotator,
        deviceSafetyMonitor, deviceSwitch, deviceTelescope, deviceVideo,
        displayMethodCalls, logFileFolder, testProperties, testMethods,
        testPerformance, testSideOfPierRead, testSideOfPierWrite,
        updateCheck, updateDate, warningMessageDisplayed)
    }

    /** `new Settings()`: every property takes its initialiser. */
    constructor ()
      ensures Value() == Defaults()
      ensures currentDeviceName == NO_DEVICE_SELECTED
      ensures currentDeviceTechnology == TECHNOLOGY_ALPACA && currentDeviceType == "Telescope"
      ensures currentDeviceProgId == "" && deviceCoverCalibrator == None
      ensures deviceCamera == deviceDome == deviceFilterWheel == deviceFocuser == ""
      ensures deviceObservingConditions == deviceRotator == deviceSafetyMonitor == ""
      ensures deviceSwitch == deviceTelescope == deviceVideo == ""
      ensures testProperties && testMethods
      ensures !testPerformance && !testSideOfPierRead && !testSideOfPierWrite
      ensures !debug && !displayMethodCalls
      ensures updateCheck && updateDate == MIN_DATE_TIME
      ensures !warningMessageDisplayed && logFileFolder == ""
    {
      currentAlpacaDevice := NewAscomDevice;
      currentDeviceName := NO_DEVICE_SELECTED;
      currentDeviceProgId := "";
      currentDeviceTechnology := TECHNOLOGY_ALPACA;
      currentDeviceType := "Telescope";
      debug := false;
      deviceCamera := "";
      deviceCoverCalibrator := None;
      deviceDome := "";
      deviceFilterWheel := "";
      deviceFocuser := "";
      deviceObservingConditions := "";
      deviceRotator := "";
      deviceSafetyMonitor := "";
      deviceSwitch := "";
      deviceTelescope := "";
      deviceVideo := "";
      displayMethodCalls := false;
      logFileFolder := "";
      testProperties := true;
      testMethods := true;
      testPerformance := false;
      testSideOfPierRead := false;
      testSideOfPierWrite := false;
      updateCheck := true;
      updateDate := MIN_DATE_TIME;
      warningMessageDisplayed := false;
    }

    /** A Settings object whose properties are all set from a stored value, as the
        deserialiser builds it. */
    constructor FromRecord(r: SettingsRecord)
      ensures Value() == r
    {
      currentAlpacaDevice := r.currentAlpacaDevice;
      currentDeviceName := r.currentDeviceName;
      currentDeviceProgId := r.currentDeviceProgId;
      currentDeviceTechnology := r.currentDeviceTechnology;
      currentDeviceType := r.currentDeviceType;
      debug := r.debug;
      deviceCamera := r.deviceCamera;
      deviceCoverCalibrator := r.deviceCoverCalibrator;
      deviceDome := r.deviceDome;
      deviceFilterWheel := r.deviceFilterWheel;
      deviceFocuser := r.deviceFocuser;
      deviceObservingConditions := r.deviceObservingConditions;
      deviceRotator := r.deviceRotator;
      deviceSafetyMonitor := r.deviceSafetyMonitor;
      deviceSwitch := r.deviceSwitch;
      deviceTelescope := r.deviceTelescope;
      deviceVideo := r.deviceVideo;
      displayMethodCalls := r.displayMethodCalls;
      logFileFolder := r.logFileFolder;
      testProperties := r.testProperties;
      testMethods := r.testMethods;
      testPerformance := r.testPerformance;
      testSideOfPierRead := r.testSideOfPierRead;
      testSideOfPierWrite := r.testSideOfPierWrite;
      updateCheck := r.updateCheck;
      updateDate := r.updateDate;
      warningMessageDisplayed := r.warningMessageDisplayed;
    }
  }
}
