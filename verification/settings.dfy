/**
 * User settings: the settings service of src/services/settingsService.ts
 * (defaults overlaid with the saved values, partial updates, reset and the
 * listener list), the provider of src/context/SettingsContext.tsx (one
 * setter per field, the vibration setter writing both haptic keys, the
 * loading flag), and the legacy `updateSetting` of src/hooks/useSettings.ts.
 * Settings are a map from key to value, so a partial update is a map too.
 * Saving to storage never changes the in-memory state and is not modelled.
 */
module Settings {

  import opened Common

  datatype DisplayMode = Light | Dark | System

  /** The keys of UserSettings, including the optional animation keys. */
  datatype SettingKey =
    | SoundEnabled | HapticFeedbackEnabled | HapticEnabled | DisplayModeKey | DefaultRerollOnes | AnimationsEnabled
    | ReduceMotion | FollowSystemReduceMotion | AnimationDurationScale | PerformanceLevelKey

  datatype SettingValue = BoolValue(b: bool) | ModeValue(mode: DisplayMode) | NumberValue(n: real) | TextValue(text: string)

  type UserSettings = map<SettingKey, SettingValue>

  /** DEFAULT_SETTINGS of src/constants.ts. */
  const Defaults: UserSettings := map[
    SoundEnabled := BoolValue(true),
    HapticEnabled := BoolValue(true),
    HapticFeedbackEnabled := BoolValue(true),
    AnimationsEnabled := BoolValue(true),
    DisplayModeKey := ModeValue(System),
    DefaultRerollOnes := BoolValue(false)]

  /** The value type each key carries. */
  predicate ValueFits(k: SettingKey, v: SettingValue)
  {
    match k
    case DisplayModeKey => v.ModeValue?
    case AnimationDurationScale => v.NumberValue?
    case PerformanceLevelKey => v.TextValue?
    case _ => v.BoolValue?
  }

  /** `{ ...base, ...overlay }`: every key of the overlay wins, every other key of the base stays. */
  function Overlay(base: UserSettings, overlay: UserSettings): (r: UserSettings)
    ensures r.Keys == base.Keys + overlay.Keys
    ensures forall k :: k in overlay ==> r[k] == overlay[k]
    ensures forall k :: k in base && k !in overlay ==> r[k] == base[k]
  {
    base + overlay
  }

  /** Overlaying twice is overlaying the merged partial once. */
  lemma OverlayComposes(s: UserSettings, p: UserSettings, q: UserSettings)
    ensures Overlay(Overlay(s, p), q) == Overlay(s, Overlay(p, q))
  {
  }

  // ---------------------------------------------------------------------------
  // The service
  // ---------------------------------------------------------------------------

  /** A subscribed listener, by identity. */
  type Listener = nat

  datatype Service = Service(settings: UserSettings, listeners: seq<Listener>)

  const FreshService := Service(Defaults, [])

  /** One listener call made by `notifyListeners`. */
  datatype Notification = Notification(listener: Listener, settings: UserSettings)

  /**
   * What `loadSettings` answers when nothing is saved: storage falls back to
   * an empty object, and it does the same when the read or the parse fails.
   */
  const NothingSaved: UserSettings := map[]

  /**
   * `init`: the loaded values are laid over the defaults. Storage always
   * answers an object, so every init installs the defaults under whatever
   * was saved, and the settings held before are forgotten.
   */
  function Init(s: Service, saved: UserSettings): (r: Service)
    ensures r.listeners == s.listeners
    ensures r.settings.Keys == Defaults.Keys + saved.Keys
    ensures forall k :: k in saved ==> r.settings[k] == saved[k]
    ensures forall k :: k in Defaults && k !in saved ==> r.settings[k] == Defaults[k]
  {
    s.(settings := Overlay(Defaults, saved))
  }

  /** `notifyListeners`: each listener in the list, in order, with the settings. */
  function Notify(s: Service): (calls: seq<Notification>)
    ensures |calls| == |s.listeners|
    ensures forall i :: 0 <= i < |calls| ==> calls[i] == Notification(s.listeners[i], s.settings)
  {
    seq(|s.listeners|, i requires 0 <= i < |s.listeners| => Notification(s.listeners[i], s.settings))
  }

  /** `updateSettings`: the new service, the listener calls, and the settings it resolves to. */
  function UpdateSettings(s: Service, partial: UserSettings): (r: (Service, seq<Notification>))
    ensures r.0.listeners == s.listeners
    ensures r.0.settings.Keys == s.settings.Keys + partial.Keys
    ensures forall k :: k in partial ==> r.0.settings[k] == partial[k]
    ensures forall k :: k in s.settings && k !in partial ==> r.0.settings[k] == s.settings[k]
    ensures |r.1| == |s.listeners| && forall i :: 0 <= i < |r.1| ==> r.1[i].settings == r.0.settings
  {
    var next := s.(settings := Overlay(s.settings, partial));
    (next, Notify(next))
  }

  /** `resetSettings`: the defaults, with every listener told. */
  function ResetSettings(s: Service): (r: (Service, seq<Notification>))
    ensures r.0.settings == Defaults && r.0.listeners == s.listeners
    ensures |r.1| == |s.listeners| && forall i :: 0 <= i < |r.1| ==> r.1[i] == Notification(s.listeners[i], Defaults)
  {
    var next := s.(settings := Defaults);
    (next, Notify(next))
  }

  /** `subscribe`: the listener is appended. */
  function Subscribe(s: Service, l: Listener): (r: Service)
    ensures r.settings == s.settings && r.listeners == s.listeners + [l]
  {
    s.(listeners := s.listeners + [l])
  }

  /** The function `subscribe` returns: every registration of that listener is dropped. */
  function Unsubscribe(s: Service, l: Listener): (r: Service)
    ensures r.settings == s.settings && l !in r.listeners
    ensures forall i :: 0 <= i < |s.listeners| && s.listeners[i] != l ==> s.listeners[i] in r.listeners
  {
    s.(listeners := RemoveAll(s.listeners, l))
  }

  /** Subscribing a new listener and then unsubscribing it restores the listener list. */
  lemma UnsubscribeUndoesSubscribe(s: Service, l: Listener)
    requires l !in s.listeners
    ensures Unsubscribe(Subscribe(s, l), l) == s
  {
    RemoveAllAppend(s.listeners, [l], l);
    RemoveAllAbsent(s.listeners, l);
    assert RemoveAll([l], l) == [];
  }

  /** Two updates in a row are one update with the later values winning. */
  lemma UpdatesCompose(s: Service, p: UserSettings, q: UserSettings)
    ensures UpdateSettings(UpdateSettings(s, p).0, q).0 == UpdateSettings(s, Overlay(p, q)).0
  {
    OverlayComposes(s.settings, p, q);
  }

  /** With nothing saved, init is a reset without the notifications, whatever was held before. */
  lemma InitNothingSavedIsReset(s: Service, p: UserSettings)
    ensures Init(s, NothingSaved) == ResetSettings(s).0
    ensures Init(UpdateSettings(s, p).0, NothingSaved).settings == Defaults
  {
    assert Overlay(Defaults, NothingSaved) == Defaults;
  }

  /**
   * Saving and loading back: the settings an update leaves (and saves) are
   * exactly what a later init installs, as long as they hold every default
   * key, which updates and resets never lose.
   */
  lemma SaveThenInitRestores(s: Service, t: Service)
    requires Defaults.Keys <= s.settings.Keys
    ensures Init(t, s.settings).settings == s.settings
  {
    var r := Init(t, s.settings).settings;
    assert r.Keys == s.settings.Keys;
    assert forall k :: k in r ==> r[k] == s.settings[k];
  }

  /** Once every default key is present, no update or reset can lose one. */
  lemma DefaultKeysStayPresent(s: Service, p: UserSettings)
    requires Defaults.Keys <= s.settings.Keys
    ensures Defaults.Keys <= UpdateSettings(s, p).0.settings.Keys
    ensures Defaults.Keys <= ResetSettings(s).0.settings.Keys
  {
  }

  // ---------------------------------------------------------------------------
  // The provider
  // ---------------------------------------------------------------------------

  datatype Context = Context(settings: UserSettings, isLoading: bool)

  const InitialContext := Context(Defaults, true)

  /** The provider's setters, with their argument. */
  datatype Setter =
    | SetSoundEnabled(enabled: bool)
    | SetVibrationEnabled(enabled: bool)
    | SetAnimationsEnabled(enabled: bool)
    | SetTheme(mode: DisplayMode)
    | SetDefaultRerollOnes(enabled: bool)

  /** `setHapticEnabled` of the hook is the vibration setter under another name. */
  function SetHapticEnabled(enabled: bool): Setter
  {
    SetVibrationEnabled(enabled)
  }

  /** The partial each setter passes to `updateSettings`. */
  function PartialFor(call: Setter): (p: UserSettings)
    ensures call.SetVibrationEnabled? ==>
      p == map[HapticFeedbackEnabled := BoolValue(call.enabled), HapticEnabled := BoolValue(call.enabled)]
    ensures !call.SetVibrationEnabled? ==> |p.Keys| == 1
    ensures forall k :: k in p ==> ValueFits(k, p[k])
  {
    match call
    case SetSoundEnabled(b) => map[SoundEnabled := BoolValue(b)]
    case SetVibrationEnabled(b) => map[HapticFeedbackEnabled := BoolValue(b), HapticEnabled := BoolValue(b)]
    case SetAnimationsEnabled(b) => map[AnimationsEnabled := BoolValue(b)]
    case SetTheme(m) => map[DisplayModeKey := ModeValue(m)]
    case SetDefaultRerollOnes(b) => map[DefaultRerollOnes := BoolValue(b)]
  }

  /**
   * A setter: the service is updated and the context takes the updated
   * settings; when the service call rejects (`fails`), the error is logged
   * and both keep their settings.
   */
  function ApplySetter(c: Context, s: Service, call: Setter, fails: bool): (r: (Context, Service))
    ensures fails ==> r == (c, s)
    ensures !fails ==>
      && r.0.settings == r.1.settings && r.0.isLoading == c.isLoading
      && r.1.settings.Keys == s.settings.Keys + PartialFor(call).Keys
      && (forall k :: k in PartialFor(call) ==> r.1.settings[k] == PartialFor(call)[k])
      && (forall k :: k in s.settings && k !in PartialFor(call) ==> r.1.settings[k] == s.settings[k])
  {
    if fails then (c, s)
    else
      var next := UpdateSettings(s, PartialFor(call)).0;
      (c.(settings := next.settings), next)
  }

  /** The vibration setter leaves both haptic keys equal to its argument. */
  lemma VibrationWritesBothKeys(c: Context, s: Service, enabled: bool)
    ensures var r := ApplySetter(c, s, SetVibrationEnabled(enabled), false);
      r.0.settings[HapticFeedbackEnabled] == r.0.settings[HapticEnabled] == BoolValue(enabled)
  {
  }

  /** Every other setter changes exactly its own key. */
  lemma SingleKeySetters(c: Context, s: Service, call: Setter, k: SettingKey)
    requires !call.SetVibrationEnabled? && k in s.settings
    requires k !in PartialFor(call)
    ensures ApplySetter(c, s, call, false).0.settings[k] == s.settings[k]
  {
  }

  /** The provider's mount: `init`, then the service's settings, and loading ends. */
  function InitContext(c: Context, s: Service, saved: UserSettings): (r: (Context, Service))
    ensures !r.0.isLoading && r.1.listeners == s.listeners
    ensures r.0.settings == r.1.settings
    ensures r.1.settings.Keys == Defaults.Keys + saved.Keys
    ensures forall k :: k in saved ==> r.0.settings[k] == saved[k]
    ensures forall k :: k in Defaults && k !in saved ==> r.0.settings[k] == Defaults[k]
  {
    var next := Init(s, saved);
    (Context(next.settings, false), next)
  }

  /** The provider's `resetSettings`: the context shows the defaults unless the service rejects. */
  function ResetContext(c: Context, s: Service, fails: bool): (r: (Context, Service))
    ensures fails ==> r == (c, s)
    ensures !fails ==> r.0.settings == Defaults && r.1.settings == Defaults && r.0.isLoading == c.isLoading
  {
    if fails then (c, s)
    else
      var next := ResetSettings(s).0;
      (c.(settings := next.settings), next)
  }

  /**
   * The provider shows what the service holds: the mount establishes it, and
   * every setter and reset keeps it, whether the service call goes through
   * or rejects.
   */
  lemma ContextMirrorsService(c: Context, s: Service, saved: UserSettings, call: Setter, fails: bool)
    ensures InitContext(c, s, saved).0.settings == InitContext(c, s, saved).1.settings
    ensures c.settings == s.settings ==> ApplySetter(c, s, call, fails).0.settings == ApplySetter(c, s, call, fails).1.settings
    ensures c.settings == s.settings ==> ResetContext(c, s, fails).0.settings == ResetContext(c, s, fails).1.settings
    ensures Defaults.Keys <= InitContext(c, s, saved).1.settings.Keys
  {
  }

  // ---------------------------------------------------------------------------
  // The legacy hook
  // ---------------------------------------------------------------------------

  /** The setter `updateSetting` routes a key to, if any. */
  function RouteFor(k: SettingKey, v: SettingValue): (r: Option<Setter>)
    requires ValueFits(k, v)
    ensures r.Some? <==> k in {SoundEnabled, HapticFeedbackEnabled, HapticEnabled, AnimationsEnabled, DisplayModeKey, DefaultRerollOnes}
    ensures r.Some? ==> k in PartialFor(r.value) && PartialFor(r.value)[k] == v
  {
    match k
    case SoundEnabled => Some(SetSoundEnabled(v.b))
    case HapticFeedbackEnabled => Some(SetHapticEnabled(v.b))
    case HapticEnabled => Some(SetHapticEnabled(v.b))
    case AnimationsEnabled => Some(SetAnimationsEnabled(v.b))
    case DisplayModeKey => Some(SetTheme(v.mode))
    case DefaultRerollOnes => Some(SetDefaultRerollOnes(v.b))
    case _ => None
  }

  /**
   * `updateSetting`: the routed setter runs, other keys are ignored, and the
   * value returned is the settings snapshot of the render that made the call.
   */
  function UpdateSetting(c: Context, s: Service, k: SettingKey, v: SettingValue, fails: bool): (r: (Context, Service, UserSettings))
    requires ValueFits(k, v)
    ensures r.2 == c.settings
    ensures k in {ReduceMotion, FollowSystemReduceMotion, AnimationDurationScale, PerformanceLevelKey} ==> r.0 == c && r.1 == s
    ensures !fails && k !in {ReduceMotion, FollowSystemReduceMotion, AnimationDurationScale, PerformanceLevelKey} ==>
      k in r.1.settings && r.1.settings[k] == v && r.0.settings == r.1.settings
  {
    match RouteFor(k, v)
    case None => (c, s, c.settings)
    case Some(call) =>
      var (c', s') := ApplySetter(c, s, call, fails);
      (c', s', c.settings)
  }

  /** Both haptic keys go through the vibration setter, so either one sets both. */
  lemma HapticKeysAreAliases(c: Context, s: Service, enabled: bool)
    ensures UpdateSetting(c, s, HapticEnabled, BoolValue(enabled), false)
         == UpdateSetting(c, s, HapticFeedbackEnabled, BoolValue(enabled), false)
    ensures UpdateSetting(c, s, HapticEnabled, BoolValue(enabled), false).1.settings[HapticFeedbackEnabled] == BoolValue(enabled)
  {
  }
}
