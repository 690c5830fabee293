/**
 The settings slice: one `AppSettings` record, one setter per field and a
 reset to the factory defaults. Setters store their payload unchecked; in
 particular nothing keeps `defaultCallDuration` positive.
 */
module SettingsSlice {
  import opened Types

  /** The six fields of the record, so that "every other field" can be said. */
  datatype Field =
    | SelectedTemplate
    | DefaultCallDuration
    | VibrationEnabled
    | TutorialCompleted
    | SoundEnabled
    | SelectedRingtone

  /** A field's value, whatever its type. */
  datatype Value = Text(text: string) | Number(number: int) | Flag(flag: bool)

  datatype SettingsAction =
    | SetSelectedTemplate(template: string)
    | SetDefaultCallDuration(seconds: int)
    | SetVibrationEnabled(vibration: bool)
    | SetTutorialCompleted(completed: bool)
    | SetSoundEnabled(sound: bool)
    | SetSelectedRingtone(ringtone: string)
    | ResetSettings

  const InitialSettings: AppSettings :=
    AppSettings("ios", 30, true, false, true, "default")

  function Get(s: AppSettings, f: Field): Value
  {
    match f
    case SelectedTemplate => Text(s.selectedTemplate)
    case DefaultCallDuration => Number(s.defaultCallDuration)
    case VibrationEnabled => Flag(s.vibrationEnabled)
    case TutorialCompleted => Flag(s.tutorialCompleted)
    case SoundEnabled => Flag(s.soundEnabled)
    case SelectedRingtone => Text(s.selectedRingtone)
  }

  /** The field a setter writes. */
  function Target(a: SettingsAction): Field
    requires !a.ResetSettings?
  {
    match a
    case SetSelectedTemplate(_) => SelectedTemplate
    case SetDefaultCallDuration(_) => DefaultCallDuration
    case SetVibrationEnabled(_) => VibrationEnabled
    case SetTutorialCompleted(_) => TutorialCompleted
    case SetSoundEnabled(_) => SoundEnabled
    case SetSelectedRingtone(_) => SelectedRingtone
  }

  /** The value a setter writes. */
  function Payload(a: SettingsAction): Value
    requires !a.ResetSettings?
  {
    match a
    case SetSelectedTemplate(v) => Text(v)
    case SetDefaultCallDuration(v) => Number(v)
    case SetVibrationEnabled(v) => Flag(v)
    case SetTutorialCompleted(v) => Flag(v)
    case SetSoundEnabled(v) => Flag(v)
    case SetSelectedRingtone(v) => Text(v)
  }

  /**
   The slice reducer: a setter writes its payload into its own field and
   leaves the other five alone; the reset ignores the prior state.
   */
  function Reduce(s: AppSettings, a: SettingsAction): (r: AppSettings)
    ensures a.ResetSettings? ==> r == InitialSettings
    ensures !a.ResetSettings? ==> Get(r, Target(a)) == Payload(a)
    ensures !a.ResetSettings? ==> forall f :: f != Target(a) ==> Get(r, f) == Get(s, f)
  {
    match a
    case SetSelectedTemplate(v) => s.(selectedTemplate := v)
    case SetDefaultCallDuration(v) => s.(defaultCallDuration := v)
    case SetVibrationEnabled(v) => s.(vibrationEnabled := v)
    case SetTutorialCompleted(v) => s.(tutorialCompleted := v)
    case SetSoundEnabled(v) => s.(soundEnabled := v)
    case SetSelectedRingtone(v) => s.(selectedRingtone := v)
    case ResetSettings => InitialSettings
  }

  /** The record after a sequence of actions, applied first to last. */
  function ReduceAll(s: AppSettings, actions: seq<SettingsAction>): AppSettings
    decreases |actions|
  {
    if |actions| == 0 then s else ReduceAll(Reduce(s, actions[0]), actions[1..])
  }

  /** Two records agreeing on every field are equal. */
  lemma FieldsDetermineSettings(s: AppSettings, t: AppSettings)
    requires forall f :: Get(s, f) == Get(t, f)
    ensures s == t
  {
    assert Get(s, SelectedTemplate) == Get(t, SelectedTemplate);
    assert Get(s, DefaultCallDuration) == Get(t, DefaultCallDuration);
    assert Get(s, VibrationEnabled) == Get(t, VibrationEnabled);
    assert Get(s, TutorialCompleted) == Get(t, TutorialCompleted);
    assert Get(s, SoundEnabled) == Get(t, SoundEnabled);
    assert Get(s, SelectedRingtone) == Get(t, SelectedRingtone);
  }

  /** The factory defaults. */
  lemma InitialValues()
    ensures Get(InitialSettings, SelectedTemplate) == Text("ios")
    ensures Get(InitialSettings, DefaultCallDuration) == Number(30)
    ensures Get(InitialSettings, VibrationEnabled) == Flag(true)
    ensures Get(InitialSettings, TutorialCompleted) == Flag(false)
    ensures Get(InitialSettings, SoundEnabled) == Flag(true)
    ensures Get(InitialSettings, SelectedRingtone) == Text("default")
  {
  }

  /** Applying a setter twice with the same payload is applying it once. */
  lemma SetterIdempotent(s: AppSettings, a: SettingsAction)
    requires !a.ResetSettings?
    ensures Reduce(Reduce(s, a), a) == Reduce(s, a)
  {
    var once := Reduce(s, a);
    var twice := Reduce(once, a);
    forall f ensures Get(twice, f) == Get(once, f) {
    }
    FieldsDetermineSettings(twice, once);
  }

  /** Setters of different fields commute. */
  lemma SettersOfDistinctFieldsCommute(s: AppSettings, a: SettingsAction, b: SettingsAction)
    requires !a.ResetSettings? && !b.ResetSettings?
    requires Target(a) != Target(b)
    ensures Reduce(Reduce(s, a), b) == Reduce(Reduce(s, b), a)
  {
    var ab := Reduce(Reduce(s, a), b);
    var ba := Reduce(Reduce(s, b), a);
    forall f ensures Get(ab, f) == Get(ba, f) {
    }
    FieldsDetermineSettings(ab, ba);
  }

  /** Applying `a` then `b` is applying `a` followed by applying `b`. */
  lemma {:induction false} ReduceAllAppend(s: AppSettings, a: seq<SettingsAction>, b: seq<SettingsAction>)
    ensures ReduceAll(s, a + b) == ReduceAll(ReduceAll(s, a), b)
    decreases |a|
  {
    if |a| == 0 {
      assert a + b == b;
    } else {
      assert (a + b)[0] == a[0];
      assert (a + b)[1..] == a[1..] + b;
      ReduceAllAppend(Reduce(s, a[0]), a[1..], b);
    }
  }

  /** Whatever happened before, a final reset yields the factory defaults. */
  lemma ResetAfterAnything(s: AppSettings, actions: seq<SettingsAction>)
    ensures ReduceAll(s, actions + [ResetSettings]) == InitialSettings
  {
    ReduceAllAppend(s, actions, [ResetSettings]);
  }

  /** A non-positive call duration is stored as given. */
  lemma DurationIsUnchecked(s: AppSettings, seconds: int)
    requires seconds <= 0
    ensures Reduce(s, SetDefaultCallDuration(seconds)).defaultCallDuration == seconds
  {
  }
}
