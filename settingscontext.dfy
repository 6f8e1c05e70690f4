/** The shop settings (project/src/context/SettingsContext.tsx): one record
    of twelve text fields, updated one field at a time. */
module SettingsContext {
  import opened Types

  datatype AppSettings = AppSettings(
    barberiaName: string,
    address: string,
    phone: string,
    schedule: string,
    nequiNumber: string,
    daviplataNumber: string,
    otherPaymentMethods: string,
    bookingConfirmationMessage: string,
    appointmentReminderMessage: string,
    logoUrl: string,
    primaryColor: string,
    welcomeText: string)

  /** The field names a caller may pass to `updateSetting`. */
  datatype SettingKey =
    | BarberiaName | Address | Phone | Schedule | NequiNumber | DaviplataNumber
    | OtherPaymentMethods | BookingConfirmationMessage | AppointmentReminderMessage
    | LogoUrl | PrimaryColor | WelcomeText

  const DefaultSettings: AppSettings := AppSettings(
    "Good Cut",
    "Cl. 138 #52a-2 a 52a-100, Bogotá, Colombia",
    "+57 300 123 4567",
    "Lun - Sáb: 9:00am - 7:00pm",
    "",
    "",
    "Efectivo, Tarjeta",
    "Su cita ha sido confirmada. ¡Le esperamos!",
    "Recordatorio: Su cita es mañana.",
    "",
    "#D4AF37",
    "Bienvenido a Good Cut")

  /** Reading field `k`. */
  function Get(s: AppSettings, k: SettingKey): string
  {
    match k
    case BarberiaName => s.barberiaName
    case Address => s.address
    case Phone => s.phone
    case Schedule => s.schedule
    case NequiNumber => s.nequiNumber
    case DaviplataNumber => s.daviplataNumber
    case OtherPaymentMethods => s.otherPaymentMethods
    case BookingConfirmationMessage => s.bookingConfirmationMessage
    case AppointmentReminderMessage => s.appointmentReminderMessage
    case LogoUrl => s.logoUrl
    case PrimaryColor => s.primaryColor
    case WelcomeText => s.welcomeText
  }

  /** The record with field `k` set to `v`. */
  function Set(s: AppSettings, k: SettingKey, v: string): (r: AppSettings)
    ensures Get(r, k) == v
    ensures forall other :: other != k ==> Get(r, other) == Get(s, other)
  {
    match k
    case BarberiaName => s.(barberiaName := v)
    case Address => s.(address := v)
    case Phone => s.(phone := v)
    case Schedule => s.(schedule := v)
    case NequiNumber => s.(nequiNumber := v)
    case DaviplataNumber => s.(daviplataNumber := v)
    case OtherPaymentMethods => s.(otherPaymentMethods := v)
    case BookingConfirmationMessage => s.(bookingConfirmationMessage := v)
    case AppointmentReminderMessage => s.(appointmentReminderMessage := v)
    case LogoUrl => s.(logoUrl := v)
    case PrimaryColor => s.(primaryColor := v)
    case WelcomeText => s.(welcomeText := v)
  }

  /** The defaults leave exactly the two payment numbers and the logo empty;
      the shop is named "Good Cut" and the accent colour is gold. */
  lemma DefaultsAsDeclared()
    ensures forall k :: Get(DefaultSettings, k) == "" <==> k == NequiNumber || k == DaviplataNumber || k == LogoUrl
    ensures Get(DefaultSettings, BarberiaName) == "Good Cut"
    ensures Get(DefaultSettings, PrimaryColor) == "#D4AF37"
    ensures Get(DefaultSettings, WelcomeText) == "Bienvenido a " + Get(DefaultSettings, BarberiaName)
  {
  }

  /** Two records that agree on every key are the same record. */
  lemma {:induction false} Extensionality(a: AppSettings, b: AppSettings)
    requires forall k :: Get(a, k) == Get(b, k)
    ensures a == b
  {
    assert Get(a, BarberiaName) == Get(b, BarberiaName);
    assert Get(a, Address) == Get(b, Address);
    assert Get(a, Phone) == Get(b, Phone);
    assert Get(a, Schedule) == Get(b, Schedule);
    assert Get(a, NequiNumber) == Get(b, NequiNumber);
    assert Get(a, DaviplataNumber) == Get(b, DaviplataNumber);
    assert Get(a, OtherPaymentMethods) == Get(b, OtherPaymentMethods);
    assert Get(a, BookingConfirmationMessage) == Get(b, BookingConfirmationMessage);
    assert Get(a, AppointmentReminderMessage) == Get(b, AppointmentReminderMessage);
    assert Get(a, LogoUrl) == Get(b, LogoUrl);
    assert Get(a, PrimaryColor) == Get(b, PrimaryColor);
    assert Get(a, WelcomeText) == Get(b, WelcomeText);
  }

  /** Writing the same value twice is writing it once. */
  lemma SetTwice(s: AppSettings, k: SettingKey, v: string)
    ensures Set(Set(s, k, v), k, v) == Set(s, k, v)
  {
    Extensionality(Set(Set(s, k, v), k, v), Set(s, k, v));
  }

  /** Updates to different keys commute. */
  lemma SetCommutes(s: AppSettings, k1: SettingKey, v1: string, k2: SettingKey, v2: string)
    requires k1 != k2
    ensures Set(Set(s, k1, v1), k2, v2) == Set(Set(s, k2, v2), k1, v1)
  {
    Extensionality(Set(Set(s, k1, v1), k2, v2), Set(Set(s, k2, v2), k1, v1));
  }

  /** Writing back the value a key already has changes nothing. */
  lemma SetUnchanged(s: AppSettings, k: SettingKey)
    ensures Set(s, k, Get(s, k)) == s
  {
    Extensionality(Set(s, k, Get(s, k)), s);
  }

  class SettingsStore {
    var settings: AppSettings

    /** Initial load: a missing or unparsable saved record falls back to the
        defaults. */
    constructor (saved: Saved<AppSettings>)
      ensures settings == LoadOr(saved, DefaultSettings)
    {
      settings := LoadOr(saved, DefaultSettings);
    }

    method UpdateSetting(k: SettingKey, v: string)
      modifies this
      ensures settings == Set(old(settings), k, v)
      ensures Get(settings, k) == v
      ensures forall other :: other != k ==> Get(settings, other) == Get(old(settings), other)
    {
      settings := Set(settings, k, v);
    }
  }
}
