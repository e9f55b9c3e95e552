/** The settings page: the RTO Shield and notification switches and the API
    key, as local state that follows the server's answers. */
module SettingsPage {
  import opened Common
  import opened Records

  /** The three RTO Shield switches. */
  datatype RtoFlags = RtoFlags(addressValidation: bool, codOtp: bool, prepaidNudge: bool)

  datatype RtoKey = AddressValidation | CodOtp | PrepaidNudge
  datatype NotificationKey = EmailKey | OrderUpdatesKey | PaymentAlertsKey | ProductAlertsKey

  /** What `/api/settings` returned and the page shows. */
  datatype Settings = Settings(rtoShield: RtoFlags, notifications: NotificationPrefs, apiKey: Option<string>)

  function RtoFlag(f: RtoFlags, key: RtoKey): bool {
    match key
    case AddressValidation => f.addressValidation
    case CodOtp => f.codOtp
    case PrepaidNudge => f.prepaidNudge
  }

  function NotificationFlag(p: NotificationPrefs, key: NotificationKey): bool {
    match key
    case EmailKey => p.email
    case OrderUpdatesKey => p.orderUpdates
    case PaymentAlertsKey => p.paymentAlerts
    case ProductAlertsKey => p.productAlerts
  }

  /** `{ ...rtoShield, [key]: !rtoShield[key] }`: exactly the named switch
      flips. */
  function FlipRto(f: RtoFlags, key: RtoKey): (g: RtoFlags)
    ensures forall k :: RtoFlag(g, k) == if k == key then !RtoFlag(f, k) else RtoFlag(f, k)
  {
    match key
    case AddressValidation => f.(addressValidation := !f.addressValidation)
    case CodOtp => f.(codOtp := !f.codOtp)
    case PrepaidNudge => f.(prepaidNudge := !f.prepaidNudge)
  }

  /** `{ ...notifications, [key]: !notifications[key] }`. */
  function FlipNotification(p: NotificationPrefs, key: NotificationKey): (q: NotificationPrefs)
    ensures forall k :: NotificationFlag(q, k) == if k == key then !NotificationFlag(p, k) else NotificationFlag(p, k)
  {
    match key
    case EmailKey => p.(email := !p.email)
    case OrderUpdatesKey => p.(orderUpdates := !p.orderUpdates)
    case PaymentAlertsKey => p.(paymentAlerts := !p.paymentAlerts)
    case ProductAlertsKey => p.(productAlerts := !p.productAlerts)
  }

  /** The switches are read through their keys and nothing else: flags that
      agree on every key are equal. */
  lemma RtoFlagsByKey(f: RtoFlags, g: RtoFlags)
    requires forall k :: RtoFlag(f, k) == RtoFlag(g, k)
    ensures f == g
  {
    assert RtoFlag(f, AddressValidation) == RtoFlag(g, AddressValidation);
    assert RtoFlag(f, CodOtp) == RtoFlag(g, CodOtp);
    assert RtoFlag(f, PrepaidNudge) == RtoFlag(g, PrepaidNudge);
  }

  lemma NotificationsByKey(p: NotificationPrefs, q: NotificationPrefs)
    requires forall k :: NotificationFlag(p, k) == NotificationFlag(q, k)
    ensures p == q
  {
    assert NotificationFlag(p, EmailKey) == NotificationFlag(q, EmailKey);
    assert NotificationFlag(p, OrderUpdatesKey) == NotificationFlag(q, OrderUpdatesKey);
    assert NotificationFlag(p, PaymentAlertsKey) == NotificationFlag(q, PaymentAlertsKey);
    assert NotificationFlag(p, ProductAlertsKey) == NotificationFlag(q, ProductAlertsKey);
  }

  /** Flipping the same switch twice restores the flags. */
  lemma FlipRtoTwice(f: RtoFlags, key: RtoKey)
    ensures FlipRto(FlipRto(f, key), key) == f
  {
    RtoFlagsByKey(FlipRto(FlipRto(f, key), key), f);
  }

  lemma FlipNotificationTwice(p: NotificationPrefs, key: NotificationKey)
    ensures FlipNotification(FlipNotification(p, key), key) == p
  {
    NotificationsByKey(FlipNotification(FlipNotification(p, key), key), p);
  }

  /** The settings the page holds; `None` until the first load succeeds. */
  class SettingsView {
    var settings: Option<Settings>

    constructor ()
      ensures settings.None?
    {
      settings := None;
    }

    /** `fetchSettings`, given the answer (`None` when the request was not
        ok): an ok answer is adopted, a failed one leaves the view as it was
        and the toggles still send nothing until a load succeeds. */
    method FetchSettings(answer: Option<Settings>)
      modifies this
      ensures answer.Some? ==> settings == answer
      ensures answer.None? ==> settings == old(settings)
    {
      if answer.Some? {
        settings := answer;
      }
    }

    /** `handleRtoShieldToggle`: with nothing loaded, nothing is sent and
        nothing changes; otherwise the flipped flags are sent, and adopted
        only when the server answers ok. */
    method HandleRtoShieldToggle(key: RtoKey, ok: bool) returns (sent: Option<RtoFlags>)
      modifies this
      ensures old(settings).None? ==> sent.None? && settings == old(settings)
      ensures old(settings).Some? ==> sent == Some(FlipRto(old(settings).value.rtoShield, key))
      ensures old(settings).Some? && ok ==> settings == Some(old(settings).value.(rtoShield := sent.value))
      ensures !ok ==> settings == old(settings)
    {
      if settings.None? {
        return None;
      }
      var s := settings.value;
      var flipped := FlipRto(s.rtoShield, key);
      if ok {
        settings := Some(s.(rtoShield := flipped));
      }
      return Some(flipped);
    }

    /** `handleNotificationToggle`, the same for the notification switches. */
    method HandleNotificationToggle(key: NotificationKey, ok: bool) returns (sent: Option<NotificationPrefs>)
      modifies this
      ensures old(settings).None? ==> sent.None? && settings == old(settings)
      ensures old(settings).Some? ==> sent == Some(FlipNotification(old(settings).value.notifications, key))
      ensures old(settings).Some? && ok ==> settings == Some(old(settings).value.(notifications := sent.value))
      ensures !ok ==> settings == old(settings)
    {
      if settings.None? {
        return None;
      }
      var s := settings.value;
      var flipped := FlipNotification(s.notifications, key);
      if ok {
        settings := Some(s.(notifications := flipped));
      }
      return Some(flipped);
    }

    /** `generateApiKey`: on success the new key replaces the shown one and
        the switches stay; the button exists only once settings are loaded. */
    method GenerateApiKey(ok: bool, newKey: string)
      requires settings.Some?
      modifies this
      ensures ok ==> settings == Some(old(settings).value.(apiKey := Some(newKey)))
      ensures !ok ==> settings == old(settings)
    {
      if ok {
        settings := Some(settings.value.(apiKey := Some(newKey)));
      }
    }
  }
}
