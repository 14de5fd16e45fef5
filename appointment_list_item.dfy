/**
 * What an appointment's list entry shows: the client's name (from the client
 * store, or the legacy `name` field), the colour of its status, and the day
 * of the month padded to two characters.
 */
module AppointmentListItem {
  import opened Common
  import opened Display
  import Clients
  import Appointments
  import Theme

  const UnknownClient := "Cliente Desconhecido"

  /**
   * `appointment.clientId ? getClientById(appointment.clientId)?.fullName : appointment.name`:
   * a non-empty client id is resolved through the store only; otherwise the legacy name is used.
   */
  function ResolvedName(appt: Appointments.Appointment, store: Clients.ClientStore): (r: Option<string>)
    reads store
    ensures appt.clientId.Some? && appt.clientId.value != "" ==>
              && (r.None? <==> forall j :: 0 <= j < |store.clients| ==> store.clients[j].id != appt.clientId.value)
              && (r.Some? ==> exists i :: 0 <= i < |store.clients| && store.clients[i].id == appt.clientId.value
                                          && store.clients[i].fullName == r.value
                                          && forall j :: 0 <= j < i ==> store.clients[j].id != appt.clientId.value)
    ensures !(appt.clientId.Some? && appt.clientId.value != "") ==> r == appt.name
  {
    if appt.clientId.Some? && appt.clientId.value != "" then
      match store.GetClientById(appt.clientId.value)
      case Some(c) => Some(c.fullName)
      case None => None
    else appt.name
  }

  /** `clientName || 'Cliente Desconhecido'`: an absent or empty name shows the fallback. */
  function DisplayedName(name: Option<string>): (r: string)
    ensures r != ""
    ensures name.Some? && name.value != "" ==> r == name.value
    ensures name.None? || name.value == "" ==> r == UnknownClient
  {
    if name.Some? && name.value != "" then name.value else UnknownClient
  }

  /** With a client id, the legacy name is never shown, whatever it holds. */
  lemma LegacyNameIgnoredWithClientId(appt: Appointments.Appointment, store: Clients.ClientStore, legacy: Option<string>)
    requires appt.clientId.Some? && appt.clientId.value != ""
    ensures ResolvedName(appt.(name := legacy), store) == ResolvedName(appt, store)
  {
  }

  /** The `getStatusColor` switch on a status string. */
  function StatusColor(status: string): (r: Color)
    ensures status == "Confirmado" <==> r == Success
    ensures status == "Cancelado" <==> r == Danger
    ensures status == "Concluído" <==> r == Hex("#64748B")
    ensures r in {Success, Danger, Hex("#64748B"), Tint}
  {
    if status == "Confirmado" then Success
    else if status == "Cancelado" then Danger
    else if status == "Concluído" then Hex("#64748B")
    else Tint
  }

  /** Each status of the enumeration gets its own colour; "Marcado" falls to the default, the theme tint. */
  lemma StatusColorOfEnumeration()
    ensures StatusColor(Appointments.AppointmentStatus.Confirmado.Label()) == Success
    ensures StatusColor(Appointments.AppointmentStatus.Cancelado.Label()) == Danger
    ensures StatusColor(Appointments.AppointmentStatus.Concluido.Label()) == Hex("#64748B")
    ensures StatusColor(Appointments.AppointmentStatus.Marcado.Label()) == Tint
  {
  }

  /**
   * In either palette, 'Confirmado' and 'Cancelado' both render as `undefined`,
   * so their strips look alike; 'Concluído' and 'Marcado' get real colours.
   */
  lemma ConfirmedAndCancelledRenderAlike(theme: string)
    requires theme == Theme.Light || theme == Theme.Dark
    ensures Render(StatusColor("Confirmado"), theme) == Undefined
    ensures Render(StatusColor("Cancelado"), theme) == Undefined
    ensures Render(StatusColor("Concluído"), theme) == Shown("#64748B")
    ensures Render(StatusColor("Marcado"), theme).Shown?
  {
  }

  /** `Number.prototype.toString()` for a non-negative integer. */
  function DecimalString(n: nat): (r: string)
    ensures |r| >= 1
    ensures forall i :: 0 <= i < |r| ==> '0' <= r[i] <= '9'
    ensures n < 10 ==> |r| == 1
    ensures 10 <= n < 100 ==> |r| == 2
  {
    if n < 10 then [('0' as int + n) as char]
    else DecimalString(n / 10) + [('0' as int + n % 10) as char]
  }

  /** The number a string of decimal digits denotes (leading zeros allowed). */
  function DecimalValue(s: string): nat
    requires forall i :: 0 <= i < |s| ==> '0' <= s[i] <= '9'
  {
    if s == [] then 0 else 10 * DecimalValue(s[..|s| - 1]) + (s[|s| - 1] as int - '0' as int)
  }

  /** `toString()` is read back as the same number. */
  lemma {:induction false} DecimalStringValue(n: nat)
    ensures DecimalValue(DecimalString(n)) == n
  {
    if n >= 10 {
      var r := DecimalString(n);
      assert r[..|r| - 1] == DecimalString(n / 10);
      DecimalStringValue(n / 10);
    }
  }

  /** `padStart(2, '0')`: zeros in front up to length two; strings of length two or more unchanged. */
  function PadStart2(s: string): (r: string)
    ensures |r| == if |s| < 2 then 2 else |s|
    ensures r[|r| - |s|..] == s
    ensures forall i :: 0 <= i < |r| - |s| ==> r[i] == '0'
  {
    if |s| == 0 then "00" else if |s| == 1 then "0" + s else s
  }

  /** The day shown: `getDate().toString().padStart(2, '0')`. */
  function DayLabel(day: nat): (r: string)
    ensures |r| >= 2
    ensures forall i :: 0 <= i < |r| ==> '0' <= r[i] <= '9'
    ensures day < 100 ==> |r| == 2
  {
    PadStart2(DecimalString(day))
  }

  /** A day of the month (1 to 31) is shown as exactly two digits that read back as that day. */
  lemma DayLabelTwoDigits(day: nat)
    requires 1 <= day <= 31
    ensures |DayLabel(day)| == 2
    ensures forall i :: 0 <= i < 2 ==> '0' <= DayLabel(day)[i] <= '9'
    ensures DecimalValue(DayLabel(day)) == day
  {
    var s := DecimalString(day);
    DecimalStringValue(day);
    if day < 10 {
      var r := "0" + s;
      assert r[..1] == "0";
      assert DecimalValue(r[..1]) == 0 by {
        assert ("0")[..0] == [];
      }
    }
  }
}
