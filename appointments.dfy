/**
 * The appointment store (`AppointmentsProvider`): the schedule held in memory,
 * changed only after the REST API confirms a write. Adds and updates re-sort
 * the schedule by date with a stable sort, as `Array.prototype.sort` is.
 */
module Appointments {
  import opened Common
  import Seqs

  /** The appointment kinds (`TIPOS_AGENDAMENTO`). */
  datatype AppointmentType = ExameDeVista | Retirada | AjusteDeArmacao | Consulta

  /** The appointment statuses (`STATUS_AGENDAMENTO`); there is no "No-show". */
  datatype AppointmentStatus = Marcado | Confirmado | Concluido | Cancelado {
    /** The status as the app spells it. */
    function Label(): string {
      match this
      case Marcado => "Marcado"
      case Confirmado => "Confirmado"
      case Concluido => "Concluído"
      case Cancelado => "Cancelado"
    }
  }

  /**
   * An appointment as the store holds it (`Agendamento`). `date` is the
   * instant in milliseconds; `name` and `telephone` are the legacy fields of
   * records made before appointments referred to a client by id.
   */
  datatype Appointment = Appointment(
    id: string,
    clientId: Option<string>,
    tipo: AppointmentType,
    date: int,
    observation: Option<string>,
    status: AppointmentStatus,
    madePurchase: Option<bool>,
    name: Option<string>,
    telephone: Option<string>)

  /** Ascending by date: the order `(a, b) => a.date.getTime() - b.date.getTime()` asks for. */
  ghost predicate SortedByDate(s: seq<Appointment>) {
    forall i, j :: 0 <= i < j < |s| ==> s[i].date <= s[j].date
  }

  /** Selects the appointments on one instant; used to state stability. */
  function OnDate(d: int): Appointment -> bool {
    (a: Appointment) => a.date == d
  }

  /** Inserts `x` before the first element not earlier than it. */
  function InsertByDate(x: Appointment, s: seq<Appointment>): (r: seq<Appointment>)
    ensures multiset(r) == multiset(s) + multiset{x}
    ensures |r| == |s| + 1
  {
    if s == [] || x.date <= s[0].date then [x] + s
    else
      assert s == [s[0]] + s[1..];
      [s[0]] + InsertByDate(x, s[1..])
  }

  /** The stable sort by date the store applies after an add or an update (an insertion sort). */
  function SortByDate(s: seq<Appointment>): (r: seq<Appointment>)
    ensures multiset(r) == multiset(s)
    ensures |r| == |s|
  {
    if s == [] then []
    else
      assert s == [s[0]] + s[1..];
      InsertByDate(s[0], SortByDate(s[1..]))
  }

  /** Inserting into a sorted schedule keeps it sorted. */
  lemma {:induction false} InsertByDateSorted(x: Appointment, s: seq<Appointment>)
    requires SortedByDate(s)
    ensures SortedByDate(InsertByDate(x, s))
  {
    if s != [] && x.date > s[0].date {
      InsertByDateSorted(x, s[1..]);
      var r := InsertByDate(x, s[1..]);
      assert forall k :: 0 <= k < |r| ==> s[0].date <= r[k].date by {
        forall k | 0 <= k < |r| ensures s[0].date <= r[k].date {
          assert r[k] in multiset(s[1..]) + multiset{x};
          assert r[k] == x || r[k] in s[1..];
        }
      }
    }
  }

  /** The result of the sort is ascending by date. */
  lemma {:induction false} SortByDateSorted(s: seq<Appointment>)
    ensures SortedByDate(SortByDate(s))
  {
    if s != [] {
      SortByDateSorted(s[1..]);
      InsertByDateSorted(s[0], SortByDate(s[1..]));
    }
  }

  /** Insertion puts `x` in front of every element with the same date. */
  lemma {:induction false} InsertByDateStable(x: Appointment, s: seq<Appointment>, d: int)
    ensures Seqs.Filter(InsertByDate(x, s), OnDate(d)) ==
            (if x.date == d then [x] else []) + Seqs.Filter(s, OnDate(d))
  {
    if s == [] || x.date <= s[0].date {
      Seqs.FilterAppend([x], s, OnDate(d));
    } else {
      InsertByDateStable(x, s[1..], d);
      Seqs.FilterAppend([s[0]], InsertByDate(x, s[1..]), OnDate(d));
      assert s == [s[0]] + s[1..];
      Seqs.FilterAppend([s[0]], s[1..], OnDate(d));
    }
  }

  /** Stability: the appointments sharing any one date keep their relative order. */
  lemma {:induction false} SortByDateStable(s: seq<Appointment>, d: int)
    ensures Seqs.Filter(SortByDate(s), OnDate(d)) == Seqs.Filter(s, OnDate(d))
  {
    if s != [] {
      var p := OnDate(d);
      var rest := SortByDate(s[1..]);
      var head := if s[0].date == d then [s[0]] else [];
      calc {
        Seqs.Filter(SortByDate(s), p);
        Seqs.Filter(InsertByDate(s[0], rest), p);
        { InsertByDateStable(s[0], rest, d); }
        head + Seqs.Filter(rest, p);
        { SortByDateStable(s[1..], d); }
        head + Seqs.Filter(s[1..], p);
        Seqs.Filter(s, p);
      }
    }
  }

  /** The schedule after replacing every appointment with id `id` by `x`. */
  function ReplaceById(s: seq<Appointment>, id: string, x: Appointment): (r: seq<Appointment>)
    ensures |r| == |s|
    ensures forall i :: 0 <= i < |s| ==> r[i] == if s[i].id == id then x else s[i]
  {
    seq(|s|, i requires 0 <= i < |s| => if s[i].id == id then x else s[i])
  }

  class AppointmentStore {
    var appointments: seq<Appointment>
    var isLoading: bool

    /** A fresh provider: no appointments yet, loading. */
    constructor ()
      ensures appointments == [] && isLoading
    {
      appointments := [];
      isLoading := true;
    }

    /** The mount-time load keeps the server's order (no sort); a failure keeps the schedule; loading ends either way. */
    method FetchAppointments(response: Response<seq<Appointment>>)
      modifies this
      ensures appointments == (if response.Ok? then response.body else old(appointments))
      ensures !isLoading
    {
      if response.Ok? {
        appointments := response.body;
      }
      isLoading := false;
    }

    /** A confirmed add appends the server's record and re-sorts: a sorted, stable permutation of the old schedule plus the new one. */
    method AddAppointment(response: Response<Appointment>)
      modifies this
      ensures response.Err? ==> appointments == old(appointments)
      ensures response.Ok? ==> appointments == SortByDate(old(appointments) + [response.body])
      ensures response.Ok? ==> multiset(appointments) == multiset(old(appointments)) + multiset{response.body}
      ensures response.Ok? ==> SortedByDate(appointments)
      ensures response.Ok? ==> forall d :: Seqs.Filter(appointments, OnDate(d)) == Seqs.Filter(old(appointments) + [response.body], OnDate(d))
      ensures isLoading == old(isLoading)
    {
      if response.Ok? {
        var added := appointments + [response.body];
        appointments := SortByDate(added);
        SortByDateSorted(added);
        forall d ensures Seqs.Filter(appointments, OnDate(d)) == Seqs.Filter(added, OnDate(d)) {
          SortByDateStable(added, d);
        }
      }
    }

    /** The first appointment whose id is `id`, or absent. */
    function GetAppointmentById(id: string): (r: Option<Appointment>)
      reads this
      ensures r.None? <==> forall j :: 0 <= j < |appointments| ==> appointments[j].id != id
      ensures r.Some? ==> exists i :: 0 <= i < |appointments| && appointments[i] == r.value && r.value.id == id
                                      && forall j :: 0 <= j < i ==> appointments[j].id != id
    {
      Seqs.Find(appointments, (a: Appointment) => a.id == id)
    }

    /**
     * A confirmed update stores the server's record as it is (no rule on
     * `status` or `madePurchase`) in place of every appointment with that id,
     * then re-sorts; the length is unchanged.
     */
    method UpdateAppointment(id: string, response: Response<Appointment>)
      modifies this
      ensures response.Err? ==> appointments == old(appointments)
      ensures response.Ok? ==> appointments == SortByDate(ReplaceById(old(appointments), id, response.body))
      ensures response.Ok? ==> multiset(appointments) == multiset(ReplaceById(old(appointments), id, response.body))
      ensures response.Ok? ==> SortedByDate(appointments)
      ensures |appointments| == |old(appointments)|
      ensures isLoading == old(isLoading)
    {
      if response.Ok? {
        var replaced := ReplaceById(appointments, id, response.body);
        appointments := SortByDate(replaced);
        SortByDateSorted(replaced);
      }
    }

    /** A confirmed delete drops exactly the appointments with that id and keeps the rest in order (no re-sort). */
    method DeleteAppointment(id: string, response: Response<()>)
      modifies this
      ensures appointments == (if response.Ok? then Seqs.Filter(old(appointments), (a: Appointment) => a.id != id) else old(appointments))
      ensures response.Ok? ==> GetAppointmentById(id).None?
      ensures isLoading == old(isLoading)
    {
      if response.Ok? {
        appointments := Seqs.Filter(appointments, (a: Appointment) => a.id != id);
      }
    }
  }
}
