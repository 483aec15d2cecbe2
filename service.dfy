/**
 * The appointment service: the read-only queries over a snapshot of the
 * store (listing, locating, the availability check) and the store itself,
 * whose create, delete and update operations change it in place.
 */
module AppointmentService {
  import opened AppointmentTypes
  import opened SlotRules

  // ---------------------------------------------------------------------
  // Listing

  /** What a listing filters on. */
  datatype Key = PatientEmail(email: string) | DoctorName(name: string)

  predicate Matches(a: Appointment, k: Key) {
    match k
    case PatientEmail(e) => a.patient.email == e
    case DoctorName(n) => a.doctor.name == n
  }

  /** `Array.prototype.filter` with the key test: the matching appointments, in store order. */
  function Select(s: seq<Appointment>, k: Key): (r: seq<Appointment>)
    ensures |r| <= |s|
    ensures forall i :: 0 <= i < |r| ==> Matches(r[i], k) && r[i] in s
    ensures forall i :: 0 <= i < |s| && Matches(s[i], k) ==> s[i] in r
  {
    if s == [] then []
    else if Matches(s[0], k) then [s[0]] + Select(s[1..], k)
    else Select(s[1..], k)
  }

  /** A listing query: either field may be missing. */
  datatype Query = Query(patientEmail: Option<string>, doctorName: Option<string>)

  /** JavaScript truthiness of an optional string: present and not empty. */
  predicate Truthy(o: Option<string>) {
    o.Some? && o.value != []
  }

  /**
   * The listing operation: by patient email when one is given, otherwise by
   * doctor name when one is given, otherwise nothing.
   */
  function Get(store: seq<Appointment>, q: Query): (r: seq<Appointment>)
    ensures !Truthy(q.patientEmail) && !Truthy(q.doctorName) ==> r == []
    ensures Truthy(q.patientEmail) ==>
      forall a :: a in r <==> a in store && a.patient.email == q.patientEmail.value
    ensures !Truthy(q.patientEmail) && Truthy(q.doctorName) ==>
      forall a :: a in r <==> a in store && a.doctor.name == q.doctorName.value
  {
    if Truthy(q.patientEmail) then Select(store, PatientEmail(q.patientEmail.value))
    else if Truthy(q.doctorName) then Select(store, DoctorName(q.doctorName.value))
    else []
  }

  /** Listing distributes over concatenation: it keeps the store's order. */
  lemma {:induction false} SelectAppend(s: seq<Appointment>, t: seq<Appointment>, k: Key)
    ensures Select(s + t, k) == Select(s, k) + Select(t, k)
  {
    if s == [] {
      assert s + t == t;
    } else {
      assert (s + t)[1..] == s[1..] + t;
      SelectAppend(s[1..], t, k);
    }
  }

  /** Listing keeps every matching appointment as often as the store holds it, and no other. */
  lemma {:induction false} SelectCount(s: seq<Appointment>, k: Key, a: Appointment)
    ensures multiset(Select(s, k))[a] == if Matches(a, k) then multiset(s)[a] else 0
  {
    if s != [] {
      assert s == [s[0]] + s[1..];
      SelectCount(s[1..], k, a);
    }
  }

  /** Filtering a listing again by the same key changes nothing. */
  lemma {:induction false} SelectIdempotent(s: seq<Appointment>, k: Key)
    ensures Select(Select(s, k), k) == Select(s, k)
  {
    if s != [] {
      SelectIdempotent(s[1..], k);
    }
  }

  // ---------------------------------------------------------------------
  // Locating an appointment

  /** The exact match used by delete and update: same patient email, identical slot text. */
  predicate IsMatch(a: Appointment, patientEmail: string, timeSlot: string) {
    a.patient.email == patientEmail && a.timeSlot == timeSlot
  }

  /** `Array.prototype.findIndex`: the first exact match, or -1 when there is none. */
  function FindIndex(s: seq<Appointment>, patientEmail: string, timeSlot: string): (r: int)
    ensures -1 <= r < |s|
    ensures r == -1 <==> forall j :: 0 <= j < |s| ==> !IsMatch(s[j], patientEmail, timeSlot)
    ensures r >= 0 ==> IsMatch(s[r], patientEmail, timeSlot)
    ensures r >= 0 ==> forall j :: 0 <= j < r ==> !IsMatch(s[j], patientEmail, timeSlot)
  {
    if s == [] then -1
    else if IsMatch(s[0], patientEmail, timeSlot) then 0
    else
      var k := FindIndex(s[1..], patientEmail, timeSlot);
      if k == -1 then -1 else k + 1
  }

  // ---------------------------------------------------------------------
  // Availability

  /** Whether a stored appointment blocks a booking for this doctor or patient starting at `startText`. */
  predicate Clash(e: Appointment, doctor: Doctor, patient: Patient, startText: string) {
    (e.doctor.name == doctor.name || e.patient.email == patient.email) && startText <= e.timeSlot
  }

  /** `Array.prototype.some` with the clash test. */
  function AnyClash(s: seq<Appointment>, doctor: Doctor, patient: Patient, startText: string): (r: bool)
    ensures r <==> exists i :: 0 <= i < |s| && Clash(s[i], doctor, patient, startText)
  {
    if s == [] then false
    else Clash(s[0], doctor, patient, startText) || AnyClash(s[1..], doctor, patient, startText)
  }

  /**
   * The availability check: a duration error first, then a working-hours
   * error, and otherwise whether no stored appointment of the same doctor or
   * the same patient has a slot beginning with the requested start text.
   */
  function CheckAvailability(doctor: Doctor, patient: Patient, timeSlot: string, store: seq<Appointment>): (r: Result<bool>)
    requires SlotShape(timeSlot)
    ensures r == Err(BadRequest(OneHourMessage)) <==> !IsOneHour(ParseSlot(timeSlot))
    ensures r == Err(BadRequest(WorkingHoursMessage)) <==>
      IsOneHour(ParseSlot(timeSlot)) && !InWorkingHours(ParseSlot(timeSlot))
    ensures r.Ok? <==> IsBookable(timeSlot)
    ensures r.Ok? ==>
      (r.value <==> forall i :: 0 <= i < |store| ==> !Clash(store[i], doctor, patient, StartText(timeSlot)))
  {
    var slot := ParseSlot(timeSlot);
    if !IsOneHour(slot) then Err(BadRequest(OneHourMessage))
    else if !InWorkingHours(slot) then Err(BadRequest(WorkingHoursMessage))
    else Ok(!AnyClash(store, doctor, patient, StartText(timeSlot)))
  }

  /**
   * When every stored slot is well shaped, the text test amounts to a clock
   * comparison: a bookable slot is free exactly when no appointment of the
   * same doctor or patient starts at the same clock.
   */
  lemma AvailabilityBySameStart(doctor: Doctor, patient: Patient, timeSlot: string, store: seq<Appointment>)
    requires IsBookable(timeSlot)
    requires forall i :: 0 <= i < |store| ==> SlotShape(store[i].timeSlot)
    ensures CheckAvailability(doctor, patient, timeSlot, store) == Ok(
      forall i :: 0 <= i < |store| ==>
        !((store[i].doctor.name == doctor.name || store[i].patient.email == patient.email) &&
          ParseSlot(store[i].timeSlot).start == ParseSlot(timeSlot).start))
  {
    forall i | 0 <= i < |store|
      ensures Clash(store[i], doctor, patient, StartText(timeSlot)) <==>
        (store[i].doctor.name == doctor.name || store[i].patient.email == patient.email) &&
        ParseSlot(store[i].timeSlot).start == ParseSlot(timeSlot).start
    {
      StartPrefixIsSameStart(timeSlot, store[i].timeSlot);
    }
  }

  // ---------------------------------------------------------------------
  // Store invariants

  predicate SharesParty(a: Appointment, b: Appointment) {
    a.doctor.name == b.doctor.name || a.patient.email == b.patient.email
  }

  /**
   * No two stored appointments of the same doctor, or of the same patient,
   * start at the same start text (for every stored slot that is well shaped).
   */
  predicate NoDoubleBooking(s: seq<Appointment>) {
    forall i, j :: 0 <= i < |s| && 0 <= j < |s| && i != j && SlotShape(s[i].timeSlot) && SharesParty(s[i], s[j]) ==>
      !(StartText(s[i].timeSlot) <= s[j].timeSlot)
  }

  /** Every stored slot is one that the availability check accepts. */
  predicate AllBookable(s: seq<Appointment>) {
    forall i :: 0 <= i < |s| ==> IsBookable(s[i].timeSlot)
  }

  /** Appending an appointment the check found free keeps the store free of double bookings. */
  lemma AppendPreservesNoDoubleBooking(s: seq<Appointment>, a: Appointment)
    requires NoDoubleBooking(s)
    requires SlotShape(a.timeSlot)
    requires CheckAvailability(a.doctor, a.patient, a.timeSlot, s) == Ok(true)
    ensures NoDoubleBooking(s + [a])
  {
    var t := s + [a];
    forall i, j | 0 <= i < |t| && 0 <= j < |t| && i != j && SlotShape(t[i].timeSlot) && SharesParty(t[i], t[j])
      ensures !(StartText(t[i].timeSlot) <= t[j].timeSlot)
    {
      if i == |s| {
        assert !Clash(s[j], a.doctor, a.patient, StartText(a.timeSlot));
      } else if j == |s| {
        assert !Clash(s[i], a.doctor, a.patient, StartText(a.timeSlot));
        StartPrefixIsSameStart(t[i].timeSlot, a.timeSlot);
      }
    }
  }

  /** Giving stored appointment k a slot the check found free keeps the store free of double bookings. */
  lemma ReslotPreservesNoDoubleBooking(s: seq<Appointment>, k: nat, newTimeSlot: string)
    requires NoDoubleBooking(s)
    requires k < |s| && SlotShape(newTimeSlot)
    requires CheckAvailability(s[k].doctor, s[k].patient, newTimeSlot, s) == Ok(true)
    ensures NoDoubleBooking(s[k := s[k].(timeSlot := newTimeSlot)])
  {
    var t := s[k := s[k].(timeSlot := newTimeSlot)];
    forall i, j | 0 <= i < |t| && 0 <= j < |t| && i != j && SlotShape(t[i].timeSlot) && SharesParty(t[i], t[j])
      ensures !(StartText(t[i].timeSlot) <= t[j].timeSlot)
    {
      if i == k {
        assert !Clash(s[j], s[k].doctor, s[k].patient, StartText(newTimeSlot));
      } else if j == k {
        assert !Clash(s[i], s[k].doctor, s[k].patient, StartText(newTimeSlot));
        StartPrefixIsSameStart(t[i].timeSlot, newTimeSlot);
      }
    }
  }

  /** Removing one appointment keeps the store free of double bookings. */
  lemma RemovePreservesNoDoubleBooking(s: seq<Appointment>, k: nat)
    requires NoDoubleBooking(s)
    requires k < |s|
    ensures NoDoubleBooking(s[..k] + s[k + 1..])
  {
    var t := s[..k] + s[k + 1..];
    forall i, j | 0 <= i < |t| && 0 <= j < |t| && i != j && SlotShape(t[i].timeSlot) && SharesParty(t[i], t[j])
      ensures !(StartText(t[i].timeSlot) <= t[j].timeSlot)
    {
      var i', j' := if i < k then i else i + 1, if j < k then j else j + 1;
      assert t[i] == s[i'] && t[j] == s[j'];
    }
  }

  lemma AppendPreservesAllBookable(s: seq<Appointment>, a: Appointment)
    requires AllBookable(s) && IsBookable(a.timeSlot)
    ensures AllBookable(s + [a])
  {
    assert forall i :: 0 <= i < |s| ==> (s + [a])[i] == s[i];
  }

  lemma RemovePreservesAllBookable(s: seq<Appointment>, k: nat)
    requires AllBookable(s) && k < |s|
    ensures AllBookable(s[..k] + s[k + 1..])
  {
    var t := s[..k] + s[k + 1..];
    forall i | 0 <= i < |t| ensures IsBookable(t[i].timeSlot) {
      assert t[i] == if i < k then s[i] else s[i + 1];
    }
  }

  // ---------------------------------------------------------------------
  // Consequences for the operations

  /**
   * A record that the check let in was not in the store before, so listing
   * that patient's appointments after appending it shows it exactly once,
   * after the ones already there.
   */
  lemma CreatedListedOnce(s: seq<Appointment>, a: Appointment)
    requires SlotShape(a.timeSlot) && a.patient.email != []
    requires CheckAvailability(a.doctor, a.patient, a.timeSlot, s) == Ok(true)
    ensures Get(s + [a], Query(Some(a.patient.email), None)) ==
            Get(s, Query(Some(a.patient.email), None)) + [a]
    ensures multiset(Get(s + [a], Query(Some(a.patient.email), None)))[a] == 1
  {
    var k := PatientEmail(a.patient.email);
    SelectAppend(s, [a], k);
    assert Select([a], k) == [a];
    SelectCount(s + [a], k, a);
    assert multiset(s + [a]) == multiset(s) + multiset{a};
  }

  /**
   * Delete undoes a create: the record the check let in is the first exact
   * match for its patient and slot, so deleting that pair removes it again
   * and gives back the store as it was.
   */
  lemma CreateThenDeleteRestores(s: seq<Appointment>, a: Appointment)
    requires SlotShape(a.timeSlot)
    requires CheckAvailability(a.doctor, a.patient, a.timeSlot, s) == Ok(true)
    ensures FindIndex(s + [a], a.patient.email, a.timeSlot) == |s|
    ensures (s + [a])[..|s|] + (s + [a])[|s| + 1..] == s
  {
    NoEarlierExactMatch(s, a);
    FindIndexOfAppended(s, a, a.patient.email, a.timeSlot);
    RemoveAppended(s, a);
  }

  lemma RemoveAppended(s: seq<Appointment>, a: Appointment)
    ensures (s + [a])[..|s|] + (s + [a])[|s| + 1..] == s
  {
    assert (s + [a])[..|s|] == s;
    assert (s + [a])[|s| + 1..] == [];
  }

  lemma NoEarlierExactMatch(s: seq<Appointment>, a: Appointment)
    requires SlotShape(a.timeSlot)
    requires CheckAvailability(a.doctor, a.patient, a.timeSlot, s) == Ok(true)
    ensures forall j :: 0 <= j < |s| ==> !IsMatch(s[j], a.patient.email, a.timeSlot)
  {
    forall j | 0 <= j < |s| ensures !IsMatch(s[j], a.patient.email, a.timeSlot) {
      assert !Clash(s[j], a.doctor, a.patient, StartText(a.timeSlot));
    }
  }

  /** Appending a match behind a store that has none makes it the first match. */
  lemma {:induction false} FindIndexOfAppended(s: seq<Appointment>, a: Appointment, patientEmail: string, timeSlot: string)
    requires IsMatch(a, patientEmail, timeSlot)
    requires forall j :: 0 <= j < |s| ==> !IsMatch(s[j], patientEmail, timeSlot)
    ensures FindIndex(s + [a], patientEmail, timeSlot) == |s|
  {
    if s != [] {
      assert (s + [a])[1..] == s[1..] + [a];
      FindIndexOfAppended(s[1..], a, patientEmail, timeSlot);
    }
  }

  /** Removing position k takes exactly one copy of that record out of the store. */
  lemma RemoveTakesOneCopy(s: seq<Appointment>, k: nat)
    requires k < |s|
    ensures multiset(s[..k] + s[k + 1..]) + multiset{s[k]} == multiset(s)
  {
    assert s == s[..k] + [s[k]] + s[k + 1..];
  }

  /**
   * The check runs while the record being moved is still stored: moving it to
   * a slot with its own start text, or to one another appointment of the same
   * patient or doctor already starts with, is reported as unavailable.
   */
  lemma MoveOntoHeldStartUnavailable(s: seq<Appointment>, k: nat, j: nat, newTimeSlot: string)
    requires k < |s| && j < |s| && IsBookable(newTimeSlot)
    requires SharesParty(s[j], s[k]) && StartText(newTimeSlot) <= s[j].timeSlot
    ensures CheckAvailability(s[k].doctor, s[k].patient, newTimeSlot, s) == Ok(false)
  {
    assert Clash(s[j], s[k].doctor, s[k].patient, StartText(newTimeSlot));
  }

  // ---------------------------------------------------------------------
  // The store

  /** The ordered, shared collection of appointments that the three mutating operations change in place. */
  class AppointmentStore {
    var appointments: seq<Appointment>

    constructor (initial: seq<Appointment>)
      ensures appointments == initial
    {
      appointments := initial;
    }

    /**
     * Books an appointment: propagates a slot error, reports a conflict when
     * the slot is taken, and otherwise appends the record and returns it.
     */
    method Create(data: Appointment) returns (r: Result<Appointment>)
      requires SlotShape(data.timeSlot)
      modifies this
      ensures var check := CheckAvailability(data.doctor, data.patient, data.timeSlot, old(appointments));
        match check
        case Err(e) => r == Err(e) && appointments == old(appointments)
        case Ok(false) => r == Err(Conflict(NotAvailableMessage)) && appointments == old(appointments)
        case Ok(true) => r == Ok(data) && appointments == old(appointments) + [data]
      ensures NoDoubleBooking(old(appointments)) ==> NoDoubleBooking(appointments)
      ensures AllBookable(old(appointments)) ==> AllBookable(appointments)
    {
      var check := CheckAvailability(data.doctor, data.patient, data.timeSlot, appointments);
      if check.Err? {
        return Err(check.error);
      }
      if !check.value {
        return Err(Conflict(NotAvailableMessage));
      }
      var newAppointment := Appointment(data.doctor, data.patient, data.timeSlot);
      if NoDoubleBooking(appointments) {
        AppendPreservesNoDoubleBooking(appointments, newAppointment);
      }
      if AllBookable(appointments) {
        AppendPreservesAllBookable(appointments, newAppointment);
      }
      appointments := appointments + [newAppointment];
      return Ok(newAppointment);
    }

    /** Removes the first appointment of that patient with exactly that slot text and returns it. */
    method Delete(patientEmail: string, timeSlot: string) returns (r: Result<Appointment>)
      modifies this
      ensures var i := FindIndex(old(appointments), patientEmail, timeSlot);
        if i == -1 then
          r == Err(BadRequest(DoesNotExistMessage)) && appointments == old(appointments)
        else
          r == Ok(old(appointments)[i]) && appointments == old(appointments)[..i] + old(appointments)[i + 1..] &&
          multiset(appointments) + multiset{old(appointments)[i]} == multiset(old(appointments))
      ensures NoDoubleBooking(old(appointments)) ==> NoDoubleBooking(appointments)
      ensures AllBookable(old(appointments)) ==> AllBookable(appointments)
    {
      var i := FindIndex(appointments, patientEmail, timeSlot);
      if i == -1 {
        return Err(BadRequest(DoesNotExistMessage));
      }
      var deleted := appointments[i];
      RemoveTakesOneCopy(appointments, i);
      if NoDoubleBooking(appointments) {
        RemovePreservesNoDoubleBooking(appointments, i);
      }
      if AllBookable(appointments) {
        RemovePreservesAllBookable(appointments, i);
      }
      appointments := appointments[..i] + appointments[i + 1..];
      return Ok(deleted);
    }

    /**
     * Moves the first appointment of that patient with exactly the original
     * slot text to the new slot, after checking the new slot for that
     * appointment's doctor and patient against the store as it stands.
     */
    method Update(patientEmail: string, originalTimeSlot: string, newTimeSlot: string) returns (r: Result<Appointment>)
      requires SlotShape(newTimeSlot)
      modifies this
      ensures var i := FindIndex(old(appointments), patientEmail, originalTimeSlot);
        if i == -1 then
          r == Err(BadRequest(DoesNotExistMessage)) && appointments == old(appointments)
        else
          var found := old(appointments)[i];
          match CheckAvailability(found.doctor, found.patient, newTimeSlot, old(appointments))
          case Err(e) => r == Err(e) && appointments == old(appointments)
          case Ok(false) => r == Err(Conflict(NotAvailableMessage)) && appointments == old(appointments)
          case Ok(true) =>
            r == Ok(Appointment(found.doctor, found.patient, newTimeSlot)) &&
            |appointments| == |old(appointments)| &&
            appointments[i] == Appointment(found.doctor, found.patient, newTimeSlot) &&
            forall j :: 0 <= j < |appointments| && j != i ==> appointments[j] == old(appointments)[j]
      ensures NoDoubleBooking(old(appointments)) ==> NoDoubleBooking(appointments)
      ensures AllBookable(old(appointments)) ==> AllBookable(appointments)
    {
      var i := FindIndex(appointments, patientEmail, originalTimeSlot);
      if i == -1 {
        return Err(BadRequest(DoesNotExistMessage));
      }
      var found := appointments[i];
      var check := CheckAvailability(found.doctor, found.patient, newTimeSlot, appointments);
      if check.Err? {
        return Err(check.error);
      }
      if !check.value {
        return Err(Conflict(NotAvailableMessage));
      }
      if NoDoubleBooking(appointments) {
        ReslotPreservesNoDoubleBooking(appointments, i, newTimeSlot);
      }
      appointments := appointments[i := found.(timeSlot := newTimeSlot)];
      return Ok(appointments[i]);
    }
  }
}
