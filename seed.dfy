/**
 * The store's initial contents and the scenarios the service's test suite
 * runs against them, stated and proved on the model.
 */
module SeedScenarios {
  import opened AppointmentTypes
  import opened SlotRules
  import opened AppointmentService

  const MichaelBrown := Patient("Michael", "Brown", "michael.brown@example.com")
  const ClaraWilliams := Doctor("Dr. Clara Williams")
  const AliceSmith := Doctor("Dr. Alice Smith")
  const TestDoctor := Doctor("Dr. Test")
  const TestPatient := Patient("Test", "Patient", "test.patient@example.com")

  /** The two appointments the store starts with. */
  const Seed: seq<Appointment> := [
    Appointment(ClaraWilliams, MichaelBrown, "10:00 - 11:00"),
    Appointment(AliceSmith, MichaelBrown, "14:00 - 15:00")
  ]

  /** The initial store is free of double bookings and holds only bookable slots. */
  lemma SeedIsWellBooked()
    ensures NoDoubleBooking(Seed) && AllBookable(Seed)
  {
    assert !(StartText(Seed[0].timeSlot) <= Seed[1].timeSlot);
    assert !(StartText(Seed[1].timeSlot) <= Seed[0].timeSlot);
  }

  /** The availability checks of the test suite: two duration errors, one working-hours error, a taken and a free slot. */
  lemma SeedAvailabilityChecks()
    ensures CheckAvailability(TestDoctor, TestPatient, "10:00 - 10:30", Seed) == Err(BadRequest(OneHourMessage))
    ensures CheckAvailability(TestDoctor, TestPatient, "10:00 - 11:60", Seed) == Err(BadRequest(OneHourMessage))
    ensures CheckAvailability(TestDoctor, TestPatient, "08:00 - 09:00", Seed) == Err(BadRequest(WorkingHoursMessage))
    ensures CheckAvailability(ClaraWilliams, MichaelBrown, "10:00 - 11:00", Seed) == Ok(false)
    ensures CheckAvailability(TestDoctor, TestPatient, "11:00 - 12:00", Seed) == Ok(true)
  {
    assert Clash(Seed[0], ClaraWilliams, MichaelBrown, StartText("10:00 - 11:00"));
    assert !Clash(Seed[0], TestDoctor, TestPatient, StartText("11:00 - 12:00"));
    assert !Clash(Seed[1], TestDoctor, TestPatient, StartText("11:00 - 12:00"));
  }

  /** Booking a free slot in an empty store returns the record and stores it. */
  method CreateInEmptyStore() returns (r: Result<Appointment>, stored: seq<Appointment>)
    ensures r == Ok(Appointment(TestDoctor, TestPatient, "11:00 - 12:00"))
    ensures stored == [Appointment(TestDoctor, TestPatient, "11:00 - 12:00")]
  {
    var store := new AppointmentStore([]);
    r := store.Create(Appointment(TestDoctor, TestPatient, "11:00 - 12:00"));
    stored := store.appointments;
  }

  /** The same patient cannot be booked with another doctor, nor the same doctor with another patient, at a held hour. */
  method CreateConflicts() returns (samePatient: Result<Appointment>, sameDoctor: Result<Appointment>)
    ensures samePatient == Err(Conflict(NotAvailableMessage))
    ensures sameDoctor == Err(Conflict(NotAvailableMessage))
  {
    var held := Appointment(ClaraWilliams, MichaelBrown, "10:00 - 11:00");
    var store := new AppointmentStore([held]);
    assert Clash(held, Doctor("Dr. Hailey Store"), MichaelBrown, StartText("10:00 - 11:00"));
    samePatient := store.Create(Appointment(Doctor("Dr. Hailey Store"), MichaelBrown, "10:00 - 11:00"));
    var jake := Patient("Jake", "Lawrence", "jlaw@example.com");
    assert Clash(held, ClaraWilliams, jake, StartText("10:00 - 11:00"));
    sameDoctor := store.Create(Appointment(ClaraWilliams, jake, "10:00 - 11:00"));
  }

  /** Deleting one of Michael Brown's two appointments leaves only the other. */
  method DeleteFromSeed() returns (r: Result<Appointment>, remaining: seq<Appointment>)
    ensures r == Ok(Seed[0])
    ensures remaining == [Seed[1]]
  {
    var store := new AppointmentStore(Seed);
    r := store.Delete("michael.brown@example.com", "10:00 - 11:00");
    remaining := store.appointments;
  }

  /** Moving the afternoon appointment to noon keeps its doctor and patient; the old slot is gone for that patient. */
  method UpdateInSeed() returns (r: Result<Appointment>, after: seq<Appointment>)
    ensures r == Ok(Appointment(AliceSmith, MichaelBrown, "12:00 - 13:00"))
    ensures after == [Seed[0], Appointment(AliceSmith, MichaelBrown, "12:00 - 13:00")]
    ensures FindIndex(after, "michael.brown@example.com", "14:00 - 15:00") == -1
  {
    var store := new AppointmentStore(Seed);
    assert !IsMatch(Seed[0], "michael.brown@example.com", "14:00 - 15:00");
    assert FindIndex(Seed, "michael.brown@example.com", "14:00 - 15:00") == 1;
    assert StartText("12:00 - 13:00")[1] != Seed[0].timeSlot[1];
    assert StartText("12:00 - 13:00")[1] != Seed[1].timeSlot[1];
    assert CheckAvailability(AliceSmith, MichaelBrown, "12:00 - 13:00", Seed) == Ok(true);
    r := store.Update("michael.brown@example.com", "14:00 - 15:00", "12:00 - 13:00");
    after := store.appointments;
    assert |after| == 2 && after[0] == Seed[0];
    assert !IsMatch(after[1], "michael.brown@example.com", "14:00 - 15:00");
  }

  /** Updating an appointment that does not exist fails with a bad request and leaves the store as it was. */
  method UpdateUnknown() returns (r: Result<Appointment>, after: seq<Appointment>)
    ensures r == Err(BadRequest(DoesNotExistMessage))
    ensures after == Seed
  {
    var store := new AppointmentStore(Seed);
    assert FindIndex(Seed, "non.existent@example.com", "14:00 - 15:00") == -1;
    r := store.Update("non.existent@example.com", "14:00 - 15:00", "12:00 - 13:00");
    after := store.appointments;
  }

  /** Moving the morning appointment onto the patient's afternoon slot is a conflict and changes nothing. */
  method UpdateOntoTakenSlot() returns (r: Result<Appointment>, after: seq<Appointment>)
    ensures r == Err(Conflict(NotAvailableMessage))
    ensures after == Seed
  {
    var store := new AppointmentStore(Seed);
    assert FindIndex(Seed, "michael.brown@example.com", "10:00 - 11:00") == 0;
    assert Clash(Seed[1], ClaraWilliams, MichaelBrown, StartText("14:00 - 15:00"));
    assert CheckAvailability(ClaraWilliams, MichaelBrown, "14:00 - 15:00", Seed) == Ok(false);
    r := store.Update("michael.brown@example.com", "10:00 - 11:00", "14:00 - 15:00");
    after := store.appointments;
  }

  /** Moving an appointment to 07:00 fails the working-hours rule and changes nothing. */
  method UpdateOutsideHours() returns (r: Result<Appointment>, after: seq<Appointment>)
    ensures r == Err(BadRequest(WorkingHoursMessage))
    ensures after == Seed
  {
    var store := new AppointmentStore(Seed);
    assert !IsMatch(Seed[0], "michael.brown@example.com", "14:00 - 15:00");
    assert FindIndex(Seed, "michael.brown@example.com", "14:00 - 15:00") == 1;
    assert CheckAvailability(AliceSmith, MichaelBrown, "07:00 - 08:00", Seed) == Err(BadRequest(WorkingHoursMessage));
    r := store.Update("michael.brown@example.com", "14:00 - 15:00", "07:00 - 08:00");
    after := store.appointments;
  }
}
