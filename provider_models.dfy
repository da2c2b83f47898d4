/**
 * The provider app's records and the behaviour they carry: the display string of a service's
 * duration, whether a price is currently valid, and the total of a booking. Dates are day
 * numbers, `today` is a parameter, and decimal amounts are exact reals.
 */
module ProviderModels {
  import opened Wrappers
  import opened Text

  /** A provider profile, with its owner's user id. */
  datatype Provider = Provider(
    id: int,
    user: int,
    name: string,
    description: Option<string>,
    category: string,
    subcategory: Option<string>,
    address: string,
    isApproved: bool,
    profileViews: int,
    createdAt: int)

  /** A service and the provider offering it. */
  datatype Service = Service(id: int, provider: int, name: string, hours: int, minutes: int)

  /** A price of a service; `validFrom` and `validUntil` are optional day numbers. */
  datatype Pricing = Pricing(
    service: int,
    pricingType: string,
    price: real,
    minSessions: int,
    maxSessions: Option<int>,
    isActive: bool,
    validFrom: Option<int>,
    validUntil: Option<int>)

  /** A booking; `provider` is `service.provider`, the join the booking views filter on. */
  datatype Booking = Booking(
    user: int,
    service: int,
    provider: int,
    pricing: Option<Pricing>,
    date: int,
    hours: int,
    minutes: int,
    participants: int,
    total: Option<real>,
    status: string,
    paymentStatus: string)

  /** `'s' if hours > 1 else ''`. */
  function HourWord(hours: int): string {
    if hours > 1 then " hours" else " hour"
  }

  /** `Service.duration_display`. */
  function DurationDisplay(hours: int, minutes: int): string {
    if hours == 0 then IntToString(minutes) + " minutes"
    else if minutes == 0 then IntToString(hours) + HourWord(hours)
    else IntToString(hours) + HourWord(hours) + " " + IntToString(minutes) + " minutes"
  }

  /** Reads `"<m> minutes"` after the hour part of a display string. */
  function ParseMinutes(s: string): Option<nat> {
    match ParseNat(s)
    case Some((m, rest)) => if rest == " minutes" then Some(m) else None
    case None => None
  }

  /** Reads the unit part that follows the leading number `n` of a display string. */
  function ParseUnits(n: nat, rest: string): Option<(nat, nat)> {
    if rest == " minutes" then Some((0, n))
    else if rest == " hour" || rest == " hours" then Some((n, 0))
    else if |rest| > 6 && rest[..6] == " hour " then
      (match ParseMinutes(rest[6..]) case Some(m) => Some((n, m)) case None => None)
    else if |rest| > 7 && rest[..7] == " hours " then
      (match ParseMinutes(rest[7..]) case Some(m) => Some((n, m)) case None => None)
    else None
  }

  /** Reads a display string back into hours and minutes. */
  function ParseDuration(s: string): Option<(nat, nat)> {
    match ParseNat(s)
    case None => None
    case Some((n, rest)) => ParseUnits(n, rest)
  }

  /** The three shapes of the display string. */
  lemma DurationDisplayShapes(hours: int, minutes: int)
    ensures hours == 0 ==> DurationDisplay(hours, minutes) == IntToString(minutes) + " minutes"
    ensures hours != 0 && minutes == 0 ==>
              DurationDisplay(hours, minutes) == IntToString(hours) + (if hours > 1 then " hours" else " hour")
    ensures hours != 0 && minutes != 0 ==>
              DurationDisplay(hours, minutes)
              == IntToString(hours) + (if hours > 1 then " hours " else " hour ") + IntToString(minutes) + " minutes"
  {
    if hours != 0 && minutes != 0 {
      var h := IntToString(hours);
      assert h + HourWord(hours) + " " == h + (if hours > 1 then " hours " else " hour ");
    }
  }

  /** Zero hours always reads in minutes, even for zero or one minute; one hour is singular. */
  lemma DurationDisplayEdges()
    ensures DurationDisplay(0, 0) == "0 minutes"
    ensures DurationDisplay(0, 1) == "1 minutes"
    ensures DurationDisplay(1, 0) == "1 hour"
    ensures DurationDisplay(2, 0) == "2 hours"
  {
    assert NatToString(0) == "0" && NatToString(1) == "1" && NatToString(2) == "2";
  }

  lemma ParsesBackMinutesOnly(minutes: nat)
    ensures ParseDuration(DurationDisplay(0, minutes)) == Some((0, minutes))
  {
    ParseNatOfNatToString(minutes, " minutes");
  }

  lemma ParsesBackHoursOnly(hours: nat)
    requires hours != 0
    ensures ParseDuration(DurationDisplay(hours, 0)) == Some((hours, 0))
  {
    ParseNatOfNatToString(hours, HourWord(hours));
  }

  lemma UnitsWithMinutes(n: nat, word: string, tail: string, m: nat)
    requires word == " hour " || word == " hours "
    requires ParseMinutes(tail) == Some(m) && tail != ""
    ensures ParseUnits(n, word + tail) == Some((n, m))
  {
    var rest := word + tail;
    assert rest[1] == 'h';
    assert rest != " minutes" by {
      assert " minutes"[1] == 'm';
    }
    if word == " hour " {
      assert rest[..6] == word && rest[6..] == tail;
    } else {
      assert rest[..6] != " hour " by {
        assert rest[5] == 's';
      }
      assert rest[..7] == word && rest[7..] == tail;
    }
  }

  lemma Regroup(a: string, b: string, c: string, d: string, e: string)
    ensures a + b + c + d + e == a + ((b + c) + (d + e))
  {
  }

  lemma ParseDurationOf(s: string, n: nat, rest: string)
    requires ParseNat(s) == Some((n, rest))
    ensures ParseDuration(s) == ParseUnits(n, rest)
  {
  }

  lemma ParsesBackBoth(hours: nat, minutes: nat)
    requires hours != 0 && minutes != 0
    ensures ParseDuration(DurationDisplay(hours, minutes)) == Some((hours, minutes))
  {
    var tail := NatToString(minutes) + " minutes";
    var word := HourWord(hours) + " ";
    assert ParseNat(DurationDisplay(hours, minutes)) == Some((hours, word + tail)) by {
      Regroup(NatToString(hours), HourWord(hours), " ", NatToString(minutes), " minutes");
      assert (word + tail)[0] == ' ';
      ParseNatOfNatToString(hours, word + tail);
    }
    assert ParseMinutes(tail) == Some(minutes) by {
      ParseNatOfNatToString(minutes, " minutes");
    }
    UnitsWithMinutes(hours, word, tail, minutes);
    ParseDurationOf(DurationDisplay(hours, minutes), hours, word + tail);
  }

  /** For durations that are not negative, the display string determines the duration. */
  lemma DurationDisplayParsesBack(hours: nat, minutes: nat)
    ensures ParseDuration(DurationDisplay(hours, minutes)) == Some((hours, minutes))
  {
    if hours == 0 {
      ParsesBackMinutesOnly(minutes);
    } else if minutes == 0 {
      ParsesBackHoursOnly(hours);
    } else {
      ParsesBackBoth(hours, minutes);
    }
  }

  /** `Pricing.is_valid`. A date is always truthy, so only a missing bound is skipped. */
  function IsValid(p: Pricing, today: int): bool {
    if p.validFrom.Some? && today < p.validFrom.value then false
    else if p.validUntil.Some? && today > p.validUntil.value then false
    else p.isActive
  }

  /** A price is valid exactly when it is active and today lies in its window, both ends included. */
  lemma IsValidWindow(p: Pricing, today: int)
    ensures IsValid(p, today) <==>
              p.isActive
              && (p.validFrom.None? || p.validFrom.value <= today)
              && (p.validUntil.None? || today <= p.validUntil.value)
    ensures p.isActive && p.validFrom == Some(today) ==> (IsValid(p, today) <==> p.validUntil.None? || today <= p.validUntil.value)
    ensures p.isActive && p.validUntil == Some(today) ==> (IsValid(p, today) <==> p.validFrom.None? || p.validFrom.value <= today)
  {
  }

  /** The outcome of `calculate_total` as the code is written. */
  datatype TotalOutcome = Amount(value: real) | TypeError

  /**
   * `Booking.calculate_total` as written. For `per_hour`, `duration_minutes / 60` is a float in
   * Python 3, whatever the minutes, and multiplying a Decimal price by a float raises TypeError.
   */
  function CalculateTotalAsWritten(b: Booking): TotalOutcome {
    match b.pricing
    case None => Amount(0.0)
    case Some(p) =>
      if p.pricingType == "per_session" then Amount(p.price)
      else if p.pricingType == "per_hour" then TypeError
      else if p.pricingType == "per_participant" then Amount(p.price * b.participants as real)
      else if p.pricingType == "fixed" then Amount(p.price)
      else if p.pricingType == "package" then Amount(p.price)
      else Amount(0.0)
  }

  /** `Booking.calculate_total` with the hourly rate applied to the exact duration in hours. */
  function CalculateTotal(b: Booking): real {
    match b.pricing
    case None => 0.0
    case Some(p) =>
      if p.pricingType == "per_session" then p.price
      else if p.pricingType == "per_hour" then p.price * (b.hours as real + b.minutes as real / 60.0)
      else if p.pricingType == "per_participant" then p.price * b.participants as real
      else if p.pricingType == "fixed" then p.price
      else if p.pricingType == "package" then p.price
      else 0.0
  }

  /** As written, every hourly price fails, whatever the duration. */
  lemma PerHourAlwaysFails(b: Booking)
    requires b.pricing.Some? && b.pricing.value.pricingType == "per_hour"
    ensures CalculateTotalAsWritten(b) == TypeError
  {
  }

  /** A concrete booking the hourly rule rejects: one whole hour at 50. */
  lemma PerHourCounterexample()
    ensures var p := Pricing(1, "per_hour", 50.0, 1, None, true, None, None);
            var b := Booking(1, 1, 1, Some(p), 0, 1, 0, 1, None, "pending", "pending");
            CalculateTotalAsWritten(b) == TypeError && CalculateTotal(b) == 50.0
  {
  }

  /** Outside `per_hour` the corrected total is the written one. */
  lemma CorrectedAgreesElsewhere(b: Booking)
    requires b.pricing.None? || b.pricing.value.pricingType != "per_hour"
    ensures CalculateTotalAsWritten(b) == Amount(CalculateTotal(b))
  {
  }

  /**
   * The total by pricing type: nothing without a price, the price for a session, a fixed price
   * or a package, price times participants, price times the duration in hours for an hourly
   * rate (for any number of minutes, with a whole hour and a half hour written out), and zero
   * for an unknown type.
   */
  lemma CalculateTotalCases(b: Booking, p: Pricing)
    ensures b.pricing.None? ==> CalculateTotal(b) == 0.0
    ensures b.pricing == Some(p) && p.pricingType in {"per_session", "fixed", "package"} ==> CalculateTotal(b) == p.price
    ensures b.pricing == Some(p) && p.pricingType == "per_participant" ==> CalculateTotal(b) == p.price * b.participants as real
    ensures b.pricing == Some(p) && p.pricingType == "per_hour" ==>
              CalculateTotal(b) * 60.0 == p.price * (60 * b.hours + b.minutes) as real
    ensures b.pricing == Some(p) && p.pricingType == "per_hour" && b.minutes == 0 ==> CalculateTotal(b) == p.price * b.hours as real
    ensures b.pricing == Some(p) && p.pricingType == "per_hour" && b.minutes == 30 ==>
              CalculateTotal(b) == p.price * b.hours as real + p.price / 2.0
    ensures b.pricing == Some(p) && p.pricingType !in {"per_session", "per_hour", "per_participant", "fixed", "package"} ==>
              CalculateTotal(b) == 0.0
  {
  }

  /** With a price, participants and a duration that are not negative, the total is not negative. */
  lemma CalculateTotalNonNegative(b: Booking)
    requires b.pricing.Some? ==> b.pricing.value.price >= 0.0
    requires b.participants >= 0 && b.hours >= 0 && b.minutes >= 0
    ensures CalculateTotal(b) >= 0.0
  {
  }

  /** A booking as created: pending, unpaid, with the field defaults of the model. */
  function NewBooking(user: int, service: int, provider: int, pricing: Option<Pricing>, date: int): (b: Booking)
    ensures b.status == "pending" && b.paymentStatus == "pending"
    ensures b.hours == 1 && b.minutes == 0 && b.participants == 1 && b.total.None?
    ensures b.user == user && b.service == service && b.provider == provider && b.pricing == pricing && b.date == date
  {
    Booking(user, service, provider, pricing, date, 1, 0, 1, None, "pending", "pending")
  }
}
