/**
 * The `validate` hooks of the provider app's serializers, which reject or complete the
 * attributes of a request before anything is saved, and the total set when a booking is created.
 */
module ProviderSerializers {
  import opened Wrappers
  import opened Accounts
  import opened ProviderModels

  /** The duration attributes of a service request; `None` is a field the request leaves out. */
  datatype DurationAttrs = DurationAttrs(durationHours: Option<int>, durationMinutes: Option<int>)

  const NO_DURATION := "Service must have a duration greater than 0."
  const TOO_MANY_MINUTES := "Duration minutes must be less than 60."

  /** `ServiceSerializer.validate` and `ServiceCreateSerializer.validate`, which are identical. */
  function ValidateDuration(attrs: DurationAttrs): Result<DurationAttrs, string> {
    var hours := attrs.durationHours.GetOr(0);
    var minutes := attrs.durationMinutes.GetOr(0);
    if hours == 0 && minutes == 0 then Failure(NO_DURATION)
    else if minutes >= 60 then Failure(TOO_MANY_MINUTES)
    else Success(attrs)
  }

  /**
   * A duration is accepted, unchanged, exactly when it is not zero hours and zero minutes (an
   * absent field counting as zero) and has fewer than 60 minutes.
   */
  lemma ValidateDurationAccepts(attrs: DurationAttrs)
    ensures var hours := attrs.durationHours.GetOr(0);
            var minutes := attrs.durationMinutes.GetOr(0);
            (ValidateDuration(attrs).Success? <==> !(hours == 0 && minutes == 0) && minutes < 60)
            && (ValidateDuration(attrs).Success? ==> ValidateDuration(attrs).value == attrs)
  {
  }

  /** The rejection messages: the empty duration is reported before the minute bound. */
  lemma ValidateDurationMessages(attrs: DurationAttrs)
    ensures attrs.durationHours.GetOr(0) == 0 && attrs.durationMinutes.GetOr(0) == 0 ==>
              ValidateDuration(attrs) == Failure(NO_DURATION)
    ensures ValidateDuration(DurationAttrs(None, None)) == Failure(NO_DURATION)
    ensures ValidateDuration(DurationAttrs(Some(0), Some(60))) == Failure(TOO_MANY_MINUTES)
    ensures ValidateDuration(DurationAttrs(Some(1), None)) == Success(DurationAttrs(Some(1), None))
  {
  }

  /** Only zero is excluded: a negative duration is accepted, and its display string then shows it. */
  lemma NegativeDurationAccepted()
    ensures ValidateDuration(DurationAttrs(Some(0), Some(-5))).Success?
    ensures ValidateDuration(DurationAttrs(Some(-1), Some(0))).Success?
  {
  }

  /** An accepted duration with fields that are not negative reads back from its display string. */
  lemma AcceptedDurationDisplays(hours: nat, minutes: nat)
    requires ValidateDuration(DurationAttrs(Some(hours), Some(minutes))).Success?
    ensures minutes < 60 && hours + minutes > 0
    ensures ParseDuration(DurationDisplay(hours, minutes)) == Some((hours, minutes))
  {
    DurationDisplayParsesBack(hours, minutes);
  }

  /** The attributes of a pricing request. */
  datatype PricingAttrs = PricingAttrs(price: Option<real>, minSessions: Option<int>, maxSessions: Option<int>)

  const NO_PRICE := "Price must be greater than 0."
  const SESSIONS_CROSSED := "Minimum sessions cannot be greater than maximum sessions."

  /** `PricingCreateSerializer.validate`. A maximum of 0 is falsy and switches the check off. */
  function ValidatePricing(attrs: PricingAttrs): Result<PricingAttrs, string> {
    var price := attrs.price.GetOr(0.0);
    var minSessions := attrs.minSessions.GetOr(1);
    if price <= 0.0 then Failure(NO_PRICE)
    else if attrs.maxSessions.Some? && attrs.maxSessions.value != 0 && minSessions > attrs.maxSessions.value then
      Failure(SESSIONS_CROSSED)
    else Success(attrs)
  }

  /**
   * A pricing is accepted, unchanged, exactly when its price (0 when absent) is positive and,
   * for a non-zero maximum, the minimum (1 when absent) does not exceed it.
   */
  lemma ValidatePricingAccepts(attrs: PricingAttrs)
    ensures ValidatePricing(attrs).Success? <==>
              attrs.price.GetOr(0.0) > 0.0
              && (attrs.maxSessions.None? || attrs.maxSessions.value == 0
                  || attrs.minSessions.GetOr(1) <= attrs.maxSessions.value)
    ensures ValidatePricing(attrs).Success? ==> ValidatePricing(attrs).value == attrs
    ensures attrs.price.GetOr(0.0) <= 0.0 ==> ValidatePricing(attrs) == Failure(NO_PRICE)
  {
  }

  /** The session bound is only checked against a truthy maximum; the default minimum is 1. */
  lemma PricingSessionEdges(price: real)
    requires price > 0.0
    ensures ValidatePricing(PricingAttrs(Some(price), Some(5), Some(0))).Success?
    ensures ValidatePricing(PricingAttrs(Some(price), None, Some(1))).Success?
    ensures ValidatePricing(PricingAttrs(Some(price), Some(2), Some(1))) == Failure(SESSIONS_CROSSED)
    ensures ValidatePricing(PricingAttrs(None, Some(1), None)) == Failure(NO_PRICE)
  {
  }

  /** `attrs[key]` is set to `default` when it is missing or empty. */
  function Filled(attrs: map<string, string>, key: string, default: string): map<string, string> {
    if key !in attrs || attrs[key] == "" then attrs[key := default] else attrs
  }

  /** The four completions of `ProviderCreateSerializer.validate`, in order. */
  function ProfileDefaults(attrs: map<string, string>, user: User): map<string, string> {
    var a1 := Filled(attrs, "name", FullName(user));
    var a2 := Filled(a1, "description", "Services provided by " + FullName(user));
    var a3 := Filled(a2, "category", "education");
    Filled(a3, "address", "Address not provided")
  }

  const NOT_A_PROVIDER := "Only provider users can create provider profiles."
  const ALREADY_HAS_PROFILE := "User already has a provider profile."

  /** Why `ProviderSerializer.validate` rejects, if it does. */
  function ProviderRejection(user: User, hasProfile: bool, creating: bool): Option<string> {
    if user.userType != "provider" then Some(NOT_A_PROVIDER)
    else if hasProfile && creating then Some(ALREADY_HAS_PROFILE)
    else None
  }

  /**
   * The request data a serializer validates; its `validate` hooks assign into it in place.
   * `hasProfile` is the answer of the profile lookup and `creating` says the serializer has no
   * instance.
   */
  class ProfileData {
    var attrs: map<string, string>

    constructor (attrs: map<string, string>)
      ensures this.attrs == attrs
    {
      this.attrs := attrs;
    }

    /** `ProviderSerializer.validate`. */
    method ValidateProvider(user: User, hasProfile: bool, creating: bool) returns (error: Option<string>)
      modifies this
      ensures error == ProviderRejection(user, hasProfile, creating)
      ensures error.Some? ==> attrs == old(attrs)
      ensures error.None? ==> attrs == Filled(old(attrs), "name", FullName(user))
    {
      if user.userType != "provider" {
        return Some(NOT_A_PROVIDER);
      }
      if hasProfile && creating {
        return Some(ALREADY_HAS_PROFILE);
      }
      if "name" !in attrs || attrs["name"] == "" {
        attrs := attrs["name" := FullName(user)];
      }
      return None;
    }

    /** `if not attrs.get(key): attrs[key] = default`. */
    method FillDefault(key: string, default: string)
      modifies this
      ensures attrs == Filled(old(attrs), key, default)
    {
      if key !in attrs || attrs[key] == "" {
        attrs := attrs[key := default];
      }
    }

    /** `ProviderCreateSerializer.validate`. */
    method ValidateProviderCreate(user: User)
      modifies this
      ensures attrs == ProfileDefaults(old(attrs), user)
    {
      var fullName := FullName(user);
      FillDefault("name", fullName);
      FillDefault("description", "Services provided by " + fullName);
      FillDefault("category", "education");
      FillDefault("address", "Address not provided");
    }
  }

  /** Filling a key leaves a non-empty value alone, makes it non-empty otherwise, and touches nothing else. */
  lemma FilledSpec(attrs: map<string, string>, key: string, default: string)
    ensures var r := Filled(attrs, key, default);
            r.Keys == attrs.Keys + {key}
            && (key in attrs && attrs[key] != "" ==> r[key] == attrs[key])
            && (key !in attrs || attrs[key] == "" ==> r[key] == default)
            && (forall k :: k in attrs && k != key ==> r[k] == attrs[k])
  {
  }

  const PROFILE_KEYS: set<string> := {"name", "description", "category", "address"}

  /** The keys after completion: the supplied ones and the four profile keys. */
  lemma ProfileDefaultsKeys(attrs: map<string, string>, user: User)
    ensures ProfileDefaults(attrs, user).Keys == attrs.Keys + PROFILE_KEYS
  {
  }

  /**
   * After `ProviderCreateSerializer.validate` the four profile keys are present and non-empty, a
   * non-empty supplied value is kept, a missing or empty one takes its default, and every other
   * attribute is unchanged.
   */
  lemma ProfileDefaultsSpec(attrs: map<string, string>, user: User)
    ensures var r := ProfileDefaults(attrs, user);
            r.Keys == attrs.Keys + PROFILE_KEYS
            && (forall k :: k in PROFILE_KEYS ==> r[k] != "")
            && (forall k :: k in PROFILE_KEYS && k in attrs && attrs[k] != "" ==> r[k] == attrs[k])
            && (forall k :: k in attrs && k !in PROFILE_KEYS ==> r[k] == attrs[k])
    ensures ("name" !in attrs || attrs["name"] == "") ==> ProfileDefaults(attrs, user)["name"] == FullName(user)
    ensures ("category" !in attrs || attrs["category"] == "") ==> ProfileDefaults(attrs, user)["category"] == "education"
    ensures ("address" !in attrs || attrs["address"] == "") ==>
              ProfileDefaults(attrs, user)["address"] == "Address not provided"
  {
    var a1 := Filled(attrs, "name", FullName(user));
    var a2 := Filled(a1, "description", "Services provided by " + FullName(user));
    var a3 := Filled(a2, "category", "education");
    var r := Filled(a3, "address", "Address not provided");
    ProfileDefaultsKeys(attrs, user);
    assert r == ProfileDefaults(attrs, user);
    assert |FullName(user)| > 0;
    assert r["name"] == a1["name"] && r["description"] == a2["description"] && r["category"] == a3["category"];
    forall k | k in attrs && k !in PROFILE_KEYS
      ensures r[k] == attrs[k]
    {
      assert k != "name" && k != "description" && k != "category" && k != "address";
    }
  }

  /** Validating completed data again changes nothing. */
  lemma ProfileDefaultsIdempotent(attrs: map<string, string>, user: User)
    ensures ProfileDefaults(ProfileDefaults(attrs, user), user) == ProfileDefaults(attrs, user)
  {
    ProfileDefaultsSpec(attrs, user);
  }

  /**
   * `ProviderSerializer.validate` accepts exactly a provider user that is updating, or creating
   * without a profile; on acceptance only an empty or missing name changes.
   */
  lemma ProviderValidationCases(user: User, hasProfile: bool, creating: bool, attrs: map<string, string>)
    ensures ProviderRejection(user, hasProfile, creating).None? <==>
              user.userType == "provider" && !(hasProfile && creating)
    ensures user.userType != "provider" ==> ProviderRejection(user, hasProfile, creating) == Some(NOT_A_PROVIDER)
    ensures ("name" in attrs && attrs["name"] != "") ==> Filled(attrs, "name", FullName(user)) == attrs
  {
  }

  /** The attributes `BookingCreateSerializer.validate` reads. */
  datatype BookingAttrs = BookingAttrs(service: Option<int>, pricing: Option<Pricing>, bookingDate: Option<int>)

  const FOREIGN_PRICING := "Pricing does not belong to the selected service."
  const PAST_DATE := "Booking date cannot be in the past."

  /** `BookingCreateSerializer.validate`. */
  function ValidateBookingCreate(attrs: BookingAttrs, today: int): Result<BookingAttrs, string> {
    if attrs.pricing.Some? && Some(attrs.pricing.value.service) != attrs.service then Failure(FOREIGN_PRICING)
    else if attrs.bookingDate.Some? && attrs.bookingDate.value < today then Failure(PAST_DATE)
    else Success(attrs)
  }

  /**
   * A booking request is accepted, unchanged, exactly when any pricing belongs to the chosen
   * service and any date is today or later.
   */
  lemma ValidateBookingCreateAccepts(attrs: BookingAttrs, today: int)
    ensures ValidateBookingCreate(attrs, today).Success? <==>
              (attrs.pricing.None? || attrs.service == Some(attrs.pricing.value.service))
              && (attrs.bookingDate.None? || attrs.bookingDate.value >= today)
    ensures ValidateBookingCreate(attrs, today).Success? ==> ValidateBookingCreate(attrs, today).value == attrs
    ensures attrs.pricing.Some? && attrs.service.None? ==> ValidateBookingCreate(attrs, today) == Failure(FOREIGN_PRICING)
  {
  }

  /** Today is not in the past; yesterday is. */
  lemma BookingDateBoundary(service: int, today: int)
    ensures ValidateBookingCreate(BookingAttrs(Some(service), None, Some(today)), today).Success?
    ensures ValidateBookingCreate(BookingAttrs(Some(service), None, Some(today - 1)), today) == Failure(PAST_DATE)
  {
  }

  /** `BookingSerializer.create` as written: the TypeError of an hourly price aborts the save. */
  function CreateBookingAsWritten(b: Booking): Option<Booking> {
    match CalculateTotalAsWritten(b)
    case Amount(total) => Some(b.(total := Some(total)))
    case TypeError => None
  }

  /** `BookingSerializer.create` with the exact total. */
  function CreateBooking(b: Booking): Booking {
    b.(total := Some(CalculateTotal(b)))
  }

  /** Creating sets the total and nothing else; as written, that fails for every hourly price. */
  lemma CreateBookingSetsTotal(b: Booking)
    ensures CreateBooking(b).total == Some(CalculateTotal(b))
    ensures CreateBooking(b).(total := b.total) == b
    ensures (b.pricing.None? || b.pricing.value.pricingType != "per_hour") ==> CreateBookingAsWritten(b) == Some(CreateBooking(b))
    ensures b.pricing.Some? && b.pricing.value.pricingType == "per_hour" ==> CreateBookingAsWritten(b).None?
  {
    if b.pricing.None? || b.pricing.value.pricingType != "per_hour" {
      CorrectedAgreesElsewhere(b);
    } else {
      PerHourAlwaysFails(b);
    }
  }

  /**
   * A booking created with the model's field defaults (one hour, no minutes, one participant)
   * stays pending and unpaid, and its total is the price whichever way that price is charged,
   * or nothing without a price; as written, the hourly case aborts the save instead.
   */
  lemma CreateDefaultBooking(user: int, service: int, provider: int, pricing: Option<Pricing>, date: int)
    ensures var b := CreateBooking(NewBooking(user, service, provider, pricing, date));
            && b.status == "pending" && b.paymentStatus == "pending"
            && (pricing.None? ==> b.total == Some(0.0))
            && (pricing.Some? && pricing.value.pricingType in {"per_session", "per_hour", "per_participant", "fixed", "package"}
                ==> b.total == Some(pricing.value.price))
    ensures pricing.Some? && pricing.value.pricingType == "per_hour" ==>
              CreateBookingAsWritten(NewBooking(user, service, provider, pricing, date)).None?
  {
    var b := NewBooking(user, service, provider, pricing, date);
    CreateBookingSetsTotal(b);
    if pricing.Some? && pricing.value.pricingType == "per_hour" {
      CalculateTotalCases(b, pricing.value);
    }
  }
}
