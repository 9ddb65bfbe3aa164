/** Region time-zone table and conversions of UTC timestamps to region-local
    wall time (timezones.py). The IANA database is a parameter: the only
    facts assumed about it are the ones `Valid` names. */
module Timezones {
  import opened Wrappers
  import Calendar

  const SecondsPerDay: int := 86400
  const SecondsPerHour: int := 3600

  /** A `datetime`: aware values carry an instant (seconds since the epoch,
      UTC), naive values only a wall-clock reading in seconds. */
  datatype Timestamp = Aware(instant: int) | Naive(wall: int)

  /** The time-zone database as the core consults it: which names it knows,
      the UTC offset of a zone at an instant, and the offset a zone applies
      to a given wall-clock reading (what localising a naive value uses). */
  datatype TzDatabase = TzDatabase(
    known: string -> bool,
    offsetAt: (string, int) -> int,
    wallOffset: (string, int) -> int)

  const Utc: string := "UTC"
  const Chicago: string := "America/Chicago"
  const Regina: string := "America/Regina"
  const London: string := "Europe/London"
  const Sydney: string := "Australia/Sydney"

  /** UTC has offset zero, America/Regina observes UTC-6 all year, and, as
      Python requires of every `utcoffset`, no offset reaches a whole day. */
  ghost predicate Valid(db: TzDatabase)
  {
    && db.known(Utc)
    && (forall z: string, t: int :: -SecondsPerDay < db.offsetAt(z, t) < SecondsPerDay)
    && (forall z: string, w: int :: -SecondsPerDay < db.wallOffset(z, w) < SecondsPerDay)
    && (forall t: int :: db.offsetAt(Utc, t) == 0)
    && (forall w: int :: db.wallOffset(Utc, w) == 0)
    && (forall t: int :: db.offsetAt(Regina, t) == -21600)
    && (forall w: int :: db.wallOffset(Regina, w) == -21600)
  }

  /** `REGION_TIMEZONES`: region code to IANA zone name. */
  const RegionTimezones: map<string, string> :=
    map["US" := Chicago, "CA" := Regina, "UK" := London, "AU" := Sydney]

  /** An aware local `datetime`: the instant it denotes, its zone and the
      offset in force at that instant. */
  datatype LocalDateTime = LocalDateTime(instant: int, zone: string, offset: int)
  {
    /** The wall-clock reading in seconds. */
    function Wall(): int { instant + offset }

    /** `.date()`, as an epoch-day number. */
    function Date(): int { Wall() / SecondsPerDay }

    /** `.hour`. */
    function Hour(): int { (Wall() % SecondsPerDay) / SecondsPerHour }

    /** Start of the wall-clock hour, in wall seconds. */
    function HourWall(): int { Date() * SecondsPerDay + Hour() * SecondsPerHour }
  }

  /** The instant a timestamp denotes when a naive value is read as UTC. */
  function AsUtc(ts: Timestamp): int
  {
    match ts
    case Aware(t) => t
    case Naive(w) => w
  }

  /** `ts.astimezone(zone)` for an aware value. */
  function InZone(db: TzDatabase, instant: int, zone: string): (r: LocalDateTime)
    ensures r.instant == instant && r.zone == zone
    ensures r.Wall() - r.instant == db.offsetAt(zone, instant)
  {
    LocalDateTime(instant, zone, db.offsetAt(zone, instant))
  }

  /** `to_local_datetime`. */
  function ToLocalDatetime(db: TzDatabase, ts: Timestamp, region: string): (r: Result<LocalDateTime>)
    ensures r.Failure? <==> region !in RegionTimezones
    ensures r.Failure? ==> r.error == KeyError(region)
    ensures r.Success? ==> r.value.instant == AsUtc(ts) && r.value.zone == RegionTimezones[region]
  {
    if region !in RegionTimezones then Failure(KeyError(region))
    else Success(InZone(db, AsUtc(ts), RegionTimezones[region]))
  }

  /** `to_local_date`, as an epoch-day number. */
  function ToLocalDate(db: TzDatabase, ts: Timestamp, region: string): (r: Result<int>)
    ensures r.Failure? <==> region !in RegionTimezones
    ensures r.Failure? ==> r.error == KeyError(region)
  {
    if region !in RegionTimezones then Failure(KeyError(region))
    else
      var t := AsUtc(ts);
      Success((t + db.offsetAt(RegionTimezones[region], t)) / SecondsPerDay)
  }

  /** Exactly the four regions have a zone. */
  lemma KnownRegions(region: string)
    ensures region in RegionTimezones <==> region in {"US", "CA", "UK", "AU"}
  {
  }

  /** The local date is the date part of the local datetime, and the
      conversion keeps the instant. */
  lemma LocalDateIsDatePart(db: TzDatabase, ts: Timestamp, region: string)
    requires region in RegionTimezones
    ensures ToLocalDatetime(db, ts, region).Success?
    ensures ToLocalDate(db, ts, region) == Success(ToLocalDatetime(db, ts, region).value.Date())
    ensures ToLocalDatetime(db, ts, region).value.instant == AsUtc(ts)
  {
  }

  /** A naive timestamp converts exactly like the aware UTC timestamp with the
      same reading. */
  lemma NaiveIsUtc(db: TzDatabase, w: int, region: string)
    ensures ToLocalDatetime(db, Naive(w), region) == ToLocalDatetime(db, Aware(w), region)
    ensures ToLocalDate(db, Naive(w), region) == ToLocalDate(db, Aware(w), region)
  {
  }

  /** Canada's local date is the UTC-6 date. */
  lemma CanadaIsFixedOffset(db: TzDatabase, t: int)
    requires Valid(db)
    ensures ToLocalDate(db, Aware(t), "CA") == Success((t - 21600) / SecondsPerDay)
  {
  }

  /** 2024-10-13T10:00Z, the instant of the examples. */
  const ExampleInstant: int := 20009 * SecondsPerDay + 10 * SecondsPerHour

  /** With the offsets the database gives at that instant (AEDT +11, CDT -5,
      BST +1), the instant reads 2024-10-13 21:00 in Sydney, 05:00 in Chicago
      and falls on 2024-10-13 in London. */
  lemma ExampleConversions(db: TzDatabase)
    requires db.offsetAt(Sydney, ExampleInstant) == 39600
    requires db.offsetAt(Chicago, ExampleInstant) == -18000
    requires db.offsetAt(London, ExampleInstant) == 3600
    ensures ToLocalDatetime(db, Aware(ExampleInstant), "AU").Success?
    ensures ToLocalDatetime(db, Aware(ExampleInstant), "AU").value.Date() == 20009
    ensures ToLocalDatetime(db, Aware(ExampleInstant), "AU").value.Hour() == 21
    ensures ToLocalDatetime(db, Aware(ExampleInstant), "US").Success?
    ensures ToLocalDatetime(db, Aware(ExampleInstant), "US").value.Date() == 20009
    ensures ToLocalDatetime(db, Aware(ExampleInstant), "US").value.Hour() == 5
    ensures ToLocalDate(db, Aware(ExampleInstant), "UK") == Success(20009)
    ensures Calendar.CivilFromDays(20009) == Calendar.Date(2024, 10, 13)
  {
    ExampleSydney(db);
    ExampleChicago(db);
    ExampleLondon(db);
    Calendar.ExampleDay();
  }

  lemma ExampleSydney(db: TzDatabase)
    requires db.offsetAt(Sydney, ExampleInstant) == 39600
    ensures ToLocalDatetime(db, Aware(ExampleInstant), "AU").Success?
    ensures ToLocalDatetime(db, Aware(ExampleInstant), "AU").value.Date() == 20009
    ensures ToLocalDatetime(db, Aware(ExampleInstant), "AU").value.Hour() == 21
  {
  }

  lemma ExampleChicago(db: TzDatabase)
    requires db.offsetAt(Chicago, ExampleInstant) == -18000
    ensures ToLocalDatetime(db, Aware(ExampleInstant), "US").Success?
    ensures ToLocalDatetime(db, Aware(ExampleInstant), "US").value.Date() == 20009
    ensures ToLocalDatetime(db, Aware(ExampleInstant), "US").value.Hour() == 5
  {
  }

  lemma ExampleLondon(db: TzDatabase)
    requires db.offsetAt(London, ExampleInstant) == 3600
    ensures ToLocalDate(db, Aware(ExampleInstant), "UK") == Success(20009)
  {
  }
}
