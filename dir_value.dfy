/**
 * The policy of one managed directory (`DirValueObject`): a value that the
 * validating constructor `New` builds once and that is never changed.
 */
module DirValues {
  import opened Common

  datatype Location = Web | Backend
  datatype Visibility = Public | Private
  datatype TimingOption = Expire | Archive

  /** The unit letters `timingValueInSeconds` knows (`TIMING_UNIT_DAY`, `TIMING_UNIT_WEEK`). */
  const TimingUnitDay: string := "d"
  const TimingUnitWeek: string := "m"

  const SecondsPerDay: int := 86400
  const SecondsPerWeek: int := 604800

  function LocationName(l: Location): string {
    match l
    case Web => "web"
    case Backend => "backend"
  }

  function VisibilityName(v: Visibility): string {
    match v
    case Public => "public"
    case Private => "private"
  }

  function TimingOptionName(o: TimingOption): string {
    match o
    case Expire => "expire"
    case Archive => "archive"
  }

  function LocationOf(s: string): (r: Option<Location>)
    ensures r.Some? <==> s == "web" || s == "backend"
    ensures r.Some? ==> LocationName(r.value) == s
  {
    if s == "web" then Some(Web) else if s == "backend" then Some(Backend) else None
  }

  function VisibilityOf(s: string): (r: Option<Visibility>)
    ensures r.Some? <==> s == "public" || s == "private"
    ensures r.Some? ==> VisibilityName(r.value) == s
  {
    if s == "public" then Some(Public) else if s == "private" then Some(Private) else None
  }

  function TimingOptionOf(s: string): (r: Option<TimingOption>)
    ensures r.Some? <==> s == "expire" || s == "archive"
    ensures r.Some? ==> TimingOptionName(r.value) == s
  {
    if s == "expire" then Some(Expire) else if s == "archive" then Some(Archive) else None
  }

  /** Names and enum values are in one-to-one correspondence. */
  lemma NamesRoundTrip(l: Location, v: Visibility, o: TimingOption)
    ensures LocationOf(LocationName(l)) == Some(l)
    ensures VisibilityOf(VisibilityName(v)) == Some(v)
    ensures TimingOptionOf(TimingOptionName(o)) == Some(o)
  {
    match l { case Web => case Backend => }
    match v { case Public => case Private => }
    match o { case Expire => case Archive => }
  }

  datatype DirValue = DirValue(
    path: string,
    basePath: string,
    prefix: string,
    location: Location,
    visibility: Visibility,
    timingOption: Option<TimingOption>,
    timingValue: Option<int>,
    timingUnit: Option<string>,
    encrypt: bool,
    backup: bool,
    cache: bool)
  {
    /** What the constructor guarantees of every object it returns. */
    predicate Valid() {
      && (timingOption.Some? ==> timingValue.Some? && timingUnit.Some?)
      && (timingUnit.Some? ==> timingUnit.value == "d" || timingUnit.value == "h")
    }
  }

  predicate LocationAccepted(location: string) { location == "web" || location == "backend" }
  predicate VisibilityAccepted(visibility: string) { visibility == "public" || visibility == "private" }
  predicate TimingOptionAccepted(option: Option<string>) {
    option.None? || option.value == "expire" || option.value == "archive"
  }
  predicate TimingUnitAccepted(unit: Option<string>) {
    unit.None? || unit.value == "d" || unit.value == "h"
  }

  /**
   * The validating constructor. Checks run in the source's order and the
   * first one that fails decides the exception.
   */
  function New(path: string, basePath: string, prefix: string, location: string, visibility: string,
               timingOption: Option<string>, timingValue: Option<int>, timingUnit: Option<string>,
               encrypt: bool, backup: bool, cache: bool): (r: Result<DirValue>)
    ensures r.Ok? <==>
              && LocationAccepted(location) && VisibilityAccepted(visibility)
              && TimingOptionAccepted(timingOption)
              && (timingOption.Some? ==> timingValue.Some? && timingUnit.Some?)
              && TimingUnitAccepted(timingUnit)
    ensures r.Ok? ==> r.value.Valid()
    ensures r.Ok? ==>
              && r.value.path == path && r.value.basePath == basePath && r.value.prefix == prefix
              && LocationName(r.value.location) == location
              && VisibilityName(r.value.visibility) == visibility
              && (r.value.timingOption.Some? <==> timingOption.Some?)
              && (timingOption.Some? ==> TimingOptionName(r.value.timingOption.value) == timingOption.value)
              && r.value.timingValue == timingValue && r.value.timingUnit == timingUnit
              && r.value.encrypt == encrypt && r.value.backup == backup && r.value.cache == cache
    ensures !LocationAccepted(location) ==> r == Err(InvalidLocation(location))
    ensures LocationAccepted(location) && !VisibilityAccepted(visibility) ==>
              r == Err(InvalidVisibility(visibility))
    ensures LocationAccepted(location) && VisibilityAccepted(visibility) && !TimingOptionAccepted(timingOption) ==>
              r == Err(InvalidTimingOption(timingOption.value))
    ensures LocationAccepted(location) && VisibilityAccepted(visibility) && TimingOptionAccepted(timingOption)
            && timingOption.Some? && timingValue.None? ==>
              r == Err(InvalidTimingValue)
    ensures LocationAccepted(location) && VisibilityAccepted(visibility) && TimingOptionAccepted(timingOption)
            && timingOption.Some? && timingValue.Some? && timingUnit.None? ==>
              r == Err(MissingTimingUnit)
    ensures LocationAccepted(location) && VisibilityAccepted(visibility) && TimingOptionAccepted(timingOption)
            && (timingOption.Some? ==> timingValue.Some? && timingUnit.Some?) && !TimingUnitAccepted(timingUnit) ==>
              r == Err(InvalidTimingUnit(timingUnit.value))
  {
    var loc := LocationOf(location);
    var vis := VisibilityOf(visibility);
    var opt := if timingOption.Some? then TimingOptionOf(timingOption.value) else None;
    if loc.None? then Err(InvalidLocation(location))
    else if vis.None? then Err(InvalidVisibility(visibility))
    else if timingOption.Some? && opt.None? then Err(InvalidTimingOption(timingOption.value))
    else if timingOption.Some? && timingValue.None? then Err(InvalidTimingValue)
    else if timingOption.Some? && timingUnit.None? then Err(MissingTimingUnit)
    else if timingUnit.Some? && !(timingUnit.value == "d" || timingUnit.value == "h") then
      Err(InvalidTimingUnit(timingUnit.value))
    else
      Ok(DirValue(path, basePath, prefix, loc.value, vis.value, opt, timingValue, timingUnit,
                  encrypt, backup, cache))
  }

  /** PHP arithmetic on a null timing value reads it as 0. */
  function ValueOrZero(v: Option<int>): int {
    if v.Some? then v.value else 0
  }

  /**
   * `timingValueInSeconds`: days for "d", weeks for "m", and a RuntimeException
   * for anything else, including no unit at all.
   */
  function TimingSeconds(d: DirValue): (r: Result<int>)
    ensures r.Ok? <==> d.timingUnit == Some(TimingUnitDay) || d.timingUnit == Some(TimingUnitWeek)
    ensures r.Err? ==> r.error == UnsupportedTimingUnit
  {
    if d.timingUnit == Some(TimingUnitDay) then Ok(ValueOrZero(d.timingValue) * SecondsPerDay)
    else if d.timingUnit == Some(TimingUnitWeek) then Ok(ValueOrZero(d.timingValue) * SecondsPerWeek)
    else Err(UnsupportedTimingUnit)
  }

  /** A week counts seven times what a day counts, for the same timing value. */
  lemma WeekIsSevenDays(d: DirValue)
    ensures TimingSeconds(d.(timingUnit := Some(TimingUnitWeek))).Ok?
    ensures TimingSeconds(d.(timingUnit := Some(TimingUnitDay))).Ok?
    ensures TimingSeconds(d.(timingUnit := Some(TimingUnitWeek))).value
            == 7 * TimingSeconds(d.(timingUnit := Some(TimingUnitDay))).value
  {
    var v := ValueOrZero(d.timingValue);
    assert v * 604800 == 7 * (v * 86400);
  }

  /**
   * The constructor accepts "d" and "h" but the conversion knows "d" and "m":
   * a constructed policy converts to value x 86400 seconds when its unit is
   * "d", and throws for "h" or no unit. The week branch is never reached.
   */
  lemma ConstructedTimingSeconds(path: string, basePath: string, prefix: string, location: string,
                                 visibility: string, timingOption: Option<string>, timingValue: Option<int>,
                                 timingUnit: Option<string>, encrypt: bool, backup: bool, cache: bool)
    requires New(path, basePath, prefix, location, visibility, timingOption, timingValue, timingUnit,
                 encrypt, backup, cache).Ok?
    ensures var d := New(path, basePath, prefix, location, visibility, timingOption, timingValue,
                         timingUnit, encrypt, backup, cache).value;
            && d.timingUnit != Some(TimingUnitWeek)
            && (timingUnit == Some("d") ==> TimingSeconds(d) == Ok(ValueOrZero(timingValue) * SecondsPerDay))
            && (timingUnit != Some("d") ==> TimingSeconds(d) == Err(UnsupportedTimingUnit))
  {
  }

  /** The path is only stored: the same arguments under another path succeed or fail alike. */
  lemma NewRepath(path: string, path': string, basePath: string, prefix: string, location: string,
                  visibility: string, timingOption: Option<string>, timingValue: Option<int>,
                  timingUnit: Option<string>, encrypt: bool, backup: bool, cache: bool)
    ensures var r := New(path, basePath, prefix, location, visibility, timingOption, timingValue,
                         timingUnit, encrypt, backup, cache);
            var r' := New(path', basePath, prefix, location, visibility, timingOption, timingValue,
                          timingUnit, encrypt, backup, cache);
            && (r.Err? ==> r' == r)
            && (r.Ok? ==> r' == Ok(r.value.(path := path')))
  {
  }
}
