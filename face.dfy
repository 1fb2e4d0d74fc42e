/** The watch face's state: the dirty marks of its three hand layers, the
    texts of its weekday and date layers, the rotations of its two hand paths
    and its tick-timer subscription, with the tick handler, the hand layers'
    update procedures and the start-up and shut-down steps that change them. */
module Face {
  import opened Optional
  import opened Calendar
  import opened Angles
  import opened Format

  /** The hand layers the tick handler can mark for redrawing. */
  datatype Layer = SecondLayer | MinuteLayer | HourLayer

  /** Granularity of a tick-timer subscription. */
  datatype TimeUnits = SecondUnit | MinuteUnit

  /** The hand layers the face creates: the second hand only when it is built
      to display seconds. */
  function HandLayers(displaySeconds: bool): (r: set<Layer>)
    ensures SecondLayer in r <==> displaySeconds
    ensures MinuteLayer in r && HourLayer in r
  {
    if displaySeconds then {SecondLayer, MinuteLayer, HourLayer}
    else {MinuteLayer, HourLayer}
  }

  /** The layers one tick marks dirty: the second hand (when displayed) and
      the minute hand on every tick, the hour hand only at second 0. */
  function MarkedOnTick(displaySeconds: bool, sec: int): (r: set<Layer>)
    ensures SecondLayer in r <==> displaySeconds
    ensures MinuteLayer in r
    ensures HourLayer in r <==> sec == 0
    ensures r <= HandLayers(displaySeconds)
  {
    (if displaySeconds then {SecondLayer} else {}) + {MinuteLayer} +
    (if sec == 0 then {HourLayer} else {})
  }

  /** The tick granularity the face subscribes at. */
  function TickUnit(displaySeconds: bool): (r: TimeUnits)
    ensures r == SecondUnit <==> displaySeconds
  {
    if displaySeconds then SecondUnit else MinuteUnit
  }

  /** On a tick at a minute boundary, which is every tick of a per-minute
      subscription, every hand layer of the face is marked dirty. */
  lemma MinuteBoundaryMarksAll(displaySeconds: bool)
    ensures MarkedOnTick(displaySeconds, 0) == HandLayers(displaySeconds)
  {
  }

  class WatchFace {
    /** Whether the face is built with a second hand (DISPLAY_SECONDS). */
    const displaySeconds: bool

    var secondDirty: bool
    var minuteDirty: bool
    var hourDirty: bool

    /** What the weekday and date text layers show. */
    var weekdayText: string
    var dateText: string

    /** Rotations the minute and hour hand paths were last turned to. */
    var minuteRotation: int
    var hourRotation: int

    /** The active tick-timer subscription, if any. */
    var subscription: Option<TimeUnits>

    /** The layers currently marked for redrawing. */
    function Dirty(): (r: set<Layer>)
      reads this
      ensures SecondLayer in r <==> secondDirty
      ensures MinuteLayer in r <==> minuteDirty
      ensures HourLayer in r <==> hourDirty
    {
      (if secondDirty then {SecondLayer} else {}) +
      (if minuteDirty then {MinuteLayer} else {}) +
      (if hourDirty then {HourLayer} else {})
    }

    /** Only layers the face has are ever marked, the texts fit their
        buffers, and the hand paths are turned to angles a hand can have. */
    ghost predicate Valid()
      reads this
    {
      Dirty() <= HandLayers(displaySeconds) &&
      |weekdayText| < WeekdayBufferSize && |dateText| < DateBufferSize &&
      0 <= minuteRotation < TrigMaxAngle && 0 <= hourRotation < 2 * TrigMaxAngle
    }

    /** The face before start-up: nothing marked, empty static text buffers,
        unrotated paths, no subscription. */
    constructor (displaySeconds: bool)
      ensures Valid()
      ensures this.displaySeconds == displaySeconds
      ensures Dirty() == {}
      ensures weekdayText == [] && dateText == []
      ensures minuteRotation == 0 && hourRotation == 0
      ensures subscription == None
    {
      this.displaySeconds := displaySeconds;
      secondDirty, minuteDirty, hourDirty := false, false, false;
      weekdayText, dateText := [], [];
      minuteRotation, hourRotation := 0, 0;
      subscription := None;
    }

    /** `init`: subscribes the tick handler once, per second when the face
        shows seconds and per minute otherwise. */
    method Init()
      requires Valid()
      modifies this
      ensures Valid()
      ensures subscription == Some(TickUnit(displaySeconds))
      ensures subscription.value == SecondUnit <==> displaySeconds
      ensures Dirty() == old(Dirty())
      ensures weekdayText == old(weekdayText) && dateText == old(dateText)
      ensures minuteRotation == old(minuteRotation) && hourRotation == old(hourRotation)
    {
      subscription := Some(if displaySeconds then SecondUnit else MinuteUnit);
    }

    /** `deinit`: cancels the tick subscription. */
    method Deinit()
      requires Valid()
      modifies this
      ensures Valid()
      ensures subscription == None
      ensures Dirty() == old(Dirty())
      ensures weekdayText == old(weekdayText) && dateText == old(dateText)
      ensures minuteRotation == old(minuteRotation) && hourRotation == old(hourRotation)
    {
      subscription := None;
    }

    /** `tick_handler`: `t` is the time the tick reports and `clock` the
        local time that the weekday and date updates read for themselves.
        The platform delivers ticks only while the face is subscribed. */
    method Tick(t: Tm, clock: Tm)
      requires Valid() && clock.Valid()
      requires subscription.Some?
      modifies this
      ensures Valid()
      ensures Dirty() == old(Dirty()) + MarkedOnTick(displaySeconds, t.sec)
      ensures weekdayText == if t.sec == 0 then WeekdayText(clock.wday) else old(weekdayText)
      ensures dateText == if t.sec == 0 then DateText(clock.mday) else old(dateText)
      ensures minuteRotation == old(minuteRotation) && hourRotation == old(hourRotation)
      ensures subscription == old(subscription)
    {
      if displaySeconds {
        secondDirty := true;
      }
      minuteDirty := true;
      if t.sec == 0 {
        hourDirty := true;
        UpdateDate(clock);
        UpdateWeekday(clock);
      }
    }

    /** `update_weekday`. */
    method UpdateWeekday(clock: Tm)
      requires Valid() && clock.Valid()
      modifies this
      ensures Valid()
      ensures weekdayText == DayNames[clock.wday]
      ensures Dirty() == old(Dirty()) && dateText == old(dateText)
      ensures minuteRotation == old(minuteRotation) && hourRotation == old(hourRotation)
      ensures subscription == old(subscription)
    {
      weekdayText := WeekdayText(clock.wday);
    }

    /** `update_date`. */
    method UpdateDate(clock: Tm)
      requires Valid() && clock.Valid()
      modifies this
      ensures Valid()
      ensures dateText == DateText(clock.mday)
      ensures Dirty() == old(Dirty()) && weekdayText == old(weekdayText)
      ensures minuteRotation == old(minuteRotation) && hourRotation == old(hourRotation)
      ensures subscription == old(subscription)
    {
      dateText := DateText(clock.mday);
    }

    /** `second_layer_update`: the angle at which the second hand's line is
        drawn. The hand is drawn directly, so no state changes. */
    method SecondLayerUpdate(clock: Tm) returns (angle: int)
      requires clock.Valid()
      ensures angle == SecondAngle(TrigMaxAngle, clock.sec)
      ensures 0 <= angle < TrigMaxAngle
    {
      angle := SecondAngle(TrigMaxAngle, clock.sec);
    }

    /** `minute_layer_update`: turns the minute hand's path to the minute. */
    method MinuteLayerUpdate(clock: Tm)
      requires Valid() && clock.Valid()
      modifies this
      ensures Valid()
      ensures minuteRotation == MinuteAngle(TrigMaxAngle, clock.min)
      ensures Dirty() == old(Dirty()) && hourRotation == old(hourRotation)
      ensures weekdayText == old(weekdayText) && dateText == old(dateText)
      ensures subscription == old(subscription)
    {
      minuteRotation := MinuteAngle(TrigMaxAngle, clock.min);
    }

    /** `hour_layer_update`: turns the hour hand's path to the hour and
        minute. */
    method HourLayerUpdate(clock: Tm)
      requires Valid() && clock.Valid()
      modifies this
      ensures Valid()
      ensures hourRotation == HourAngle(TrigMaxAngle, clock.hour, clock.min)
      ensures Dirty() == old(Dirty()) && minuteRotation == old(minuteRotation)
      ensures weekdayText == old(weekdayText) && dateText == old(dateText)
      ensures subscription == old(subscription)
    {
      hourRotation := HourAngle(TrigMaxAngle, clock.hour, clock.min);
    }
  }
}
