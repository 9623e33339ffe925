/**
 * The real-time quote calculator of the pricing section: a rate table, the
 * configuration a visitor edits (event date, travel zone, hours, photo
 * count, web-album tier), and the effect that turns the configuration into
 * an itemised breakdown and a total, with a 15% rush surcharge for events
 * inside a strict (-24h, +48h) window around the current instant.
 */
module QuoteCalculator {
  import opened Wrappers

  // ---------------------------------------------------------------- rates

  const PhotographerHourly: int := 50
  const TeamSize: int := 2
  const BaseIncludedPhotos: int := 150
  const ExtraPhotoCost: int := 2
  const RushFeePercentage: real := 0.15

  /** The divisor that turns a difference of instants in milliseconds into hours. */
  const MillisPerHour: int := 1000 * 3600

  datatype AlbumType = Basic | Private | Premium
  datatype TravelZone = Local | Region | National

  /** Flat fee of each web-album tier. */
  function WebAlbumRate(a: AlbumType): (r: int)
    ensures 0 <= r <= 150
    ensures r == 0 <==> a == Basic
  {
    match a
    case Basic => 0
    case Private => 50
    case Premium => 150
  }

  /** Flat fee of each travel zone. */
  function TravelRate(z: TravelZone): (r: int)
    ensures 0 <= r <= 200
    ensures r == 0 <==> z == Local
  {
    match z
    case Local => 0
    case Region => 50
    case National => 200
  }

  // ------------------------------------------------------ configuration

  /**
   * What one run of the calculator reads. `eventOffset` is the entered event
   * date's instant minus the instant of that run, in milliseconds; None when
   * no date is set.
   */
  datatype Config = Config(
    eventOffset: Option<int>,
    travelZone: TravelZone,
    hours: int,
    photoCount: int,
    albumType: AlbumType)

  /** The itemised result the effect stores. */
  datatype Breakdown = Breakdown(
    personnelCost: int,
    assetsCost: int,
    platformCost: int,
    logisticsCost: int,
    rushFee: real,
    subtotal: int)

  /** Everything one run of the effect writes: the rush flag, the total and the breakdown. */
  datatype Quote = Quote(isRush: bool, total: real, breakdown: Breakdown)

  // -------------------------------------------------------- calculation

  /** The offset from now to the event, in hours, compared with the rush bounds. */
  function DiffHours(offsetMillis: int): (r: real)
    ensures r < 48.0 <==> offsetMillis < 48 * MillisPerHour
    ensures r > -24.0 <==> offsetMillis > -24 * MillisPerHour
  {
    offsetMillis as real / MillisPerHour as real
  }

  /**
   * Rush detection: a date is set and the difference in hours is strictly
   * between -24 and 48. Stated here in whole milliseconds.
   */
  predicate IsRush(eventOffset: Option<int>)
    ensures IsRush(eventOffset) <==>
              eventOffset.Some? && -24 * MillisPerHour < eventOffset.value < 48 * MillisPerHour
  {
    match eventOffset
    case None => false
    case Some(ms) => DiffHours(ms) < 48.0 && DiffHours(ms) > -24.0
  }

  /** The number of photos beyond the included ones, floored at zero. */
  function ExtraPhotos(photoCount: int): (r: int)
    ensures r >= 0 && r >= photoCount - BaseIncludedPhotos
    ensures r == 0 || r == photoCount - BaseIncludedPhotos
  {
    if photoCount - BaseIncludedPhotos > 0 then photoCount - BaseIncludedPhotos else 0
  }

  /**
   * One run of the calculator effect on a configuration: the rush flag is
   * the window test, the total is the subtotal raised by 15% under rush,
   * and personnel and extra photos cost 100 an hour and 2 a photo.
   */
  function ComputeQuote(cfg: Config): (r: Quote)
    ensures r.isRush <==> IsRush(cfg.eventOffset)
    ensures r.total == (if r.isRush then 1.15 else 1.0) * r.breakdown.subtotal as real
    ensures r.breakdown.personnelCost == 100 * cfg.hours
    ensures r.breakdown.assetsCost == 2 * ExtraPhotos(cfg.photoCount)
  {
    var rush := IsRush(cfg.eventOffset);
    var personnelCost := TeamSize * cfg.hours * PhotographerHourly;
    var assetsCost := ExtraPhotos(cfg.photoCount) * ExtraPhotoCost;
    var platformCost := WebAlbumRate(cfg.albumType);
    var logisticsCost := TravelRate(cfg.travelZone);
    var subtotal := personnelCost + assetsCost + platformCost + logisticsCost;
    var rushFee := if rush then subtotal as real * RushFeePercentage else 0.0;
    Quote(rush, subtotal as real + rushFee,
          Breakdown(personnelCost, assetsCost, platformCost, logisticsCost, rushFee, subtotal))
  }

  // ------------------------------------------------------------- lemmas

  /** Two photographers at 50 an hour: personnel costs 100 per hour. */
  lemma PersonnelCostPerHour(cfg: Config)
    ensures ComputeQuote(cfg).breakdown.personnelCost == 100 * cfg.hours
  {
  }

  /** No charge up to the 150 included photos; 2 per photo above that; never negative. */
  lemma ExtraPhotoCharge(cfg: Config)
    ensures var a := ComputeQuote(cfg).breakdown.assetsCost;
            a >= 0 &&
            (cfg.photoCount <= 150 ==> a == 0) &&
            (cfg.photoCount > 150 ==> a == 2 * (cfg.photoCount - 150))
  {
  }

  /** Above the threshold every further photo adds exactly 2. */
  lemma ExtraPhotoChargeIsLinear(cfg: Config)
    requires cfg.photoCount >= BaseIncludedPhotos
    ensures ComputeQuote(cfg.(photoCount := cfg.photoCount + 1)).breakdown.assetsCost
            == ComputeQuote(cfg).breakdown.assetsCost + ExtraPhotoCost
  {
  }

  /** The web-album and travel lookups, and their orderings. */
  lemma FlatFees(cfg: Config)
    ensures var b := ComputeQuote(cfg).breakdown;
            b.platformCost == (match cfg.albumType case Basic => 0 case Private => 50 case Premium => 150) &&
            b.logisticsCost == (match cfg.travelZone case Local => 0 case Region => 50 case National => 200)
    ensures WebAlbumRate(Basic) < WebAlbumRate(Private) < WebAlbumRate(Premium)
    ensures TravelRate(Local) < TravelRate(Region) < TravelRate(National)
  {
  }

  /** The breakdown carries every component; the subtotal is their sum and the total adds the rush fee. */
  lemma BreakdownAddsUp(cfg: Config)
    ensures var q := ComputeQuote(cfg);
            var b := q.breakdown;
            b.subtotal == b.personnelCost + b.assetsCost + b.platformCost + b.logisticsCost &&
            q.total == b.subtotal as real + b.rushFee
  {
  }

  /** The rush fee is exactly 15% of the subtotal when the date is in the window, else 0. */
  lemma RushFeeRule(cfg: Config)
    ensures var q := ComputeQuote(cfg);
            (q.isRush <==> IsRush(cfg.eventOffset)) &&
            q.breakdown.rushFee == (if q.isRush then q.breakdown.subtotal as real * 15.0 / 100.0 else 0.0)
  {
  }

  /** With no date, or a date 48 hours or more ahead, or 24 hours or more behind, there is no rush. */
  lemma RushWindowIsStrict(cfg: Config)
    ensures cfg.eventOffset.None? ==> !ComputeQuote(cfg).isRush
    ensures cfg.eventOffset.Some? && DiffHours(cfg.eventOffset.value) >= 48.0 ==> !ComputeQuote(cfg).isRush
    ensures cfg.eventOffset.Some? && DiffHours(cfg.eventOffset.value) <= -24.0 ==> !ComputeQuote(cfg).isRush
  {
  }

  /** For a non-negative number of hours, total >= subtotal >= personnel cost >= 0. */
  lemma QuoteIsNonNegative(cfg: Config)
    requires cfg.hours >= 0
    ensures var q := ComputeQuote(cfg);
            q.total >= q.breakdown.subtotal as real &&
            q.breakdown.subtotal >= q.breakdown.personnelCost >= 0
  {
  }

  /** More hours, everything else equal, never lowers the personnel cost or the total. */
  lemma MonotoneInHours(cfg: Config, moreHours: int)
    requires cfg.hours <= moreHours
    ensures var q1 := ComputeQuote(cfg);
            var q2 := ComputeQuote(cfg.(hours := moreHours));
            q1.breakdown.personnelCost <= q2.breakdown.personnelCost &&
            q1.total <= q2.total
  {
  }

  /** More photos, everything else equal, never lowers the total. */
  lemma MonotoneInPhotos(cfg: Config, morePhotos: int)
    requires cfg.photoCount <= morePhotos
    ensures ComputeQuote(cfg).total <= ComputeQuote(cfg.(photoCount := morePhotos)).total
  {
  }

  /** The default configuration: 3 hours, 150 photos, basic album, local, no date. */
  lemma ScenarioDefaults()
    ensures var q := ComputeQuote(Config(None, Local, 3, 150, Basic));
            q.breakdown.personnelCost == 300 && q.breakdown.assetsCost == 0 &&
            !q.isRush && q.total == 300.0
  {
  }

  /** 3 hours, 200 photos, private album, region, no date: subtotal and total 500. */
  lemma ScenarioRegion()
    ensures var q := ComputeQuote(Config(None, Region, 3, 200, Private));
            q.breakdown == Breakdown(300, 100, 50, 50, 0.0, 500) && !q.isRush && q.total == 500.0
  {
  }

  /** The same with the event 10 hours ahead: rush, fee 75, total 575. */
  lemma ScenarioRegionRush()
    ensures var q := ComputeQuote(Config(Some(10 * MillisPerHour), Region, 3, 200, Private));
            q.isRush && q.breakdown.subtotal == 500 && q.breakdown.rushFee == 75.0 && q.total == 575.0
  {
  }

  /** The slider minimums with the national zone: 200 + 200 = 400. */
  lemma ScenarioMinimumNational()
    ensures var q := ComputeQuote(Config(None, National, 2, 150, Basic));
            q.breakdown.personnelCost == 200 && q.breakdown.logisticsCost == 200 &&
            q.breakdown.subtotal == 400 && q.total == 400.0
  {
  }

  // ------------------------------------------------------------ state

  /**
   * The inputs the controls set. `date` is the entered event date as an
   * instant in milliseconds; None while the date field is empty.
   */
  datatype Settings = Settings(
    date: Option<int>,
    travelZone: TravelZone,
    hours: int,
    photoCount: int,
    albumType: AlbumType)

  /** The configuration one run of the effect sees when the clock reads `now` (milliseconds). */
  function AtInstant(s: Settings, now: int): (cfg: Config)
    ensures cfg.eventOffset.None? <==> s.date.None?
    ensures s.date.Some? ==> cfg.eventOffset.value == s.date.value - now
    ensures cfg.travelZone == s.travelZone && cfg.hours == s.hours &&
            cfg.photoCount == s.photoCount && cfg.albumType == s.albumType
  {
    Config(match s.date case None => None case Some(d) => Some(d - now),
           s.travelZone, s.hours, s.photoCount, s.albumType)
  }

  /** The same settings are not a rush 49 hours before the event and are a rush two hours later. */
  lemma RushDependsOnTheClock(s: Settings, now: int, later: int)
    requires s.date.Some? && s.date.value - now == 49 * MillisPerHour
    requires later == now + 2 * MillisPerHour
    ensures !ComputeQuote(AtInstant(s, now)).isRush
    ensures ComputeQuote(AtInstant(s, later)).isRush
  {
  }

  /**
   * The calculator's state in the pricing component: the settings the
   * controls change, and the rush flag, total and breakdown that the effect
   * writes. The breakdown is the empty object until the effect first runs,
   * modelled as None. Each run of the effect reads the clock afresh, so
   * `Recompute` and every setter take the current instant `now`.
   */
  class Calculator {
    var date: Option<int>
    var travelZone: TravelZone
    var hours: int
    var photoCount: int
    var albumType: AlbumType
    var total: real
    var breakdown: Option<Breakdown>
    var isRush: bool

    function CurrentSettings(): Settings
      reads this
    {
      Settings(date, travelZone, hours, photoCount, albumType)
    }

    /** The displayed quote is the quote of the current settings at instant `now`. */
    ghost predicate InSyncAt(now: int)
      reads this
    {
      var q := ComputeQuote(AtInstant(CurrentSettings(), now));
      isRush == q.isRush && total == q.total && breakdown == Some(q.breakdown)
    }

    /** The initial state, before the effect has run. */
    constructor ()
      ensures CurrentSettings() == Settings(None, Local, 3, 150, Basic)
      ensures total == 0.0 && breakdown == None && !isRush
    {
      date := None;
      travelZone := Local;
      hours := 3;
      photoCount := 150;
      albumType := Basic;
      total := 0.0;
      breakdown := None;
      isRush := false;
    }

    /** The calculator effect at instant `now`: detect rush, price each component, store the results. */
    method Recompute(now: int)
      modifies this
      ensures CurrentSettings() == old(CurrentSettings())
      ensures InSyncAt(now)
    {
      var rush := false;
      if date.Some? {
        var diffTime := date.value - now;
        var diffHours := diffTime as real / MillisPerHour as real;
        if diffHours < 48.0 && diffHours > -24.0 {
          rush := true;
        }
      }
      isRush := rush;

      var personnelCost := TeamSize * hours * PhotographerHourly;
      var extraPhotos := if photoCount - BaseIncludedPhotos > 0 then photoCount - BaseIncludedPhotos else 0;
      var assetsCost := extraPhotos * ExtraPhotoCost;
      var platformCost := WebAlbumRate(albumType);
      var logisticsCost := TravelRate(travelZone);

      var subtotal := personnelCost + assetsCost + platformCost + logisticsCost;
      var rushFee := if rush then subtotal as real * RushFeePercentage else 0.0;
      var finalTotal := subtotal as real + rushFee;

      total := finalTotal;
      breakdown := Some(Breakdown(personnelCost, assetsCost, platformCost, logisticsCost, rushFee, subtotal));
    }

    /**
     * Entering or clearing the event date. An unchanged value leaves the state
     * as it was and the effect does not re-run; a new one re-runs it at `now`.
     */
    method SetDate(d: Option<int>, now: int)
      modifies this
      ensures CurrentSettings() == old(CurrentSettings()).(date := d)
      ensures old(date) == d ==> isRush == old(isRush) && total == old(total) && breakdown == old(breakdown)
      ensures old(date) != d ==> InSyncAt(now)
    {
      if d != date {
        date := d;
        Recompute(now);
      }
    }

    /**
     * Choosing a travel zone. An unchanged value leaves the state
     * as it was and the effect does not re-run; a new one re-runs it at `now`.
     */
    method SetTravelZone(zone: TravelZone, now: int)
      modifies this
      ensures CurrentSettings() == old(CurrentSettings()).(travelZone := zone)
      ensures old(travelZone) == zone ==> isRush == old(isRush) && total == old(total) && breakdown == old(breakdown)
      ensures old(travelZone) != zone ==> InSyncAt(now)
    {
      if zone != travelZone {
        travelZone := zone;
        Recompute(now);
      }
    }

    /**
     * Moving the hours slider. An unchanged value leaves the state
     * as it was and the effect does not re-run; a new one re-runs it at `now`.
     */
    method SetHours(h: int, now: int)
      modifies this
      ensures CurrentSettings() == old(CurrentSettings()).(hours := h)
      ensures old(hours) == h ==> isRush == old(isRush) && total == old(total) && breakdown == old(breakdown)
      ensures old(hours) != h ==> InSyncAt(now)
    {
      if h != hours {
        hours := h;
        Recompute(now);
      }
    }

    /**
     * Moving the photo-count slider. An unchanged value leaves the state
     * as it was and the effect does not re-run; a new one re-runs it at `now`.
     */
    method SetPhotoCount(n: int, now: int)
      modifies this
      ensures CurrentSettings() == old(CurrentSettings()).(photoCount := n)
      ensures old(photoCount) == n ==> isRush == old(isRush) && total == old(total) && breakdown == old(breakdown)
      ensures old(photoCount) != n ==> InSyncAt(now)
    {
      if n != photoCount {
        photoCount := n;
        Recompute(now);
      }
    }

    /**
     * Choosing a web-album tier. An unchanged value leaves the state
     * as it was and the effect does not re-run; a new one re-runs it at `now`.
     */
    method SetAlbumType(a: AlbumType, now: int)
      modifies this
      ensures CurrentSettings() == old(CurrentSettings()).(albumType := a)
      ensures old(albumType) == a ==> isRush == old(isRush) && total == old(total) && breakdown == old(breakdown)
      ensures old(albumType) != a ==> InSyncAt(now)
    {
      if a != albumType {
        albumType := a;
        Recompute(now);
      }
    }
  }
}
