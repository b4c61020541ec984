/**
 * The two halves of the trigger pipeline put together: a name built by
 * FileGenerator is parsed back by S3Service into the descriptor of the
 * request it came from, and the descriptor then picks out exactly the
 * output files the batch process writes for that request.
 *
 * The fields are taken to be free of the separators the parser splits on
 * (`_` everywhere, `-` inside dates), and a single site is not named BULK.
 */
module TriggerPipeline {
  import opened Wrappers
  import opened Strings
  import opened FileGenerator
  import opened S3Service

  /** The base of an end-of-day trigger: type, site and date field joined by `_`. */
  lemma EodTriggerBase(r: EodRequest, site: string, dates: string)
    requires GenerateEodFile(r).Success?
    requires GenerateEodFile(r).value.fileName == TriggerPrefix + r.serviceType + "_" + site + "_" + dates + TriggerSuffix
    ensures TriggerBaseName(GenerateEodFile(r).value.fileName) == r.serviceType + "_" + site + "_" + dates
  {
    var base := r.serviceType + "_" + site + "_" + dates;
    assert GenerateEodFile(r).value.fileName == "Generate_" + base + ".txt";
    TriggerBaseNameOfTrigger(base);
  }

  /** A single-day trigger parses back to its type, site and date. */
  lemma {:induction false} SingleTriggerRoundTrip(r: EodRequest)
    requires r.generationType == "single"
    requires '_' !in r.serviceType && '_' !in Render(r.siteId) && '_' !in Render(r.date)
    requires '-' !in Render(r.date) && Render(r.siteId) != "BULK"
    ensures ParseTrigger(GenerateEodFile(r).value.fileName, EodService)
         == Some(Single(r.serviceType, Render(r.siteId), Render(r.date)))
  {
    EodTriggerBase(r, Render(r.siteId), Render(r.date));
    SplitThree(r.serviceType, Render(r.siteId), Render(r.date), '_');
  }

  /** A date-range trigger parses back to its type, site and both dates. */
  lemma {:induction false} RangeTriggerRoundTrip(r: EodRequest)
    requires r.generationType == "range"
    requires '_' !in r.serviceType && '_' !in Render(r.siteId)
    requires '_' !in Render(r.startDate) && '_' !in Render(r.endDate)
    requires '-' !in Render(r.startDate) && '-' !in Render(r.endDate)
    requires Render(r.siteId) != "BULK"
    ensures ParseTrigger(GenerateEodFile(r).value.fileName, EodService)
         == Some(Range(r.serviceType, Render(r.siteId), Render(r.startDate), Render(r.endDate)))
  {
    var dates := Render(r.startDate) + "-" + Render(r.endDate);
    EodTriggerBase(r, Render(r.siteId), dates);
    SplitThree(r.serviceType, Render(r.siteId), dates, '_');
    SplitFirstTwo(Render(r.startDate), Render(r.endDate), '-');
    assert dates[|Render(r.startDate)|] == '-';
  }

  /** A bulk trigger parses back to its type and date. */
  lemma {:induction false} BulkTriggerRoundTrip(r: EodRequest)
    requires r.generationType == "bulk"
    requires '_' !in r.serviceType && '_' !in Render(r.date)
    ensures ParseTrigger(GenerateEodFile(r).value.fileName, EodService)
         == Some(Bulk(r.serviceType, Render(r.date)))
  {
    EodTriggerBase(r, "BULK", Render(r.date));
    SplitThree(r.serviceType, "BULK", Render(r.date), '_');
  }

  /** Padding a month with zeros adds no separator. */
  lemma PaddedMonthKeepsSeparatorFree(month: string)
    requires '_' !in month
    ensures '_' !in PaddedMonth(month)
  {
    if |month| < 2 {
      var m := PaddedMonth(month);
      forall i | 0 <= i < |m| ensures m[i] != '_' {
        if i >= 2 - |month| {
          assert m[i] == m[2 - |month|..][i - (2 - |month|)];
        }
      }
    }
  }

  /** The monthly trigger is the fixed prefix and suffix around kind, site and year-month joined by `_`. */
  lemma MonthlyTriggerBase(r: MonthlyRequest)
    ensures TriggerBaseName(GenerateMonthlyFile(r).fileName)
         == MonthlyKind + "_" + r.siteId + "_" + (r.year + PaddedMonth(r.month))
  {
    var base := MonthlyKind + "_" + r.siteId + "_" + (r.year + PaddedMonth(r.month));
    assert MonthlyFileName(r) == "Generate_" + base + ".txt";
    TriggerBaseNameOfTrigger(base);
  }

  /** A monthly trigger parses back to its site and the year followed by the padded month. */
  lemma {:induction false} MonthlyTriggerRoundTrip(r: MonthlyRequest)
    requires '_' !in r.siteId && '_' !in r.year && '_' !in r.month
    ensures ParseTrigger(GenerateMonthlyFile(r).fileName, MonthlyService)
         == Some(Monthly(r.siteId, r.year + PaddedMonth(r.month)))
  {
    MonthlyTriggerBase(r);
    PaddedMonthKeepsSeparatorFree(r.month);
    SplitThree(MonthlyKind, r.siteId, r.year + PaddedMonth(r.month), '_');
  }

  // -----------------------------------------------------------------------
  // From a generated trigger to the outputs it is answered by
  // -----------------------------------------------------------------------

  /** The outputs of a single-day trigger are the one site's files for that date, whatever their generation time. */
  lemma SingleTriggerFindsItsOutputs(r: EodRequest, stamp: string, date: string)
    requires r.generationType == "single"
    requires '_' !in r.serviceType && '_' !in Render(r.siteId) && '_' !in Render(r.date)
    requires '-' !in Render(r.date) && Render(r.siteId) != "BULK"
    requires IsTimestamp(stamp)
    ensures IsMatchingOutputFile(
              EodOutputName(r.serviceType, Render(r.siteId), stamp, date),
              ParseTrigger(GenerateEodFile(r).value.fileName, EodService), EodService)
        <==> date == Render(r.date)
  {
    SingleTriggerRoundTrip(r);
    SingleMatchesExactly(r.serviceType, Render(r.siteId), stamp, date, Render(r.date));
  }

  /** The outputs recognised for a range trigger are those dated on its first or last day, and no day in between. */
  lemma RangeTriggerFindsBoundaryOutputs(r: EodRequest, stamp: string, date: string)
    requires r.generationType == "range"
    requires '_' !in r.serviceType && '_' !in Render(r.siteId)
    requires '_' !in Render(r.startDate) && '_' !in Render(r.endDate)
    requires '-' !in Render(r.startDate) && '-' !in Render(r.endDate)
    requires Render(r.siteId) != "BULK"
    requires IsTimestamp(stamp)
    ensures IsMatchingOutputFile(
              EodOutputName(r.serviceType, Render(r.siteId), stamp, date),
              ParseTrigger(GenerateEodFile(r).value.fileName, EodService), EodService)
        <==> date == Render(r.startDate) || date == Render(r.endDate)
  {
    RangeTriggerRoundTrip(r);
    RangeMatchesBoundariesOnly(r.serviceType, Render(r.siteId), stamp, date, Render(r.startDate), Render(r.endDate));
  }

  /** A bulk trigger is answered by the files of every numeric site for its date. */
  lemma BulkTriggerFindsEverySite(r: EodRequest, site: string, stamp: string, date: string)
    requires r.generationType == "bulk"
    requires '_' !in r.serviceType && '_' !in Render(r.date)
    requires IsDigitRun(site) && IsTimestamp(stamp)
    ensures IsMatchingOutputFile(
              EodOutputName(r.serviceType, site, stamp, date),
              ParseTrigger(GenerateEodFile(r).value.fileName, EodService), EodService)
        <==> date == Render(r.date)
  {
    BulkTriggerRoundTrip(r);
    BulkMatchesAnyDigitSite(r.serviceType, site, stamp, date, Render(r.date));
  }

  /**
   * A monthly trigger with a four-character year and a month of at most two
   * characters is answered by the dip files of any numeric id and any day of
   * that month, and of no other month; the trigger's site is not consulted.
   */
  lemma MonthlyTriggerFindsItsMonth(r: MonthlyRequest, id: string, yearMonth: string, day: string)
    requires '_' !in r.siteId && '_' !in r.year && '_' !in r.month
    requires |r.year| == 4 && |r.month| <= 2
    requires IsDigitRun(id) && |day| == 2 && AllDigits(day)
    ensures IsMatchingOutputFile(
              MonthlyOutputName(id, yearMonth, day),
              ParseTrigger(GenerateMonthlyFile(r).fileName, MonthlyService), MonthlyService)
        <==> yearMonth == r.year + PaddedMonth(r.month)
  {
    MonthlyTriggerRoundTrip(r);
    MonthlyMatchesItsMonthOnly(id, yearMonth, day, r.year + PaddedMonth(r.month));
  }
}
