/**
 * The three streams of the tap.  ContentDocumentLink rows are read with a
 * SOQL query over one parent object (`source`), incrementally with a two-week
 * lookback; each link is the parent of a ContentNote and of that note's body.
 */
module Streams {
  import opened Wrappers
  import opened Calendar
  import opened Timestamp
  import opened Client

  /** The JSON values the records of these streams hold. */
  datatype Value = Null | Bool(b: bool) | Int(i: int) | Str(s: string)

  /** A record, and equally a stream context: a JSON object. */
  type Record = map<string, Value>

  /** The errors the stream code itself raises (a missing dictionary key, a missing context). */
  datatype StreamError = MissingKey(key: string) | NoContext

  /** The arguments a stream hands to the request builder. */
  datatype Request = Request(
    verb: string, url: string, params: map<string, string>,
    headers: map<string, string>, payload: Option<Record>)

  /** The REST API version every stream path is under. */
  const ApiRoot := "/services/data/v59.0/"
  const QueryAllPath := "/services/data/v59.0/queryAll"
  const NamePrefix := "content_document_links_"
  const ContentNoteContentsName := "content_note_contents"
  const ContentNotesName := "content_notes"

  const QueryKey := "q"
  /** The projection, ending where the source is inserted; kept in short pieces so that facts about its characters stay cheap. */
  const Projection := SelectIds + SelectFlags + SelectFrom + SelectWhere + SelectSub
  const SelectIds := "SELECT Id,LinkedEntityId,"
  const SelectFlags := "ContentDocumentId,IsDeleted,"
  const SelectFrom := "SystemModstamp FROM "
  const SelectWhere := "ContentDocumentLink WHERE "
  const SelectSub := "LinkedEntityId IN (SELECT Id FROM "
  const LookbackFilter := " AND SystemModstamp > "
  const OrderAndLimit := " ORDER BY SystemModstamp LIMIT 500"

  /** The parent record field that identifies a note, and the one child context key. */
  const ContextKey := "ContentDocumentId"
  const ContentKey := "Content"

  const NotePathPrefix := "/services/data/v59.0/sobjects/ContentNote/"
  const ContentNotesPath := "/services/data/v59.0/sobjects/ContentNote/{ContentDocumentId}"
  const ContentNoteContentsPath := "/services/data/v59.0/sobjects/ContentNote/{ContentDocumentId}/Content"

  // ---------------------------------------------------------------- the query

  /** Regrouping a concatenation, stated over plain strings so that no literal is unfolded. */
  lemma Regroup(a: string, b: string, c: string)
    ensures a + (b + c) == a + b + c
  {
  }

  /** The three parts of a concatenation, sliced back out. */
  lemma Slices(a: string, b: string, c: string)
    ensures var s := a + b + c;
      && s[..|a|] == a && s[|a|..|a| + |b|] == b && s[|a| + |b|..] == c
  {
    var s := a + b + c;
    assert s[..|a|] == a;
    assert s[|a|..|a| + |b|] == b;
    assert s[|a| + |b|..] == c;
  }

  /** The projection and the sub-select over `source`, which is inserted as it is. */
  function BaseQuery(source: string): string {
    Projection + source + ")"
  }

  /** The lookback filter: the bookmark read back, moved two weeks earlier and written with a `Z`. */
  function LookbackClause(bookmark: string): Result<string, TimeError>
  {
    var dt :- ParseBookmark(bookmark);
    var earlier :- TwoWeeksBefore(dt);
    Success(LookbackFilter + FormatZulu(earlier))
  }

  /** The value of the `q` parameter for a starting replication value, or the error raised building it. */
  function Query(source: string, start: Option<string>): Result<string, TimeError> {
    match start
    case None => Success(BaseQuery(source) + OrderAndLimit)
    case Some(bookmark) =>
      var clause :- LookbackClause(bookmark);
      Success(BaseQuery(source) + clause + OrderAndLimit)
  }

  /** With a starting value, the query is the lookback clause between the base query and the suffix. */
  lemma QueryFromClause(source: string, bookmark: string)
    ensures var r, c := Query(source, Some(bookmark)), LookbackClause(bookmark);
      && (r.Failure? <==> c.Failure?)
      && (c.Failure? ==> r.error == c.error)
      && (c.Success? ==> r.value == BaseQuery(source) + c.value + OrderAndLimit)
  {
  }

  /**
   * A query filtered from the bookmark value `dt`: the base query, the filter
   * keyword, a stamp in the `%Y-%m-%dT%H:%M:%SZ` layout that reads back as the
   * date 14 days before `dt`'s with `dt`'s time of day, then the ordering suffix.
   */
  ghost predicate FilteredFrom(source: string, q: string, dt: DateTime)
    requires ValidDateTime(dt)
  {
    var n := |BaseQuery(source)| + |LookbackFilter|;
    && |q| == n + 20 + |OrderAndLimit|
    && q[..n] == BaseQuery(source) + LookbackFilter
    && q[n + 20..] == OrderAndLimit
    && ZuluLayout(q[n..n + 20])
    && ScanDateTime(q[n..n + 20]).Success?
    && var stamp := ScanDateTime(q[n..n + 20]).value;
    && stamp.rest == "Z" && stamp.time == dt.time && ValidDate(stamp.date)
    && Ordinal(stamp.date) == Ordinal(dt.date) - LookbackDays
  }

  /** Every query starts with the projection, then the source verbatim, and ends with the ordering suffix. */
  lemma QueryFrame(source: string, start: Option<string>)
    requires Query(source, start).Success?
    ensures var q := Query(source, start).value;
      && |q| >= |Projection| + |source| + 1 + |OrderAndLimit|
      && q[..|Projection|] == Projection
      && q[|Projection|..|Projection| + |source|] == source
      && q[|Projection| + |source|] == ')'
      && q[|q| - |OrderAndLimit|..] == OrderAndLimit
  {
    var clause := if start.None? then "" else LookbackClause(start.value).value;
    assert Query(source, start).value == Projection + source + ")" + clause + OrderAndLimit by {
      if start.Some? {
        QueryFromClause(source, start.value);
      }
    }
    FrameParts(Projection, source, clause, OrderAndLimit);
  }

  /** The parts of `p + src + ")" + clause + suffix`, sliced back out. */
  lemma FrameParts(p: string, src: string, clause: string, suffix: string)
    ensures var q := p + src + ")" + clause + suffix;
      && |q| >= |p| + |src| + 1 + |suffix|
      && q[..|p|] == p
      && q[|p|..|p| + |src|] == src
      && q[|p| + |src|] == ')'
      && q[|q| - |suffix|..] == suffix
  {
    var q := p + src + ")" + clause + suffix;
    var m := src + ")" + clause;
    assert q == p + m + suffix;
    Slices(p, m, suffix);
    assert q[|p|..|p| + |src|] == m[..|src|];
  }

  /** Without a starting value the query is the base query and the suffix, and cannot fail. */
  lemma QueryWithoutStart(source: string)
    ensures Query(source, None) == Success(Projection + source + ")" + OrderAndLimit)
  {
  }

  /**
   * With a starting value the query fails exactly when the bookmark does not
   * parse (a ValueError) or lies in the first 14 days of the calendar (an
   * OverflowError).
   */
  lemma QueryWithStartFails(source: string, bookmark: string)
    ensures var r := Query(source, Some(bookmark));
      var p := ParseBookmark(bookmark);
      && (r.Failure? <==> p.Failure? || Ordinal(p.value.date) <= LookbackDays)
      && (p.Failure? ==> r == Failure(Malformed))
      && (p.Success? && r.Failure? ==> r == Failure(OutOfRange))
  {
  }

  /** Otherwise the query is filtered from the parsed bookmark. */
  lemma QueryWithStartFilters(source: string, bookmark: string)
    requires Query(source, Some(bookmark)).Success?
    ensures ParseBookmark(bookmark).Success?
    ensures FilteredFrom(source, Query(source, Some(bookmark)).value, ParseBookmark(bookmark).value)
  {
    var p := ParseBookmark(bookmark);
    var e := TwoWeeksBefore(p.value).value;
    var stamp := FormatZulu(e);
    FormatZuluLayout(e);
    assert Query(source, Some(bookmark)) == Success(BaseQuery(source) + (LookbackFilter + stamp) + OrderAndLimit);
    FilteredFromStamp(source, stamp, p.value, e);
  }

  /** The query assembled around a stamp that reads back as `e`, a date 14 days before `dt`'s at its time of day. */
  lemma FilteredFromStamp(source: string, stamp: string, dt: DateTime, e: DateTime)
    requires ValidDateTime(dt) && ValidDate(e.date) && e.time == dt.time
    requires Ordinal(e.date) == Ordinal(dt.date) - LookbackDays
    requires ZuluLayout(stamp) && ScanDateTime(stamp) == Success(Scanned(e.date, e.time, "Z"))
    ensures FilteredFrom(source, BaseQuery(source) + (LookbackFilter + stamp) + OrderAndLimit, dt)
  {
    Regroup(BaseQuery(source), LookbackFilter, stamp);
    Slices(BaseQuery(source) + LookbackFilter, stamp, OrderAndLimit);
  }

  /** A starting value with no fractional seconds is rejected instead of leaving the query unfiltered. */
  lemma MissingFractionIsAnError(source: string, bookmark: string)
    requires '.' !in bookmark
    ensures Query(source, Some(bookmark)) == Failure(Malformed)
  {
    NoFractionRejected(bookmark);
  }

  /** A whole-second bookmark with a `Z` designator has no fraction, so it is an error too. */
  lemma WholeSecondBookmarkExample()
    ensures Query("Account", Some("2024-01-15T00:00:00Z")) == Failure(Malformed)
  {
    MissingFractionIsAnError("Account", "2024-01-15T00:00:00Z");
  }

  /**
   * The filter depends on the bookmark's date and time of day only: the
   * fraction and the UTC offset are dropped, the offset without being applied.
   */
  lemma OffsetIsIgnored(source: string, a: string, b: string)
    requires ParseBookmark(a).Success? && ParseBookmark(b).Success?
    requires ParseBookmark(a).value.date == ParseBookmark(b).value.date
    requires ParseBookmark(a).value.time == ParseBookmark(b).value.time
    ensures Query(source, Some(a)) == Query(source, Some(b))
  {
  }

  /** The filter keyword contains a `>`; nothing else the query is built from does. */
  lemma FilterIffStart(source: string, start: Option<string>)
    requires '>' !in source
    requires Query(source, start).Success?
    ensures '>' in Query(source, start).value <==> start.Some?
  {
    var q := Query(source, start).value;
    ProjectionLacks();
    SuffixLacksGt();
    FilterLacksB();
    assert '>' !in ")";
    if start.Some? {
      var e := TwoWeeksBefore(ParseBookmark(start.value).value).value;
      assert q == BaseQuery(source) + (LookbackFilter + FormatZulu(e)) + OrderAndLimit;
      Regroup(BaseQuery(source), LookbackFilter, FormatZulu(e));
    }
  }

  // ---------------------------------------------------------------- the suffix occurs once

  /** `w` occurs in `s` starting at index `i`. */
  predicate OccursAt(s: string, w: string, i: int) {
    0 <= i && i + |w| <= |s| && s[i..i + |w|] == w
  }

  // Which characters the fixed pieces of the query hold, one short literal at a time.
  lemma SelectIdsLacks() ensures '>' !in SelectIds && 'B' !in SelectIds {}
  lemma SelectFlagsLacks() ensures '>' !in SelectFlags && 'B' !in SelectFlags {}
  lemma SelectFromLacks() ensures '>' !in SelectFrom && 'B' !in SelectFrom {}
  lemma SelectWhereLacks() ensures '>' !in SelectWhere && 'B' !in SelectWhere {}
  lemma SelectSubLacks() ensures '>' !in SelectSub && 'B' !in SelectSub {}
  lemma FilterLacksB() ensures 'B' !in LookbackFilter && '>' in LookbackFilter {
    assert LookbackFilter[|LookbackFilter| - 2] == '>';
  }
  lemma SuffixLacksGt() ensures '>' !in OrderAndLimit {}

  /** Neither `>` nor `B` occurs in the projection. */
  lemma ProjectionLacks()
    ensures '>' !in Projection && 'B' !in Projection
  {
    SelectIdsLacks();
    SelectFlagsLacks();
    SelectFromLacks();
    SelectWhereLacks();
    SelectSubLacks();
  }

  /** A written stamp holds digits, `-`, `T`, `:` and `Z` only; in particular no `B`. */
  lemma PaddedLacksB(v: nat, w: nat)
    ensures 'B' !in Pad(v, w)
  {
    PadDigits(v, w);
  }

  /** The separators of the written form hold no `B`, so neither does the whole when the fields hold none. */
  lemma LayoutLacksB(year: string, month: string, day: string, hour: string, minute: string, second: string)
    requires 'B' !in year && 'B' !in month && 'B' !in day
    requires 'B' !in hour && 'B' !in minute && 'B' !in second
    ensures 'B' !in year + ("-" + (month + ("-" + (day + ("T" +
      (hour + (":" + (minute + (":" + (second + "Z"))))))))))
  {
  }

  lemma ZuluHasNoB(dt: DateTime)
    requires ValidDateTime(dt)
    ensures 'B' !in FormatZulu(dt)
  {
    var d, t := dt.date, dt.time;
    PaddedLacksB(d.year, 4);
    PaddedLacksB(d.month, 2);
    PaddedLacksB(d.day, 2);
    PaddedLacksB(t.hour, 2);
    PaddedLacksB(t.minute, 2);
    PaddedLacksB(t.second, 2);
    LayoutLacksB(Pad(d.year, 4), Pad(d.month, 2), Pad(d.day, 2), Pad(t.hour, 2), Pad(t.minute, 2), Pad(t.second, 2));
  }

  /** The one `B` of the suffix is the one in `BY`, at index 7. */
  lemma SuffixLetterB(k: int)
    requires 0 <= k < |OrderAndLimit|
    ensures OrderAndLimit[k] == 'B' <==> k == 7
  {
  }

  /** After a prefix without `B`, the suffix occurs only where it was appended. */
  lemma SuffixOnlyAtEnd(pre: string, i: int)
    requires 'B' !in pre
    ensures OccursAt(pre + OrderAndLimit, OrderAndLimit, i) <==> i == |pre|
  {
    var q := pre + OrderAndLimit;
    if OccursAt(q, OrderAndLimit, i) {
      assert q[i + 7] == q[i..i + |OrderAndLimit|][7] == 'B';
      if i + 7 < |pre| {
        assert false;
      }
      SuffixLetterB(i + 7 - |pre|);
    }
    if i == |pre| {
      assert q[i..i + |OrderAndLimit|] == OrderAndLimit;
    }
  }

  /** The text in front of the suffix: the base query and, with a starting value, the filter. */
  lemma QueryBeforeSuffix(source: string, start: Option<string>)
    requires Query(source, start).Success?
    ensures var q := Query(source, start).value;
      && |q| >= |OrderAndLimit|
      && q == q[..|q| - |OrderAndLimit|] + OrderAndLimit
      && q[..|q| - |OrderAndLimit|]
         == BaseQuery(source) + (if start.None? then "" else LookbackClause(start.value).value)
  {
    var q := Query(source, start).value;
    var pre := BaseQuery(source) + (if start.None? then "" else LookbackClause(start.value).value);
    assert q == pre + OrderAndLimit;
    assert q[..|q| - |OrderAndLimit|] == pre;
  }

  /** The lookback filter holds no `B`. */
  lemma ClauseLacksB(bookmark: string)
    requires LookbackClause(bookmark).Success?
    ensures 'B' !in LookbackClause(bookmark).value
  {
    var e := TwoWeeksBefore(ParseBookmark(bookmark).value).value;
    ZuluHasNoB(e);
    FilterLacksB();
    assert LookbackClause(bookmark).value == LookbackFilter + FormatZulu(e);
  }

  /**
   * When the source holds no `B`, the ordering suffix occurs in the query
   * exactly once, at its end: the filter comes before it and nothing after.
   */
  lemma SuffixOccursOnce(source: string, start: Option<string>, i: int)
    requires 'B' !in source
    requires Query(source, start).Success?
    ensures OccursAt(Query(source, start).value, OrderAndLimit, i)
        <==> i == |Query(source, start).value| - |OrderAndLimit|
  {
    var q := Query(source, start).value;
    QueryBeforeSuffix(source, start);
    ProjectionLacks();
    assert 'B' !in ")";
    if start.Some? {
      ClauseLacksB(start.value);
    }
    SuffixOnlyAtEnd(q[..|q| - |OrderAndLimit|], i);
  }

  /**
   * The source is not escaped: a source that closes the sub-select and
   * carries its own ordering clause puts the suffix into the query twice.
   */
  lemma InjectedSourceRepeatsSuffix()
    ensures var source := "Account)" + OrderAndLimit;
      var q := Query(source, None).value;
      && OccursAt(q, OrderAndLimit, |Projection| + 8)
      && |Projection| + 8 != |q| - |OrderAndLimit|
  {
    var source := "Account)" + OrderAndLimit;
    var q := Query(source, None).value;
    var a := Projection + "Account)";
    Regroup(Projection, "Account)", OrderAndLimit);
    Regroup(a + OrderAndLimit, ")", OrderAndLimit);
    Regroup(a, OrderAndLimit, ")" + OrderAndLimit);
    assert q == a + OrderAndLimit + (")" + OrderAndLimit);
    Slices(a, OrderAndLimit, ")" + OrderAndLimit);
  }

  lemma ExampleDatePads()
    ensures Pad(2023, 4) == "2023" && Pad(12, 2) == "12" && Pad(27, 2) == "27"
  {
    assert Pad(202, 3) == "202" by {
      assert Pad(2, 1) == "2";
      assert Pad(20, 2) == "20";
    }
    assert Pad(1, 1) == "1";
    assert Pad(2, 1) == "2";
  }

  lemma ExampleTimePads()
    ensures Pad(8, 2) == "08" && Pad(30, 2) == "30" && Pad(5, 2) == "05"
  {
    assert Pad(0, 1) == "0";
    assert Pad(3, 1) == "3";
  }

  /** A date and time written as the filter writes them. */
  lemma ZuluExample()
    ensures FormatZulu(DateTime(Date(2023, 12, 27), TimeOfDay(8, 30, 5), 250000, 19800 * MicrosPerSecond))
         == "2023-12-27T08:30:05Z"
  {
    ExampleDatePads();
    ExampleTimePads();
    var s := Pad(8, 2) + (":" + (Pad(30, 2) + (":" + (Pad(5, 2) + "Z"))));
    assert s == "08:30:05Z";
    s := Pad(2023, 4) + ("-" + (Pad(12, 2) + ("-" + (Pad(27, 2) + ("T" + s)))));
    assert s == "2023-12-27T08:30:05Z";
  }

  /** A bookmark written in the bookmark format filters from the same date and time, two weeks back. */
  lemma QueryOfWrittenBookmark(source: string, dt: DateTime)
    requires ValidDateTime(dt) && Ordinal(dt.date) > LookbackDays
    ensures TwoWeeksBefore(dt).Success?
    ensures Query(source, Some(RenderBookmark(dt)))
         == Success(BaseQuery(source) + LookbackFilter + FormatZulu(TwoWeeksBefore(dt).value) + OrderAndLimit)
  {
    var b := RenderBookmark(dt);
    ParseRenderedBookmark(dt);
    var e := TwoWeeksBefore(dt).value;
    assert LookbackClause(b) == Success(LookbackFilter + FormatZulu(e));
    Regroup(BaseQuery(source), LookbackFilter, FormatZulu(e));
  }

  /**
   * A bookmark whose fraction has one to six digits, as Salesforce's
   * millisecond timestamps have three, filters from the same instant two
   * weeks back.
   */
  lemma QueryOfShortFractionBookmark(source: string, d: Date, t: TimeOfDay, w: nat, f: nat, offset: int)
    requires ValidDate(d) && ValidTime(t) && ValidOffset(offset) && Ordinal(d) > LookbackDays
    requires 1 <= w <= 6 && f < Pow10(w)
    ensures f * Pow10(6 - w) < MicrosPerSecond
    ensures TwoWeeksBefore(DateTime(d, t, f * Pow10(6 - w), offset)).Success?
    ensures Query(source, Some(RenderDateTime(d, t, "." + (Pad(f, w) + RenderOffset(offset)))))
         == Success(BaseQuery(source) + LookbackFilter
                    + FormatZulu(TwoWeeksBefore(DateTime(d, t, f * Pow10(6 - w), offset)).value) + OrderAndLimit)
  {
    var b := RenderDateTime(d, t, "." + (Pad(f, w) + RenderOffset(offset)));
    var dt := DateTime(d, t, f * Pow10(6 - w), offset);
    FractionBound(f, w);
    ParseShortFractionBookmark(d, t, w, f, offset);
    var e := TwoWeeksBefore(dt).value;
    assert LookbackClause(b) == Success(LookbackFilter + FormatZulu(e));
    Regroup(BaseQuery(source), LookbackFilter, FormatZulu(e));
  }

  /**
   * A bookmark in the middle of January reaches back into the previous year's
   * December; its fraction and its +05:30 offset leave no trace in the filter.
   */
  lemma YearRolloverExample()
    ensures Query("Account", Some(RenderBookmark(DateTime(Date(2024, 1, 10), TimeOfDay(8, 30, 5), 250000, 19800 * MicrosPerSecond))))
         == Success(BaseQuery("Account") + LookbackFilter + "2023-12-27T08:30:05Z" + OrderAndLimit)
  {
    var dt := DateTime(Date(2024, 1, 10), TimeOfDay(8, 30, 5), 250000, 19800 * MicrosPerSecond);
    var e := DateTime(Date(2023, 12, 27), TimeOfDay(8, 30, 5), 250000, 19800 * MicrosPerSecond);
    assert TwoWeeksBefore(dt) == Success(e);
    QueryOfWrittenBookmark("Account", dt);
    ZuluExample();
  }

  lemma NewYearPads()
    ensures Pad(2024, 4) == "2024" && Pad(1, 2) == "01" && Pad(0, 2) == "00"
  {
    assert Pad(202, 3) == "202" by {
      assert Pad(2, 1) == "2";
      assert Pad(20, 2) == "20";
    }
    assert Pad(0, 1) == "0";
    assert Pad(1, 1) == "1";
  }

  lemma MidJanuaryPads()
    ensures Pad(15, 2) == "15" && Pad(0, 3) == "000"
  {
    assert Pad(1, 1) == "1";
    assert Pad(0, 1) == "0";
  }

  lemma ZeroOffsetText()
    ensures RenderOffset(0) == "+0000"
  {
    NewYearPads();
    assert Pad(0, 2) + Pad(0, 2) == "0000";
  }

  lemma ZeroMillisAndOffset()
    ensures "." + (Pad(0, 3) + RenderOffset(0)) == ".000+0000"
  {
    MidJanuaryPads();
    ZeroOffsetText();
  }

  lemma MidJanuaryFields(tail: string)
    ensures RenderDateTime(Date(2024, 1, 15), TimeOfDay(0, 0, 0), tail)
         == "2024" + ("-" + ("01" + ("-" + ("15" + ("T" + ("00" + (":" + ("00" + (":" + ("00" + tail))))))))))
  {
    NewYearPads();
    MidJanuaryPads();
  }

  lemma MidJanuaryText(tail: string)
    requires tail == ".000+0000"
    ensures "2024" + ("-" + ("01" + ("-" + ("15" + ("T" + ("00" + (":" + ("00" + (":" + ("00" + tail))))))))))
         == "2024-01-15T00:00:00.000+0000"
  {
    assert "00" + (":" + ("00" + (":" + ("00" + tail)))) == "00:00:00.000+0000";
  }

  /** Midnight of 2024-01-15 at UTC, written with milliseconds as Salesforce writes it. */
  lemma MidJanuaryMillis()
    ensures RenderDateTime(Date(2024, 1, 15), TimeOfDay(0, 0, 0), "." + (Pad(0, 3) + RenderOffset(0)))
         == "2024-01-15T00:00:00.000+0000"
  {
    ZeroMillisAndOffset();
    MidJanuaryFields(".000+0000");
    MidJanuaryText(".000+0000");
  }

  /** Midnight of 2024-01-01, written as the filter writes it. */
  lemma NewYearStamp()
    ensures FormatZulu(DateTime(Date(2024, 1, 1), TimeOfDay(0, 0, 0), 0, 0)) == "2024-01-01T00:00:00Z"
  {
    NewYearFields("Z");
    NewYearText();
  }

  lemma NewYearFields(tail: string)
    ensures RenderDateTime(Date(2024, 1, 1), TimeOfDay(0, 0, 0), tail)
         == "2024" + ("-" + ("01" + ("-" + ("01" + ("T" + ("00" + (":" + ("00" + (":" + ("00" + tail))))))))))
  {
    NewYearPads();
  }

  lemma NewYearText()
    ensures "2024" + ("-" + ("01" + ("-" + ("01" + ("T" + ("00" + (":" + ("00" + (":" + ("00" + "Z"))))))))))
         == "2024-01-01T00:00:00Z"
  {
  }

  /**
   * The whole-second value `2024-01-15T00:00:00Z` is rejected, but the same
   * instant as Salesforce writes it, with milliseconds and a numeric offset,
   * filters from `2024-01-01T00:00:00Z`.
   */
  lemma MidJanuaryExample()
    ensures Query("Account", Some("2024-01-15T00:00:00.000+0000"))
         == Success(BaseQuery("Account") + LookbackFilter + "2024-01-01T00:00:00Z" + OrderAndLimit)
  {
    var dt := DateTime(Date(2024, 1, 15), TimeOfDay(0, 0, 0), 0, 0);
    var e := DateTime(Date(2024, 1, 1), TimeOfDay(0, 0, 0), 0, 0);
    assert Pow10(3) == 1000;
    assert TwoWeeksBefore(dt) == Success(e);
    MidJanuaryMillis();
    QueryOfShortFractionBookmark("Account", Date(2024, 1, 15), TimeOfDay(0, 0, 0), 3, 0, 0);
    NewYearStamp();
  }

  // ---------------------------------------------------------------- the link stream

  /** The ContentDocumentLink rows of one parent object type. */
  class ContentDocumentLinksStream {
    const source: string
    const client: SalesforceStream

    constructor (config: map<string, string>, source: string, login: map<string, Option<string>> -> Session)
      ensures this.source == source
      ensures fresh(client) && client.config == config && client.Valid()
      ensures client.accessToken == login(client.GetCredentials()).token
      ensures client.instanceUrl == SchemePrefix + login(client.GetCredentials()).host
    {
      this.source := source;
      client := new SalesforceStream(config, login);
    }

    /** The stream name: the fixed prefix followed by the source, as it is. */
    function Name(): (r: string)
      ensures |r| == |NamePrefix| + |source|
      ensures r[..|NamePrefix|] == NamePrefix && r[|NamePrefix|..] == source
    {
      NamePrefix + source
    }

    /**
     * The URL parameters: the base parameters with `q` set to the query, or
     * the error raised when the starting value cannot be used.
     */
    method GetUrlParams(baseParams: map<string, string>, start: Option<string>)
      returns (r: Result<map<string, string>, TimeError>)
      ensures r.Failure? <==> Query(source, start).Failure?
      ensures r.Failure? ==> r.error == Query(source, start).error
      ensures r.Success? ==> r.value == baseParams[QueryKey := Query(source, start).value]
    {
      var params := baseParams;
      params := params[QueryKey := BaseQuery(source)];
      if start.Some? {
        QueryFromClause(source, start.value);
        var clause := LookbackClause(start.value);
        if clause.Failure? {
          return Failure(clause.error);
        }
        params := params[QueryKey := params[QueryKey] + clause.value];
      }
      params := params[QueryKey := params[QueryKey] + OrderAndLimit];
      return Success(params);
    }

    /**
     * The request: with a next-page token the URL is the instance URL followed
     * by the token, otherwise the stream's own URL; the method, the parameters
     * (`q` included), the headers and the payload are the same either way.
     */
    method PrepareRequest(
      restMethod: string, url: string, baseParams: map<string, string>, start: Option<string>,
      payload: Option<Record>, baseHeaders: map<string, string>, nextPageToken: Option<string>)
      returns (r: Result<Request, TimeError>)
      ensures r.Failure? <==> Query(source, start).Failure?
      ensures r.Failure? ==> r.error == Query(source, start).error
      ensures r.Success? ==> r.value.url == if nextPageToken.Some? then client.instanceUrl + nextPageToken.value else url
      ensures r.Success? ==> r.value.verb == restMethod && r.value.payload == payload
      ensures r.Success? ==> r.value.params == baseParams[QueryKey := Query(source, start).value]
      ensures r.Success? ==> r.value.headers.Keys == baseHeaders.Keys + {AuthorizationKey}
      ensures r.Success? ==> r.value.headers[AuthorizationKey] == Bearer(client.accessToken)
      ensures r.Success? ==> forall k :: k in baseHeaders && k != AuthorizationKey ==> r.value.headers[k] == baseHeaders[k]
    {
      var requestUrl := url;
      var params := GetUrlParams(baseParams, start);
      if params.Failure? {
        return Failure(params.error);
      }
      var headers := client.HttpHeaders(baseHeaders);
      if nextPageToken.Some? {
        requestUrl := client.instanceUrl + nextPageToken.value;
      }
      return Success(Request(restMethod, requestUrl, params.value, headers, payload));
    }

    /** The context handed to the child streams: the parent's ContentDocumentId and nothing else. */
    static function GetChildContext(record: Record): (r: Result<Record, StreamError>)
      ensures r.Success? <==> ContextKey in record
      ensures r.Failure? ==> r.error == MissingKey(ContextKey)
      ensures r.Success? ==> r.value.Keys == {ContextKey} && r.value[ContextKey] == record[ContextKey]
    {
      if ContextKey in record then Success(map[ContextKey := record[ContextKey]])
      else Failure(MissingKey(ContextKey))
    }
  }

  /** Different sources give different stream names, none of them a child stream's name. */
  lemma NamesIdentifySources(a: ContentDocumentLinksStream, b: ContentDocumentLinksStream)
    ensures a.Name() == b.Name() <==> a.source == b.source
    ensures a.Name() != ContentNotesName && a.Name() != ContentNoteContentsName
  {
    if a.Name() == b.Name() {
      assert a.source == a.Name()[|NamePrefix|..];
    }
  }

  // ---------------------------------------------------------------- the child streams

  /** The link query and the note paths, which are built on `NotePathPrefix`, are requests to the same API version. */
  lemma StreamPathsShareApiVersion()
    ensures QueryAllPath == ApiRoot + "queryAll"
    ensures NotePathPrefix == ApiRoot + "sobjects/ContentNote/"
  {
  }

  /** Both child paths are note paths whose placeholder is the key of the child context. */
  lemma ChildPathsUseContextKey()
    ensures ContentNotesPath == NotePathPrefix + "{" + ContextKey + "}"
    ensures ContentNoteContentsPath == ContentNotesPath + "/Content"
  {
  }

  /**
   * A note body response: always one row, whose Content is the body text on
   * 200 and null on any other status.
   */
  function ParseContentResponse(response: Response): (rows: seq<Record>)
    ensures |rows| == 1 && rows[0].Keys == {ContentKey}
    ensures rows[0][ContentKey] != Null <==> response.status == StatusOk
    ensures response.status == StatusOk ==> rows[0][ContentKey] == Str(response.text)
  {
    [map[ContentKey := if response.status == StatusOk then Str(response.text) else Null]]
  }

  /**
   * Post-processing of a note body row: a row with null Content is dropped;
   * any other is kept with ContentDocumentId set from the context (null when
   * the context lacks it) and every other field as it was.  A row without
   * Content, or a missing context, is an error.
   */
  function ProcessedContentRow(row: Record, context: Option<Record>): (r: Result<Option<Record>, StreamError>)
    ensures ContentKey !in row ==> r == Failure(MissingKey(ContentKey))
    ensures ContentKey in row && row[ContentKey] == Null ==> r == Success(None)
    ensures ContentKey in row && row[ContentKey] != Null && context.None? ==> r == Failure(NoContext)
    ensures ContentKey in row && row[ContentKey] != Null && context.Some? ==> r.Success? && r.value.Some?
    ensures r.Success? && r.value.Some? ==>
      && ContentKey in row && row[ContentKey] != Null && context.Some?
      && r.value.value.Keys == row.Keys + {ContextKey}
      && (forall k :: k in row && k != ContextKey ==> r.value.value[k] == row[k])
      && r.value.value[ContextKey] == (if ContextKey in context.value then context.value[ContextKey] else Null)
  {
    if ContentKey !in row then Failure(MissingKey(ContentKey))
    else if row[ContentKey] == Null then Success(None)
    else if context.None? then Failure(NoContext)
    else
      var id := match Get(context.value, ContextKey) case Some(v) => v case None => Null;
      Success(Some(row[ContextKey := id]))
  }

  /** `post_process`, which sets ContentDocumentId on the row it is given. */
  method PostProcess(row: Record, context: Option<Record>) returns (r: Result<Option<Record>, StreamError>)
    ensures r == ProcessedContentRow(row, context)
  {
    if ContentKey !in row {
      return Failure(MissingKey(ContentKey));
    }
    if row[ContentKey] == Null {
      return Success(None);
    }
    if context.None? {
      return Failure(NoContext);
    }
    var tagged := row;
    tagged := tagged[ContextKey := match Get(context.value, ContextKey) case Some(v) => v case None => Null];
    return Success(Some(tagged));
  }

  /** A note response: no rows unless the status is 200, then the rows the base extraction finds. */
  function ParseNotesResponse(response: Response, extract: Response -> seq<Record>): (rows: seq<Record>)
    ensures response.status != StatusOk ==> rows == []
    ensures response.status == StatusOk ==> rows == extract(response)
  {
    if response.status == StatusOk then extract(response) else []
  }

  // ---------------------------------------------------------------- end to end

  /** A 404 on a note body passes validation and emits no row, whatever the context. */
  lemma NotFoundContentEmitsNothing(response: Response, baseValidate: Response -> Outcome<ApiError>, context: Option<Record>)
    requires response.status == StatusNotFound
    ensures SalesforceStream.ValidateResponse(response, baseValidate) == Pass
    ensures forall row :: row in ParseContentResponse(response) ==> ProcessedContentRow(row, context) == Success(None)
  {
  }

  /** A 404 on a note passes validation and yields no row. */
  lemma NotFoundNoteEmitsNothing(response: Response, baseValidate: Response -> Outcome<ApiError>, extract: Response -> seq<Record>)
    requires response.status == StatusNotFound
    ensures SalesforceStream.ValidateResponse(response, baseValidate) == Pass
    ensures ParseNotesResponse(response, extract) == []
  {
  }

  /**
   * A note body fetched for a link emits one row: the body text tagged with
   * the link's ContentDocumentId, and nothing else.
   */
  lemma BodyRowCarriesParentId(parent: Record, response: Response)
    requires ContextKey in parent && response.status == StatusOk
    ensures var context := ContentDocumentLinksStream.GetChildContext(parent);
      && context.Success?
      && ProcessedContentRow(ParseContentResponse(response)[0], Some(context.value))
         == Success(Some(map[ContentKey := Str(response.text), ContextKey := parent[ContextKey]]))
  {
    var context := ContentDocumentLinksStream.GetChildContext(parent).value;
    var row := ParseContentResponse(response)[0];
    var expected := map[ContentKey := Str(response.text), ContextKey := parent[ContextKey]];
    var r := ProcessedContentRow(row, Some(context)).value.value;
    assert r.Keys == expected.Keys;
    assert r[ContentKey] == expected[ContentKey];
    assert r[ContextKey] == expected[ContextKey];
  }
}
