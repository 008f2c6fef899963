/** The payload and the record of the weather service's tests, worked through the model. */
module WeatherExamples {
  import opened Wrappers
  import opened Text
  import opened Weather

  const LondonPayload := ApiResponse(
    Some("London"),
    Some(SysBlock(Some("GB"))),
    Some(MainBlock(Some(15.5), Some(14.2), Some(65), Some(1013))),
    Some([ConditionBlock(Some("clear sky"))]),
    Some(WindBlock(Some(3.5))),
    Some(10000.0))

  /** The mapped record keeps the description as sent and turns 10000 m of visibility into 10 km. */
  lemma LondonRecord()
    ensures ToRecord(LondonPayload, "metric") == Success(WeatherRecord(
      "London", "GB", 15.5, 14.2, 65, 1013, "clear sky", 3.5, Some(10.0), "metric"))
  {
  }

  /** A payload without a "sys" block is reported by that key. */
  lemma LondonWithoutSys()
    ensures ToRecord(LondonPayload.(sys := None), "metric") == Failure(KeyError("sys"))
  {
  }

  /** A plain exception from the HTTP layer is not re-worded: only `requests` failures get the prefix. */
  lemma PlainExceptionPassesThrough(key: string)
    ensures GetWeather(WeatherService(key, (c, k, u) => OtherFailure("API Error")), "London") == Failure("API Error")
  {
  }

  lemma RequestFailureIsPrefixed(key: string)
    ensures GetWeather(WeatherService(key, (c, k, u) => RequestFailed("timeout")), "London")
      == Failure("Failed to fetch weather data: timeout")
  {
    assert FetchFailedPrefix + "timeout" == "Failed to fetch weather data: timeout";
  }

  const LondonRecordValue := WeatherRecord("London", "GB", 15.5, 14.2, 65, 1013, "clear sky", 3.5, Some(10.0), "metric")

  lemma SixtyFive() ensures IntToString(65) + "%" == "65%" {
    assert NatToString(6) == "6";
    assert NatToString(65) == NatToString(6) + [DigitChar(5)];
  }

  lemma TitleSky() ensures TitleFrom(" sky", true) == " Sky" {
    assert TitleFrom("sky", false) == "Sky";
    assert " sky"[1..] == "sky";
  }

  lemma TitleArSky() ensures TitleFrom("ar sky", true) == "ar Sky" {
    TitleSky();
    assert TitleFrom("r sky", true) == "r Sky" by {
      assert "r sky"[1..] == " sky";
    }
    assert "ar sky"[1..] == "r sky";
  }

  lemma TitleLearSky() ensures TitleFrom("lear sky", true) == "lear Sky" {
    TitleArSky();
    assert TitleFrom("ear sky", true) == "ear Sky" by {
      assert "ear sky"[1..] == "ar sky";
    }
    assert "lear sky"[1..] == "ear sky";
  }

  lemma ClearSky() ensures Title("clear sky") == "Clear Sky" {
    TitleLearSky();
    assert "clear sky"[1..] == "lear sky";
  }

  /** The report shows the city, "15.5°C", "65%" and the title-cased "Clear Sky". */
  lemma LondonReport(render: real -> string)
    requires render(15.5) == "15.5"
    ensures Contains(FormatReport(LondonRecordValue, render), "London")
    ensures Contains(FormatReport(LondonRecordValue, render), "15.5\U{B0}C")
    ensures Contains(FormatReport(LondonRecordValue, render), "65%")
    ensures Contains(FormatReport(LondonRecordValue, render), "Clear Sky")
  {
    FormatReportMentions(LondonRecordValue, render);
    assert UnitSymbol("metric") == Celsius;
    assert "15.5" + Celsius == "15.5\U{B0}C";
    SixtyFive();
    ClearSky();
  }
}
